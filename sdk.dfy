/**
  The SDK: the setters on the shared configuration, the argument maps its
  operations build, and its calls of the server's tool router.
*/
module Sdk {
  import opened Wrappers
  import opened Blocks
  import opened Protocol
  import opened Config
  import opened Notion
  import opened Catalog
  import opened Handlers
  import opened Dispatch

  // ---------------------------------------------------------------- configuration

  /** The page size setter's rule: only sizes from 1 to 100 are taken. */
  function WithPageSize(c: Settings, size: int): Settings {
    if 0 < size <= 100 then c.(defaultPageSize := size) else c
  }

  /** The timeout setter's rule: only positive timeouts are taken. */
  function WithTimeout(c: Settings, seconds: int): Settings {
    if seconds > 0 then c.(timeout := seconds) else c
  }

  /** The retry setter's rule: only positive counts are taken. */
  function WithMaxRetries(c: Settings, retries: int): Settings {
    if retries > 0 then c.(maxRetries := retries) else c
  }

  /** Each setter changes its own field, exactly when the value is in range, and nothing else. */
  lemma SettersGuarded(c: Settings, v: int)
    ensures WithPageSize(c, v) != c <==> 0 < v <= 100 && v != c.defaultPageSize
    ensures WithPageSize(c, v) == c.(defaultPageSize := WithPageSize(c, v).defaultPageSize)
    ensures WithTimeout(c, v) != c <==> v > 0 && v != c.timeout
    ensures WithTimeout(c, v) == c.(timeout := WithTimeout(c, v).timeout)
    ensures WithMaxRetries(c, v) != c <==> v > 0 && v != c.maxRetries
    ensures WithMaxRetries(c, v) == c.(maxRetries := WithMaxRetries(c, v).maxRetries)
  {
  }

  /** A configuration that validation leaves as it is stays so under every setter. */
  lemma SettersKeepValidated(c: Settings, v: int)
    requires Validated(c) == Valid(c)
    ensures Validated(WithPageSize(c, v)) == Valid(WithPageSize(c, v))
    ensures Validated(WithTimeout(c, v)) == Valid(WithTimeout(c, v))
    ensures Validated(WithMaxRetries(c, v)) == Valid(WithMaxRetries(c, v))
  {
  }

  /** A page size from 1 to 100 stays in that range under the page size setter. */
  lemma PageSizeStaysInRange(c: Settings, v: int)
    requires 0 < c.defaultPageSize <= 100
    ensures 0 < WithPageSize(c, v).defaultPageSize <= 100
  {
  }

  /** The page-size setter accepts exactly the range the search tool declares, and ignores any other size. */
  lemma SetterHonoursDeclaredBounds(c: Settings, v: int)
    ensures PageSizeParam.bounds.Between?
    ensures PageSizeParam.bounds.minimum <= v <= PageSizeParam.bounds.maximum ==> WithPageSize(c, v).defaultPageSize == v
    ensures !(PageSizeParam.bounds.minimum <= v <= PageSizeParam.bounds.maximum) ==> WithPageSize(c, v) == c
  {
  }

  /** The SDK object: it holds the configuration object it shares with its server. */
  class NotionSdk {
    const config: Configuration

    constructor (config: Configuration)
      ensures this.config == config
    {
      this.config := config;
    }

    method SetDefaultPageSize(size: int)
      modifies config
      ensures config.Snapshot() == WithPageSize(old(config.Snapshot()), size)
    {
      if size > 0 && size <= 100 {
        config.defaultPageSize := size;
      }
    }

    method SetTimeout(seconds: int)
      modifies config
      ensures config.Snapshot() == WithTimeout(old(config.Snapshot()), seconds)
    {
      if seconds > 0 {
        config.timeout := seconds;
      }
    }

    method SetMaxRetries(retries: int)
      modifies config
      ensures config.Snapshot() == WithMaxRetries(old(config.Snapshot()), retries)
    {
      if retries > 0 {
        config.maxRetries := retries;
      }
    }
  }

  /** Setting the page size to 25, the timeout to 60 and the retries to 5 leaves exactly those values, and the rest as it was. */
  method ConfigureLimits(sdk: NotionSdk)
    modifies sdk.config
    ensures sdk.config.defaultPageSize == 25 && sdk.config.timeout == 60 && sdk.config.maxRetries == 5
    ensures sdk.config.notionToken == old(sdk.config.notionToken)
    ensures sdk.config.serverName == old(sdk.config.serverName) && sdk.config.serverVersion == old(sdk.config.serverVersion)
  {
    sdk.SetDefaultPageSize(25);
    sdk.SetTimeout(60);
    sdk.SetMaxRetries(5);
  }

  // ---------------------------------------------------------------- argument maps

  datatype IconParams = IconParams(kind: string, emoji: string, url: string)
  datatype CoverParams = CoverParams(kind: string, url: string)

  /** The creation parameters; a nil property map, icon or cover is `None`. */
  datatype CreatePageParams = CreatePageParams(
    parentId: string, title: string, content: string,
    properties: Option<map<string, Value>>, icon: Option<IconParams>, cover: Option<CoverParams>)

  datatype UpdatePageParams = UpdatePageParams(
    pageId: string, title: string, content: string,
    properties: Option<map<string, Value>>, archived: Option<bool>)

  datatype AppendBlockParams = AppendBlockParams(pageId: string, content: string, blockType: string)

  /** An icon placed in the arguments: a pointer to the SDK's icon struct. */
  function IconArgument(i: IconParams): Value {
    GoStruct(map["type" := Str(i.kind), "emoji" := Str(i.emoji), "url" := Str(i.url)])
  }

  /** A cover placed in the arguments: a pointer to the SDK's cover struct. */
  function CoverArgument(c: CoverParams): Value {
    GoStruct(map["type" := Str(c.kind), "url" := Str(c.url)])
  }

  function SearchArgs(p: SearchParams): map<string, Value> {
    var args := map["pageSize" := GoInt(p.pageSize)];
    var args := if p.query != "" then args["query" := Str(p.query)] else args;
    var args := if p.filter != "" then args["filter" := Str(p.filter)] else args;
    var args := if p.sortBy != "" then args["sortBy" := Str(p.sortBy)] else args;
    var args := if p.sortOrder != "" then args["sortOrder" := Str(p.sortOrder)] else args;
    if p.startCursor != "" then args["startCursor" := Str(p.startCursor)] else args
  }

  function CreateArgs(p: CreatePageParams): map<string, Value> {
    var args := map["parentId" := Str(p.parentId), "title" := Str(p.title)];
    var args := if p.content != "" then args["content" := Str(p.content)] else args;
    var args := if p.properties.Some? then args["properties" := Object(p.properties.value)] else args;
    var args := if p.icon.Some? then args["icon" := IconArgument(p.icon.value)] else args;
    if p.cover.Some? then args["cover" := CoverArgument(p.cover.value)] else args
  }

  function UpdateArgs(p: UpdatePageParams): map<string, Value> {
    var args := map["pageId" := Str(p.pageId)];
    var args := if p.title != "" then args["title" := Str(p.title)] else args;
    var args := if p.content != "" then args["content" := Str(p.content)] else args;
    var args := if p.properties.Some? then args["properties" := Object(p.properties.value)] else args;
    if p.archived.Some? then args["archived" := Bool(p.archived.value)] else args
  }

  function AppendArgs(p: AppendBlockParams): map<string, Value> {
    var args := map["pageId" := Str(p.pageId), "content" := Str(p.content)];
    if p.blockType != "" then args["blockType" := Str(p.blockType)] else args
  }

  /** The search arguments: the page size always, as a Go int; each string option only when it is not empty. */
  lemma SearchArgsKeys(p: SearchParams)
    ensures var args := SearchArgs(p);
      && "pageSize" in args && args["pageSize"] == GoInt(p.pageSize)
      && ("query" in args <==> p.query != "") && ("filter" in args <==> p.filter != "")
      && ("sortBy" in args <==> p.sortBy != "") && ("sortOrder" in args <==> p.sortOrder != "")
      && ("startCursor" in args <==> p.startCursor != "")
      && args.Keys <= {"pageSize", "query", "filter", "sortBy", "sortOrder", "startCursor"}
  {
  }

  /** The update arguments hold the archived flag exactly when it is set, and the append arguments the block type exactly when it is not empty. */
  lemma OptionalArgsKeys(u: UpdatePageParams, a: AppendBlockParams)
    ensures "archived" in UpdateArgs(u) <==> u.archived.Some?
    ensures u.archived.Some? ==> UpdateArgs(u)["archived"] == Bool(u.archived.value)
    ensures "blockType" in AppendArgs(a) <==> a.blockType != ""
    ensures "pageId" in UpdateArgs(u) && "pageId" in AppendArgs(a) && "content" in AppendArgs(a)
  {
  }

  /** The search arguments, built by inserting each given option into a fresh map. */
  method BuildSearchArgs(p: SearchParams) returns (args: map<string, Value>)
    ensures args == SearchArgs(p)
  {
    args := map["pageSize" := GoInt(p.pageSize)];
    if p.query != "" {
      args := args["query" := Str(p.query)];
    }
    if p.filter != "" {
      args := args["filter" := Str(p.filter)];
    }
    if p.sortBy != "" {
      args := args["sortBy" := Str(p.sortBy)];
    }
    if p.sortOrder != "" {
      args := args["sortOrder" := Str(p.sortOrder)];
    }
    if p.startCursor != "" {
      args := args["startCursor" := Str(p.startCursor)];
    }
  }

  /** The creation arguments, built the same way. */
  method BuildCreateArgs(p: CreatePageParams) returns (args: map<string, Value>)
    ensures args == CreateArgs(p)
  {
    args := map["parentId" := Str(p.parentId), "title" := Str(p.title)];
    if p.content != "" {
      args := args["content" := Str(p.content)];
    }
    if p.properties.Some? {
      args := args["properties" := Object(p.properties.value)];
    }
    if p.icon.Some? {
      args := args["icon" := IconArgument(p.icon.value)];
    }
    if p.cover.Some? {
      args := args["cover" := CoverArgument(p.cover.value)];
    }
  }

  /** The update arguments, built the same way. */
  method BuildUpdateArgs(p: UpdatePageParams) returns (args: map<string, Value>)
    ensures args == UpdateArgs(p)
  {
    args := map["pageId" := Str(p.pageId)];
    if p.title != "" {
      args := args["title" := Str(p.title)];
    }
    if p.content != "" {
      args := args["content" := Str(p.content)];
    }
    if p.properties.Some? {
      args := args["properties" := Object(p.properties.value)];
    }
    if p.archived.Some? {
      args := args["archived" := Bool(p.archived.value)];
    }
  }

  /** The append arguments, built the same way. */
  method BuildAppendArgs(p: AppendBlockParams) returns (args: map<string, Value>)
    ensures args == AppendArgs(p)
  {
    args := map["pageId" := Str(p.pageId), "content" := Str(p.content)];
    if p.blockType != "" {
      args := args["blockType" := Str(p.blockType)];
    }
  }

  // ---------------------------------------------------------------- what the server makes of the SDK's arguments

  /**
    The server reads back every search option the SDK sends except the page
    size: a Go int is not a JSON number, so the configured default is used.
  */
  lemma SearchArgsRoundTrip(p: SearchParams, defaultPageSize: int)
    ensures SearchParamsOf(SearchArgs(p), defaultPageSize) == p.(pageSize := defaultPageSize)
  {
  }

  /**
    The server creates the page the SDK asks for, under its parent, with its
    title and string properties; the icon and cover, sent as structs rather
    than maps, never panic and are dropped.
  */
  lemma CreateArgsRoundTrip(p: CreatePageParams)
    ensures var args := CreateArgs(p);
      && HasString(args, "parentId") && HasString(args, "title") && !IconPanics(args) && !CoverPanics(args)
      && CreateRequest(args) == PageCreateRequest(p.parentId,
           CreateProperties(p.title, if p.properties.Some? then p.properties.value else map[]), None, None)
      && StringOr(args, "content", "") == p.content
  {
  }

  /** The server updates the page the SDK names; the archived flag it sends is true only when the SDK sets it true. */
  lemma UpdateArgsRoundTrip(p: UpdatePageParams)
    ensures var args := UpdateArgs(p);
      && HasString(args, "pageId") && args["pageId"].s == p.pageId
      && UpdateRequest(args) == PageUpdateRequest(
           UpdateProperties(p.title, if p.properties.Some? then p.properties.value else map[]),
           p.archived == Some(true))
      && StringOr(args, "content", "") == p.content
  {
    var args := UpdateArgs(p);
    assert StringOr(args, "title", "") == p.title;
    assert ObjectOr(args, "properties") == if p.properties.Some? then p.properties.value else map[];
    assert ("archived" in args && args["archived"].Bool? && args["archived"].b) == (p.archived == Some(true));
  }

  /** The server appends one block of the SDK's type, a paragraph when the type is empty. */
  lemma AppendArgsRoundTrip(p: AppendBlockParams)
    ensures var args := AppendArgs(p);
      && HasString(args, "pageId") && HasString(args, "content")
      && TypedContentBlocks(args["content"].s, StringOr(args, "blockType", "paragraph"))
           == [BlockFor(p.content, if p.blockType != "" then p.blockType else "paragraph")]
  {
  }

  // ---------------------------------------------------------------- calling the server

  /** What an SDK call returns: the tool's result, an error, or the server's panic. */
  datatype SdkResult = Success(result: ToolResult) | Failure(message: string) | Panic(reason: string)

  datatype SdkRun = SdkRun(result: SdkResult, calls: seq<ClientCall>)

  /** The request the SDK sends for a tool call: id 1, method "tools/call", the call itself as params. */
  function ToolCallRequest(call: ToolCall): Request {
    Request("2.0", GoInt(1), "tools/call", CallParams(call))
  }

  /** A tool call through the server: an error response becomes "tool call failed: <message>". */
  function CallTool(settings: Settings, client: Client, codec: Codec, call: ToolCall): SdkRun {
    var x := HandleRequest(settings, client, codec, ToolCallRequest(call));
    match x.reply
    case Crashed(reason) => SdkRun(Panic(reason), x.calls)
    case Answered(response) =>
      match response.body
      case Error(e) => SdkRun(Failure("tool call failed: " + e.message), x.calls)
      case Result(ToolOutput(r)) => SdkRun(Success(r), x.calls)
      case Result(_) => SdkRun(Failure("invalid tool result format"), x.calls)
  }

  /**
    A tool call through the server yields the handler's result, or its error
    wrapped, or an unknown tool's -32601 message wrapped; the JSON codec is never used.
  */
  lemma CallToolOutcome(settings: Settings, client: Client, codec: Codec, call: ToolCall)
    ensures call.name !in ToolNames ==>
      CallTool(settings, client, codec, call) == SdkRun(Failure("tool call failed: Tool '" + call.name + "' not found"), [])
    ensures call.name in ToolNames ==>
      var run := RunTool(settings, client, call).value;
      && CallTool(settings, client, codec, call).calls == run.calls
      && (run.outcome.Done? ==> CallTool(settings, client, codec, call).result == Success(run.outcome.result))
      && (run.outcome.Failed? ==> CallTool(settings, client, codec, call).result == Failure("tool call failed: " + run.outcome.error))
  {
    var req := ToolCallRequest(call);
    assert CallOf(codec, req) == call;
    if call.name in ToolNames {
      ToolOutcomeMapping(settings, client, codec, req);
    } else {
      UnknownTool(settings, client, codec, req);
      assert "tool call failed: " + ("Tool '" + call.name + "' not found")
        == "tool call failed: Tool '" + call.name + "' not found";
    }
  }

  /** The server's answer to a tool call is never a result of the wrong kind. */
  lemma CallToolResultWellFormed(settings: Settings, client: Client, codec: Codec, call: ToolCall)
    ensures CallTool(settings, client, codec, call).result != Failure("invalid tool result format")
  {
    var x := HandleRequest(settings, client, codec, ToolCallRequest(call));
    if x.reply.Answered? && x.reply.response.body.Result? {
      assert x.reply.response.body.value.ToolOutput?;
    }
  }

  function Search(settings: Settings, client: Client, codec: Codec, p: SearchParams): SdkRun {
    CallTool(settings, client, codec, ToolCall(SearchTool, SearchArgs(p)))
  }

  function CreatePage(settings: Settings, client: Client, codec: Codec, p: CreatePageParams): SdkRun {
    CallTool(settings, client, codec, ToolCall(CreatePageTool, CreateArgs(p)))
  }

  function UpdatePage(settings: Settings, client: Client, codec: Codec, p: UpdatePageParams): SdkRun {
    CallTool(settings, client, codec, ToolCall(UpdatePageTool, UpdateArgs(p)))
  }

  function AppendBlock(settings: Settings, client: Client, codec: Codec, p: AppendBlockParams): SdkRun {
    CallTool(settings, client, codec, ToolCall(AppendBlockTool, AppendArgs(p)))
  }

  /** An SDK search asks the client for the configured page size, whatever page size it was given. */
  lemma SdkSearchIgnoresPageSize(settings: Settings, client: Client, codec: Codec, p: SearchParams)
    ensures Search(settings, client, codec, p).calls
      == [SearchCall(BuildSearchRequest(p.(pageSize := settings.defaultPageSize)))]
  {
    SearchArgsRoundTrip(p, settings.defaultPageSize);
    CallToolOutcome(settings, client, codec, ToolCall(SearchTool, SearchArgs(p)));
  }

  /** An SDK page creation never panics, and never sends an icon or a cover. */
  lemma SdkCreateDropsIconAndCover(settings: Settings, client: Client, codec: Codec, p: CreatePageParams)
    ensures !CreatePage(settings, client, codec, p).result.Panic?
    ensures |CreatePage(settings, client, codec, p).calls| >= 1
    ensures CreatePage(settings, client, codec, p).calls[0]
      == CreateCall(PageCreateRequest(p.parentId,
           CreateProperties(p.title, if p.properties.Some? then p.properties.value else map[]), None, None))
  {
    CreateArgsRoundTrip(p);
    CallToolOutcome(settings, client, codec, ToolCall(CreatePageTool, CreateArgs(p)));
  }

  // ---------------------------------------------------------------- convenience calls

  /** The block type of a heading level: levels 1 to 3 give their heading, any other level a level-1 heading. */
  function HeadingBlockType(level: int): string
  {
    match level
    case 1 => "heading_1"
    case 2 => "heading_2"
    case 3 => "heading_3"
    case _ => "heading_1"
  }

  function QuickAppendHeading(settings: Settings, client: Client, codec: Codec, pageId: string, content: string, level: int): SdkRun {
    AppendBlock(settings, client, codec, AppendBlockParams(pageId, content, HeadingBlockType(level)))
  }

  /** A quick heading appends one heading block of the level's size holding the content. */
  lemma QuickAppendHeadingBlock(settings: Settings, client: Client, codec: Codec, pageId: string, content: string, level: int)
    ensures QuickAppendHeading(settings, client, codec, pageId, content, level).calls
      == [AppendCall(pageId, [if level == 2 then Heading2(content) else if level == 3 then Heading3(content) else Heading1(content)])]
  {
    var p := AppendBlockParams(pageId, content, HeadingBlockType(level));
    AppendArgsRoundTrip(p);
    CallToolOutcome(settings, client, codec, ToolCall(AppendBlockTool, AppendArgs(p)));
  }

  /** The quick search: the query, with the configured page size. */
  function QuickSearchParams(settings: Settings, query: string): SearchParams {
    SearchParams(query, "", "", "", "", settings.defaultPageSize)
  }

  /** The quick page creation: parent, title and content, nothing else. */
  function QuickCreatePageParams(parentId: string, title: string, content: string): CreatePageParams {
    CreatePageParams(parentId, title, content, None, None, None)
  }

  /** A quick search sends just the query, with the configured page size and no filter, sort or cursor. */
  lemma QuickSearchRequest(settings: Settings, client: Client, codec: Codec, query: string)
    ensures Search(settings, client, codec, QuickSearchParams(settings, query)).calls
      == [SearchCall(SearchRequest(query, None, None, "", settings.defaultPageSize))]
  {
    var p := QuickSearchParams(settings, query);
    SdkSearchIgnoresPageSize(settings, client, codec, p);
    assert BuildSearchRequest(p.(pageSize := settings.defaultPageSize))
      == SearchRequest(query, None, None, "", settings.defaultPageSize);
  }

  /** A quick page creation creates the page under its parent with the title as its only property. */
  lemma QuickCreatePageRequest(settings: Settings, client: Client, codec: Codec, parentId: string, title: string, content: string)
    ensures var calls := CreatePage(settings, client, codec, QuickCreatePageParams(parentId, title, content)).calls;
      |calls| >= 1 && calls[0] == CreateCall(PageCreateRequest(parentId, map["title" := TitleValue(title)], None, None))
  {
    SdkCreateDropsIconAndCover(settings, client, codec, QuickCreatePageParams(parentId, title, content));
    assert StringProperties(map[]) == map[];
    assert CreateProperties(title, map[]) == map["title" := TitleValue(title)];
  }

  /** The block type each quick append uses. */
  const QuickAppendTypes: seq<string> :=
    ["paragraph", "code", "quote", "callout", "to_do", "bulleted_list_item", "numbered_list_item"]

  /** Each quick append appends one block of its own type holding the content. */
  lemma QuickAppendsUseTheirType(settings: Settings, client: Client, codec: Codec, pageId: string, content: string, i: int)
    requires 0 <= i < |QuickAppendTypes|
    ensures var calls := AppendBlock(settings, client, codec, AppendBlockParams(pageId, content, QuickAppendTypes[i])).calls;
      |calls| == 1 && calls[0].AppendCall? && |calls[0].children| == 1
      && calls[0].children[0].TypeName() == QuickAppendTypes[i] && calls[0].children[0].Text() == content
  {
    var p := AppendBlockParams(pageId, content, QuickAppendTypes[i]);
    AppendArgsRoundTrip(p);
    CallToolOutcome(settings, client, codec, ToolCall(AppendBlockTool, AppendArgs(p)));
  }
}
