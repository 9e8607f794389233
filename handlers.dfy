/**
  The four tool handlers and the workspace resource: narrowing the loosely
  typed arguments, building the client requests, calling the client, and
  shaping what it answers. Each handler reports its outcome together with the
  trace of client calls it made.
*/
module Handlers {
  import opened Wrappers
  import opened Blocks
  import opened Protocol
  import opened Notion
  import opened Convert
  import Strings
  import Markdown
  import MarkdownDocuments

  /** What a tool returns; the text of each content item is the JSON encoding of its output. */
  datatype Output =
    | SearchOutput(objectType: string, results: seq<NotionItem>, hasMore: bool, nextCursor: string)
    | PageOutput(page: PageResult)
    | BlocksOutput(objectType: string, blocks: seq<BlockItem>)
    | WorkspaceOutput(totalPages: nat, totalDatabases: nat, recentItems: seq<NotionItem>)

  /** A content item of type "text". */
  datatype Content = TextContent(output: Output)

  datatype ToolResult = ToolResult(content: seq<Content>, isError: bool)

  /** A handler's outcome: a result, an error, or a failed type assertion (a Go panic). */
  datatype HandlerOutcome = Done(result: ToolResult) | Failed(error: string) | Panicked(reason: string)

  datatype HandlerRun = HandlerRun(outcome: HandlerOutcome, calls: seq<ClientCall>)

  function Answer(output: Output): HandlerOutcome {
    Done(ToolResult([TextContent(output)], false))
  }

  // ---------------------------------------------------------------- arguments

  predicate HasString(args: map<string, Value>, key: string) {
    key in args && args[key].Str?
  }

  /** The argument as a string when it is one, else the fallback. */
  function StringOr(args: map<string, Value>, key: string, fallback: string): string {
    if HasString(args, key) then args[key].s else fallback
  }

  /** The argument as a map when it is one, else the empty map (a nil map enumerates nothing). */
  function ObjectOr(args: map<string, Value>, key: string): map<string, Value> {
    if key in args && args[key].Object? then args[key].fields else map[]
  }

  // ---------------------------------------------------------------- search

  datatype SearchParams = SearchParams(
    query: string, filter: string, sortBy: string, sortOrder: string, startCursor: string, pageSize: int)

  /** The search arguments: strings where strings are given, the page size only from a JSON number. */
  function SearchParamsOf(args: map<string, Value>, defaultPageSize: int): SearchParams {
    SearchParams(
      StringOr(args, "query", ""), StringOr(args, "filter", ""), StringOr(args, "sortBy", ""),
      StringOr(args, "sortOrder", ""), StringOr(args, "startCursor", ""),
      if "pageSize" in args && args["pageSize"].Number? then args["pageSize"].n else defaultPageSize)
  }

  /** The page size comes from a JSON number argument, and from the configured default otherwise, including when it is a Go int. */
  lemma SearchPageSize(args: map<string, Value>, defaultPageSize: int)
    ensures "pageSize" in args && args["pageSize"].Number? ==> SearchParamsOf(args, defaultPageSize).pageSize == args["pageSize"].n
    ensures !("pageSize" in args && args["pageSize"].Number?) ==> SearchParamsOf(args, defaultPageSize).pageSize == defaultPageSize
  {
  }

  /**
    The search request: a filter on the object type only for "page" and
    "database", a sort on the last edit only when both its field and its order
    are given, descending only for "descending".
  */
  function BuildSearchRequest(p: SearchParams): (r: SearchRequest)
    ensures r.query == p.query && r.startCursor == p.startCursor && r.pageSize == p.pageSize
    ensures r.filter.Some? <==> p.filter == ObjectPage || p.filter == ObjectDatabase
    ensures r.filter.Some? ==> r.filter.value == SearchFilter("object", p.filter)
    ensures r.sort.Some? <==> p.sortBy != "" && p.sortOrder != ""
    ensures r.sort.Some? ==> (r.sort.value.timestamp == TimestampLastEdited
      && (r.sort.value.direction == Descending <==> p.sortOrder == "descending"))
  {
    var filter :=
      if p.filter == ObjectPage then Some(SearchFilter("object", ObjectPage))
      else if p.filter == ObjectDatabase then Some(SearchFilter("object", ObjectDatabase))
      else None;
    var sort :=
      if p.sortBy != "" && p.sortOrder != "" then
        Some(Sort(if p.sortOrder == "descending" then Descending else Ascending, TimestampLastEdited))
      else None;
    SearchRequest(p.query, sort, filter, p.startCursor, p.pageSize)
  }

  /** The search tool: one search call, its results converted in order, or its error wrapped. */
  function HandleSearch(client: Client, defaultPageSize: int, args: map<string, Value>): (run: HandlerRun)
    ensures run.calls == [SearchCall(BuildSearchRequest(SearchParamsOf(args, defaultPageSize)))]
    ensures var answer := client.search(BuildSearchRequest(SearchParamsOf(args, defaultPageSize)));
      && (answer.Err? ==> run.outcome == Failed("failed to search Notion: " + answer.message))
      && (answer.Ok? ==> (run.outcome.Done? && |run.outcome.result.content| == 1
            && run.outcome.result.content[0].output
                 == SearchOutput(answer.value.objectType, ConvertItems(answer.value.results),
                                 answer.value.hasMore, answer.value.nextCursor)))
  {
    var request := BuildSearchRequest(SearchParamsOf(args, defaultPageSize));
    var outcome :=
      match client.search(request)
      case Err(e) => Failed("failed to search Notion: " + e)
      case Ok(r) => Answer(SearchOutput(r.objectType, ConvertItems(r.results), r.hasMore, r.nextCursor));
    HandlerRun(outcome, [SearchCall(request)])
  }

  // ---------------------------------------------------------------- page properties

  /** The string-valued entries of a property argument, as rich-text values; the others are dropped. */
  function StringProperties(props: map<string, Value>): (r: map<string, PropertyValue>)
    ensures forall k :: k in r <==> HasString(props, k)
    ensures forall k :: HasString(props, k) ==> r[k] == RichTextValue(props[k].s)
  {
    map k | k in props && props[k].Str? :: RichTextValue(props[k].s)
  }

  /**
    The properties of a page creation: the title, then every string property
    on top of it, so that a string property named "title" replaces the title.
  */
  function CreateProperties(title: string, props: map<string, Value>): (r: map<string, PropertyValue>)
    ensures forall k :: k in r <==> k == "title" || HasString(props, k)
    ensures forall k :: HasString(props, k) ==> r[k] == RichTextValue(props[k].s)
    ensures !HasString(props, "title") ==> r["title"] == TitleValue(title)
  {
    map["title" := TitleValue(title)] + StringProperties(props)
  }

  /** The properties of a page update: the title only when it is not empty, then every string property. */
  function UpdateProperties(title: string, props: map<string, Value>): (r: map<string, PropertyValue>)
    ensures forall k :: k in r <==> (k == "title" && title != "") || HasString(props, k)
    ensures forall k :: HasString(props, k) ==> r[k] == RichTextValue(props[k].s)
    ensures title != "" && !HasString(props, "title") ==> r["title"] == TitleValue(title)
  {
    (if title != "" then map["title" := TitleValue(title)] else map[]) + StringProperties(props)
  }

  /**
    The property loop of page creation and update: every string-valued entry of
    the property argument is written over the map built so far, in whatever
    order the map is enumerated; the other entries are skipped.
  */
  method AddStringProperties(initial: map<string, PropertyValue>, props: map<string, Value>)
    returns (result: map<string, PropertyValue>)
    ensures result == initial + StringProperties(props)
  {
    result := initial;
    var pending := props.Keys;
    while pending != {}
      invariant pending <= props.Keys
      invariant forall k :: k in result <==> k in initial || (HasString(props, k) && k !in pending)
      invariant forall k :: k in result ==>
        result[k] == if HasString(props, k) && k !in pending then RichTextValue(props[k].s) else initial[k]
      decreases |pending|
    {
      var key :| key in pending;
      if props[key].Str? {
        result := result[key := RichTextValue(props[key].s)];
      }
      pending := pending - {key};
    }
    assert result.Keys == (initial + StringProperties(props)).Keys;
  }

  // ---------------------------------------------------------------- page content

  /** The blocks of page content for create and update: one paragraph holding the whole text. */
  function ContentBlocks(content: string): (blocks: seq<Block>)
    ensures |blocks| == 1 && blocks[0].TypeName() == "paragraph" && blocks[0].Text() == content
  {
    [Paragraph(content)]
  }

  /** The block types the append tool builds a block of; any other type gives a paragraph. */
  const AppendBlockTypes: set<string> := {
    "heading_1", "heading_2", "heading_3", "bulleted_list_item", "numbered_list_item",
    "to_do", "code", "quote", "callout"}

  /** The block the append tool builds: of the requested type when it knows it, else a paragraph; always holding the whole text. */
  function BlockFor(content: string, blockType: string): (b: Block)
    ensures b.TypeName() == (if blockType in AppendBlockTypes then blockType else "paragraph")
    ensures b.Text() == content
    ensures b.ToDo? ==> !b.checked
    ensures b.Code? ==> b.language == PlainTextLanguage
    ensures b.Callout? ==> b.emoji == CalloutEmoji
  {
    match blockType
    case "heading_1" => Heading1(content)
    case "heading_2" => Heading2(content)
    case "heading_3" => Heading3(content)
    case "bulleted_list_item" => BulletedListItem(content)
    case "numbered_list_item" => NumberedListItem(content)
    case "to_do" => ToDo(content, false)
    case "code" => Code(content, PlainTextLanguage)
    case "quote" => Quote(content)
    case "callout" => Callout(content, CalloutEmoji)
    case _ => Paragraph(content)
  }

  /** The blocks the append tool sends: exactly one. */
  function TypedContentBlocks(content: string, blockType: string): (blocks: seq<Block>)
    ensures |blocks| == 1 && blocks[0] == BlockFor(content, blockType)
  {
    [BlockFor(content, blockType)]
  }

  // ---------------------------------------------------------------- create

  /** The icon argument is a map that lacks a string type, emoji or URL (the key is missing or not a string): reading it panics. */
  predicate IconPanics(args: map<string, Value>) {
    "icon" in args && args["icon"].Object?
    && !(HasString(args["icon"].fields, "type") && HasString(args["icon"].fields, "emoji")
         && HasString(args["icon"].fields, "url"))
  }

  /** The cover argument is a map that lacks a string type or URL (the key is missing or not a string): reading it panics. */
  predicate CoverPanics(args: map<string, Value>) {
    "cover" in args && args["cover"].Object?
    && !(HasString(args["cover"].fields, "type") && HasString(args["cover"].fields, "url"))
  }

  /** The emoji of an icon argument of type "emoji"; icons of any other type, and icons not given as maps, are dropped. */
  function EmojiIcon(args: map<string, Value>): (r: Option<string>)
    requires !IconPanics(args)
    ensures r.Some? <==> "icon" in args && args["icon"].Object? && args["icon"].fields["type"].s == "emoji"
    ensures r.Some? ==> r.value == args["icon"].fields["emoji"].s
  {
    if "icon" in args && args["icon"].Object? && args["icon"].fields["type"].s == "emoji"
    then Some(args["icon"].fields["emoji"].s)
    else None
  }

  /** The URL of a cover argument given as a map, whatever its type; other covers are dropped. */
  function ExternalCover(args: map<string, Value>): (r: Option<string>)
    requires !CoverPanics(args)
    ensures r.Some? <==> "cover" in args && args["cover"].Object?
    ensures r.Some? ==> r.value == args["cover"].fields["url"].s
  {
    if "cover" in args && args["cover"].Object? then Some(args["cover"].fields["url"].s) else None
  }

  /** The creation request for arguments holding a parent id and a title. */
  function CreateRequest(args: map<string, Value>): PageCreateRequest
    requires HasString(args, "parentId") && HasString(args, "title")
    requires !IconPanics(args) && !CoverPanics(args)
  {
    PageCreateRequest(args["parentId"].s, CreateProperties(args["title"].s, ObjectOr(args, "properties")),
                      EmojiIcon(args), ExternalCover(args))
  }

  /**
    After a page was created or updated: its content, when there is any, is
    appended as one paragraph, and a failed append is only logged.
  */
  function AppendContentCalls(pageId: string, content: string): seq<ClientCall> {
    if content != "" then [AppendCall(pageId, ContentBlocks(content))] else []
  }

  function HandleCreatePage(client: Client, args: map<string, Value>): HandlerRun {
    if !HasString(args, "parentId") then HandlerRun(Failed("parentId is required"), [])
    else if !HasString(args, "title") then HandlerRun(Failed("title is required"), [])
    else if IconPanics(args) then HandlerRun(Panicked("interface conversion: icon field is not a string"), [])
    else if CoverPanics(args) then HandlerRun(Panicked("interface conversion: cover field is not a string"), [])
    else
      var request := CreateRequest(args);
      match client.createPage(request)
      case Err(e) => HandlerRun(Failed("failed to create Notion page: " + e), [CreateCall(request)])
      case Ok(page) =>
        HandlerRun(Answer(PageOutput(ConvertPage(page))),
                   [CreateCall(request)] + AppendContentCalls(page.id, StringOr(args, "content", "")))
  }

  // ---------------------------------------------------------------- update

  /** The update request: the archived flag is sent as given, and as false when it is not given as a boolean. */
  function UpdateRequest(args: map<string, Value>): PageUpdateRequest {
    PageUpdateRequest(UpdateProperties(StringOr(args, "title", ""), ObjectOr(args, "properties")),
                      "archived" in args && args["archived"].Bool? && args["archived"].b)
  }

  function HandleUpdatePage(client: Client, args: map<string, Value>): HandlerRun {
    if !HasString(args, "pageId") then HandlerRun(Failed("pageId is required"), [])
    else
      var pageId := args["pageId"].s;
      var request := UpdateRequest(args);
      match client.updatePage(pageId, request)
      case Err(e) => HandlerRun(Failed("failed to update Notion page: " + e), [UpdateCall(pageId, request)])
      case Ok(page) =>
        HandlerRun(Answer(PageOutput(ConvertPage(page))),
                   [UpdateCall(pageId, request)] + AppendContentCalls(page.id, StringOr(args, "content", "")))
  }

  // ---------------------------------------------------------------- append

  function HandleAppendBlock(client: Client, args: map<string, Value>): HandlerRun {
    if !HasString(args, "pageId") then HandlerRun(Failed("pageId is required"), [])
    else if !HasString(args, "content") then HandlerRun(Failed("content is required"), [])
    else
      var pageId := args["pageId"].s;
      var blocks := TypedContentBlocks(args["content"].s, StringOr(args, "blockType", "paragraph"));
      match client.appendChildren(pageId, blocks)
      case Err(e) => HandlerRun(Failed("failed to append blocks: " + e), [AppendCall(pageId, blocks)])
      case Ok(r) => HandlerRun(Answer(BlocksOutput(r.objectType, ConvertBlocks(r.results))), [AppendCall(pageId, blocks)])
  }

  // ---------------------------------------------------------------- workspace

  /** The number of results whose object type is `kind`. */
  function CountKind(results: seq<Object>, kind: string): nat {
    if |results| == 0 then 0
    else CountKind(results[..|results| - 1], kind) + (if results[|results| - 1].Kind() == kind then 1 else 0)
  }

  /** The workspace summary of a list of search results. */
  function WorkspaceOf(results: seq<Object>): Output {
    WorkspaceOutput(CountKind(results, ObjectPage), CountKind(results, ObjectDatabase), ConvertItems(results))
  }

  /** Pages and databases are counted apart, so together they never outnumber the items listed. */
  lemma {:induction false} WorkspaceCountsBounded(results: seq<Object>)
    ensures var w := WorkspaceOf(results); w.totalPages + w.totalDatabases <= |w.recentItems|
  {
    CountsBounded(results);
  }

  lemma {:induction false} CountsBounded(results: seq<Object>)
    ensures CountKind(results, ObjectPage) + CountKind(results, ObjectDatabase) <= |results|
    decreases |results|
  {
    if |results| > 0 {
      CountsBounded(results[..|results| - 1]);
    }
  }

  /** One more result counts once, towards its own kind. */
  lemma CountKindNext(results: seq<Object>, i: nat, kind: string)
    requires i < |results|
    ensures CountKind(results[..i + 1], kind) == CountKind(results[..i], kind) + (if results[i].Kind() == kind then 1 else 0)
  {
    assert results[..i + 1][..i] == results[..i];
  }

  /** The workspace summary, folded over the results one at a time. */
  method FoldWorkspace(results: seq<Object>) returns (summary: Output)
    ensures summary == WorkspaceOf(results)
  {
    var totalPages: nat := 0;
    var totalDatabases: nat := 0;
    var recentItems: seq<NotionItem> := [];
    for i := 0 to |results|
      invariant totalPages == CountKind(results[..i], ObjectPage)
      invariant totalDatabases == CountKind(results[..i], ObjectDatabase)
      invariant recentItems == ConvertItems(results[..i])
    {
      CountKindNext(results, i, ObjectPage);
      CountKindNext(results, i, ObjectDatabase);
      ConvertItemsNext(results, i);
      recentItems := recentItems + [ConvertItem(results[i])];
      if results[i].Kind() == ObjectPage {
        totalPages := totalPages + 1;
      } else if results[i].Kind() == ObjectDatabase {
        totalDatabases := totalDatabases + 1;
      }
    }
    assert results[..|results|] == results;
    summary := WorkspaceOutput(totalPages, totalDatabases, recentItems);
  }

  /** The search the workspace resource makes: no query, filter, sort or cursor, up to 100 results. */
  const WorkspaceSearch := SearchRequest("", None, None, "", 100)

  datatype ResourceRun = ResourceRun(outcome: Outcome<seq<Content>>, calls: seq<ClientCall>)

  /** The workspace resource: one search, summarised, or its error wrapped. */
  function ReadWorkspace(client: Client): (run: ResourceRun)
    ensures run.calls == [SearchCall(WorkspaceSearch)]
    ensures client.search(WorkspaceSearch).Ok? ==>
      run.outcome == Ok([TextContent(WorkspaceOf(client.search(WorkspaceSearch).value.results))])
    ensures client.search(WorkspaceSearch).Err? ==>
      run.outcome == Err("failed to get workspace info: " + client.search(WorkspaceSearch).message)
  {
    var outcome :=
      match client.search(WorkspaceSearch)
      case Err(e) => Err("failed to get workspace info: " + e)
      case Ok(r) => Ok([TextContent(WorkspaceOf(r.results))]);
    ResourceRun(outcome, [SearchCall(WorkspaceSearch)])
  }

  // ---------------------------------------------------------------- properties of the handlers

  /** Creating checks the parent id, then the title, before anything else and before any client call. */
  lemma CreateChecksRequiredFirst(client: Client, args: map<string, Value>)
    ensures !HasString(args, "parentId") ==> HandleCreatePage(client, args) == HandlerRun(Failed("parentId is required"), [])
    ensures HasString(args, "parentId") && !HasString(args, "title") ==>
      HandleCreatePage(client, args) == HandlerRun(Failed("title is required"), [])
    ensures HasString(args, "parentId") && HasString(args, "title") && !IconPanics(args) && !CoverPanics(args) ==>
      |HandleCreatePage(client, args).calls| >= 1
  {
  }

  /** Updating checks the page id before any client call. */
  lemma UpdateChecksRequiredFirst(client: Client, args: map<string, Value>)
    ensures !HasString(args, "pageId") ==> HandleUpdatePage(client, args) == HandlerRun(Failed("pageId is required"), [])
    ensures HasString(args, "pageId") ==> |HandleUpdatePage(client, args).calls| >= 1
  {
  }

  /** Appending checks the page id, then the content, before any client call. */
  lemma AppendChecksRequiredFirst(client: Client, args: map<string, Value>)
    ensures !HasString(args, "pageId") ==> HandleAppendBlock(client, args) == HandlerRun(Failed("pageId is required"), [])
    ensures HasString(args, "pageId") && !HasString(args, "content") ==>
      HandleAppendBlock(client, args) == HandlerRun(Failed("content is required"), [])
    ensures HasString(args, "pageId") && HasString(args, "content") ==> |HandleAppendBlock(client, args).calls| >= 1
  {
  }

  /**
    Creating panics exactly when the required arguments are there but the icon
    map lacks a string type, emoji or URL, or the cover map a string type or URL,
    whether the key is missing or not a string.
  */
  lemma CreatePanicsOnlyOnMalformedIconOrCover(client: Client, args: map<string, Value>)
    ensures HandleCreatePage(client, args).outcome.Panicked? <==>
      HasString(args, "parentId") && HasString(args, "title") && (IconPanics(args) || CoverPanics(args))
    ensures HandleCreatePage(client, args).outcome.Panicked? ==> HandleCreatePage(client, args).calls == []
  {
  }

  /**
    An icon of either declared type must carry all three keys: an emoji icon
    without a URL, or an external icon without an emoji, makes creation panic
    before any call.
  */
  lemma IconWithoutAllKeysPanics(client: Client, args: map<string, Value>, emoji: string, url: string)
    requires HasString(args, "parentId") && HasString(args, "title")
    requires "icon" in args
    requires args["icon"] == Object(map["type" := Str("emoji"), "emoji" := Str(emoji)])
          || args["icon"] == Object(map["type" := Str("external"), "url" := Str(url)])
    ensures HandleCreatePage(client, args).outcome.Panicked?
    ensures HandleCreatePage(client, args).calls == []
  {
    assert IconPanics(args);
  }

  /**
    A well-formed creation sends one create request under the given parent page,
    always with a title property; on success the page is returned whatever the
    content append answers, and on failure nothing is appended.
  */
  lemma CreateSendsRequestThenContent(client: Client, args: map<string, Value>)
    requires HasString(args, "parentId") && HasString(args, "title")
    requires !IconPanics(args) && !CoverPanics(args)
    ensures var request := CreateRequest(args);
      var run := HandleCreatePage(client, args);
      && request.parentPageId == args["parentId"].s
      && "title" in request.properties
      && (!HasString(ObjectOr(args, "properties"), "title") ==> request.properties["title"] == TitleValue(args["title"].s))
      && (client.createPage(request).Err? ==>
            run == HandlerRun(Failed("failed to create Notion page: " + client.createPage(request).message), [CreateCall(request)]))
      && (client.createPage(request).Ok? ==>
            && run.outcome == Answer(PageOutput(ConvertPage(client.createPage(request).value)))
            && run.calls == [CreateCall(request)]
                 + (if StringOr(args, "content", "") != ""
                    then [AppendCall(client.createPage(request).value.id, [Paragraph(args["content"].s)])]
                    else []))
  {
  }

  /**
    Updating sends one update request for the given page; on failure the
    provider's message is wrapped, and on success the updated page is
    answered and a non-empty content is appended to it as one paragraph.
  */
  lemma UpdateSendsRequestThenContent(client: Client, args: map<string, Value>)
    requires HasString(args, "pageId")
    ensures var pageId := args["pageId"].s;
      var request := UpdateRequest(args);
      var run := HandleUpdatePage(client, args);
      && (client.updatePage(pageId, request).Err? ==>
            run == HandlerRun(Failed("failed to update Notion page: " + client.updatePage(pageId, request).message),
                              [UpdateCall(pageId, request)]))
      && (client.updatePage(pageId, request).Ok? ==>
            && run.outcome == Answer(PageOutput(ConvertPage(client.updatePage(pageId, request).value)))
            && run.calls == [UpdateCall(pageId, request)]
                 + (if StringOr(args, "content", "") != ""
                    then [AppendCall(client.updatePage(pageId, request).value.id, [Paragraph(args["content"].s)])]
                    else []))
  {
  }

  /**
    Appending sends exactly one block, of the requested type (a paragraph by
    default), holding the whole content; the provider's error is wrapped and
    its appended blocks are answered in order.
  */
  lemma AppendSendsOneBlock(client: Client, args: map<string, Value>)
    requires HasString(args, "pageId") && HasString(args, "content")
    ensures var pageId := args["pageId"].s;
      var blocks := [BlockFor(args["content"].s, StringOr(args, "blockType", "paragraph"))];
      var run := HandleAppendBlock(client, args);
      && run.calls == [AppendCall(pageId, blocks)]
      && (client.appendChildren(pageId, blocks).Err? ==>
            run.outcome == Failed("failed to append blocks: " + client.appendChildren(pageId, blocks).message))
      && (client.appendChildren(pageId, blocks).Ok? ==>
            run.outcome == Answer(BlocksOutput(client.appendChildren(pageId, blocks).value.objectType,
                                               ConvertBlocks(client.appendChildren(pageId, blocks).value.results))))
  {
  }

  /** A string property named "title" replaces the title in the create request. */
  lemma TitlePropertyOverridesTitle(title: string, props: map<string, Value>)
    requires HasString(props, "title")
    ensures CreateProperties(title, props)["title"] == RichTextValue(props["title"].s)
    ensures CreateProperties(title, props)["title"] != TitleValue(title)
  {
  }

  /** Only an icon of type "emoji" is sent; an icon of type "external" is dropped. */
  lemma OnlyEmojiIconsSent(args: map<string, Value>)
    requires !IconPanics(args)
    requires "icon" in args && args["icon"].Object? && args["icon"].fields["type"].s != "emoji"
    ensures EmojiIcon(args) == None
  {
  }

  /** An update always sends the archived flag: true only for a boolean true argument, so leaving it out sends false. */
  lemma UpdateAlwaysSendsArchived(args: map<string, Value>)
    ensures UpdateRequest(args).archived <==> "archived" in args && args["archived"] == Bool(true)
  {
  }

  /** An update sends the title property only for a non-empty title (or a string property named "title"). */
  lemma UpdateTitleOnlyWhenGiven(args: map<string, Value>)
    ensures "title" in UpdateRequest(args).properties <==>
      StringOr(args, "title", "") != "" || HasString(ObjectOr(args, "properties"), "title")
  {
  }

  /** Appending without a string block type appends one paragraph holding the content. */
  lemma AppendDefaultsToParagraph(client: Client, args: map<string, Value>)
    requires HasString(args, "pageId") && HasString(args, "content") && !HasString(args, "blockType")
    ensures HandleAppendBlock(client, args).calls == [AppendCall(args["pageId"].s, [Paragraph(args["content"].s)])]
  {
  }

  /** The search tool sends a JSON-number page size unchanged, whatever its value: the declared bounds are not enforced. */
  lemma SearchPageSizeUnchecked(client: Client, defaultPageSize: int, args: map<string, Value>, n: int)
    requires "pageSize" in args && args["pageSize"] == Number(n)
    ensures HandleSearch(client, defaultPageSize, args).calls[0].request.pageSize == n
  {
  }

  /**
    Page content is not read as Markdown: a heading, a blank line and a line of
    text are sent as one paragraph, where the Markdown lexer finds a heading and
    a paragraph.
  */
  lemma ContentIsNotMarkdown(title: string, body: string)
    requires '\n' !in title && '\n' !in body
    requires title == [] || title[|title| - 1] != '\r'
    requires |body| > 0 && !Strings.IsSpace(body[0]) && !Markdown.IsDigit(body[0]) && body[0] !in {'#', '-', '*', '>', '`'}
    requires body[|body| - 1] != '\r'
    ensures var content := "# " + title + "\n\n" + body;
      && ContentBlocks(content) == [Paragraph(content)]
      && Markdown.MarkdownBlocks(content) == [Heading1(Strings.TrimSpace(title)), Paragraph(body)]
  {
    MarkdownDocuments.HeadingThenParagraph(title, body);
  }
}
