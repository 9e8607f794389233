/**
  The catalogs checked against the code that serves them: the tool names
  against the router's switch, the declared required fields against the
  handlers' checks, and the declared enumerations against what the handlers
  recognise.
*/
module CatalogChecks {
  import opened Wrappers
  import opened Blocks
  import opened Protocol
  import opened Config
  import opened Notion
  import opened Catalog
  import opened Handlers
  import opened Dispatch

  /** Every tool in the catalog is routed to a handler, and every routed name is in the catalog. */
  lemma CatalogMatchesRouter(settings: Settings, client: Client, call: ToolCall)
    ensures RunTool(settings, client, call).Some? <==> exists t :: t in Tools() && t.name == call.name
  {
    ToolNamesDistinct();
  }

  /** Some declared required field is missing or not a string. */
  predicate MissingRequired(t: Tool, args: map<string, Value>) {
    MissingFrom(t.required, args)
  }

  /** Some field of a list is missing or not a string. */
  predicate MissingFrom(required: seq<string>, args: map<string, Value>) {
    exists r :: r in required && !HasString(args, r)
  }

  /** The first declared required field that is missing or not a string. */
  function FirstMissing(required: seq<string>, args: map<string, Value>): string {
    if |required| == 0 then ""
    else if !HasString(args, required[0]) then required[0]
    else FirstMissing(required[1..], args)
  }

  /** The run of a tool on some arguments. */
  function RunOf(settings: Settings, client: Client, t: Tool, args: map<string, Value>): HandlerRun
    requires t in Tools()
  {
    ToolNamesDistinct();
    RunTool(settings, client, ToolCall(t.name, args)).value
  }

  /**
    The declared required fields are exactly the handlers' checks: when one is
    missing, the handler fails naming the first of them and calls nothing;
    when all are there, the handler calls the client (unless creation panics
    on a malformed icon or cover).
  */
  lemma RequiredFieldsMatchHandlers(settings: Settings, client: Client, t: Tool, args: map<string, Value>)
    requires t in Tools()
    ensures MissingRequired(t, args) ==>
      RunOf(settings, client, t, args) == HandlerRun(Failed(FirstMissing(t.required, args) + " is required"), [])
    ensures !MissingRequired(t, args) && !(t.name == CreatePageTool && (IconPanics(args) || CoverPanics(args))) ==>
      |RunOf(settings, client, t, args).calls| >= 1
  {
    var i :| 0 <= i < 4 && Tools()[i] == t;
    if i == 0 {
      assert t.required == [];
    } else if i == 1 {
      RequiredCreate(settings, client, t, args);
    } else if i == 2 {
      RequiredUpdate(settings, client, t, args);
    } else {
      RequiredAppend(settings, client, t, args);
    }
  }

  /** The catalog's create, update and append tools run their handlers. */
  lemma RunOfCreate(settings: Settings, client: Client, args: map<string, Value>)
    ensures RunOf(settings, client, Tools()[1], args) == HandleCreatePage(client, args)
  {
    assert Tools()[1].name == CreatePageTool;
  }

  lemma RunOfUpdate(settings: Settings, client: Client, args: map<string, Value>)
    ensures RunOf(settings, client, Tools()[2], args) == HandleUpdatePage(client, args)
  {
    assert Tools()[2].name == UpdatePageTool;
  }

  lemma RunOfAppend(settings: Settings, client: Client, args: map<string, Value>)
    ensures RunOf(settings, client, Tools()[3], args) == HandleAppendBlock(client, args)
  {
    assert Tools()[3].name == AppendBlockTool;
  }

  lemma RequiredCreate(settings: Settings, client: Client, t: Tool, args: map<string, Value>)
    requires t == Tools()[1]
    ensures MissingRequired(t, args) ==>
      RunOf(settings, client, t, args) == HandlerRun(Failed(FirstMissing(t.required, args) + " is required"), [])
    ensures !MissingRequired(t, args) && !(IconPanics(args) || CoverPanics(args)) ==>
      |RunOf(settings, client, t, args).calls| >= 1
  {
    assert t.required == ["parentId", "title"];
    RunOfCreate(settings, client, args);
    CreateRequiredChecks(client, args);
  }

  /** The create handler's required-field checks, against the list "parentId", "title". */
  lemma CreateRequiredChecks(client: Client, args: map<string, Value>)
    ensures MissingFrom(["parentId", "title"], args) ==>
      HandleCreatePage(client, args) == HandlerRun(Failed(FirstMissing(["parentId", "title"], args) + " is required"), [])
    ensures !MissingFrom(["parentId", "title"], args) && !(IconPanics(args) || CoverPanics(args)) ==>
      |HandleCreatePage(client, args).calls| >= 1
  {
    CreateChecksRequiredFirst(client, args);
    if !HasString(args, "parentId") {
      assert FirstMissing(["parentId", "title"], args) == "parentId";
      assert "parentId" + " is required" == "parentId is required";
    } else if !HasString(args, "title") {
      assert FirstMissing(["parentId", "title"], args) == FirstMissing(["title"], args) == "title";
      assert "title" + " is required" == "title is required";
    } else {
      forall r | r in ["parentId", "title"] ensures HasString(args, r) {
      }
    }
  }

  lemma RequiredUpdate(settings: Settings, client: Client, t: Tool, args: map<string, Value>)
    requires t == Tools()[2]
    ensures MissingRequired(t, args) ==>
      RunOf(settings, client, t, args) == HandlerRun(Failed(FirstMissing(t.required, args) + " is required"), [])
    ensures !MissingRequired(t, args) ==> |RunOf(settings, client, t, args).calls| >= 1
  {
    assert t.required == ["pageId"];
    RunOfUpdate(settings, client, args);
    UpdateRequiredChecks(client, args);
  }

  /** The update handler's required-field check, against the list "pageId". */
  lemma UpdateRequiredChecks(client: Client, args: map<string, Value>)
    ensures MissingFrom(["pageId"], args) ==>
      HandleUpdatePage(client, args) == HandlerRun(Failed(FirstMissing(["pageId"], args) + " is required"), [])
    ensures !MissingFrom(["pageId"], args) ==> |HandleUpdatePage(client, args).calls| >= 1
  {
    UpdateChecksRequiredFirst(client, args);
    if !HasString(args, "pageId") {
      assert FirstMissing(["pageId"], args) == "pageId";
      assert "pageId" + " is required" == "pageId is required";
    } else {
      forall r | r in ["pageId"] ensures HasString(args, r) {
      }
    }
  }

  lemma RequiredAppend(settings: Settings, client: Client, t: Tool, args: map<string, Value>)
    requires t == Tools()[3]
    ensures MissingRequired(t, args) ==>
      RunOf(settings, client, t, args) == HandlerRun(Failed(FirstMissing(t.required, args) + " is required"), [])
    ensures !MissingRequired(t, args) ==> |RunOf(settings, client, t, args).calls| >= 1
  {
    assert t.required == ["pageId", "content"];
    RunOfAppend(settings, client, args);
    AppendRequiredChecks(client, args);
  }

  /** The append handler's required-field checks, against the list "pageId", "content". */
  lemma AppendRequiredChecks(client: Client, args: map<string, Value>)
    ensures MissingFrom(["pageId", "content"], args) ==>
      HandleAppendBlock(client, args) == HandlerRun(Failed(FirstMissing(["pageId", "content"], args) + " is required"), [])
    ensures !MissingFrom(["pageId", "content"], args) ==> |HandleAppendBlock(client, args).calls| >= 1
  {
    AppendChecksRequiredFirst(client, args);
    if !HasString(args, "pageId") {
      assert FirstMissing(["pageId", "content"], args) == "pageId";
      assert "pageId" + " is required" == "pageId is required";
    } else if !HasString(args, "content") {
      assert FirstMissing(["pageId", "content"], args) == FirstMissing(["content"], args) == "content";
      assert "content" + " is required" == "content is required";
    } else {
      forall r | r in ["pageId", "content"] ensures HasString(args, r) {
      }
    }
  }

  /**
    A block type yields a block of that type exactly when it is one of the ten
    declared values; every other type, such as "divider", yields a paragraph.
  */
  lemma BlockTypeEnumHandled(content: string, blockType: string)
    ensures BlockFor(content, blockType).TypeName() == blockType <==> blockType in BlockTypeEnum
    ensures blockType !in BlockTypeEnum ==> BlockFor(content, blockType) == Paragraph(content)
  {
    assert blockType in BlockTypeEnum <==> blockType == "paragraph" || blockType in AppendBlockTypes;
    var b := BlockFor(content, blockType);
    if blockType !in BlockTypeEnum {
      assert b.TypeName() == "paragraph";
      assert b.Paragraph?;
    }
  }

  /** The declared filter values are the only ones that filter the search. */
  lemma FilterEnumRecognised(p: SearchParams)
    ensures BuildSearchRequest(p).filter.Some? <==> p.filter in FilterEnum
    ensures p.filter in FilterEnum ==> BuildSearchRequest(p).filter == Some(SearchFilter("object", p.filter))
  {
  }

  /**
    With a sort field given, each declared order sorts in its own direction;
    an undeclared order sorts ascending; the field's value is never read, the
    sort is always on the declared last-edited time.
  */
  lemma SortEnumsRecognised(p: SearchParams)
    requires p.sortBy != "" && p.sortOrder != ""
    ensures BuildSearchRequest(p).sort.Some?
    ensures BuildSearchRequest(p).sort.value.timestamp == SortByEnum[0]
    ensures p.sortOrder == SortOrderEnum[0] ==> BuildSearchRequest(p).sort.value.direction == Ascending
    ensures p.sortOrder == SortOrderEnum[1] ==> BuildSearchRequest(p).sort.value.direction == Descending
    ensures p.sortOrder !in SortOrderEnum ==> BuildSearchRequest(p).sort.value.direction == Ascending
  {
  }

  /** Of the declared icon types, only the first ("emoji") reaches the create request. */
  lemma IconEnumPartlyHonoured(args: map<string, Value>)
    requires "icon" in args && args["icon"].Object? && !IconPanics(args)
    ensures EmojiIcon(args).Some? <==> args["icon"].fields["type"].s == IconTypeEnum[0]
  {
  }

  /** The cover's declared type is never read: a cover of an undeclared type is sent all the same. */
  lemma CoverEnumNotChecked(args: map<string, Value>)
    requires "cover" in args && args["cover"].Object? && !CoverPanics(args)
    requires args["cover"].fields["type"].s !in CoverTypeEnum
    ensures ExternalCover(args) == Some(args["cover"].fields["url"].s)
  {
  }

  /** The declared page-size bounds are not enforced: a number outside them is sent as given. */
  lemma PageSizeBoundsNotEnforced(client: Client, defaultPageSize: int, args: map<string, Value>, n: int)
    requires PageSizeParam.bounds.Between?
    requires n < PageSizeParam.bounds.minimum || PageSizeParam.bounds.maximum < n
    requires "pageSize" in args && args["pageSize"] == Number(n)
    ensures HandleSearch(client, defaultPageSize, args).calls[0].request.pageSize == n
  {
    SearchPageSizeUnchecked(client, defaultPageSize, args, n);
  }

  /** Of the resource URIs, the listed one is the only one a read accepts: any other is answered as not found. */
  lemma ResourceCatalogMatchesRead(settings: Settings, client: Client, codec: Codec, req: Request)
    requires req.methodName == "resources/read" && req.params.MapParams?
    requires HasString(req.params.entries, "uri")
    ensures var uri := req.params.entries["uri"].s;
      var x := HandleRequest(settings, client, codec, req);
      (exists r :: r in Resources() && r.uri == uri) <==> x.calls != []
  {
    var uri := req.params.entries["uri"].s;
    if uri == WorkspaceUri {
      assert Resources()[0].uri == uri;
    }
  }
}
