/**
  Request routing: the method switch, the tool switch, the resource switch,
  and the mapping of every failure to a JSON-RPC error in the response envelope.
*/
module Dispatch {
  import opened Wrappers
  import opened Protocol
  import opened Config
  import opened Notion
  import opened Catalog
  import opened Handlers

  /** The protocol revision the server announces. */
  const ProtocolVersion := "2024-11-05"

  /**
    A response's result. The initialization result also carries fixed
    capabilities: tools and resources whose lists never change, and no subscriptions.
  */
  datatype ResultValue =
    | Initialized(protocolVersion: string, serverName: string, serverVersion: string)
    | ToolList(tools: seq<Tool>)
    | ToolOutput(result: ToolResult)
    | ResourceList(resources: seq<Resource>)
    | ResourceContents(contents: seq<Content>)

  /** Exactly one of a result and an error. */
  datatype Body = Result(value: ResultValue) | Error(error: RpcError)

  datatype Response = Response(jsonrpc: string, id: Value, body: Body)

  /** A response, or the panic that ended the request. */
  datatype Reply = Answered(response: Response) | Crashed(reason: string)

  /** What handling a request produced, with the client calls it made in order. */
  datatype Exchange = Exchange(reply: Reply, calls: seq<ClientCall>)

  function Envelope(req: Request, body: Body): Response {
    Response("2.0", req.id, body)
  }

  function Fail(req: Request, code: int, message: string): Exchange {
    Exchange(Answered(Envelope(req, Error(RpcError(code, message)))), [])
  }

  /** The handler a tool name selects, run on the arguments; `None` for a name the switch does not know. */
  function RunTool(settings: Settings, client: Client, call: ToolCall): (r: Option<HandlerRun>)
    ensures r.Some? <==> call.name in ToolNames
  {
    match call.name
    case "notion_search" => Some(HandleSearch(client, settings.defaultPageSize, call.arguments))
    case "notion_create_page" => Some(HandleCreatePage(client, call.arguments))
    case "notion_update_page" => Some(HandleUpdatePage(client, call.arguments))
    case "notion_append_block" => Some(HandleAppendBlock(client, call.arguments))
    case _ => None
  }

  /** The tool call a request carries: a `ToolCall` as it is, anything else through JSON. */
  function DecodeCall(codec: Codec, params: Params): Option<ToolCall> {
    if params.CallParams? then Some(params.call) else codec.toToolCall(params)
  }

  /** The parameter map a request carries: a map as it is, anything else through JSON. */
  function DecodeMap(codec: Codec, params: Params): Option<map<string, Value>> {
    if params.MapParams? then Some(params.entries) else codec.toMap(params)
  }

  function HandleToolsCall(settings: Settings, client: Client, codec: Codec, req: Request): Exchange {
    if req.params.NoParams? then Fail(req, InvalidParams, "Missing params")
    else match DecodeCall(codec, req.params)
      case None => Fail(req, ParseError, ParseErrorMessage)
      case Some(call) =>
        match RunTool(settings, client, call)
        case None => Fail(req, MethodNotFound, "Tool '" + call.name + "' not found")
        case Some(run) =>
          match run.outcome
          case Done(result) => Exchange(Answered(Envelope(req, Result(ToolOutput(result)))), run.calls)
          case Failed(e) => Exchange(Answered(Envelope(req, Error(RpcError(InternalError, e)))), run.calls)
          case Panicked(reason) => Exchange(Crashed(reason), run.calls)
  }

  function HandleResourcesRead(client: Client, codec: Codec, req: Request): Exchange {
    if req.params.NoParams? then Fail(req, InvalidParams, "Missing params")
    else match DecodeMap(codec, req.params)
      case None => Fail(req, ParseError, ParseErrorMessage)
      case Some(params) =>
        if !HasString(params, "uri") then Fail(req, InvalidParams, "Invalid params: uri is required")
        else if params["uri"].s != WorkspaceUri then
          Fail(req, MethodNotFound, "Resource '" + params["uri"].s + "' not found")
        else
          var run := ReadWorkspace(client);
          match run.outcome
          case Ok(contents) => Exchange(Answered(Envelope(req, Result(ResourceContents(contents)))), run.calls)
          case Err(e) => Exchange(Answered(Envelope(req, Error(RpcError(InternalError, e)))), run.calls)
  }

  /**
    A request routed by its method. Every response is a JSON-RPC 2.0 response
    echoing the request's id; only a tool call can end in a panic.
  */
  function HandleRequest(settings: Settings, client: Client, codec: Codec, req: Request): (x: Exchange)
    ensures x.reply.Answered? ==> x.reply.response.jsonrpc == "2.0" && x.reply.response.id == req.id
    ensures x.reply.Crashed? ==> req.methodName == "tools/call"
  {
    match req.methodName
    case "initialize" =>
      Exchange(Answered(Envelope(req, Result(Initialized(ProtocolVersion, settings.serverName, settings.serverVersion)))), [])
    case "tools/list" => Exchange(Answered(Envelope(req, Result(ToolList(Tools())))), [])
    case "tools/call" => HandleToolsCall(settings, client, codec, req)
    case "resources/list" => Exchange(Answered(Envelope(req, Result(ResourceList(Resources())))), [])
    case "resources/read" => HandleResourcesRead(client, codec, req)
    case _ => Fail(req, MethodNotFound, MethodNotFoundMessage)
  }

  /** The methods the router knows. */
  const Methods: set<string> := {"initialize", "tools/list", "tools/call", "resources/list", "resources/read"}

  /** An unknown method is answered with -32601 "Method not found" and makes no client call. */
  lemma UnknownMethod(settings: Settings, client: Client, codec: Codec, req: Request)
    requires req.methodName !in Methods
    ensures HandleRequest(settings, client, codec, req) == Fail(req, MethodNotFound, MethodNotFoundMessage)
  {
  }

  /** Initialization and the two listings answer from the configuration and the catalogs, without calling the client. */
  lemma ListingsCallNothing(settings: Settings, client: Client, codec: Codec, req: Request)
    requires req.methodName in {"initialize", "tools/list", "resources/list"}
    ensures var x := HandleRequest(settings, client, codec, req);
      x.calls == [] && x.reply.Answered? && x.reply.response.body.Result?
    ensures req.methodName == "initialize" ==>
      HandleRequest(settings, client, codec, req).reply.response.body.value
        == Initialized(ProtocolVersion, settings.serverName, settings.serverVersion)
    ensures req.methodName == "tools/list" ==>
      HandleRequest(settings, client, codec, req).reply.response.body.value == ToolList(Tools())
    ensures req.methodName == "resources/list" ==>
      HandleRequest(settings, client, codec, req).reply.response.body.value == ResourceList(Resources())
  {
  }

  /** A tool call or a resource read without params is answered with -32602 "Missing params" and makes no client call. */
  lemma MissingParams(settings: Settings, client: Client, codec: Codec, req: Request)
    requires req.methodName in {"tools/call", "resources/read"} && req.params.NoParams?
    ensures HandleRequest(settings, client, codec, req) == Fail(req, InvalidParams, "Missing params")
  {
  }

  /** Params that do not decode are answered with -32700 "Parse error"; a `ToolCall` or a map given directly never goes through JSON. */
  lemma UndecodableParams(settings: Settings, client: Client, codec: Codec, req: Request)
    requires !req.params.NoParams?
    ensures req.methodName == "tools/call" && codec.toToolCall(req.params).None? && !req.params.CallParams? ==>
      HandleRequest(settings, client, codec, req) == Fail(req, ParseError, ParseErrorMessage)
    ensures req.methodName == "resources/read" && codec.toMap(req.params).None? && !req.params.MapParams? ==>
      HandleRequest(settings, client, codec, req) == Fail(req, ParseError, ParseErrorMessage)
  {
  }

  /** A request whose params are given directly is handled the same whatever the JSON codec does. */
  lemma DirectParamsIgnoreCodec(settings: Settings, client: Client, c1: Codec, c2: Codec, req: Request)
    requires req.params.CallParams? || req.params.MapParams?
    requires req.methodName == "tools/call" ==> req.params.CallParams?
    requires req.methodName == "resources/read" ==> req.params.MapParams?
    ensures HandleRequest(settings, client, c1, req) == HandleRequest(settings, client, c2, req)
  {
  }

  /** The tool call a tools/call request decodes to. */
  function CallOf(codec: Codec, req: Request): ToolCall
    requires req.methodName == "tools/call" && !req.params.NoParams? && DecodeCall(codec, req.params).Some?
  {
    DecodeCall(codec, req.params).value
  }

  /** A tool name outside the catalog is answered with -32601 "Tool '<name>' not found" and makes no client call. */
  lemma UnknownTool(settings: Settings, client: Client, codec: Codec, req: Request)
    requires req.methodName == "tools/call" && !req.params.NoParams? && DecodeCall(codec, req.params).Some?
    requires CallOf(codec, req).name !in ToolNames
    ensures HandleRequest(settings, client, codec, req)
      == Fail(req, MethodNotFound, "Tool '" + CallOf(codec, req).name + "' not found")
  {
  }

  /**
    A known tool's outcome becomes the response: its result as the result,
    its error as -32603 with the error's text, and its calls are the request's calls.
  */
  lemma ToolOutcomeMapping(settings: Settings, client: Client, codec: Codec, req: Request)
    requires req.methodName == "tools/call" && !req.params.NoParams? && DecodeCall(codec, req.params).Some?
    requires CallOf(codec, req).name in ToolNames
    ensures var run := RunTool(settings, client, CallOf(codec, req)).value;
      var x := HandleRequest(settings, client, codec, req);
      && x.calls == run.calls
      && (run.outcome.Done? ==> x.reply == Answered(Envelope(req, Result(ToolOutput(run.outcome.result)))))
      && (run.outcome.Failed? ==> x.reply == Answered(Envelope(req, Error(RpcError(InternalError, run.outcome.error)))))
      && (run.outcome.Panicked? ==> x.reply == Crashed(run.outcome.reason))
  {
  }

  /** A resource read names the workspace, or is answered with -32602 or -32601 and makes no client call. */
  lemma ResourceUriChecks(settings: Settings, client: Client, codec: Codec, req: Request)
    requires req.methodName == "resources/read" && !req.params.NoParams? && DecodeMap(codec, req.params).Some?
    ensures var params := DecodeMap(codec, req.params).value;
      && (!HasString(params, "uri") ==>
            HandleRequest(settings, client, codec, req) == Fail(req, InvalidParams, "Invalid params: uri is required"))
      && (HasString(params, "uri") && params["uri"].s != WorkspaceUri ==>
            HandleRequest(settings, client, codec, req)
              == Fail(req, MethodNotFound, "Resource '" + params["uri"].s + "' not found"))
  {
  }

  /** Reading the workspace makes its one search; its contents or its error (as -32603) form the response. */
  lemma WorkspaceRead(settings: Settings, client: Client, codec: Codec, req: Request)
    requires req.methodName == "resources/read" && !req.params.NoParams? && DecodeMap(codec, req.params).Some?
    requires HasString(DecodeMap(codec, req.params).value, "uri")
    requires DecodeMap(codec, req.params).value["uri"].s == WorkspaceUri
    ensures var x := HandleRequest(settings, client, codec, req);
      && x.calls == [SearchCall(WorkspaceSearch)]
      && match ReadWorkspace(client).outcome
         case Ok(contents) => x.reply == Answered(Envelope(req, Result(ResourceContents(contents))))
         case Err(e) => x.reply == Answered(Envelope(req, Error(RpcError(InternalError, e))))
  {
  }

  /** Every error the router answers with has one of four standard codes. */
  lemma ErrorCodesUsed(settings: Settings, client: Client, codec: Codec, req: Request)
    ensures var x := HandleRequest(settings, client, codec, req);
      x.reply.Answered? && x.reply.response.body.Error? ==>
        x.reply.response.body.error.code in {ParseError, MethodNotFound, InvalidParams, InternalError}
  {
  }
}
