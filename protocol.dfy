/**
  The request/response vocabulary of the server: loosely typed argument
  values, requests and their parameters, protocol errors and the error codes.
*/
module Protocol {
  import opened Wrappers

  /**
    A value of Go's `any` as it reaches the server. A JSON document decodes to
    strings, booleans, numbers, objects, null and arrays; a caller in the same
    process can also put Go values in directly, such as an `int` or a pointer
    to a struct. Only the integral part of a JSON number is modelled.
  */
  datatype Value =
    | Str(s: string)
    | Bool(b: bool)
    | Number(n: int)                      // a decoded JSON number (float64)
    | GoInt(i: int)                       // a Go `int` stored directly
    | Object(fields: map<string, Value>)  // map[string]interface{}
    | GoStruct(fields: map<string, Value>) // a pointer to a Go struct: not a map
    | Null
    | Other                               // arrays and any other Go value

  /** A call of one tool: its name and its loosely typed arguments. */
  datatype ToolCall = ToolCall(name: string, arguments: map<string, Value>)

  /** The `params` of a request, by the Go type it holds. */
  datatype Params =
    | NoParams                                  // nil
    | CallParams(call: ToolCall)                // a ToolCall value
    | MapParams(entries: map<string, Value>)    // map[string]interface{}
    | OtherParams(value: Value)

  /**
    Marshalling `params` to JSON and unmarshalling it into the type a handler
    wants; `None` when either step fails.
  */
  datatype Codec = Codec(
    toToolCall: Params -> Option<ToolCall>,
    toMap: Params -> Option<map<string, Value>>)

  datatype Request = Request(jsonrpc: string, id: Value, methodName: string, params: Params)

  /** Error codes of section 5.1 of the JSON-RPC 2.0 specification, and three in its server range. */
  const ParseError := -32700
  const InvalidRequest := -32600
  const MethodNotFound := -32601
  const InvalidParams := -32602
  const InternalError := -32603
  const ProviderApiError := -32000
  const AuthError := -32001
  const RateLimitError := -32002

  const ParseErrorMessage := "Parse error"
  const InvalidRequestMessage := "Invalid Request"
  const MethodNotFoundMessage := "Method not found"
  const InvalidParamsMessage := "Invalid params"
  const InternalErrorMessage := "Internal error"
  const ProviderApiErrorMessage := "Notion API error"
  const AuthErrorMessage := "Authentication error"
  const RateLimitErrorMessage := "Rate limit exceeded"

  /** The error object of a response. */
  datatype RpcError = RpcError(code: int, message: string)

  /** The package's error type: its text is its message. */
  datatype McpError = McpError(code: int, message: string)
  {
    function Error(): string {
      message
    }
  }

  /** The codes are pairwise distinct; the standard ones are those of the specification, the rest lie in its server range. */
  lemma ErrorCodesFollowJsonRpc()
    ensures |{ParseError, InvalidRequest, MethodNotFound, InvalidParams, InternalError,
              ProviderApiError, AuthError, RateLimitError}| == 8
    ensures -32099 <= RateLimitError < AuthError < ProviderApiError <= -32000
  {
  }
}
