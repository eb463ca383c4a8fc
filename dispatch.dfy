/** The `CallToolRequestSchema` handler: the tool name selects `readApiDocs` or
    `readMultipleApiDocs`; anything thrown inside the try block, including the
    unknown-tool error thrown there, is caught and thrown again as an internal error. */
module ToolDispatch {
  import opened Wrappers
  import opened Text
  import opened ApiDocs
  import opened BatchReport

  /** The two protocol error codes the handler uses (section 5.1 of JSON-RPC 2.0). */
  datatype ErrorCode = MethodNotFound | InternalError {
    /** The prefix the SDK gives the message of an error with this code. */
    function MessagePrefix(): string {
      match this
      case MethodNotFound => "MCP error -32601: "
      case InternalError => "MCP error -32603: "
    }
  }

  /** An MCP protocol error: its code and its `message` property. */
  datatype McpError = McpError(code: ErrorCode, message: string)

  /** `new McpError(code, text)`: the MCP SDK's constructor sets `message` to
      `MCP error <code>: <text>`, with the code in decimal. */
  function NewMcpError(code: ErrorCode, text: string): McpError {
    McpError(code, code.MessagePrefix() + text)
  }

  /** The tool arguments the handler reads (`args.url`, `args.urls`, `args.headers`). */
  datatype Arguments = Arguments(url: string, urls: seq<string>, headers: Option<Headers>)

  const ReadOneTool := "read_api_docs"
  const ReadManyTool := "read_multiple_api_docs"

  /** The try block: dispatch on the tool name, or throw MethodNotFound. `network(i)` answers
      the i-th request the call makes; `read_api_docs` makes one, request 0. */
  function RunTool<J>(name: string, args: Arguments, network: nat -> Request -> FetchOutcome,
                      codec: JsonCodec<J>): Result<ToolResult, McpError>
  {
    if name == ReadOneTool then Success(ReadApiDocs(args.url, args.headers, network(0), codec))
    else if name == ReadManyTool then Success(ReadMultipleApiDocs(args.urls, args.headers, network, codec))
    else Failure(UnknownTool(name))
  }

  /** The error the try block throws for a name that is not a tool. */
  function UnknownTool(name: string): McpError {
    NewMcpError(MethodNotFound, "Unknown tool: " + name)
  }

  /** The handler: the two tools answer with one text item and never fail; every other
      name fails, and the catch turns the MethodNotFound error into an InternalError
      whose message wraps the original one. */
  function CallTool<J>(name: string, args: Arguments, network: nat -> Request -> FetchOutcome,
                       codec: JsonCodec<J>): (r: Result<ToolResult, McpError>)
    ensures name == ReadOneTool ==> r == Success(ReadApiDocs(args.url, args.headers, network(0), codec))
    ensures name == ReadManyTool ==> r == Success(ReadMultipleApiDocs(args.urls, args.headers, network, codec))
    ensures r.Success? ==> |r.value.content| == 1 && r.value.content[0].kind == "text"
    ensures r.Failure? <==> name != ReadOneTool && name != ReadManyTool
    ensures r.Failure? ==> r.error.code == InternalError
    ensures r.Failure? ==>
              r.error == NewMcpError(InternalError, "Error executing tool: " + UnknownTool(name).message)
  {
    match RunTool(name, args, network, codec)
    case Success(result) => Success(result)
    case Failure(error) => Failure(NewMcpError(InternalError, "Error executing tool: " + error.message))
  }

  /** The unknown-tool error reaches the caller with the code InternalError, never
      MethodNotFound, and with the message
      `MCP error -32603: Error executing tool: MCP error -32601: Unknown tool: <name>`. */
  lemma {:induction false} UnknownToolSurfacesAsInternalError<J>(name: string, args: Arguments,
                                                                network: nat -> Request -> FetchOutcome, codec: JsonCodec<J>)
    requires name != ReadOneTool && name != ReadManyTool
    ensures var r := CallTool(name, args, network, codec);
            && r.Failure? && r.error.code == InternalError
            && r.error.message
               == "MCP error -32603: " + "Error executing tool: " + "MCP error -32601: " + "Unknown tool: " + name
  {
  }
}
