/** The message shapes of the scanner: JSON-RPC 2.0 envelopes, the MCP
    initialize parameters, the upstream capability records a server returns,
    and the projected records the scanner keeps. */
module Types {
  import opened Wrappers

  /** The value of every envelope's `jsonrpc` member. */
  const JsonRpcVersion := "2.0"

  /** Configuration of one scan: the server's URL as the user typed it. */
  datatype ScanOptions = ScanOptions(httpUrl: string)

  /** A JSON value the scanner carries along without looking inside it
      (Go's `interface{}` fields), kept as its JSON text. */
  datatype RawJson = RawJson(text: string)

  /** What Go's json.Marshal writes for a nil interface value. */
  const JsonNull := RawJson("null")

  datatype Implementation = Implementation(name: string, version: string)

  /** The client declares no optional capabilities. */
  datatype ClientCapabilities = ClientCapabilities

  datatype InitializeParams = InitializeParams(
    protocolVersion: string,
    capabilities: ClientCapabilities,
    clientInfo: Implementation)

  /** A JSON-RPC request. An absent `id` makes it a notification, which
      expects no reply (section 4.1 of the JSON-RPC 2.0 specification). The
      only parameters the scanner ever sends are the initialize parameters. */
  datatype JsonRpcRequest = JsonRpcRequest(
    jsonrpc: string,
    id: Option<int>,
    methodName: string,
    params: Option<InitializeParams>)
  {
    predicate IsNotification() {
      id.None?
    }
  }

  /** The error object of section 5.1 of the JSON-RPC 2.0 specification. */
  datatype JsonRpcError = JsonRpcError(code: int, message: string, data: Option<RawJson>)

  /** A JSON-RPC response. Both `result` and `error` are optional and nothing
      requires exactly one of them to be present. */
  datatype JsonRpcResponse = JsonRpcResponse(
    jsonrpc: string,
    id: Option<RawJson>,
    result: Option<RawJson>,
    error: Option<JsonRpcError>)

  /** Upstream records, as a server describes its capabilities. */
  datatype Tool = Tool(name: string, description: string, inputSchema: Option<RawJson>)
  datatype Prompt = Prompt(name: string, description: string, arguments: Option<RawJson>)
  datatype Resource = Resource(uri: string, name: string, description: string, mimeType: string)

  datatype ListToolsResult = ListToolsResult(tools: seq<Tool>)
  datatype ListPromptsResult = ListPromptsResult(prompts: seq<Prompt>)
  datatype ListResourcesResult = ListResourcesResult(resources: seq<Resource>)

  /** Projected records, the only thing a scan reports. */
  datatype ToolInfo = ToolInfo(name: string, description: string)
  datatype PromptInfo = PromptInfo(name: string, description: string)
  datatype ResourceInfo = ResourceInfo(name: string, description: string, uri: string)

  function ToToolInfo(t: Tool): ToolInfo {
    ToolInfo(t.name, t.description)
  }

  function ToPromptInfo(p: Prompt): PromptInfo {
    PromptInfo(p.name, p.description)
  }

  function ToResourceInfo(r: Resource): ResourceInfo {
    ResourceInfo(r.name, r.description, r.uri)
  }

  /** Two upstream records project to the same record exactly when they agree
      on name and description (and uri, for resources): the input schema,
      the argument list and the MIME type leave no trace. */
  lemma ProjectionKeepsOnlyDeclaredFields(t1: Tool, t2: Tool, p1: Prompt, p2: Prompt, r1: Resource, r2: Resource)
    ensures ToToolInfo(t1) == ToToolInfo(t2) <==> t1.name == t2.name && t1.description == t2.description
    ensures ToPromptInfo(p1) == ToPromptInfo(p2) <==> p1.name == p2.name && p1.description == p2.description
    ensures ToResourceInfo(r1) == ToResourceInfo(r2)
        <==> r1.name == r2.name && r1.description == r2.description && r1.uri == r2.uri
  {
  }

  /** The library calls the scanner makes but whose insides are not modelled,
      given as functions: `url.Parse` followed by `String()`, and
      `json.Unmarshal` into a response envelope and into each list result.
      `None` is the library's error. */
  datatype Env = Env(
    parseUrl: string -> Option<string>,
    decodeResponse: string -> Option<JsonRpcResponse>,
    decodeTools: RawJson -> Option<ListToolsResult>,
    decodePrompts: RawJson -> Option<ListPromptsResult>,
    decodeResources: RawJson -> Option<ListResourcesResult>)
}
