/** The Model Context Protocol messages the proxy inspects or rewrites. */
module Mcp {
  import opened Wrappers
  import opened Json

  /**
   * One item of a tool result's `content`. `kind` is the item's `type` field;
   * `text` is its `text` field (None where it is undefined); `fields` holds the
   * item's other fields (annotations, data, mime type, ...).
   */
  datatype ContentItem = ContentItem(kind: string, text: Option<string>, fields: map<string, Json>)

  /** The filter `c.type === 'text'` the output guard applies to `content`. */
  predicate IsText(item: ContentItem) {
    item.kind == "text"
  }

  /** A fresh `{ type: 'text', text }` item. */
  function TextItem(text: Option<string>): ContentItem {
    ContentItem("text", text, map[])
  }

  /** The params of a `tools/call` request: the tool name, its optional arguments, and every other param. */
  datatype CallToolParams = CallToolParams(name: string, arguments: Option<Json>, others: map<string, Json>)

  /** A `tools/call` result; `others` holds the fields the proxy never touches (`_meta`, ...). */
  datatype CallToolResult = CallToolResult(
    content: seq<ContentItem>,
    structuredContent: Option<Json>,
    isError: Option<bool>,
    others: map<string, Json>)

  /** The test `if (structuredContent)` that selects the structured output branch. */
  predicate HasStructured(response: CallToolResult) {
    response.structuredContent.Some? && Truthy(response.structuredContent.value)
  }

  /** A `tools/list` result: the tools, the pagination cursor, and every other field. */
  datatype ListToolsResult = ListToolsResult(tools: seq<Json>, nextCursor: Option<string>, others: map<string, Json>)

  /** The `resources` capability; only its `subscribe` flag is consulted. */
  datatype ResourcesCapability = ResourcesCapability(subscribe: bool)

  /**
   * The capability record advertised by the upstream server. A flag is true when the
   * corresponding (object-valued, hence truthy) capability is present.
   */
  datatype ServerCapabilities = ServerCapabilities(
    logging: bool,
    prompts: bool,
    resources: Option<ResourcesCapability>,
    tools: bool,
    completions: bool)

  /** The error a request handler throws; the protocol layer turns it into an error response. */
  datatype HandlerError =
    | GuardUnreachable            // the guard call itself rejected
    | GuardFailed(message: string) // the guard answered with a status other than 'Success'
    | MissingGuardOutput           // reading `guard_output.messages[0].content` threw a TypeError
    | InvalidJson(text: string)    // `JSON.parse` threw on substituted tool arguments
    | UpstreamFailed(reason: string) // the upstream `callTool` rejected
}
