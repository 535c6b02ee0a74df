/**
 * The MCP protocol objects the scripts exchange through the MCP SDK: tool
 * descriptors from `list_tools` and the result of `call_tool`. The SDK itself
 * (sessions, transports, framing) is not part of this model.
 */
module McpTypes {
  import opened PyValue

  /** A tool as a server lists it: name, description and JSON input schema. */
  datatype Tool = Tool(name: string, description: string, inputSchema: Value)

  /** One item of a tool result's `content` list: text has a `.text`, other kinds (image, resource) do not. */
  datatype ContentItem = TextItem(text: string) | NonTextItem(kind: string)

  /** The `content` attribute of a tool result: missing, a list of items, or some other value. */
  datatype ContentField = NoContent | Items(items: seq<ContentItem>) | NonList(v: Value)

  /** What `session.call_tool` returned: nothing (a falsy result) or a result object. */
  datatype CallOutcome = NoResult | Reply(content: ContentField)
}
