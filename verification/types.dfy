/**
 * The data the extractor and the dispatcher exchange: the `McpMeta`
 * annotation a router's procedures carry, the procedures themselves as the
 * extractor sees them, JSON values, JSON-schema records and the protocol's
 * content blocks.
 */
module Types {
  import opened Wrappers

  /** A JSON value: procedure arguments and results. Numbers are abstracted to integers. */
  datatype Json =
    | JNull
    | JBool(b: bool)
    | JNumber(n: int)
    | JString(s: string)
    | JArray(items: seq<Json>)
    | JObject(fields: map<string, Json>)

  /** One unit of tool-call output, one case per kind the protocol defines. */
  datatype ContentBlock =
    | Text(text: string)
    | Image(data: string, mimeType: string)
    | Audio(data: string, mimeType: string)
    | ResourceLink(uri: string, name: string)
    | EmbeddedResource(uri: string, contents: Json)

  /** A registered output transform: a procedure's result to the content blocks to return. */
  type Transform = Json -> seq<ContentBlock>

  /** The `mcp` block of the metadata; every field may be missing. */
  datatype McpOptions = McpOptions(
    enabled: Option<bool>,
    description: Option<string>,
    name: Option<string>,
    transformMcpProcedure: Option<Transform>)

  /** A procedure's metadata, of which only the `mcp` block matters here. */
  datatype McpMeta = McpMeta(mcp: Option<McpOptions>)

  /** An input validator's field type, left abstract (a zod schema such as `z.string()`). */
  datatype FieldType = FieldType(kind: string)

  /** An object input validator, reduced to its shape: field name to field type. */
  type Shape = map<string, FieldType>

  /**
   * The JSON-schema record a validator converts to: its top-level `type`,
   * `properties` and `required` keys, each possibly absent, and whatever
   * other top-level keys the conversion emits (`$schema`, `additionalProperties`).
   */
  datatype JsonSchema = JsonSchema(
    schemaType: Option<string>,
    properties: Option<map<string, Json>>,
    required: Option<seq<string>>,
    others: map<string, Json>)

  /**
   * A procedure as the extractor sees it: its input validators when its
   * definition has an `inputs` facet, and its metadata when it has any.
   * The metadata read through `procedure.meta` and through
   * `procedure._def.meta` is one and the same object.
   */
  datatype Procedure = Procedure(inputs: Option<seq<Shape>>, meta: Option<McpMeta>)

  /** `meta?.mcp?.enabled` is truthy: metadata present, `mcp` present, `enabled` true. */
  predicate McpEnabled(meta: Option<McpMeta>): (b: bool)
    ensures b ==> meta.Some? && meta.value.mcp.Some?
    ensures b <==> meta.Some? && meta.value.mcp.Some? && meta.value.mcp.value.enabled.GetOr(false)
  {
    meta.Some? && meta.value.mcp.Some? && meta.value.mcp.value.enabled == Some(true)
  }

  /** The `mcp` block of metadata that opts in. */
  function Options(meta: Option<McpMeta>): McpOptions
    requires McpEnabled(meta)
  {
    meta.value.mcp.value
  }
}
