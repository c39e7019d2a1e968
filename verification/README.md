# trpc-to-mcp: tool extraction and dispatch, modelled in Dafny

The library exposes the procedures of a tRPC router as tools of a Model
Context Protocol (MCP) server. This project models the part of it that has
logic of its own:

- **the extractor** (`extractToolsFromProcedures`, `mergeInputs`). It walks the
  flat `_def.procedures` record of a router. Nesting is already encoded in the
  dotted keys, so there is no recursion. It keeps the procedures that have an
  `inputs` facet and whose `meta.mcp.enabled` is truthy. For each one it derives
  a tool: a name (the override, or the key with `_` for `.`), a description (the
  override, or `""`), `pathInRouter` (the prefix followed by the key split on
  `.`) and an input schema.
- **the dispatcher** (the two request handlers of `createMcpServer`).
  List-tools returns the tools extracted at construction. Call-tool looks up
  the first tool with the requested name. On a miss it answers with the
  in-band text "Could not find tool". Otherwise it walks `pathInRouter` through
  the caller, invokes what it finds on the arguments, and wraps the result as
  one JSON text block.
- **transform registration** (`transformMcpProcedure`). It records an output
  callback in `meta.mcp` when `enabled` is truthy. Here it is written
  value-style: it returns the updated procedure instead of mutating it.

Files, one module each:

| file | module | models |
|---|---|---|
| `wrappers.dfy` | `Wrappers` | `Option` for `undefined`-able values, with `??` as `GetOr` |
| `paths.dfy` | `Paths` | `replace(/\./g, "_")`, `split(".")` and `join`, with their round trips |
| `types.dfy` | `Types` | `McpMeta`, procedures, JSON values, JSON-schema records, content blocks |
| `filtermap.dfy` | `FilterMaps` | the skip-or-append loop shape, as an order-preserving filter-map |
| `tools.dfy` | `Tools` | `src/tools.ts` |
| `helpers.dfy` | `Helpers` | `src/helpers.ts` |
| `server.dfy` | `Server` | `src/server.ts` |
| `scenarios.dfy` | `Scenarios` | concrete routers: opt-in filter, default names, a name collision, merging |

Three collaborators are not part of this model and appear as function-valued parameters:

- the zod-to-JSON-schema conversion `z.toJSONSchema` (`convert`);
- `JSON.stringify` (`serialize`);
- each procedure of the caller (`Handler`).

The caller that `appRouter.createCaller(ctx)` returns is modelled as a tree
(`CallerNode`). Each node may be callable, and its properties lead to child
nodes.

Four things the code does not do, which the model follows:

- It does not make tool names unique (src/tools.ts:44). An explicit
  `mcp.name`, or the keys `a.b` and `a_b`, give two tools of one name, and
  lookup takes the first (`Scenarios.CollidingTools`,
  `Scenarios.CollidingNamesCallFirst`).
- The call-tool handler never consults a registered transform
  (src/server.ts:57-61). Every successful response is exactly one text block
  (`Server.CallTool`, `Server.CallIgnoresTransforms`).
- List-tools does not strip `pathInRouter`: it returns the tool records as
  they are (src/server.ts:37).
- A path that does not resolve is not answered with "not found"
  (src/server.ts:50-57). Calling the resulting `undefined` throws a
  `TypeError`, which the handler does not catch (`Exception.NotAFunction`).

## Model

| member | source | states |
|---|---|---|
| `Paths.ReplaceAll` | src/tools.ts:44 | the default name keeps the key's length, has `_` wherever the key has `.` and every other character unchanged, and contains no `.` |
| `Paths.Split` | src/tools.ts:42 | splitting a key gives one more segment than the key has dots, and no segment contains a dot |
| `Paths.JoinSplitReplaces` | src/tools.ts:42-44 | the key's segments joined with `_` are exactly the default name |
| `Paths.JoinSplit` | src/tools.ts:42 | round trip: the key's segments joined with `.` give the key back |
| `Paths.SplitJoin` | src/tools.ts:42 | round trip: dot-free segments joined with `.` and split again give the same segments |
| `Types.McpEnabled` | src/tools.ts:38 | a procedure opts in exactly when it has metadata with an `mcp` block whose `enabled`, read as `enabled ?? false`, is true; opting in guarantees that the block is there to read |
| `Tools.MergeInputs` | src/tools.ts:19-23 | the merged validator's fields are the union of all inputs' fields; no inputs give the empty object |
| `Tools.MergeLastWins` | src/tools.ts:19-23 | a field defined by several inputs takes its type from the last input that defines it |
| `Tools.MergeSingle` | src/tools.ts:35 | merging one input gives it back, so using `inputs[0]` for a single input agrees with merging |
| `Tools.ProjectSchema` | src/tools.ts:54-62 | an object schema is cut down to exactly `type`, `properties` and `required`, keeping the present ones and giving an absent `properties` the value `{}` and an absent `required` the value `[]`; any other schema gives no input schema |
| `Tools.ProjectIdempotent` | src/tools.ts:54-56 | projecting an already projected schema changes nothing |
| `Tools.DeriveInputSchema` | src/tools.ts:35-67 | one or more inputs: the projection of the converted merge, absent exactly when that conversion is not an object; no inputs: the conversion of the empty object, always present and not projected |
| `Tools.SchemaListsAllFields` | src/tools.ts:35-67 | under a conversion that keeps fields, every procedure gets an input schema whose properties are the fields of all its validators |
| `Tools.ToolOf` | src/tools.ts:33-40 | an entry yields a tool exactly when it has an `inputs` facet, metadata, an `mcp` block and `enabled` true |
| `Tools.ToolOfFields` | src/tools.ts:42-47 | whatever the name, the path is the prefix followed by the key split on `.`, and those segments join back to the key; the name is the override, or else is dot-free and equal to the segments joined with `_`; the description is the override or `""`; the schema is the derived one |
| `Tools.ExtractTools` | src/tools.ts:28-74 | no more tools than record entries |
| `Tools.ExtractConcat` | src/tools.ts:29-32 | extraction of a concatenated record is the concatenation of the extractions: no sorting, no deduplication |
| `Tools.ExtractSingle` | src/tools.ts:32-70 | a one-entry record yields exactly that entry's tool, or nothing when it is skipped |
| `Tools.ExtractMembership` | src/tools.ts:32-70 | a tool is listed exactly when some entry yields it |
| `Tools.ExtractAllExposed` | src/tools.ts:32-70 | when every entry is exposed, the i-th tool is the i-th entry's tool |
| `Tools.ExtractAround` | src/tools.ts:32-70 | an exposed entry's tool comes after the tools of earlier entries and before those of later ones |
| `Tools.ExtractPreservesOrder` | src/tools.ts:29-32 | tools of two exposed entries appear in the order of the entries |
| `Helpers.TransformMcpProcedure` | src/helpers.ts:14-18 | when `enabled` is truthy the callback is recorded as the transform; otherwise the procedure is returned unchanged; inputs, opt-in, `enabled`, `name` and `description` are kept |
| `Helpers.TransformOverwrites` | src/helpers.ts:15 | a second registration replaces the first |
| `Helpers.TransformIdempotent` | src/helpers.ts:15 | registering the same callback twice equals registering it once |
| `Helpers.ToolIgnoresTransform` | src/tools.ts:42-66 | procedures that differ only in their transform yield the same tool |
| `Helpers.ExtractionIgnoresTransforms` | src/tools.ts:32-70 | registering transforms anywhere in a record leaves the extracted list unchanged |
| `Server.CreateMcpServer` | src/server.ts:26-27 | the server keeps the given caller and serialiser, and its tools are the extraction of the router with an empty path prefix, so no more tools than record entries and each one some entry's tool |
| `Server.ListTools` | src/server.ts:37 | the list-tools answer is the server's tools in order and unchanged, `pathInRouter` included |
| `Server.ListToolsIsExtraction` | src/server.ts:26-37 | list-tools returns the router's extraction unmodified: exactly the tools the entries yield, at most as many as entries, and each tool's path joined with `.` is the key of the entry that yields it |
| `Server.ListToolsPlacesEachTool` | src/server.ts:26-37 | each exposed entry's tool is listed once, between the listed tools of the entries before it and those of the entries after it |
| `Server.FindTool` | src/server.ts:43 | a tool is found exactly when some tool has the name, and it is the first such tool in list order |
| `Server.FindFirstOfDuplicates` | src/server.ts:43 | of several tools with the requested name, lookup returns the earliest |
| `Server.Resolve` | src/server.ts:50-54 | the walk of the empty path is its start; a defined result is only ever reached from a defined start, so the walk never recovers from `undefined` |
| `Server.ResolveUndefined` | src/server.ts:52 | once the walk reaches `undefined` it stays `undefined` |
| `Server.ResolveSnoc` | src/server.ts:50-54 | walking one more segment is one more property step after the walk |
| `Server.ResolveConcat` | src/server.ts:50-54 | walking a concatenated path is walking the first part, then the second from there |
| `Server.ResolveIsNodeAt` | src/server.ts:50-54 | the left fold over the caller finds exactly the node at the path, defined independently from the last segment backwards |
| `Server.ResolveMissingSegment` | src/server.ts:50-54 | a segment missing from the node reached so far makes the whole walk `undefined` |
| `Server.ResolveTwoSegments` | src/server.ts:50-54 | the path `[a, b]` resolves to `caller.a.b` |
| `Server.Invoke` | src/server.ts:57 | calling anything but a node with a procedure, including `undefined`, throws a `TypeError`; a procedure is called on the arguments unchanged |
| `Server.Respond` | src/server.ts:59-61 | a response carries content exactly when the procedure returned, and that content is one text block holding the result's serialisation; a thrown exception escapes unchanged |
| `Server.CallTool` | src/server.ts:40-62 | a name no tool has gets exactly one text block "Could not find tool", whatever the caller holds; every successful response is exactly one text block |
| `Server.CallDispatchesToFirstMatch` | src/server.ts:43-61 | a call runs the procedure at the path of the first tool with the name, on the arguments unchanged; a returned result comes back as its serialisation, a thrown exception escapes unchanged |
| `Server.NoEarlierNamesake` | src/server.ts:43 | entries that yield no tool of some name contribute no listed tool of that name |
| `Server.FirstOfItsName` | src/server.ts:43 | an entry whose tool name no earlier entry's tool has gives the first listed tool of that name |
| `Server.ToolNameReachesProcedure` | src/tools.ts:42-44 | end to end: calling an entry's tool name (the `mcp.name` override, or else the key with `_` for `.`), when no earlier tool has that name, runs the caller's procedure at the key split on `.`, whether or not the name was overridden |
| `Server.DefaultNameReachesProcedure` | src/server.ts:43-61 | end to end: calling an entry's default name, when no earlier tool has it, runs the caller's procedure at the key's segments |
| `Server.CallIgnoresTransforms` | src/server.ts:57-61 | registering transforms changes neither the listed tools nor any call's response |
| `Scenarios.EnabledAndDisabled` | src/tools.ts:38-40 | of one enabled and one disabled procedure only the enabled one is listed, with the empty-object schema |
| `Scenarios.DefaultNames` | src/tools.ts:42-44 | keys `a.b` and `a.c` give tools `a_b` and `a_c` with paths `[a, b]` and `[a, c]`, in that order |
| `Scenarios.CollidingTools` | src/tools.ts:44 | keys `a.b` and `a_b` both give the name `a_b` |
| `Scenarios.CollidingNamesCallFirst` | src/server.ts:43 | a call for `a_b` then runs `caller.a.b`, the earlier tool's procedure |
| `Scenarios.MergedFields` | src/tools.ts:19-23 | validators with fields `{x}` and `{y, x}` merge into `{x, y}`, with the later `x` |

## Left out

- zod itself. A validator is reduced to its shape, a map from field name to an
  abstract field type. `z.toJSONSchema` is the parameter `convert`. Its
  `unrepresentable: "any"` option and the default options used for the empty
  object are not told apart, since nothing in the empty object is
  unrepresentable.
- The order of fields. Shapes and `properties` are Dafny maps, so the
  insertion order of fields in a merged object and in the emitted schema is
  not modelled.
- The order of `Object.entries`. The record is a given sequence of entries.
  JavaScript's rule that integer-like keys come first is not modelled.
- `JSON.stringify`, the parameter `serialize`. A procedure that returns
  `undefined` (serialised to `undefined`, not a string) is outside the model,
  because results are JSON values.
- The MCP SDK `Server`, handler registration, capabilities, and
  `async`/`await`. The handlers are plain functions; a rejected promise is the
  `Raised` result.
- `createCaller` and the context. The caller is an abstract tree of callable
  nodes. tRPC's own caller proxy is not part of this model.
- The `console.error` diagnostic for a non-object schema (src/tools.ts:58-61).
- src/adapters/vercel-mcp-adapter.ts, examples/trpc.ts and tsup.config.ts:
  wiring, an example application and build configuration. src/types.ts only
  supplies the `McpMeta` shape.
- Name uniqueness, because the code does not guarantee it (see above).
- JSON numbers are integers (`JNumber(n: int)`). Arguments and results pass
  through the core untouched, so no floating-point behaviour is in scope.
- The `Text`, `Image`, `Audio` and resource content blocks carry their payload
  fields only. Annotations and `_meta` are not modelled.
