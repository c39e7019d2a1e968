/** Registration of an output transform on a procedure's metadata. */
module Helpers {
  import opened Wrappers
  import opened Types
  import opened Tools

  /**
   * `transformMcpProcedure`, value-style: the procedure with `callback`
   * recorded as the `mcp` block's transform when that block opts in, and
   * the procedure itself otherwise.
   */
  function TransformMcpProcedure(procedure: Procedure, callback: Transform): (r: Procedure)
    ensures McpEnabled(procedure.meta) ==> McpEnabled(r.meta) && Options(r.meta).transformMcpProcedure == Some(callback)
    ensures !McpEnabled(procedure.meta) ==> r == procedure
    ensures SameUpToTransform(procedure, r)
  {
    if McpEnabled(procedure.meta) then
      var options := Options(procedure.meta);
      procedure.(meta := Some(procedure.meta.value.(mcp := Some(options.(transformMcpProcedure := Some(callback))))))
    else procedure
  }

  /**
   * Two procedures that differ at most in their registered transform: same
   * inputs, same opt-in, and, when opted in, the same `enabled`, `name` and
   * `description`.
   */
  ghost predicate SameUpToTransform(p: Procedure, q: Procedure) {
    && p.inputs == q.inputs
    && McpEnabled(p.meta) == McpEnabled(q.meta)
    && (McpEnabled(p.meta) ==>
          var a, b := Options(p.meta), Options(q.meta);
          a.enabled == b.enabled && a.name == b.name && a.description == b.description)
  }

  /** A second registration replaces the first. */
  lemma TransformOverwrites(procedure: Procedure, first: Transform, second: Transform)
    ensures TransformMcpProcedure(TransformMcpProcedure(procedure, first), second) ==
            TransformMcpProcedure(procedure, second)
  {
  }

  /** Registering the same callback twice is the same as registering it once. */
  lemma TransformIdempotent(procedure: Procedure, callback: Transform)
    ensures TransformMcpProcedure(TransformMcpProcedure(procedure, callback), callback) ==
            TransformMcpProcedure(procedure, callback)
  {
    TransformOverwrites(procedure, callback, callback);
  }

  /** The tool an entry yields does not depend on its transform. */
  lemma ToolIgnoresTransform(key: string, p: Procedure, q: Procedure, currentPath: seq<string>, convert: Converter)
    requires SameUpToTransform(p, q)
    ensures ToolOf(Entry(key, p), currentPath, convert) == ToolOf(Entry(key, q), currentPath, convert)
  {
  }

  /** Records whose entries have the same keys and differ at most in transforms. */
  ghost predicate SameRecordUpToTransforms(a: seq<Entry>, b: seq<Entry>) {
    |a| == |b| &&
    forall i :: 0 <= i < |a| ==> a[i].key == b[i].key && SameUpToTransform(a[i].procedure, b[i].procedure)
  }

  /** Registering transforms anywhere in a record leaves the extracted tool list unchanged. */
  lemma {:induction false} ExtractionIgnoresTransforms(a: seq<Entry>, b: seq<Entry>, currentPath: seq<string>, convert: Converter)
    requires SameRecordUpToTransforms(a, b)
    ensures ExtractTools(a, currentPath, convert) == ExtractTools(b, currentPath, convert)
  {
    if |a| > 0 {
      ToolIgnoresTransform(a[0].key, a[0].procedure, b[0].procedure, currentPath, convert);
      assert a[0] == Entry(a[0].key, a[0].procedure) && b[0] == Entry(a[0].key, b[0].procedure);
      assert forall i :: 0 <= i < |a| - 1 ==> a[1..][i] == a[i + 1] && b[1..][i] == b[i + 1];
      ExtractionIgnoresTransforms(a[1..], b[1..], currentPath, convert);
    }
  }
}
