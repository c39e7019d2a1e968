/**
 * The extractor: from the flat record of a router's procedures to the
 * ordered list of tools they expose. A router's nesting is already encoded
 * in the dotted keys of that record, so there is no recursion over routers.
 */
module Tools {
  import opened Wrappers
  import opened Paths
  import opened Types
  import opened FilterMaps

  /** A tool descriptor; `pathInRouter` locates its procedure in the caller. */
  datatype McpTool = McpTool(
    name: string,
    description: string,
    pathInRouter: seq<string>,
    inputSchema: Option<JsonSchema>)

  /** One `[key, procedure]` pair of the procedures record. */
  datatype Entry = Entry(key: string, procedure: Procedure)

  /** The validator-to-JSON-schema conversion, which is not part of this model. */
  type Converter = Shape -> JsonSchema

  /** The separator of a dotted procedure key. */
  const KeySeparator: char := '.'

  /** The character that stands for `KeySeparator` in a default tool name. */
  const NameSeparator: char := '_'

  /** The `type` value of an object schema. */
  const ObjectType: string := "object"

  /** The shape of `z.object()`, the object with no fields. */
  const EmptyShape: Shape := map[]

  /**
   * `mergeInputs`: a left fold extending the empty object by each input's
   * fields in turn, so that a later input's field overrides an earlier one.
   * Its fields are those of all the inputs together.
   */
  function MergeInputs(inputs: seq<Shape>): (merged: Shape)
    ensures |inputs| == 0 ==> merged == EmptyShape
    ensures forall k :: k in merged <==> exists i :: 0 <= i < |inputs| && k in inputs[i]
  {
    if |inputs| == 0 then EmptyShape
    else
      var prefix := inputs[..|inputs| - 1];
      assert forall i :: 0 <= i < |prefix| ==> prefix[i] == inputs[i];
      MergeInputs(prefix) + inputs[|inputs| - 1]
  }

  /** Merging a single input gives that input back. */
  lemma MergeSingle(input: Shape)
    ensures MergeInputs([input]) == input
  {
    assert [input][..0] == [];
    assert EmptyShape + input == input;
  }

  /** Merging a non-empty list extends the merge of all but the last input by the last one. */
  lemma MergeUnfold(inputs: seq<Shape>)
    requires |inputs| > 0
    ensures MergeInputs(inputs) == MergeInputs(inputs[..|inputs| - 1]) + inputs[|inputs| - 1]
  {
  }

  /** A field defined by several inputs takes its type from the last input that defines it. */
  lemma {:induction false} MergeLastWins(inputs: seq<Shape>, k: string, i: nat)
    requires i < |inputs| && k in inputs[i]
    requires forall j :: i < j < |inputs| ==> k !in inputs[j]
    ensures k in MergeInputs(inputs) && MergeInputs(inputs)[k] == inputs[i][k]
  {
    var last := |inputs| - 1;
    MergeUnfold(inputs);
    if i < last {
      var prefix := inputs[..last];
      LastDefinerInPrefix(inputs, k, i);
      MergeLastWins(prefix, k, i);
      OverrideKeeps(MergeInputs(prefix), inputs[last], k);
    }
  }

  /** The last input defining a field, when it is not the last input, is the last to define it before that. */
  lemma LastDefinerInPrefix(inputs: seq<Shape>, k: string, i: nat)
    requires i < |inputs| - 1 && k in inputs[i]
    requires forall j :: i < j < |inputs| ==> k !in inputs[j]
    ensures var prefix := inputs[..|inputs| - 1];
      && k !in inputs[|inputs| - 1] && k in prefix[i] && prefix[i][k] == inputs[i][k]
      && forall j :: i < j < |prefix| ==> k !in prefix[j]
  {
  }

  /** Extending a map by one without a key keeps that key's value. */
  lemma OverrideKeeps(m: Shape, n: Shape, k: string)
    requires k in m && k !in n
    ensures k in m + n && (m + n)[k] == m[k]
  {
  }

  /**
   * Keeps exactly the `type`, `properties` and `required` keys of an object
   * schema, defaulting the last two to empty; a schema of any other type
   * yields no input schema at all.
   */
  function ProjectSchema(js: JsonSchema): (r: Option<JsonSchema>)
    ensures r.Some? <==> js.schemaType == Some(ObjectType)
    ensures r.Some? ==> IsProjected(r.value)
    ensures r.Some? && js.properties.Some? ==> r.value.properties == js.properties
    ensures r.Some? && js.required.Some? ==> r.value.required == js.required
    ensures r.Some? && js.properties.None? ==> r.value.properties == Some(map[])
    ensures r.Some? && js.required.None? ==> r.value.required == Some([])
  {
    if js.schemaType == Some(ObjectType) then
      Some(JsonSchema(js.schemaType, Some(js.properties.GetOr(map[])), Some(js.required.GetOr([])), map[]))
    else None
  }

  /** An object schema carrying `type`, `properties` and `required` and nothing else. */
  predicate IsProjected(js: JsonSchema) {
    js.schemaType == Some(ObjectType) && js.properties.Some? && js.required.Some? && js.others == map[]
  }

  /** Projecting a projected schema changes nothing. */
  lemma ProjectIdempotent(js: JsonSchema)
    requires ProjectSchema(js).Some?
    ensures ProjectSchema(ProjectSchema(js).value) == ProjectSchema(js)
  {
  }

  /**
   * The input schema of a procedure with the given validators: with several,
   * the projected conversion of their merge; with one, of that one; with
   * none, the unprojected conversion of the empty object.
   */
  function DeriveInputSchema(inputs: seq<Shape>, convert: Converter): (r: Option<JsonSchema>)
    ensures |inputs| >= 1 ==> r == ProjectSchema(convert(MergeInputs(inputs)))
    ensures |inputs| == 0 ==> r == Some(convert(MergeInputs(inputs)))
    ensures r.None? <==> |inputs| >= 1 && convert(MergeInputs(inputs)).schemaType != Some(ObjectType)
  {
    var schema := if |inputs| > 1 then Some(MergeInputs(inputs)) else if |inputs| == 1 then Some(inputs[0]) else None;
    assert |inputs| == 1 ==> MergeInputs(inputs) == inputs[0] by {
      if |inputs| == 1 {
        MergeSingle(inputs[0]);
        assert inputs == [inputs[0]];
      }
    }
    match schema
    case Some(validator) => ProjectSchema(convert(validator))
    case None => Some(convert(EmptyShape))
  }

  /** A conversion that renders every validator as an object schema listing exactly its fields. */
  ghost predicate KeepsFields(convert: Converter) {
    forall v: Shape :: convert(v).schemaType == Some(ObjectType) &&
      convert(v).properties.Some? && convert(v).properties.value.Keys == v.Keys
  }

  /**
   * Under a field-preserving conversion every procedure gets an input schema,
   * and its properties are the fields of all its validators together (none
   * at all for a procedure without validators).
   */
  lemma SchemaListsAllFields(inputs: seq<Shape>, convert: Converter)
    requires KeepsFields(convert)
    ensures DeriveInputSchema(inputs, convert).Some?
    ensures DeriveInputSchema(inputs, convert).value.properties.Some?
    ensures forall k :: k in DeriveInputSchema(inputs, convert).value.properties.value <==>
      exists i :: 0 <= i < |inputs| && k in inputs[i]
  {
    var merged := MergeInputs(inputs);
    assert convert(merged).properties.value.Keys == merged.Keys;
  }

  /**
   * The tool one record entry yields: none when the procedure has no
   * `inputs` facet or has not opted in; otherwise its name, description,
   * path and input schema.
   */
  function ToolOf(entry: Entry, currentPath: seq<string>, convert: Converter): (r: Option<McpTool>)
    ensures r.Some? <==> entry.procedure.inputs.Some? && McpEnabled(entry.procedure.meta)
  {
    var procedure := entry.procedure;
    if procedure.inputs.None? || !McpEnabled(procedure.meta) then None
    else
      var options := Options(procedure.meta);
      Some(McpTool(
        options.name.GetOr(ReplaceAll(entry.key, KeySeparator, NameSeparator)),
        options.description.GetOr(""),
        currentPath + Split(entry.key, KeySeparator),
        DeriveInputSchema(procedure.inputs.value, convert)))
  }

  /**
   * The fields of a derived tool: its path is the prefix followed by the
   * key split on `.`, whatever the name, and joining those segments with `.` gives the key back;
   * its name is the override or else the key with `_` for `.`, which then
   * contains no `.` and equals the segments joined with `_`; its description
   * is the override or else empty.
   */
  lemma ToolOfFields(entry: Entry, currentPath: seq<string>, convert: Converter)
    requires ToolOf(entry, currentPath, convert).Some?
    ensures var tool := ToolOf(entry, currentPath, convert).value;
      var options := Options(entry.procedure.meta);
      var segments := tool.pathInRouter[|currentPath|..];
      && |tool.pathInRouter| > |currentPath|
      && tool.pathInRouter[..|currentPath|] == currentPath
      && segments == Split(entry.key, KeySeparator)
      && Join(segments, KeySeparator) == entry.key
      && (options.name.Some? ==> tool.name == options.name.value)
      && (options.name.None? ==> KeySeparator !in tool.name)
      && (options.name.None? ==> tool.name == Join(segments, NameSeparator))
      && tool.description == options.description.GetOr("")
      && tool.inputSchema == DeriveInputSchema(entry.procedure.inputs.value, convert)
  {
    var tool := ToolOf(entry, currentPath, convert).value;
    var segments := Split(entry.key, KeySeparator);
    assert tool.pathInRouter == currentPath + segments;
    assert tool.pathInRouter[..|currentPath|] == currentPath;
    assert tool.pathInRouter[|currentPath|..] == segments;
    JoinSplit(entry.key, KeySeparator);
    JoinSplitReplaces(entry.key, KeySeparator, NameSeparator);
  }

  /** The per-entry derivation as a function value. */
  function Derivation(currentPath: seq<string>, convert: Converter): Entry -> Option<McpTool>
  {
    entry => ToolOf(entry, currentPath, convert)
  }

  /**
   * `extractToolsFromProcedures`: walks the record once, skipping the
   * entries `ToolOf` rejects and appending one tool for each other entry.
   */
  function ExtractTools(entries: seq<Entry>, currentPath: seq<string>, convert: Converter): (tools: seq<McpTool>)
    ensures |tools| <= |entries|
  {
    FilterMap(Derivation(currentPath, convert), entries)
  }

  /** Extraction distributes over concatenation of records. */
  lemma ExtractConcat(a: seq<Entry>, b: seq<Entry>, currentPath: seq<string>, convert: Converter)
    ensures ExtractTools(a + b, currentPath, convert) ==
            ExtractTools(a, currentPath, convert) + ExtractTools(b, currentPath, convert)
  {
    FilterMapConcat(Derivation(currentPath, convert), a, b);
  }

  /** A one-entry record yields its tool, or nothing when the entry is skipped. */
  lemma ExtractSingle(e: Entry, currentPath: seq<string>, convert: Converter)
    ensures ExtractTools([e], currentPath, convert) ==
            (match ToolOf(e, currentPath, convert) case Some(t) => [t] case None => [])
  {
    FilterMapSingle(Derivation(currentPath, convert), e);
  }

  /** Every opted-in entry with inputs yields a tool, and nothing else yields one. */
  lemma ExtractMembership(entries: seq<Entry>, currentPath: seq<string>, convert: Converter, t: McpTool)
    ensures t in ExtractTools(entries, currentPath, convert) <==>
            exists i :: 0 <= i < |entries| && ToolOf(entries[i], currentPath, convert) == Some(t)
  {
    var f := Derivation(currentPath, convert);
    FilterMapMembership(f, entries, t);
    assert forall i :: 0 <= i < |entries| ==> f(entries[i]) == ToolOf(entries[i], currentPath, convert);
  }

  /** When every entry is exposed, the i-th tool is the i-th entry's: nothing dropped, nothing reordered. */
  lemma ExtractAllExposed(entries: seq<Entry>, currentPath: seq<string>, convert: Converter)
    requires forall i :: 0 <= i < |entries| ==> ToolOf(entries[i], currentPath, convert).Some?
    ensures |ExtractTools(entries, currentPath, convert)| == |entries|
    ensures forall i :: 0 <= i < |entries| ==>
      Some(ExtractTools(entries, currentPath, convert)[i]) == ToolOf(entries[i], currentPath, convert)
  {
    var f := Derivation(currentPath, convert);
    assert forall i :: 0 <= i < |entries| ==> f(entries[i]) == ToolOf(entries[i], currentPath, convert);
    FilterMapAllSome(f, entries);
  }

  /** An exposed entry's tool sits between the tools of the entries before it and those after it. */
  lemma ExtractAround(entries: seq<Entry>, currentPath: seq<string>, convert: Converter, j: nat)
    requires j < |entries| && ToolOf(entries[j], currentPath, convert).Some?
    ensures ExtractTools(entries, currentPath, convert) ==
      ExtractTools(entries[..j], currentPath, convert) + [ToolOf(entries[j], currentPath, convert).value] +
      ExtractTools(entries[j + 1..], currentPath, convert)
  {
    FilterMapAround(Derivation(currentPath, convert), entries, j);
  }

  /** Tools appear in the relative order of their entries. */
  lemma ExtractPreservesOrder(entries: seq<Entry>, currentPath: seq<string>, convert: Converter, i: nat, j: nat)
    requires i < j < |entries|
    requires ToolOf(entries[i], currentPath, convert).Some? && ToolOf(entries[j], currentPath, convert).Some?
    ensures var tools := ExtractTools(entries, currentPath, convert);
      exists p, q :: 0 <= p < q < |tools| &&
        Some(tools[p]) == ToolOf(entries[i], currentPath, convert) &&
        Some(tools[q]) == ToolOf(entries[j], currentPath, convert)
  {
    var f := Derivation(currentPath, convert);
    assert f(entries[i]) == ToolOf(entries[i], currentPath, convert);
    assert f(entries[j]) == ToolOf(entries[j], currentPath, convert);
    var p, q := FilterMapOrder(f, entries, i, j);
    var tools := ExtractTools(entries, currentPath, convert);
    assert Some(tools[p]) == ToolOf(entries[i], currentPath, convert);
    assert Some(tools[q]) == ToolOf(entries[j], currentPath, convert);
  }
}
