/**
 * Concrete routers: the opt-in filter, default names, the name collision
 * the extractor does not prevent, and the merged input schema.
 */
module Scenarios {
  import opened Wrappers
  import opened Paths
  import opened Types
  import opened Tools
  import opened Server

  /** A procedure with no validators whose `mcp.enabled` is the given flag. */
  function Flagged(enabled: bool): Procedure {
    Procedure(Some([]), Some(McpMeta(Some(McpOptions(Some(enabled), None, None, None)))))
  }

  /** Of one enabled and one disabled procedure only the enabled one becomes a tool. */
  lemma EnabledAndDisabled(convert: Converter)
    ensures var tools := ExtractTools([Entry("on", Flagged(true)), Entry("off", Flagged(false))], [], convert);
      |tools| == 1 && tools[0].name == "on" && tools[0].inputSchema == Some(convert(EmptyShape))
  {
    var on, off := Entry("on", Flagged(true)), Entry("off", Flagged(false));
    assert [on, off] == [on] + [off];
    ExtractConcat([on], [off], [], convert);
    ExtractSingle(on, [], convert);
    ExtractSingle(off, [], convert);
    FlaggedTool("on", convert);
    UndottedKey("on");
  }

  /** The tool of an opted-in procedure without validators or overrides. */
  lemma FlaggedTool(key: string, convert: Converter)
    ensures ToolOf(Entry(key, Flagged(true)), [], convert) ==
      Some(McpTool(ReplaceAll(key, KeySeparator, NameSeparator), "", Split(key, KeySeparator), Some(convert(EmptyShape))))
  {
    assert [] + Split(key, KeySeparator) == Split(key, KeySeparator);
  }

  /** Two opted-in procedures without validators or overrides give their two tools, in order. */
  lemma TwoFlagged(first: string, second: string, convert: Converter)
    ensures ExtractTools([Entry(first, Flagged(true)), Entry(second, Flagged(true))], [], convert) ==
      [ToolOf(Entry(first, Flagged(true)), [], convert).value, ToolOf(Entry(second, Flagged(true)), [], convert).value]
  {
    var entries := [Entry(first, Flagged(true)), Entry(second, Flagged(true))];
    ExtractAllExposed(entries, [], convert);
  }

  /** The key `a.b` splits into `a` and `b`, and its default name is `a_b`. */
  lemma DottedKey(a: char, b: char)
    requires a != KeySeparator && b != KeySeparator
    ensures Split([a, KeySeparator, b], KeySeparator) == [[a], [b]]
    ensures ReplaceAll([a, KeySeparator, b], KeySeparator, NameSeparator) == [a, NameSeparator, b]
  {
    SplitJoin([[a], [b]], KeySeparator);
    assert Join([[a], [b]], KeySeparator) == [a, KeySeparator, b];
    var r := ReplaceAll([a, KeySeparator, b], KeySeparator, NameSeparator);
    assert r[0] == a && r[1] == NameSeparator && r[2] == b;
  }

  /** A key without `.` is its own single segment and its own default name. */
  lemma UndottedKey(key: string)
    requires KeySeparator !in key
    ensures Split(key, KeySeparator) == [key]
    ensures ReplaceAll(key, KeySeparator, NameSeparator) == key
  {
    SplitWithoutSeparator(key, KeySeparator);
  }

  /** Keys `a.b` and `a.c` without overrides give the tools `a_b` and `a_c`, in that order. */
  lemma DefaultNames(convert: Converter)
    ensures var tools := ExtractTools([Entry("a.b", Flagged(true)), Entry("a.c", Flagged(true))], [], convert);
      |tools| == 2 && tools[0].name == "a_b" && tools[1].name == "a_c" &&
      tools[0].pathInRouter == ["a", "b"] && tools[1].pathInRouter == ["a", "c"]
  {
    TwoFlagged("a.b", "a.c", convert);
    FlaggedTool("a.b", convert);
    FlaggedTool("a.c", convert);
    DottedKey('a', 'b');
    DottedKey('a', 'c');
  }

  /** The record in which two keys map to the same default name. */
  function CollidingRecord(): seq<Entry> {
    [Entry("a.b", Flagged(true)), Entry("a_b", Flagged(true))]
  }

  /** Keys `a.b` and `a_b` both get the name `a_b`: the extractor does not make names unique. */
  lemma CollidingTools(convert: Converter)
    ensures var tools := ExtractTools(CollidingRecord(), [], convert);
      && |tools| == 2
      && tools[0].name == "a_b" && tools[1].name == "a_b"
      && tools[0].pathInRouter == ["a", "b"] && tools[1].pathInRouter == ["a_b"]
  {
    TwoFlagged("a.b", "a_b", convert);
    FlaggedTool("a.b", convert);
    FlaggedTool("a_b", convert);
    DottedKey('a', 'b');
    UndottedKey("a_b");
  }

  /** Of the two tools named `a_b`, a call runs the procedure at `caller.a.b`, the earlier one. */
  lemma CollidingNamesCallFirst(caller: CallerNode, convert: Converter, serialize: Serializer, args: Option<Json>)
    ensures CallTool(CreateMcpServer(CollidingRecord(), caller, convert, serialize), "a_b", args) ==
            Respond(Invoke(NodeAt(caller, ["a", "b"]), args), serialize)
  {
    CollidingTools(convert);
    CallDispatchesToFirstMatch(CreateMcpServer(CollidingRecord(), caller, convert, serialize), "a_b", args, 0);
  }

  /** Two validators with fields `x` and `y` merge into one with both, the later type winning on a clash. */
  lemma MergedFields()
    ensures var merged := MergeInputs([map["x" := FieldType("string")], map["y" := FieldType("number"), "x" := FieldType("boolean")]]);
      merged.Keys == {"x", "y"} && merged["x"] == FieldType("boolean") && merged["y"] == FieldType("number")
  {
    var inputs := [map["x" := FieldType("string")], map["y" := FieldType("number"), "x" := FieldType("boolean")]];
    MergeLastWins(inputs, "x", 1);
    MergeLastWins(inputs, "y", 1);
  }
}
