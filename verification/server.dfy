/**
 * The dispatcher: a server holding the tools extracted once from a router
 * and a caller bound to a context, answering the list-tools and call-tool
 * requests.
 */
module Server {
  import opened Wrappers
  import opened Paths
  import opened Types
  import opened Tools
  import opened Helpers

  /** What invoking a procedure can throw: the procedure's own failure, or calling a non-function. */
  datatype Exception = ProcedureError(payload: Json) | NotAFunction

  /** The outcome of invoking a procedure. */
  datatype Invocation = Returned(value: Json) | Threw(error: Exception)

  /** A callable procedure of the caller, applied to the request's (possibly missing) arguments. */
  type Handler = Option<Json> -> Invocation

  /**
   * The caller as a tree: a node may be callable, and its properties lead
   * to further nodes.
   */
  datatype CallerNode = CallerNode(handler: Option<Handler>, children: map<string, CallerNode>)

  /** `JSON.stringify`, which is not part of this model. */
  type Serializer = Json -> string

  /** The text of the in-band answer to a request for an unknown tool. */
  const NotFoundMessage: string := "Could not find tool"

  /** A call-tool response, or the exception that escaped the handler. */
  datatype CallToolResult = Content(content: seq<ContentBlock>) | Raised(error: Exception)

  /** The state `createMcpServer` closes over. */
  datatype McpServer = McpServer(tools: seq<McpTool>, caller: CallerNode, serialize: Serializer)

  /** `createMcpServer`: the tools are extracted once, with an empty path prefix. */
  function CreateMcpServer(router: seq<Entry>, caller: CallerNode, convert: Converter, serialize: Serializer): (r: McpServer)
    ensures r.caller == caller && r.serialize == serialize
    ensures r.tools == ExtractTools(router, [], convert)
    ensures |r.tools| <= |router|
    ensures forall t :: t in r.tools ==>
      exists i :: 0 <= i < |router| && ToolOf(router[i], [], convert) == Some(t)
  {
    var tools := ExtractTools(router, [], convert);
    assert forall t :: t in tools ==>
      exists i :: 0 <= i < |router| && ToolOf(router[i], [], convert) == Some(t)
    by {
      forall t | t in tools
        ensures exists i :: 0 <= i < |router| && ToolOf(router[i], [], convert) == Some(t)
      {
        ExtractMembership(router, [], convert, t);
      }
    }
    McpServer(tools, caller, serialize)
  }

  /** The list-tools handler: the tools the server was created with, as they are. */
  function ListTools(server: McpServer): (tools: seq<McpTool>)
    ensures |tools| == |server.tools| && forall k :: 0 <= k < |tools| ==> tools[k] == server.tools[k]
  {
    server.tools
  }

  /**
   * The listed tools of a server are the extraction of its router, unchanged:
   * exactly the tools its entries yield, each one's path, joined with `.`,
   * the key of the entry it came from.
   */
  lemma ListToolsIsExtraction(router: seq<Entry>, caller: CallerNode, convert: Converter, serialize: Serializer)
    ensures var tools := ListTools(CreateMcpServer(router, caller, convert, serialize));
      && tools == ExtractTools(router, [], convert)
      && |tools| <= |router|
      && (forall t :: t in tools <==>
            (exists i :: 0 <= i < |router| && ToolOf(router[i], [], convert) == Some(t) &&
                         Join(t.pathInRouter, KeySeparator) == router[i].key))
  {
    var tools := ListTools(CreateMcpServer(router, caller, convert, serialize));
    forall i | 0 <= i < |router| && ToolOf(router[i], [], convert).Some?
      ensures Join(ToolOf(router[i], [], convert).value.pathInRouter, KeySeparator) == router[i].key
    {
      var path := ToolOf(router[i], [], convert).value.pathInRouter;
      ToolOfFields(router[i], [], convert);
      assert path[0..] == path;
    }
    forall t
      ensures t in tools <==> exists i :: 0 <= i < |router| && ToolOf(router[i], [], convert) == Some(t)
    {
      ExtractMembership(router, [], convert, t);
    }
  }

  /**
   * Each exposed entry's tool is listed once, between the listed tools of
   * the entries before it and those of the entries after it.
   */
  lemma ListToolsPlacesEachTool(router: seq<Entry>, caller: CallerNode, convert: Converter,
                                serialize: Serializer, i: nat)
    requires i < |router| && ToolOf(router[i], [], convert).Some?
    ensures ListTools(CreateMcpServer(router, caller, convert, serialize)) ==
      ExtractTools(router[..i], [], convert) + [ToolOf(router[i], [], convert).value] +
      ExtractTools(router[i + 1..], [], convert)
  {
    ExtractAround(router, [], convert, i);
  }

  /** `tools.find(t => t.name === name)`: the first tool in list order with that name. */
  function FindTool(tools: seq<McpTool>, name: string): (r: Option<McpTool>)
    ensures r.Some? <==> exists i :: 0 <= i < |tools| && tools[i].name == name
    ensures r.Some? ==>
      (exists i :: 0 <= i < |tools| && tools[i] == r.value && tools[i].name == name &&
         (forall j :: 0 <= j < i ==> tools[j].name != name))
  {
    if |tools| == 0 then None
    else if tools[0].name == name then Some(tools[0])
    else
      var r := FindTool(tools[1..], name);
      assert forall i :: 0 < i < |tools| ==> tools[1..][i - 1] == tools[i];
      r
  }

  /** Of several tools with the requested name, lookup returns the earliest. */
  lemma FindFirstOfDuplicates(tools: seq<McpTool>, name: string, i: nat)
    requires i < |tools| && tools[i].name == name
    requires forall j :: 0 <= j < i ==> tools[j].name != name
    ensures FindTool(tools, name) == Some(tools[i])
  {
    var r := FindTool(tools, name);
    var k :| 0 <= k < |tools| && tools[k] == r.value && tools[k].name == name &&
      (forall j :: 0 <= j < k ==> tools[j].name != name);
    assert !(k < i) && !(i < k);
  }

  /** `acc?.[part]`: one property step of the walk; an undefined value stays undefined. */
  function Step(acc: Option<CallerNode>, part: string): Option<CallerNode>
  {
    match acc
    case None => None
    case Some(node) => if part in node.children then Some(node.children[part]) else None
  }

  /** `path.reduce((acc, part) => acc?.[part], acc)`: the left fold of `Step` along the path. */
  function Resolve(acc: Option<CallerNode>, path: seq<string>): (r: Option<CallerNode>)
    ensures r.Some? ==> acc.Some?
    ensures |path| == 0 ==> r == acc
    decreases |path|
  {
    if |path| == 0 then acc else Resolve(Step(acc, path[0]), path[1..])
  }

  /**
   * The node at a path of the caller, defined from the last segment
   * backwards: the node at the parent path, then its child.
   */
  function NodeAt(root: CallerNode, path: seq<string>): Option<CallerNode>
    decreases |path|
  {
    if |path| == 0 then Some(root)
    else
      match NodeAt(root, path[..|path| - 1])
      case None => None
      case Some(parent) =>
        var last := path[|path| - 1];
        if last in parent.children then Some(parent.children[last]) else None
  }

  /** Once the walk reaches an undefined value it stays undefined. */
  lemma {:induction false} ResolveUndefined(path: seq<string>)
    ensures Resolve(None, path) == None
  {
    if |path| > 0 {
      ResolveUndefined(path[1..]);
    }
  }

  /** Walking a path and then one more segment is one more step after the walk. */
  lemma {:induction false} ResolveSnoc(acc: Option<CallerNode>, path: seq<string>, part: string)
    ensures Resolve(acc, path + [part]) == Step(Resolve(acc, path), part)
    decreases |path|
  {
    if |path| == 0 {
      assert path + [part] == [part];
      assert [part][1..] == [];
    } else {
      assert (path + [part])[0] == path[0];
      assert (path + [part])[1..] == path[1..] + [part];
      ResolveSnoc(Step(acc, path[0]), path[1..], part);
    }
  }

  /** Walking a concatenation is walking the first path, then the second from there. */
  lemma {:induction false} ResolveConcat(acc: Option<CallerNode>, p: seq<string>, q: seq<string>)
    ensures Resolve(acc, p + q) == Resolve(Resolve(acc, p), q)
    decreases |p|
  {
    if |p| == 0 {
      assert p + q == q;
    } else {
      assert (p + q)[0] == p[0];
      assert (p + q)[1..] == p[1..] + q;
      ResolveConcat(Step(acc, p[0]), p[1..], q);
    }
  }

  /** The fold over the caller finds exactly the node at the path. */
  lemma {:induction false} ResolveIsNodeAt(root: CallerNode, path: seq<string>)
    ensures Resolve(Some(root), path) == NodeAt(root, path)
  {
    if |path| > 0 {
      var parent := path[..|path| - 1];
      ResolveIsNodeAt(root, parent);
      assert path == parent + [path[|path| - 1]];
      ResolveSnoc(Some(root), parent, path[|path| - 1]);
    }
  }

  /** A segment missing from the node reached so far leaves the whole walk undefined. */
  lemma ResolveMissingSegment(root: CallerNode, path: seq<string>, i: nat, node: CallerNode)
    requires i < |path|
    requires Resolve(Some(root), path[..i]) == Some(node)
    requires path[i] !in node.children
    ensures Resolve(Some(root), path) == None
  {
    var upTo, rest := path[..i + 1], path[i + 1..];
    PrefixSnoc(path, i);
    ResolveSnoc(Some(root), path[..i], path[i]);
    ResolveConcat(Some(root), upTo, rest);
    ResolveUndefined(rest);
  }

  /** The prefix through `i` is the prefix before `i` and the segment at `i`, followed by the rest. */
  lemma PrefixSnoc(path: seq<string>, i: nat)
    requires i < |path|
    ensures path[..i + 1] == path[..i] + [path[i]]
    ensures path == path[..i + 1] + path[i + 1..]
  {
  }

  /** `[a, b]` resolves to `caller.a.b`. */
  lemma ResolveTwoSegments(root: CallerNode, a: string, b: string)
    requires a in root.children && b in root.children[a].children
    ensures Resolve(Some(root), [a, b]) == Some(root.children[a].children[b])
  {
    var child := root.children[a];
    assert [a, b][1..] == [b];
    assert [b][1..] == [];
    assert Resolve(Some(root), [a, b]) == Resolve(Some(child), [b]);
    assert Resolve(Some(child), [b]) == Resolve(Some(child.children[b]), []);
  }

  /** Calling whatever the walk produced: anything but a callable node is a `TypeError`. */
  function Invoke(target: Option<CallerNode>, args: Option<Json>): (r: Invocation)
    ensures target.None? ==> r == Threw(NotAFunction)
    ensures target.Some? && target.value.handler.None? ==> r == Threw(NotAFunction)
    ensures target.Some? && target.value.handler.Some? ==> r == target.value.handler.value(args)
  {
    if target.Some? && target.value.handler.Some? then target.value.handler.value(args)
    else Threw(NotAFunction)
  }

  /** A returned result becomes one text block holding its serialisation; an exception escapes as is. */
  function Respond(outcome: Invocation, serialize: Serializer): (r: CallToolResult)
    ensures r.Content? <==> outcome.Returned?
    ensures r.Content? ==> r.content == [Text(serialize(outcome.value))]
    ensures r.Raised? ==> r.error == outcome.error
  {
    match outcome
    case Returned(value) => Content([Text(serialize(value))])
    case Threw(error) => Raised(error)
  }

  /**
   * The call-tool handler. An unknown name is answered in-band with one
   * text block and calls nothing; otherwise the first tool with that name
   * is resolved in the caller and invoked on the arguments unchanged. No
   * registered transform is consulted: a response is never more than one
   * text block.
   */
  function CallTool(server: McpServer, name: string, args: Option<Json>): (r: CallToolResult)
    ensures (forall i :: 0 <= i < |server.tools| ==> server.tools[i].name != name) ==>
      r == Content([Text(NotFoundMessage)])
    ensures r.Content? ==> |r.content| == 1 && r.content[0].Text?
  {
    match FindTool(server.tools, name)
    case None => Content([Text(NotFoundMessage)])
    case Some(tool) =>
      var procedure := Resolve(Some(server.caller), tool.pathInRouter);
      Respond(Invoke(procedure, args), server.serialize)
  }

  /**
   * A call for a listed name runs the procedure at the path of the first
   * tool of that name: its result comes back serialised, its exception
   * escapes unchanged.
   */
  lemma CallDispatchesToFirstMatch(server: McpServer, name: string, args: Option<Json>, i: nat)
    requires i < |server.tools| && server.tools[i].name == name
    requires forall j :: 0 <= j < i ==> server.tools[j].name != name
    ensures CallTool(server, name, args) ==
            Respond(Invoke(NodeAt(server.caller, server.tools[i].pathInRouter), args), server.serialize)
  {
    FindFirstOfDuplicates(server.tools, name, i);
    ResolveIsNodeAt(server.caller, server.tools[i].pathInRouter);
  }

  /** When no entry of a record yields a tool of some name, none of its tools has that name. */
  lemma NoEarlierNamesake(entries: seq<Entry>, convert: Converter, name: string)
    requires forall j :: 0 <= j < |entries| && ToolOf(entries[j], [], convert).Some? ==>
      ToolOf(entries[j], [], convert).value.name != name
    ensures forall t :: t in ExtractTools(entries, [], convert) ==> t.name != name
  {
    forall t | t in ExtractTools(entries, [], convert)
      ensures t.name != name
    {
      ExtractMembership(entries, [], convert, t);
    }
  }

  /**
   * The position of an entry's tool among the listed tools, when no earlier
   * entry yields a tool of the same name: it is the first tool of its name.
   */
  lemma FirstOfItsName(router: seq<Entry>, convert: Converter, i: nat) returns (k: nat)
    requires i < |router| && ToolOf(router[i], [], convert).Some?
    requires forall j :: 0 <= j < i && ToolOf(router[j], [], convert).Some? ==>
      ToolOf(router[j], [], convert).value.name != ToolOf(router[i], [], convert).value.name
    ensures var tools := ExtractTools(router, [], convert);
      && k < |tools| && tools[k] == ToolOf(router[i], [], convert).value
      && (forall j :: 0 <= j < k ==> tools[j].name != tools[k].name)
  {
    var tool := ToolOf(router[i], [], convert).value;
    var before := router[..i];
    var left := ExtractTools(before, [], convert);
    ExtractAround(router, [], convert, i);
    EarlierEntries(router, convert, i);
    NoEarlierNamesake(before, convert, tool.name);
    FirstAfterPrefix(left, tool, ExtractTools(router[i + 1..], [], convert));
    k := |left|;
  }

  /** The entries before position `i` are the record's first `i` entries, with the same tools. */
  lemma EarlierEntries(router: seq<Entry>, convert: Converter, i: nat)
    requires i < |router| && ToolOf(router[i], [], convert).Some?
    requires forall j :: 0 <= j < i && ToolOf(router[j], [], convert).Some? ==>
      ToolOf(router[j], [], convert).value.name != ToolOf(router[i], [], convert).value.name
    ensures var before := router[..i];
      forall j :: 0 <= j < |before| && ToolOf(before[j], [], convert).Some? ==>
        ToolOf(before[j], [], convert).value.name != ToolOf(router[i], [], convert).value.name
  {
    var before := router[..i];
    assert forall j :: 0 <= j < |before| ==> before[j] == router[j];
  }

  /** A tool preceded only by tools of other names is the first of its name. */
  lemma FirstAfterPrefix(left: seq<McpTool>, tool: McpTool, right: seq<McpTool>)
    requires forall t :: t in left ==> t.name != tool.name
    ensures var tools := left + [tool] + right;
      tools[|left|] == tool && forall j :: 0 <= j < |left| ==> tools[j].name != tool.name
  {
    var tools := left + [tool] + right;
    forall j | 0 <= j < |left|
      ensures tools[j].name != tool.name
    {
      assert tools[j] == left[j] && left[j] in left;
    }
  }

  /**
   * End to end: an opted-in entry is reached by its name (the override, or
   * else its key with `_` for `.`), provided no earlier entry yields a tool
   * of that name; the call runs the caller's procedure at the key's
   * segments, whether or not the name was overridden.
   */
  lemma ToolNameReachesProcedure(router: seq<Entry>, caller: CallerNode, convert: Converter,
                                 serialize: Serializer, i: nat, args: Option<Json>)
    requires i < |router| && ToolOf(router[i], [], convert).Some?
    requires forall j :: 0 <= j < i && ToolOf(router[j], [], convert).Some? ==>
      ToolOf(router[j], [], convert).value.name != ToolOf(router[i], [], convert).value.name
    ensures var name := Options(router[i].procedure.meta).name.GetOr(ReplaceAll(router[i].key, KeySeparator, NameSeparator));
      CallTool(CreateMcpServer(router, caller, convert, serialize), name, args) ==
      Respond(Invoke(NodeAt(caller, Split(router[i].key, KeySeparator)), args), serialize)
  {
    var tool := ToolOf(router[i], [], convert).value;
    assert tool.pathInRouter == [] + Split(router[i].key, KeySeparator);
    var k := FirstOfItsName(router, convert, i);
    var server := CreateMcpServer(router, caller, convert, serialize);
    assert server.tools[k] == tool;
    CallDispatchesToFirstMatch(server, tool.name, args, k);
    assert server.tools[k].pathInRouter == Split(router[i].key, KeySeparator);
  }

  /**
   * End to end for an entry without a name override: calling its key with
   * `_` for `.` runs the caller's procedure at the key's segments.
   */
  lemma DefaultNameReachesProcedure(router: seq<Entry>, caller: CallerNode, convert: Converter,
                                    serialize: Serializer, i: nat, args: Option<Json>)
    requires i < |router| && ToolOf(router[i], [], convert).Some?
    requires Options(router[i].procedure.meta).name.None?
    requires forall j :: 0 <= j < i && ToolOf(router[j], [], convert).Some? ==>
      ToolOf(router[j], [], convert).value.name != ReplaceAll(router[i].key, KeySeparator, NameSeparator)
    ensures CallTool(CreateMcpServer(router, caller, convert, serialize),
                     ReplaceAll(router[i].key, KeySeparator, NameSeparator), args) ==
            Respond(Invoke(NodeAt(caller, Split(router[i].key, KeySeparator)), args), serialize)
  {
    assert ToolOf(router[i], [], convert).value.name == ReplaceAll(router[i].key, KeySeparator, NameSeparator);
    ToolNameReachesProcedure(router, caller, convert, serialize, i, args);
  }

  /**
   * Registering transforms on a router's procedures changes neither the
   * listed tools nor any call's response.
   */
  lemma CallIgnoresTransforms(a: seq<Entry>, b: seq<Entry>, caller: CallerNode, convert: Converter,
                              serialize: Serializer, name: string, args: Option<Json>)
    requires SameRecordUpToTransforms(a, b)
    ensures ListTools(CreateMcpServer(a, caller, convert, serialize)) ==
            ListTools(CreateMcpServer(b, caller, convert, serialize))
    ensures CallTool(CreateMcpServer(a, caller, convert, serialize), name, args) ==
            CallTool(CreateMcpServer(b, caller, convert, serialize), name, args)
  {
    ExtractionIgnoresTransforms(a, b, [], convert);
  }
}
