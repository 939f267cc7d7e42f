/** The graph part of the workflow compiler: edges, plan and the visibility of
    node outputs. Expression and schema checks are the business of other
    modules; here a node is known by the producers its bindings refer to. */
module Workflow {
  import opened Prelude
  import opened Text
  import opened Graph
  import opened Reachability

  datatype EdgeKind = Control | Data

  datatype Condition = OnSuccess | OnFailure | Always

  /** `condition` is None where the author omitted it. */
  datatype AuthoredEdge = AuthoredEdge(
    from: string, to: string, kind: EdgeKind, condition: Option<Condition>, route: string, sourcePort: string)

  datatype Edge = Edge(
    from: string, to: string, kind: EdgeKind, condition: Condition, route: string, sourcePort: string)

  datatype Definition = Definition(
    nodes: seq<string>,
    edges: seq<AuthoredEdge>,
    entrypoints: map<string, string>,
    references: map<string, set<string>>,        // node -> producers named by its bindings
    resultReferences: map<string, set<string>>)  // entrypoint -> producers named by its result

  datatype Plan = Plan(order: seq<string>, entryOrders: map<string, seq<string>>, edges: seq<Edge>)

  datatype CompileError =
    | NoNodes | DuplicateNode | InvalidEdge | DuplicateEdge | InvalidEntrypoint
    | Cycle | UnreachableNode | InvisibleReference | UnknownResultEntrypoint

  function Normalize(e: AuthoredEdge): Edge {
    Edge(e.from, e.to, e.kind, if e.condition.None? then OnSuccess else e.condition.value, e.route, e.sourcePort)
  }

  /** Route and source port select among the successes of the source. */
  predicate EdgeAccepted(nodes: set<string>, e: Edge) {
    && e.from in nodes && e.to in nodes && e.from != e.to
    && (e.condition != OnSuccess ==> e.route == "" && e.sourcePort == "")
  }

  function Insert(m: map<string, set<string>>, key: string, x: string): map<string, set<string>> {
    m[key := Lookup(m, key) + {x}]
  }

  function GraphOf(nodes: set<string>, edges: seq<Edge>): Graph {
    if edges == [] then map n | n in nodes :: {}
    else
      var last := edges[|edges| - 1];
      Insert(GraphOf(nodes, edges[..|edges| - 1]), last.from, last.to)
  }

  /** Predecessors of each node along the edges of one kind. */
  function ByTarget(edges: seq<Edge>, kind: EdgeKind): map<string, set<string>> {
    if edges == [] then map[]
    else
      var last := edges[|edges| - 1];
      var front := ByTarget(edges[..|edges| - 1], kind);
      if last.kind == kind then Insert(front, last.to, last.from) else front
  }

  ghost predicate EdgeBetween(edges: seq<Edge>, from: string, to: string) {
    exists e :: e in edges && e.from == from && e.to == to
  }

  ghost predicate EdgeOfKind(edges: seq<Edge>, kind: EdgeKind, from: string, to: string) {
    exists e :: e in edges && e.kind == kind && e.from == from && e.to == to
  }

  lemma {:induction false} GraphHasEdges(nodes: set<string>, edges: seq<Edge>, from: string, to: string)
    requires forall e :: e in edges ==> e.from in nodes
    ensures GraphOf(nodes, edges).Keys == nodes
    ensures HasEdge(GraphOf(nodes, edges), from, to) <==> EdgeBetween(edges, from, to)
  {
    if edges != [] {
      var front, last := edges[..|edges| - 1], edges[|edges| - 1];
      GraphHasEdges(nodes, front, from, to);
      assert edges == front + [last];
      assert EdgeBetween(edges, from, to) <==> EdgeBetween(front, from, to) || (last.from == from && last.to == to);
    }
  }

  lemma {:induction false} TargetsHaveEdges(edges: seq<Edge>, kind: EdgeKind, from: string, to: string)
    ensures from in Lookup(ByTarget(edges, kind), to) <==> EdgeOfKind(edges, kind, from, to)
  {
    if edges != [] {
      var front, last := edges[..|edges| - 1], edges[|edges| - 1];
      TargetsHaveEdges(front, kind, from, to);
      assert edges == front + [last];
      assert EdgeOfKind(edges, kind, from, to) <==>
             EdgeOfKind(front, kind, from, to) || (last.kind == kind && last.from == from && last.to == to);
    }
  }

  datatype GraphParts = GraphParts(
    graph: Graph, dataEdges: map<string, set<string>>, controlEdges: map<string, set<string>>, edges: seq<Edge>)

  ghost predicate EdgesAccepted(nodes: set<string>, edges: seq<Edge>) {
    NoDuplicates(edges) && forall i :: 0 <= i < |edges| ==> EdgeAccepted(nodes, edges[i])
  }

  function NormalizeAll(edges: seq<AuthoredEdge>): (r: seq<Edge>)
    ensures |r| == |edges| && forall i :: 0 <= i < |r| ==> r[i] == Normalize(edges[i])
  {
    seq(|edges|, i requires 0 <= i < |edges| => Normalize(edges[i]))
  }

  method BuildGraph(nodes: set<string>, authored: seq<AuthoredEdge>) returns (r: Result<GraphParts, CompileError>)
    ensures r.Ok? <==> EdgesAccepted(nodes, NormalizeAll(authored))
    ensures r.Ok? ==>
      var edges := NormalizeAll(authored);
      r.value == GraphParts(GraphOf(nodes, edges), ByTarget(edges, Data), ByTarget(edges, Control), edges)
  {
    var graph: Graph := map n | n in nodes :: {};
    var dataEdges: map<string, set<string>>, controlEdges: map<string, set<string>> := map[], map[];
    var edges: seq<Edge> := [];
    ghost var all := NormalizeAll(authored);
    assert graph == GraphOf(nodes, []);
    assert dataEdges == ByTarget([], Data) && controlEdges == ByTarget([], Control);
    for i := 0 to |authored|
      invariant edges == all[..i] && EdgesAccepted(nodes, edges)
      invariant graph == GraphOf(nodes, edges)
      invariant dataEdges == ByTarget(edges, Data) && controlEdges == ByTarget(edges, Control)
    {
      var edge := Normalize(authored[i]);
      assert all[i] == edge;
      assert (edges + [edge])[..|edges|] == edges;
      if !EdgeAccepted(nodes, edge) { return Err(InvalidEdge); }
      if edge in edges { return Err(DuplicateEdge); }
      graph := Insert(graph, edge.from, edge.to);
      if edge.kind == Data {
        dataEdges := Insert(dataEdges, edge.to, edge.from);
      } else {
        controlEdges := Insert(controlEdges, edge.to, edge.from);
      }
      edges := edges + [edge];
      assert all[..i + 1] == all[..i] + [edge];
    }
    assert all[..|authored|] == all;
    return Ok(GraphParts(graph, dataEdges, controlEdges, edges));
  }

  // ------------------------------------------------------------ compilation

  /** The nodes of `order` reached from one entry, in the same order. */
  function Restrict(order: seq<string>, reached: set<string>): (r: seq<string>)
    ensures forall n :: n in r <==> n in order && n in reached
  {
    if order == [] then []
    else
      var front, last := order[..|order| - 1], order[|order| - 1];
      assert order == front + [last];
      Restrict(front, reached) + (if last in reached then [last] else [])
  }

  ghost predicate EntryNodes(entries: seq<string>, entrypoints: map<string, string>) {
    forall n :: n in entries <==> exists name :: name in entrypoints && entrypoints[name] == n
  }

  ghost predicate Visible(nodes: set<string>, edges: seq<Edge>, entries: seq<string>, source: string, target: string) {
    && source in Lookup(ByTarget(edges, Data), target)
    && Dominating(ControlProjection(nodes, ByTarget(edges, Control)), entries, source, target)
  }

  /** Everything a definition must satisfy to be compiled. */
  ghost predicate Compilable(d: Definition, entries: seq<string>) {
    var nodes, edges := Elements(d.nodes), NormalizeAll(d.edges);
    var g := GraphOf(nodes, edges);
    && d.nodes != [] && NoDuplicates(d.nodes)
    && EdgesAccepted(nodes, edges)
    && d.entrypoints != map[] && d.entrypoints.Values <= nodes
    && !Cyclic(g)
    && (forall n :: n in nodes ==> ReachableFrom(g, entries, "", n))
    && (forall t, s :: t in nodes && s in Lookup(d.references, t) ==> Visible(nodes, edges, entries, s, t))
    && d.resultReferences.Keys <= d.entrypoints.Keys
    && (forall name, s :: name in d.entrypoints && s in Lookup(d.resultReferences, name) ==>
          ResultVisible(g, [d.entrypoints[name]], s))
  }

  /** The plan of a compilable definition. */
  ghost predicate IsPlan(d: Definition, p: Plan) {
    var nodes, edges := Elements(d.nodes), NormalizeAll(d.edges);
    var g := GraphOf(nodes, edges);
    && p.edges == edges
    && IsOrder(g, p.order) && (forall other :: IsOrder(g, other) ==> LexAtMost(p.order, other))
    && p.entryOrders.Keys == d.entrypoints.Keys
    && (forall name :: name in d.entrypoints ==> IsEntryOrder(g, p.order, d.entrypoints[name], p.entryOrders[name]))
  }

  ghost predicate IsEntryOrder(g: Graph, order: seq<string>, entry: string, entryOrder: seq<string>) {
    exists reached :: entryOrder == Restrict(order, reached) && ReachedSet(g, entry, reached)
  }

  ghost predicate ReachedSet(g: Graph, entry: string, reached: set<string>) {
    forall n :: n in reached <==> ReachableFrom(g, [entry], "", n)
  }

  method EntryList(entrypoints: map<string, string>) returns (entries: seq<string>)
    ensures EntryNodes(entries, entrypoints)
  {
    var values := set name | name in entrypoints :: entrypoints[name];
    entries := SortStrings(values);
    forall n ensures n in entries <==> n in values { InElements(entries, n); }
  }

  method CheckNodes(nodes: seq<string>) returns (r: Result<set<string>, CompileError>)
    ensures r.Ok? <==> nodes != [] && NoDuplicates(nodes)
    ensures r.Ok? ==> r.value == Elements(nodes)
  {
    if nodes == [] { return Err(NoNodes); }
    var seen: set<string> := {};
    for i := 0 to |nodes|
      invariant seen == Elements(nodes[..i]) && NoDuplicates(nodes[..i])
    {
      if nodes[i] in seen {
        var j :| 0 <= j < i && nodes[j] == nodes[i];
        return Err(DuplicateNode);
      }
      seen := seen + {nodes[i]};
      assert nodes[..i + 1] == nodes[..i] + [nodes[i]];
    }
    assert nodes[..|nodes|] == nodes;
    return Ok(seen);
  }

  method CheckReferences(order: seq<string>, references: map<string, set<string>>, parts: GraphParts, entries: seq<string>,
                         ghost nodes: set<string>, ghost edges: seq<Edge>) returns (ok: bool)
    requires Elements(order) == nodes && parts.graph.Keys == nodes
    requires parts.dataEdges == ByTarget(edges, Data) && parts.controlEdges == ByTarget(edges, Control)
    ensures ok <==> forall t, s :: t in nodes && s in Lookup(references, t) ==> Visible(nodes, edges, entries, s, t)
  {
    hide ByTarget, Dominating;
    for i := 0 to |order|
      invariant forall k, s :: 0 <= k < i && s in Lookup(references, order[k]) ==> Visible(nodes, edges, entries, s, order[k])
    {
      var visible := VisiblePredecessors(order[i], parts.dataEdges, parts.controlEdges, parts.graph, entries);
      forall s ensures s in visible <==> Visible(nodes, edges, entries, s, order[i]) {}
      if !(Lookup(references, order[i]) <= visible) {
        var s :| s in Lookup(references, order[i]) && s !in visible;
        assert order[i] in nodes && !Visible(nodes, edges, entries, s, order[i]);
        return false;
      }
    }
    return true;
  }

  method CheckEntrypoints(d: Definition, g: Graph, order: seq<string>)
    returns (ok: bool, entryOrders: map<string, seq<string>>)
    ensures ok <==> forall name, s :: name in d.entrypoints && s in Lookup(d.resultReferences, name) ==>
                      ResultVisible(g, [d.entrypoints[name]], s)
    ensures ok ==> entryOrders.Keys == d.entrypoints.Keys
    ensures ok ==> forall name :: name in d.entrypoints ==>
                     IsEntryOrder(g, order, d.entrypoints[name], entryOrders[name])
  {
    hide ResultVisible, ReachableFrom;
    entryOrders := map[];
    var todo := d.entrypoints.Keys;
    while todo != {}
      invariant todo <= d.entrypoints.Keys && entryOrders.Keys == d.entrypoints.Keys - todo
      invariant forall name, s :: name in d.entrypoints && name !in todo && s in Lookup(d.resultReferences, name) ==>
        ResultVisible(g, [d.entrypoints[name]], s)
      invariant forall name :: name in d.entrypoints && name !in todo ==>
        IsEntryOrder(g, order, d.entrypoints[name], entryOrders[name])
      decreases todo
    {
      var name :| name in todo;
      var entry := d.entrypoints[name];
      var visible := ResultVisibleNodes(g, [entry]);
      if !(Lookup(d.resultReferences, name) <= visible) {
        var s :| s in Lookup(d.resultReferences, name) && s !in visible;
        return false, map[];
      }
      var reached := Reachable(g, [entry], "");
      entryOrders := entryOrders[name := Restrict(order, reached)];
      assert ReachedSet(g, entry, reached);
      assert IsEntryOrder(g, order, entry, entryOrders[name]);
      todo := todo - {name};
    }
    ok := true;
  }

  method Compile(d: Definition) returns (r: Result<Plan, CompileError>, ghost entries: seq<string>)
    ensures EntryNodes(entries, d.entrypoints)
    ensures r.Ok? <==> Compilable(d, entries)
    ensures r.Ok? ==> IsPlan(d, r.value)
  {
    hide GraphOf, ByTarget, ReachableFrom, ResultVisible, Visible, Cyclic, IsOrder, IsEntryOrder, EntryNodes, EdgesAccepted, LexAtMost;
    var entryList := EntryList(d.entrypoints);
    entries := entryList;
    var checked := CheckNodes(d.nodes);
    if checked.Err? { return Err(checked.error), entries; }
    var nodes := checked.value;
    var parts := BuildGraph(nodes, d.edges);
    if parts.Err? { return Err(parts.error), entries; }
    var g := parts.value.graph;
    if d.entrypoints == map[] || !(d.entrypoints.Values <= nodes) { return Err(InvalidEntrypoint), entries; }
    GraphIsWellFormed(nodes, parts.value.edges);
    var order := TopologicalOrder(g);
    if order.None? { return Err(Cycle), entries; }
    var reached := Reachable(g, entryList, "");
    if !(nodes <= reached) {
      var n :| n in nodes && n !in reached;
      return Err(UnreachableNode), entries;
    }
    OrderCovers(g, order.value);
    var visible := CheckReferences(order.value, d.references, parts.value, entryList, nodes, parts.value.edges);
    if !visible { return Err(InvisibleReference), entries; }
    if !(d.resultReferences.Keys <= d.entrypoints.Keys) { return Err(UnknownResultEntrypoint), entries; }
    var ok, entryOrders := CheckEntrypoints(d, g, order.value);
    if !ok { return Err(InvisibleReference), entries; }
    return Ok(Plan(order.value, entryOrders, parts.value.edges)), entries;
  }

  lemma GraphIsWellFormed(nodes: set<string>, edges: seq<Edge>)
    requires EdgesAccepted(nodes, edges)
    ensures WellFormed(GraphOf(nodes, edges)) && GraphOf(nodes, edges).Keys == nodes
  {
    var g := GraphOf(nodes, edges);
    forall a, b | HasEdge(g, a, b) ensures b in nodes { GraphHasEdges(nodes, edges, a, b); }
    GraphHasEdges(nodes, edges, "", "");
    forall a | a in g ensures g[a] <= nodes {
      forall b | b in g[a] ensures b in nodes { assert HasEdge(g, a, b); }
    }
  }

  lemma OrderCovers(g: Graph, order: seq<string>)
    requires IsOrder(g, order)
    ensures Elements(order) == g.Keys
  {
  }
}
