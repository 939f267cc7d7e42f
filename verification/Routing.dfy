/** Run-time routing: the AND-join that decides whether the current node runs or
    is skipped, and what it guarantees for a compiled plan. */
module Routing {
  import opened Prelude
  import opened Text
  import opened Graph
  import opened Reachability
  import opened Workflow

  datatype Status = Succeeded | Failed | Skipped

  datatype Outcome = Outcome(status: Status, route: string, ports: seq<string>)

  datatype Snapshot<+V> = Snapshot(
    order: seq<string>, edges: seq<Edge>, next: nat, outcomes: map<string, Outcome>, outputs: map<string, V>)

  datatype Disposition = Blocked | Ready | Skip

  predicate PublishesPort(o: Outcome, port: string) {
    o.status == Succeeded && (port == "main" || port == o.route || port in o.ports)
  }

  predicate Matches(e: Edge, o: Outcome) {
    && (match e.condition
        case OnSuccess => o.status == Succeeded
        case OnFailure => o.status == Failed
        case Always => o.status == Succeeded || o.status == Failed)
    && (e.route != "" ==> o.route == e.route)
    && (e.sourcePort != "" ==> PublishesPort(o, e.sourcePort))
  }

  /** The join over the incoming edges whose source is part of this execution. */
  function Join(order: seq<string>, edges: seq<Edge>, outcomes: map<string, Outcome>, node: string): Disposition {
    if edges == [] then Ready
    else
      var e := edges[0];
      if e.to != node || e.from !in order then Join(order, edges[1..], outcomes, node)
      else if e.from !in outcomes then Blocked
      else if !Matches(e, outcomes[e.from]) then Skip
      else Join(order, edges[1..], outcomes, node)
  }

  method CurrentNodeDisposition<V>(s: Snapshot<V>) returns (r: Option<Disposition>)
    ensures r.None? <==> s.next >= |s.order|
    ensures r.Some? ==> r.value == Join(s.order, s.edges, s.outcomes, s.order[s.next])
  {
    if s.next >= |s.order| { return None; }
    var node := s.order[s.next];
    assert s.edges[0..] == s.edges;
    for i := 0 to |s.edges|
      invariant Join(s.order, s.edges, s.outcomes, node) == Join(s.order, s.edges[i..], s.outcomes, node)
    {
      var e := s.edges[i];
      assert s.edges[i..][1..] == s.edges[i + 1..];
      if e.to == node && e.from in s.order {
        if e.from !in s.outcomes { return Some(Blocked); }
        if !Matches(e, s.outcomes[e.from]) { return Some(Skip); }
      }
    }
    return Some(Ready);
  }

  predicate Current<V>(s: Snapshot<V>, node: string) {
    s.next < |s.order| && s.order[s.next] == node && node !in s.outcomes
  }

  function RecordSucceeded<V>(s: Snapshot<V>, node: string, output: V, route: string, ports: seq<string>): Option<Snapshot<V>> {
    if !Current(s, node) then None
    else Some(s.(outputs := s.outputs[node := output],
                 outcomes := s.outcomes[node := Outcome(Succeeded, route, ports)], next := s.next + 1))
  }

  /** A failure is handled when some edge to an active node is taken because of it. */
  predicate FailureHandled<V>(s: Snapshot<V>, node: string, o: Outcome) {
    o.status == Failed &&
    exists i :: 0 <= i < |s.edges| && s.edges[i].from == node && s.edges[i].to in s.order && Matches(s.edges[i], o)
  }

  function RecordFailed<V>(s: Snapshot<V>, node: string): Option<(Snapshot<V>, bool)> {
    if !Current(s, node) then None
    else
      var o := Outcome(Failed, "", []);
      Some((s.(outcomes := s.outcomes[node := o], next := s.next + 1), FailureHandled(s, node, o)))
  }

  function RecordSkipped<V>(s: Snapshot<V>, node: string): Option<Snapshot<V>> {
    if !Current(s, node) then None
    else Some(s.(outcomes := s.outcomes[node := Outcome(Skipped, "", [])], next := s.next + 1))
  }

  // -------------------------------------------------------------- executions

  function Start<V>(order: seq<string>, edges: seq<Edge>): Snapshot<V> {
    Snapshot(order, edges, 0, map[], map[])
  }

  /** One terminal node result recorded in the way the join allows. */
  ghost predicate Step<V(!new)>(s: Snapshot<V>, t: Snapshot<V>)
    ensures Step(s, t) ==> s.next < |s.order|
  {
    s.next < |s.order| &&
    var node := s.order[s.next];
    match Join(s.order, s.edges, s.outcomes, node)
    case Blocked => false
    case Skip => RecordSkipped(s, node) == Some(t)
    case Ready =>
      || (exists output, route, ports :: RecordSucceeded(s, node, output, route, ports) == Some(t))
      || (RecordFailed(s, node).Some? && RecordFailed(s, node).value.0 == t)
  }

  ghost predicate Execution<V(!new)>(trace: seq<Snapshot<V>>, order: seq<string>, edges: seq<Edge>) {
    && trace != [] && trace[0] == Start(order, edges)
    && forall i :: 0 <= i < |trace| - 1 ==> Step(trace[i], trace[i + 1])
  }

  /** Every incoming edge of `node` has a recorded source that it matches. */
  ghost predicate AllMatch(order: seq<string>, edges: seq<Edge>, outcomes: map<string, Outcome>, node: string) {
    forall e :: e in edges && e.to == node && e.from in order ==> e.from in outcomes && Matches(e, outcomes[e.from])
  }

  ghost predicate EdgesForward(order: seq<string>, edges: seq<Edge>) {
    && NoDuplicates(order)
    && forall e, i, j :: e in edges && 0 <= i < |order| && 0 <= j < |order| && e.from == order[i] && e.to == order[j] ==> i < j
  }

  ghost predicate Recorded<V>(s: Snapshot<V>, order: seq<string>, edges: seq<Edge>) {
    && s.order == order && s.edges == edges && s.next <= |order|
    && s.outcomes.Keys == Elements(order[..s.next])
    && (forall n :: n in s.outputs <==> n in s.outcomes && s.outcomes[n].status == Succeeded)
    && (forall n :: n in s.outcomes ==>
          (s.outcomes[n].status == Skipped <==> !AllMatch(order, edges, s.outcomes, n)))
  }

  lemma {:induction false} JoinMeaning(order: seq<string>, edges: seq<Edge>, outcomes: map<string, Outcome>, node: string)
    ensures Join(order, edges, outcomes, node) == Ready <==> AllMatch(order, edges, outcomes, node)
    ensures Join(order, edges, outcomes, node) == Blocked ==>
              exists e :: e in edges && e.to == node && e.from in order && e.from !in outcomes
  {
    if edges != [] {
      JoinMeaning(order, edges[1..], outcomes, node);
      assert edges == [edges[0]] + edges[1..];
    }
  }

  /** The predecessors of the current node lie in the recorded prefix. */
  lemma PredecessorsRecorded<V>(s: Snapshot<V>, order: seq<string>, edges: seq<Edge>, e: Edge)
    requires EdgesForward(order, edges) && Recorded(s, order, edges) && e in edges && e.from in order
    requires (s.next < |order| && e.to == order[s.next]) || e.to in s.outcomes
    ensures e.from in s.outcomes
  {
    var i :| 0 <= i < |order| && order[i] == e.from;
    if e.to in s.outcomes {
      assert e.to in order[..s.next];
      var j :| 0 <= j < s.next && order[j] == e.to;
      assert order[..s.next][i] == e.from;
    } else {
      assert order[..s.next][i] == e.from;
    }
  }

  /** The current node is never blocked. */
  lemma NeverBlocked<V>(s: Snapshot<V>, order: seq<string>, edges: seq<Edge>)
    requires EdgesForward(order, edges) && Recorded(s, order, edges) && s.next < |order|
    ensures Join(order, edges, s.outcomes, order[s.next]) != Blocked
    ensures Current(s, order[s.next])
  {
    var node := order[s.next];
    JoinMeaning(order, edges, s.outcomes, node);
    if Join(order, edges, s.outcomes, node) == Blocked {
      var e :| e in edges && e.to == node && e.from in order && e.from !in s.outcomes;
      PredecessorsRecorded(s, order, edges, e);
    }
    assert node !in order[..s.next];
  }

  /** Recording a later outcome does not disturb the joins already decided. */
  lemma RecordKeepsJoins<V>(s: Snapshot<V>, order: seq<string>, edges: seq<Edge>, n: string, o: Outcome)
    requires EdgesForward(order, edges) && Recorded(s, order, edges) && s.next < |order|
    requires n in s.outcomes || n == order[s.next]
    ensures AllMatch(order, edges, s.outcomes[order[s.next] := o], n) <==> AllMatch(order, edges, s.outcomes, n)
  {
    NeverBlocked(s, order, edges);
    forall e | e in edges && e.to == n && e.from in order ensures e.from in s.outcomes {
      PredecessorsRecorded(s, order, edges, e);
    }
  }

  /** A step records, for the current node, an outcome that is a skip exactly
      when the join did not match, and an output exactly on success. */
  ghost predicate Records<V>(s: Snapshot<V>, t: Snapshot<V>, node: string, o: Outcome, ready: bool) {
    && t.order == s.order && t.edges == s.edges && t.next == s.next + 1
    && t.outcomes == s.outcomes[node := o]
    && (o.status == Skipped <==> !ready)
    && t.outputs.Keys == (if o.status == Succeeded then s.outputs.Keys + {node} else s.outputs.Keys)
  }

  lemma StepRecords<V(!new)>(s: Snapshot<V>, t: Snapshot<V>)
    requires Step(s, t)
    ensures var node := s.order[s.next];
            node in t.outcomes && node !in s.outcomes &&
            Records(s, t, node, t.outcomes[node], Join(s.order, s.edges, s.outcomes, node) == Ready)
  {
  }

  lemma StepKeepsRecorded<V(!new)>(s: Snapshot<V>, t: Snapshot<V>, order: seq<string>, edges: seq<Edge>)
    requires EdgesForward(order, edges) && Recorded(s, order, edges) && Step(s, t)
    ensures Recorded(t, order, edges)
  {
    hide Join, AllMatch, EdgesForward, Step, Recorded;
    var node := RecordedNext(s, order, edges);
    StepRecords(s, t);
    NeverBlocked(s, order, edges);
    JoinMeaning(order, edges, s.outcomes, node);
    var o := t.outcomes[node];
    forall n | n in s.outcomes || n == node
      ensures AllMatch(order, edges, t.outcomes, n) <==> AllMatch(order, edges, s.outcomes, n)
    {
      RecordKeepsJoins(s, order, edges, n, o);
    }
    RecordedGrows(s, t, order, edges, node, o);
  }

  lemma RecordedNext<V(!new)>(s: Snapshot<V>, order: seq<string>, edges: seq<Edge>) returns (node: string)
    requires Recorded(s, order, edges) && s.next < |s.order|
    ensures s.order == order && s.edges == edges && s.next < |order| && node == order[s.next]
  {
    node := order[s.next];
  }

  lemma RecordedGrows<V>(s: Snapshot<V>, t: Snapshot<V>, order: seq<string>, edges: seq<Edge>, node: string, o: Outcome)
    requires Recorded(s, order, edges) && s.next < |order| && node == order[s.next] && node !in s.outcomes
    requires Records(s, t, node, o, AllMatch(order, edges, s.outcomes, node))
    requires forall n :: n in s.outcomes || n == node ==>
      (AllMatch(order, edges, t.outcomes, n) <==> AllMatch(order, edges, s.outcomes, n))
    ensures Recorded(t, order, edges)
  {
    hide AllMatch;
    assert order[..s.next + 1] == order[..s.next] + [node];
  }

  lemma StartRecords<V>(order: seq<string>, edges: seq<Edge>)
    ensures Recorded(Start<V>(order, edges), order, edges)
  {
  }

  lemma {:induction false} ExecutionRecords<V(!new)>(trace: seq<Snapshot<V>>, order: seq<string>, edges: seq<Edge>)
    requires EdgesForward(order, edges) && Execution(trace, order, edges)
    ensures Recorded(trace[|trace| - 1], order, edges)
  {
    StartRecords<V>(order, edges);
    hide Recorded, Step, EdgesForward;
    if |trace| > 1 {
      var front := trace[..|trace| - 1];
      assert forall i :: 0 <= i < |front| - 1 ==> Step(trace[i], trace[i + 1]);
      ExecutionRecords(front, order, edges);
      assert Step(trace[|trace| - 2], trace[|trace| - 1]);
      StepKeepsRecorded(trace[|trace| - 2], trace[|trace| - 1], order, edges);
    }
  }

  // ------------------------------------------------------------- entry plans

  /** The order of one entrypoint for the graph of the nodes it reaches; edges from
      other nodes are not part of it. */
  ghost predicate PlanFor(g: Graph, order: seq<string>, edges: seq<Edge>, entry: string) {
    && WellFormed(g) && IsOrder(g, order) && entry in g
    && (forall a, b :: HasEdge(g, a, b) <==> a in g && EdgeBetween(edges, a, b))
    && (forall n :: n in g ==> ReachableFrom(g, [entry], "", n))
  }

  lemma PlanIsForward(g: Graph, order: seq<string>, edges: seq<Edge>, entry: string)
    requires PlanFor(g, order, edges, entry)
    ensures EdgesForward(order, edges)
  {
    forall e, i, j | e in edges && 0 <= i < |order| && 0 <= j < |order| && e.from == order[i] && e.to == order[j]
      ensures i < j
    {
      assert HasEdge(g, order[i], order[j]);
    }
  }

  /** Nodes that ran are closed under predecessors, hence under whole paths. */
  lemma {:induction false} RanIsClosed<V>(
      s: Snapshot<V>, g: Graph, order: seq<string>, edges: seq<Edge>, entry: string, p: seq<string>, k: nat)
    requires PlanFor(g, order, edges, entry) && Recorded(s, order, edges)
    requires IsPath(g, p) && k < |p|
    requires p[|p| - 1] in s.outcomes && s.outcomes[p[|p| - 1]].status != Skipped
    ensures p[k] in s.outcomes && s.outcomes[p[k]].status != Skipped
    decreases |p| - k
  {
    hide PlanFor, Recorded;
    if k < |p| - 1 {
      RanIsClosed(s, g, order, edges, entry, p, k + 1);
      assert HasEdge(g, p[k], p[k + 1]);
      PredecessorRan(s, g, order, edges, entry, p[k], p[k + 1]);
    }
  }

  lemma PredecessorRan<V>(s: Snapshot<V>, g: Graph, order: seq<string>, edges: seq<Edge>, entry: string, a: string, b: string)
    requires PlanFor(g, order, edges, entry) && Recorded(s, order, edges) && HasEdge(g, a, b)
    requires b in s.outcomes && s.outcomes[b].status != Skipped
    ensures a in s.outcomes && s.outcomes[a].status != Skipped
  {
    hide IsOrder;
    var e :| e in edges && e.from == a && e.to == b;
    OrderCovers(g, order);
    InElements(order, a);
    assert AllMatch(order, edges, s.outcomes, b);
    assert Matches(e, s.outcomes[a]);
  }

  /** Once any sink ran, no node visible to the result was skipped. */
  lemma ResultNodesRan<V(!new)>(
      trace: seq<Snapshot<V>>, g: Graph, order: seq<string>, edges: seq<Edge>, entry: string, sink: string, n: string)
    requires PlanFor(g, order, edges, entry) && Execution(trace, order, edges)
    requires IsSink(g, [entry], sink) && ResultVisible(g, [entry], n)
    requires var s := trace[|trace| - 1]; sink in s.outcomes && s.outcomes[sink].status != Skipped
    ensures var s := trace[|trace| - 1]; n in s.outcomes && s.outcomes[n].status != Skipped
  {
    PlanIsForward(g, order, edges, entry);
    ExecutionRecords(trace, order, edges);
    var p :| RouteTo(g, [entry], "", p, sink);
    assert Dominating(g, [entry], n, sink);
    var k :| 0 <= k < |p| && p[k] == n;
    RanIsClosed(trace[|trace| - 1], g, order, edges, entry, p, k);
  }

  /** The nodes that an entrypoint reaches, with the edges between them. */
  function EntryGraph(g: Graph, order: seq<string>): Graph {
    map n | n in g && n in order :: g[n]
  }

  /** Every entry order of a compiled definition meets the hypotheses of the execution lemmas. */
  lemma EntryPlanFits(d: Definition, entries: seq<string>, plan: Plan, name: string)
    requires Compilable(d, entries) && IsPlan(d, plan) && name in d.entrypoints
    ensures PlanFor(EntryGraph(GraphOf(Elements(d.nodes), plan.edges), plan.entryOrders[name]),
                    plan.entryOrders[name], plan.edges, d.entrypoints[name])
  {
    hide GraphOf, Dominating, EdgesAccepted, IsOrder, LexAtMost, NormalizeAll, ReachableFrom, IsEntryOrder, Visible,
         WellFormed, ResultVisible, HasEdge, EdgeBetween, EntryNodes, EntryGraph, PlanFor;
    var g := GraphOf(Elements(d.nodes), plan.edges);
    GraphFacts(Elements(d.nodes), plan.edges);
    EntryNodeIsDeclared(d, name);
    if "" in g { ReachedIsNamed(g, entries, ""); }
    EntryOrderFits(g, plan.order, plan.edges, d.entrypoints[name], plan.entryOrders[name]);
  }

  lemma EntryNodeIsDeclared(d: Definition, name: string)
    requires d.entrypoints.Values <= Elements(d.nodes) && name in d.entrypoints
    ensures d.entrypoints[name] in Elements(d.nodes)
  {
    assert d.entrypoints[name] in d.entrypoints.Values;
  }

  lemma ReachedIsNamed(g: Graph, starts: seq<string>, n: string)
    requires ReachableFrom(g, starts, "", n)
    ensures n != ""
  {
    var p :| RouteTo(g, starts, "", p, n);
    assert p[|p| - 1] in p;
  }

  lemma EntryOrderFits(g: Graph, order: seq<string>, edges: seq<Edge>, entry: string, entryOrder: seq<string>)
    requires WellFormed(g) && IsOrder(g, order) && entry in g && "" !in g && IsEntryOrder(g, order, entry, entryOrder)
    requires forall a, b :: HasEdge(g, a, b) <==> EdgeBetween(edges, a, b)
    ensures PlanFor(EntryGraph(g, entryOrder), entryOrder, edges, entry)
  {
    hide ReachableFrom, IsOrder, WellFormed, EdgeBetween;
    var reached :| entryOrder == Restrict(order, reached) && ReachedSet(g, entry, reached);
    var active := EntryGraph(g, entryOrder);
    OrderCovers(g, order);
    forall n ensures n in active <==> n in g && n in reached { InElements(order, n); }
    EntryIsReached(g, entry);
    ReachedIsClosed(g, active, entry, reached);
    RestrictIsOrder(g, active, order, reached);
    forall n | n in active ensures ReachableFrom(active, [entry], "", n) { ReachedInside(g, active, entry, reached, n); }
  }

  lemma EntryIsReached(g: Graph, entry: string)
    requires entry != ""
    ensures ReachableFrom(g, [entry], "", entry)
  {
    assert RouteTo(g, [entry], "", [entry], entry);
  }

  lemma ReachedFurther(g: Graph, entry: string, n: string, m: string)
    requires ReachableFrom(g, [entry], "", n) && HasEdge(g, n, m) && m != ""
    ensures ReachableFrom(g, [entry], "", m)
  {
    var p :| RouteTo(g, [entry], "", p, n);
    var q := p + [m];
    forall i | 0 <= i < |q| - 1 ensures HasEdge(g, q[i], q[i + 1]) {
      if i < |p| - 1 { assert HasEdge(g, p[i], p[i + 1]); }
    }
    assert RouteTo(g, [entry], "", q, m);
  }

  lemma ReachedIsClosed(g: Graph, active: Graph, entry: string, reached: set<string>)
    requires WellFormed(g) && "" !in g && ReachedSet(g, entry, reached)
    requires forall n :: n in active <==> n in g && n in reached
    requires forall n :: n in active ==> active[n] == g[n]
    ensures WellFormed(active)
  {
    hide ReachableFrom;
    forall n, m | n in active && m in active[n] ensures m in active { ReachedFurther(g, entry, n, m); }
  }

  lemma ReachedInside(g: Graph, active: Graph, entry: string, reached: set<string>, n: string)
    requires WellFormed(g) && entry in g && ReachedSet(g, entry, reached) && n in active
    requires forall m :: m in active <==> m in g && m in reached
    requires forall m :: m in active ==> active[m] == g[m]
    ensures ReachableFrom(active, [entry], "", n)
  {
    var p :| RouteTo(g, [entry], "", p, n);
    hide ReachableFrom, RouteTo;
    RouteFacts(g, [entry], p, n);
    forall k | 0 <= k < |p| ensures p[k] in active { StopIsReached(g, entry, p, n, k); }
    assert IsPath(active, p) by {
      forall i | 0 <= i < |p| - 1 ensures HasEdge(active, p[i], p[i + 1]) { assert HasEdge(g, p[i], p[i + 1]); }
    }
    RouteFrom(active, entry, p, n);
  }

  lemma RouteFacts(g: Graph, starts: seq<string>, p: seq<string>, n: string)
    requires RouteTo(g, starts, "", p, n)
    ensures IsPath(g, p) && p[0] in starts && p[|p| - 1] == n && "" !in p
  {
  }

  lemma RouteFrom(g: Graph, entry: string, p: seq<string>, n: string)
    requires IsPath(g, p) && p[0] in [entry] && p[|p| - 1] == n && "" !in p
    ensures ReachableFrom(g, [entry], "", n)
  {
    assert RouteTo(g, [entry], "", p, n);
  }

  lemma StopIsReached(g: Graph, entry: string, p: seq<string>, n: string, k: nat)
    requires WellFormed(g) && entry in g && RouteTo(g, [entry], "", p, n) && k < |p|
    ensures p[k] in g && ReachableFrom(g, [entry], "", p[k])
  {
    var q := p[..k + 1];
    assert RouteTo(g, [entry], "", q, p[k]);
    if k > 0 { assert HasEdge(g, p[k - 1], p[k]); }
  }

  ghost predicate Before(order: seq<string>, a: string, b: string) {
    exists i, j :: 0 <= i < j < |order| && order[i] == a && order[j] == b
  }

  ghost predicate KeepsOrder(order: seq<string>, r: seq<string>) {
    forall i, j :: 0 <= i < j < |r| ==> Before(order, r[i], r[j])
  }

  lemma {:induction false} RestrictKeepsOrder(order: seq<string>, reached: set<string>)
    ensures KeepsOrder(order, Restrict(order, reached))
  {
    if order != [] {
      var front, last := order[..|order| - 1], order[|order| - 1];
      assert order == front + [last];
      RestrictKeepsOrder(front, reached);
      LastKeepsOrder(front, Restrict(front, reached), last, if last in reached then [last] else []);
    }
  }

  lemma LastKeepsOrder(front: seq<string>, rest: seq<string>, last: string, end: seq<string>)
    requires KeepsOrder(front, rest) && end in {[], [last]} && forall n :: n in rest ==> n in front
    ensures KeepsOrder(front + [last], rest + end)
  {
    var order, r := front + [last], rest + end;
    forall i, j | 0 <= i < j < |r| ensures Before(order, r[i], r[j]) {
      if j < |rest| {
        assert Before(front, rest[i], rest[j]);
        var a, b :| 0 <= a < b < |front| && front[a] == rest[i] && front[b] == rest[j];
        assert order[a] == r[i] && order[b] == r[j];
      } else {
        assert rest[i] in front;
        var a :| 0 <= a < |front| && front[a] == rest[i];
        assert order[a] == r[i] && order[|front|] == r[j];
      }
    }
  }

  /** Edges only go forward, so never back and never to the node itself. */
  lemma NotBackward(g: Graph, order: seq<string>, a: string, b: string)
    requires IsOrder(g, order) && (Before(order, a, b) || (a == b && a in order))
    ensures !HasEdge(g, b, a) && (a != b || !Before(order, a, b))
  {
  }

  lemma RestrictIsOrder(g: Graph, active: Graph, order: seq<string>, reached: set<string>)
    requires IsOrder(g, order)
    requires forall n :: n in active <==> n in g && n in reached
    requires forall n :: n in active ==> active[n] == g[n]
    ensures IsOrder(active, Restrict(order, reached))
  {
    hide IsOrder, Before;
    var r := Restrict(order, reached);
    RestrictKeepsOrder(order, reached);
    OrderCovers(g, order);
    forall i, j | 0 <= i < j < |r| ensures r[i] != r[j] { NotBackward(g, order, r[i], r[j]); }
    forall i, j | 0 <= j <= i < |r| ensures !HasEdge(active, r[i], r[j]) { NotBackward(g, order, r[j], r[i]); }
    forall n ensures n in Elements(r) <==> n in active.Keys { InElements(order, n); }
    OrderFrom(active, r);
  }

  lemma OrderFrom(g: Graph, r: seq<string>)
    requires forall i, j :: 0 <= i < j < |r| ==> r[i] != r[j]
    requires forall i, j :: 0 <= j <= i < |r| ==> !HasEdge(g, r[i], r[j])
    requires forall n :: n in Elements(r) <==> n in g.Keys
    ensures IsOrder(g, r)
  {
  }

  /** A compiled definition with one entrypoint meets the hypotheses of the execution lemmas. */
  lemma CompiledPlanFits(d: Definition, entries: seq<string>, plan: Plan, name: string)
    requires Compilable(d, entries) && IsPlan(d, plan) && EntryNodes(entries, d.entrypoints)
    requires d.entrypoints.Keys == {name}
    ensures PlanFor(GraphOf(Elements(d.nodes), plan.edges), plan.order, plan.edges, d.entrypoints[name])
    ensures plan.entryOrders[name] == plan.order
  {
    hide GraphOf, Dominating, EdgesAccepted, IsOrder, LexAtMost, NormalizeAll, ReachableFrom, IsEntryOrder, Visible,
         WellFormed, ResultVisible, EdgeBetween, EntryNodes;
    var nodes, entry := Elements(d.nodes), d.entrypoints[name];
    var g := GraphOf(nodes, plan.edges);
    GraphFacts(nodes, plan.edges);
    SingleEntry(d, entries, name);
    forall n | n in g ensures ReachableFrom(g, [entry], "", n) { OneEntryReaches(g, entries, entry, n); }
    EntryOrderIsAll(g, plan.order, entry, plan.entryOrders[name]);
  }

  lemma SingleEntry(d: Definition, entries: seq<string>, name: string)
    requires EntryNodes(entries, d.entrypoints) && d.entrypoints.Keys == {name}
    ensures forall e :: e in entries ==> e == d.entrypoints[name]
    ensures d.entrypoints[name] in d.entrypoints.Values
  {
  }

  lemma GraphFacts(nodes: set<string>, edges: seq<Edge>)
    requires EdgesAccepted(nodes, edges)
    ensures WellFormed(GraphOf(nodes, edges)) && GraphOf(nodes, edges).Keys == nodes
    ensures forall a, b :: HasEdge(GraphOf(nodes, edges), a, b) <==> EdgeBetween(edges, a, b)
  {
    GraphIsWellFormed(nodes, edges);
    forall a, b ensures HasEdge(GraphOf(nodes, edges), a, b) <==> EdgeBetween(edges, a, b) {
      GraphHasEdges(nodes, edges, a, b);
    }
  }

  lemma OneEntryReaches(g: Graph, entries: seq<string>, entry: string, n: string)
    requires ReachableFrom(g, entries, "", n) && forall e :: e in entries ==> e == entry
    ensures ReachableFrom(g, [entry], "", n)
  {
    var p :| RouteTo(g, entries, "", p, n);
    assert RouteTo(g, [entry], "", p, n);
  }

  lemma EntryOrderIsAll(g: Graph, order: seq<string>, entry: string, entryOrder: seq<string>)
    requires IsEntryOrder(g, order, entry, entryOrder) && IsOrder(g, order)
    requires forall n :: n in g ==> ReachableFrom(g, [entry], "", n)
    ensures entryOrder == order
  {
    hide ReachableFrom;
    var reached :| entryOrder == Restrict(order, reached) && ReachedSet(g, entry, reached);
    forall n | n in order ensures n in reached { InElements(order, n); }
    RestrictKeepsAll(order, reached);
  }

  lemma {:induction false} RestrictKeepsAll(order: seq<string>, reached: set<string>)
    requires forall n :: n in order ==> n in reached
    ensures Restrict(order, reached) == order
  {
    if order != [] {
      var front := order[..|order| - 1];
      assert order == front + [order[|order| - 1]];
      RestrictKeepsAll(front, reached);
    }
  }
}
