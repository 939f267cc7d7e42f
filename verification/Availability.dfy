/** When a node becomes ready, which outputs are certain to be recorded: exactly
    when a referenced output is available on every execution of a plan. */
module Availability {
  import opened Prelude
  import opened Text
  import opened Graph
  import opened Reachability
  import opened Workflow
  import opened Routing

  /** An execution that has just made `node` ready. */
  ghost predicate MakesReady<V(!new)>(trace: seq<Snapshot<V>>, order: seq<string>, edges: seq<Edge>, node: string) {
    && Execution(trace, order, edges)
    && var s := trace[|trace| - 1];
       s.next < |order| && order[s.next] == node && Join(order, edges, s.outcomes, node) == Ready
  }

  /** Whenever `node` becomes ready, the output of `producer` is recorded. */
  ghost predicate AlwaysAvailable<V(!new)>(order: seq<string>, edges: seq<Edge>, producer: string, node: string) {
    forall trace: seq<Snapshot<V>> :: MakesReady(trace, order, edges, node) ==> producer in trace[|trace| - 1].outputs
  }

  ghost predicate CanBeReady<V(!new)>(order: seq<string>, edges: seq<Edge>, node: string) {
    exists trace: seq<Snapshot<V>> :: MakesReady(trace, order, edges, node)
  }

  /** `b` is `a` or comes after it. */
  ghost predicate LeadsTo(g: Graph, a: string, b: string) {
    exists p :: IsPath(g, p) && p[0] == a && p[|p| - 1] == b
  }

  /** Route and source port select among successes only. */
  ghost predicate SelectorsOnSuccess(edges: seq<Edge>) {
    forall e :: e in edges && e.condition != OnSuccess ==> e.route == "" && e.sourcePort == ""
  }

  /** The producer is reached, and an edge taken only on its success goes to `node` or to a node before it. */
  ghost predicate SuccessLeads(g: Graph, edges: seq<Edge>, producer: string, node: string) {
    producer in g && exists e :: e in edges && e.from == producer && e.condition == OnSuccess && LeadsTo(g, e.to, node)
  }

  lemma LeadsToItself(g: Graph, a: string)
    ensures LeadsTo(g, a, a)
  {
    assert IsPath(g, [a]) && [a][0] == a;
  }

  lemma LeadsFurther(g: Graph, a: string, b: string, c: string)
    requires HasEdge(g, a, b) && LeadsTo(g, b, c)
    ensures LeadsTo(g, a, c)
  {
    var p :| IsPath(g, p) && p[0] == b && p[|p| - 1] == c;
    var q := [a] + p;
    forall i | 0 <= i < |q| - 1 ensures HasEdge(g, q[i], q[i + 1]) {
      if i > 0 { assert HasEdge(g, p[i - 1], p[i]); }
    }
    assert IsPath(g, q) && q[0] == a && q[|q| - 1] == c;
  }

  // ---------------------------------------------------------- what is certain

  /** Where the join of a node matches, so did that of every node before it. */
  lemma JoinsBefore<V>(s: Snapshot<V>, g: Graph, order: seq<string>, edges: seq<Edge>, entry: string, a: string, b: string)
    requires PlanFor(g, order, edges, entry) && Recorded(s, order, edges)
    requires AllMatch(order, edges, s.outcomes, b) && LeadsTo(g, a, b)
    ensures AllMatch(order, edges, s.outcomes, a)
    ensures a != b ==> a in s.outcomes && s.outcomes[a].status != Skipped
  {
    hide PlanFor, AllMatch, Recorded;
    var p :| IsPath(g, p) && p[0] == a && p[|p| - 1] == b;
    if |p| > 1 {
      var front := p[..|p| - 1];
      assert HasEdge(g, p[|p| - 2], b);
      MatchedRan(s, g, order, edges, entry, p[|p| - 2], b);
      assert IsPath(g, front);
      RanIsClosed(s, g, order, edges, entry, front, 0);
      RanMatched(s, order, edges, a);
    }
  }

  lemma RanMatched<V>(s: Snapshot<V>, order: seq<string>, edges: seq<Edge>, a: string)
    requires Recorded(s, order, edges) && a in s.outcomes && s.outcomes[a].status != Skipped
    ensures AllMatch(order, edges, s.outcomes, a)
  {
    hide AllMatch;
  }

  lemma MatchedRan<V>(s: Snapshot<V>, g: Graph, order: seq<string>, edges: seq<Edge>, entry: string, a: string, b: string)
    requires PlanFor(g, order, edges, entry) && AllMatch(order, edges, s.outcomes, b) && HasEdge(g, a, b)
    ensures a in s.outcomes && s.outcomes[a].status != Skipped
  {
    hide IsOrder;
    var e :| e in edges && e.from == a && e.to == b;
    OrderCovers(g, order);
    InElements(order, a);
    assert Matches(e, s.outcomes[a]);
  }

  /** When a node is ready, the output of every producer that a success edge joins
      to it, or to a node before it, is recorded. */
  lemma ReferencedOutputsRecorded<V(!new)>(
      trace: seq<Snapshot<V>>, g: Graph, order: seq<string>, edges: seq<Edge>, entry: string, producer: string, node: string)
    requires PlanFor(g, order, edges, entry) && MakesReady(trace, order, edges, node)
    requires SuccessLeads(g, edges, producer, node)
    ensures producer in trace[|trace| - 1].outputs
  {
    var s := trace[|trace| - 1];
    PlanIsForward(g, order, edges, entry);
    ExecutionRecords(trace, order, edges);
    JoinMeaning(order, edges, s.outcomes, node);
    var e :| e in edges && e.from == producer && e.condition == OnSuccess && LeadsTo(g, e.to, node);
    JoinsBefore(s, g, order, edges, entry, e.to, node);
    hide IsOrder, LeadsTo, Execution, Join;
    assert HasEdge(g, producer, e.to);
    OrderCovers(g, order);
    InElements(order, producer);
    assert Matches(e, s.outcomes[producer]);
  }

  // ------------------------------------------------------ what can be missing

  /** The same outcome, or both times a failure. */
  predicate Alike(a: Outcome, b: Outcome) {
    a == b || (a.status == Failed && b.status == Failed)
  }

  /** The producer has not succeeded, and before `node` all else went as in `base`. */
  ghost predicate Spoils<V>(s: Snapshot<V>, base: Snapshot<V>, g: Graph, producer: string, node: string) {
    forall n :: n in s.outcomes ==> Spoilt(s.outcomes[n], n, base, g, producer, node)
  }

  ghost predicate Spoilt<V>(o: Outcome, n: string, base: Snapshot<V>, g: Graph, producer: string, node: string) {
    if n == producer then o.status != Succeeded && (LeadsTo(g, n, node) ==> o.status == Failed)
    else LeadsTo(g, n, node) ==> n in base.outcomes && Alike(o, base.outcomes[n])
  }

  lemma AcceptedSelectors(nodes: set<string>, edges: seq<Edge>)
    requires EdgesAccepted(nodes, edges)
    ensures SelectorsOnSuccess(edges)
  {
  }

  lemma FailureMatches(e: Edge, o: Outcome)
    requires (e.condition != OnSuccess ==> e.route == "" && e.sourcePort == "") && o.status == Failed
    ensures e.condition != OnSuccess ==> Matches(e, o)
    ensures Matches(e, o) ==> e.condition != OnSuccess
  {
  }

  /** A node before `node` is ready in the spoilt execution too. */
  lemma StillReady<V>(
      s: Snapshot<V>, base: Snapshot<V>, g: Graph, order: seq<string>, edges: seq<Edge>, entry: string,
      producer: string, node: string, n: string)
    requires PlanFor(g, order, edges, entry) && SelectorsOnSuccess(edges) && !SuccessLeads(g, edges, producer, node)
    requires Recorded(s, order, edges) && Recorded(base, order, edges) && AllMatch(order, edges, base.outcomes, node)
    requires Spoils(s, base, g, producer, node) && s.next < |order| && order[s.next] == n && LeadsTo(g, n, node)
    ensures AllMatch(order, edges, s.outcomes, n)
  {
    PlanIsForward(g, order, edges, entry);
    JoinsBefore(base, g, order, edges, entry, n, node);
    forall e | e in edges && e.to == n && e.from in order ensures e.from in s.outcomes && Matches(e, s.outcomes[e.from]) {
      PredecessorsRecorded(s, order, edges, e);
      StillMatches(s.outcomes[e.from], base, g, order, edges, entry, producer, node, e);
    }
  }

  lemma EdgeInside(g: Graph, order: seq<string>, edges: seq<Edge>, entry: string, e: Edge)
    requires PlanFor(g, order, edges, entry) && e in edges && e.from in order
    ensures e.from in g && HasEdge(g, e.from, e.to)
  {
    hide IsOrder;
    OrderCovers(g, order);
    InElements(order, e.from);
  }

  lemma StillMatches<V>(
      o: Outcome, base: Snapshot<V>, g: Graph, order: seq<string>, edges: seq<Edge>, entry: string,
      producer: string, node: string, e: Edge)
    requires PlanFor(g, order, edges, entry) && SelectorsOnSuccess(edges) && !SuccessLeads(g, edges, producer, node)
    requires e in edges && e.from in order && LeadsTo(g, e.to, node) && AllMatch(order, edges, base.outcomes, e.to)
    requires Spoilt(o, e.from, base, g, producer, node)
    ensures Matches(e, o)
  {
    EdgeInside(g, order, edges, entry, e);
    LeadsFurther(g, e.from, e.to, node);
    hide PlanFor, LeadsTo, SelectorsOnSuccess, Matches;
    if e.from == producer {
      FailureMatches(e, o);
    } else {
      assert Matches(e, base.outcomes[e.from]);
      if o != base.outcomes[e.from] {
        FailureMatches(e, base.outcomes[e.from]);
        FailureMatches(e, o);
      }
    }
  }

  /** The spoilt execution, up to its k-th step. */
  lemma {:induction false} SpoiltExecution<V(!new)>(
      base: seq<Snapshot<V>>, g: Graph, order: seq<string>, edges: seq<Edge>, entry: string,
      producer: string, node: string, k: nat)
    returns (trace: seq<Snapshot<V>>)
    requires PlanFor(g, order, edges, entry) && SelectorsOnSuccess(edges) && !SuccessLeads(g, edges, producer, node)
    requires MakesReady(base, order, edges, node) && k <= base[|base| - 1].next
    ensures Execution(trace, order, edges) && trace[|trace| - 1].next == k
    ensures Recorded(trace[|trace| - 1], order, edges) && Spoils(trace[|trace| - 1], base[|base| - 1], g, producer, node)
    decreases k
  {
    if k == 0 {
      trace := [Start(order, edges)];
      StartRecords<V>(order, edges);
    } else {
      var front := SpoiltExecution(base, g, order, edges, entry, producer, node, k - 1);
      var s := front[|front| - 1];
      var t := SpoiltStep(s, base, g, order, edges, entry, producer, node);
      PlanIsForward(g, order, edges, entry);
      hide PlanFor, SelectorsOnSuccess, SuccessLeads, Recorded, Spoils, Join;
      StepKeepsRecorded(s, t, order, edges);
      trace := Continued(front, t, order, edges);
    }
  }

  lemma Continued<V(!new)>(front: seq<Snapshot<V>>, t: Snapshot<V>, order: seq<string>, edges: seq<Edge>)
    returns (trace: seq<Snapshot<V>>)
    requires Execution(front, order, edges) && Step(front[|front| - 1], t)
    ensures Execution(trace, order, edges) && trace[|trace| - 1] == t
  {
    hide Step;
    trace := front + [t];
    forall i | 0 <= i < |trace| - 1 ensures Step(trace[i], trace[i + 1]) {
      if i < |front| - 1 { assert Step(front[i], front[i + 1]); }
    }
  }

  lemma SpoiltStep<V(!new)>(
      s: Snapshot<V>, base: seq<Snapshot<V>>, g: Graph, order: seq<string>, edges: seq<Edge>, entry: string,
      producer: string, node: string)
    returns (t: Snapshot<V>)
    requires PlanFor(g, order, edges, entry) && SelectorsOnSuccess(edges) && !SuccessLeads(g, edges, producer, node)
    requires MakesReady(base, order, edges, node) && Recorded(s, order, edges) && s.next < base[|base| - 1].next
    requires Spoils(s, base[|base| - 1], g, producer, node)
    ensures Step(s, t) && t.next == s.next + 1 && Spoils(t, base[|base| - 1], g, producer, node)
  {
    var b, n := base[|base| - 1], order[s.next];
    PlanIsForward(g, order, edges, entry);
    ExecutionRecords(base, order, edges);
    JoinMeaning(order, edges, b.outcomes, node);
    JoinMeaning(order, edges, s.outcomes, n);
    NeverBlocked(s, order, edges);
    if LeadsTo(g, n, node) {
      StillReady(s, b, g, order, edges, entry, producer, node, n);
      RanBefore(b, g, order, edges, entry, n, node, s.next);
    }
    hide PlanFor, SelectorsOnSuccess, SuccessLeads, LeadsTo, AllMatch, EdgesForward, Execution;
    t := SpoiltNext(s, b, g, order, edges, producer, node, n);
  }

  lemma RanBefore<V>(
      b: Snapshot<V>, g: Graph, order: seq<string>, edges: seq<Edge>, entry: string, n: string, node: string, i: nat)
    requires PlanFor(g, order, edges, entry) && Recorded(b, order, edges)
    requires i < b.next < |order| && order[i] == n && order[b.next] == node
    requires AllMatch(order, edges, b.outcomes, node) && LeadsTo(g, n, node)
    ensures n in b.outcomes && b.outcomes[n].status != Skipped
    ensures b.outcomes[n].status == Succeeded ==> n in b.outputs
  {
    assert n != node;
    JoinsBefore(b, g, order, edges, entry, n, node);
  }

  lemma SpoiltNext<V(!new)>(
      s: Snapshot<V>, b: Snapshot<V>, g: Graph, order: seq<string>, edges: seq<Edge>, producer: string, node: string, n: string)
    returns (t: Snapshot<V>)
    requires s.order == order && s.edges == edges && s.next < |order| && order[s.next] == n && Current(s, n)
    requires Join(order, edges, s.outcomes, n) != Blocked
    requires LeadsTo(g, n, node) ==>
      && Join(order, edges, s.outcomes, n) == Ready && n in b.outcomes && b.outcomes[n].status != Skipped
      && (b.outcomes[n].status == Succeeded ==> n in b.outputs)
    requires Spoils(s, b, g, producer, node)
    ensures Step(s, t) && t.next == s.next + 1 && Spoils(t, b, g, producer, node)
  {
    hide Join, LeadsTo;
    if Join(order, edges, s.outcomes, n) == Skip {
      t := RecordSkipped(s, n).value;
    } else if n != producer && LeadsTo(g, n, node) && b.outcomes[n].status == Succeeded {
      var o := b.outcomes[n];
      t := RecordSucceeded(s, n, b.outputs[n], o.route, o.ports).value;
    } else {
      t := RecordFailed(s, n).value.0;
    }
  }

  /** A node that some execution makes ready finds an output recorded on all of
      them exactly if a success edge leads from its producer to the node. */
  lemma AvailableExactly<V(!new)>(
      g: Graph, order: seq<string>, edges: seq<Edge>, entry: string, producer: string, node: string)
    requires PlanFor(g, order, edges, entry) && SelectorsOnSuccess(edges) && CanBeReady<V>(order, edges, node)
    ensures AlwaysAvailable<V>(order, edges, producer, node) <==> SuccessLeads(g, edges, producer, node)
  {
    hide PlanFor, SelectorsOnSuccess, Join, Step, SuccessLeads;
    if SuccessLeads(g, edges, producer, node) {
      forall trace: seq<Snapshot<V>> | MakesReady(trace, order, edges, node) ensures producer in trace[|trace| - 1].outputs {
        ReferencedOutputsRecorded(trace, g, order, edges, entry, producer, node);
      }
    } else {
      var base: seq<Snapshot<V>> :| MakesReady(base, order, edges, node);
      var trace := SpoiltToTheEnd(base, g, order, edges, entry, producer, node);
    }
  }

  lemma SpoiltToTheEnd<V(!new)>(
      base: seq<Snapshot<V>>, g: Graph, order: seq<string>, edges: seq<Edge>, entry: string, producer: string, node: string)
    returns (trace: seq<Snapshot<V>>)
    requires PlanFor(g, order, edges, entry) && SelectorsOnSuccess(edges) && !SuccessLeads(g, edges, producer, node)
    requires MakesReady(base, order, edges, node)
    ensures MakesReady(trace, order, edges, node) && producer !in trace[|trace| - 1].outputs
  {
    var b := base[|base| - 1];
    trace := SpoiltExecution(base, g, order, edges, entry, producer, node, b.next);
    var s := trace[|trace| - 1];
    PlanIsForward(g, order, edges, entry);
    ExecutionRecords(base, order, edges);
    JoinMeaning(order, edges, b.outcomes, node);
    JoinMeaning(order, edges, s.outcomes, node);
    LeadsToItself(g, node);
    StillReady(s, b, g, order, edges, entry, producer, node, node);
    hide PlanFor, SelectorsOnSuccess, SuccessLeads, LeadsTo, AllMatch, EdgesForward, Execution, Join;
  }

  // ----------------------------------------------------------- compiled plans

  /** What one entrypoint of a compiled definition reaches. */
  function EntrySide(d: Definition, plan: Plan, name: string): Graph
    requires name in plan.entryOrders
  {
    EntryGraph(GraphOf(Elements(d.nodes), plan.edges), plan.entryOrders[name])
  }

  lemma CompiledFacts(d: Definition, entries: seq<string>, plan: Plan, name: string)
    requires Compilable(d, entries) && IsPlan(d, plan) && name in d.entrypoints
    ensures name in plan.entryOrders && plan.edges == NormalizeAll(d.edges)
    ensures PlanFor(EntrySide(d, plan, name), plan.entryOrders[name], plan.edges, d.entrypoints[name])
    ensures SelectorsOnSuccess(plan.edges)
  {
    EntryPlanFits(d, entries, plan, name);
    hide PlanFor, SelectorsOnSuccess, EdgesAccepted, IsOrder, LexAtMost, ReachableFrom, Visible, ResultVisible, GraphOf, IsEntryOrder, EntryGraph;
    AcceptedSelectors(Elements(d.nodes), plan.edges);
  }

  /** For every entrypoint of a compiled definition, a node that some execution makes
      ready finds an output recorded on all of them exactly if the entrypoint reaches
      the producer and a success edge leads from there to the node. */
  lemma CompiledReferencesExactly<V(!new)>(d: Definition, entries: seq<string>, plan: Plan, name: string, producer: string, node: string)
    requires Compilable(d, entries) && IsPlan(d, plan) && name in d.entrypoints && name in plan.entryOrders
    requires CanBeReady<V>(plan.entryOrders[name], plan.edges, node)
    ensures AlwaysAvailable<V>(plan.entryOrders[name], plan.edges, producer, node) <==>
            SuccessLeads(EntrySide(d, plan, name), plan.edges, producer, node)
  {
    hide *;
    CompiledFacts(d, entries, plan, name);
    AvailableExactly<V>(EntrySide(d, plan, name), plan.entryOrders[name], plan.edges, d.entrypoints[name], producer, node);
  }

  /** What the compiler accepted: where data edges ask for success, as they do when
      the author leaves the condition out, a ready node finds exactly those of its
      references recorded that its entrypoint reaches. */
  lemma ReadyNodesFindTheirReferences<V(!new)>(
      d: Definition, entries: seq<string>, plan: Plan, name: string, trace: seq<Snapshot<V>>, node: string, producer: string)
    requires Compilable(d, entries) && IsPlan(d, plan) && name in d.entrypoints && name in plan.entryOrders
    requires forall e :: e in plan.edges && e.kind == Data ==> e.condition == OnSuccess
    requires MakesReady(trace, plan.entryOrders[name], plan.edges, node) && producer in Lookup(d.references, node)
    ensures producer in trace[|trace| - 1].outputs <==> producer in plan.entryOrders[name]
  {
    hide *;
    var g, order, entry := EntrySide(d, plan, name), plan.entryOrders[name], d.entrypoints[name];
    CompiledFacts(d, entries, plan, name);
    PlanIsForward(g, order, plan.edges, entry);
    ReadyRecords(trace, order, plan.edges, node);
    if producer in order {
      ReachedIsActive(g, order, plan.edges, entry, producer);
      ReachedIsActive(g, order, plan.edges, entry, node);
      EntryIsPart(d, entries, plan, name, node);
      VisibleReferenceLeads(d, entries, plan, g, node, producer);
      ReferencedOutputsRecorded(trace, g, order, plan.edges, entry, producer, node);
    } else {
      OutputsAreReached(trace[|trace| - 1], order, plan.edges, producer);
    }
  }

  /** With one entrypoint every reference is recorded. */
  lemma SingleEntryFindsAll<V(!new)>(
      d: Definition, entries: seq<string>, plan: Plan, name: string, trace: seq<Snapshot<V>>, node: string)
    requires Compilable(d, entries) && IsPlan(d, plan) && EntryNodes(entries, d.entrypoints) && d.entrypoints.Keys == {name}
    requires forall e :: e in plan.edges && e.kind == Data ==> e.condition == OnSuccess
    requires name in plan.entryOrders && MakesReady(trace, plan.entryOrders[name], plan.edges, node)
    ensures trace != [] && Lookup(d.references, node) <= trace[|trace| - 1].outputs.Keys
  {
    hide *;
    CompiledPlanFits(d, entries, plan, name);
    ReadyRecords(trace, plan.entryOrders[name], plan.edges, node);
    CompiledFacts(d, entries, plan, name);
    assert name in d.entrypoints.Keys;
    forall producer | producer in Lookup(d.references, node) ensures producer in trace[|trace| - 1].outputs {
      ReferenceIsDeclared(d, entries, plan, node, producer);
      ReadyNodesFindTheirReferences(d, entries, plan, name, trace, node, producer);
    }
  }

  lemma ReadyRecords<V(!new)>(trace: seq<Snapshot<V>>, order: seq<string>, edges: seq<Edge>, node: string)
    requires MakesReady(trace, order, edges, node)
    ensures trace != [] && node in order && (EdgesForward(order, edges) ==> Recorded(trace[|trace| - 1], order, edges))
  {
    hide Join, Step, Recorded;
    if EdgesForward(order, edges) { ExecutionRecords(trace, order, edges); }
  }

  lemma OutputsAreReached<V>(s: Snapshot<V>, order: seq<string>, edges: seq<Edge>, producer: string)
    requires Recorded(s, order, edges) && producer !in order
    ensures producer !in s.outputs
  {
    hide AllMatch;
    assert producer !in Elements(order[..s.next]);
  }

  lemma ReachedIsActive(g: Graph, order: seq<string>, edges: seq<Edge>, entry: string, n: string)
    requires PlanFor(g, order, edges, entry) && n in order
    ensures n in g
  {
    hide IsOrder;
    OrderCovers(g, order);
    InElements(order, n);
  }

  lemma EntryIsPart(d: Definition, entries: seq<string>, plan: Plan, name: string, node: string)
    requires Compilable(d, entries) && IsPlan(d, plan) && name in plan.entryOrders && node in EntrySide(d, plan, name)
    ensures node in Elements(d.nodes)
  {
    GraphFacts(Elements(d.nodes), plan.edges);
    hide GraphOf, Compilable, IsPlan;
  }

  lemma VisibleReferenceLeads(d: Definition, entries: seq<string>, plan: Plan, g: Graph, node: string, producer: string)
    requires Compilable(d, entries) && IsPlan(d, plan) && node in Elements(d.nodes) && producer in Lookup(d.references, node)
    requires forall e :: e in plan.edges && e.kind == Data ==> e.condition == OnSuccess
    requires producer in g
    ensures SuccessLeads(g, plan.edges, producer, node)
  {
    assert Visible(Elements(d.nodes), plan.edges, entries, producer, node);
    TargetsHaveEdges(plan.edges, Data, producer, node);
    hide Compilable, IsPlan, Visible, LeadsTo;
    LeadsToItself(g, node);
    var e :| e in plan.edges && e.kind == Data && e.from == producer && e.to == node;
    assert e.condition == OnSuccess && LeadsTo(g, e.to, node);
  }

  lemma ReferenceIsDeclared(d: Definition, entries: seq<string>, plan: Plan, node: string, producer: string)
    requires Compilable(d, entries) && IsPlan(d, plan) && node in plan.order && producer in Lookup(d.references, node)
    ensures producer in plan.order
  {
    GraphFacts(Elements(d.nodes), plan.edges);
    OrderCovers(GraphOf(Elements(d.nodes), plan.edges), plan.order);
    InElements(plan.order, node);
    InElements(plan.order, producer);
    assert Visible(Elements(d.nodes), plan.edges, entries, producer, node);
    TargetsHaveEdges(plan.edges, Data, producer, node);
    hide Compilable, IsPlan, Visible, GraphOf, IsOrder, EdgesAccepted;
    assert EdgeBetween(plan.edges, producer, node);
  }

  /** Without the guard a compiled plan can reach a ready node whose visible
      producer failed: one data edge with the condition "always". */
  lemma UnguardedOutputMissing() returns (d: Definition, trace: seq<Snapshot<int>>)
    ensures Compilable(d, ["a"])
    ensures Execution(trace, ["a", "b"], NormalizeAll(d.edges))
    ensures "a" in Lookup(d.references, "b")
    ensures Join(["a", "b"], NormalizeAll(d.edges), trace[|trace| - 1].outcomes, "b") == Ready
    ensures trace[|trace| - 1].next == 1 && "a" !in trace[|trace| - 1].outputs
  {
    d := Definition(["a", "b"], [AuthoredEdge("a", "b", Data, Some(Always), "", "")], map["main" := "a"],
                    map["b" := {"a"}], map[]);
    var edge := Edge("a", "b", Data, Always, "", "");
    assert NormalizeAll(d.edges) == [edge];
    var s := Start<int>(["a", "b"], [edge]);
    var t := RecordFailed(s, "a").value.0;
    trace := [s, t];
    assert Join(["a", "b"], [edge], map[], "a") == Ready;
    assert Step(s, t);
    assert Join(["a", "b"], [edge], t.outcomes, "b") == Ready;
    TwoNodesCompilable(d, edge);
  }

  lemma TwoNodesCompilable(d: Definition, edge: Edge)
    requires edge == Edge("a", "b", Data, Always, "", "") && NormalizeAll(d.edges) == [edge]
    requires d.nodes == ["a", "b"] && d.entrypoints == map["main" := "a"]
    requires d.references == map["b" := {"a"}] && d.resultReferences == map[]
    ensures Compilable(d, ["a"])
  {
    hide ReachableFrom, Cyclic, Visible, GraphOf, ByTarget, EdgesAccepted, NormalizeAll, HasEdge, ResultVisible;
    var nodes := {"a", "b"};
    assert Elements(d.nodes) == nodes;
    var g := TwoNodeGraph(edge);
    TwoNodesReached(g);
    LoneDataEdgeVisible(edge);
    LoneEdgeAccepted(edge);
    assert d.entrypoints["main"] in d.entrypoints.Values;
  }

  lemma LoneEdgeAccepted(edge: Edge)
    requires edge == Edge("a", "b", Data, Always, "", "")
    ensures EdgesAccepted({"a", "b"}, [edge])
  {
  }

  lemma TwoNodesReached(g: Graph)
    requires g.Keys == {"a", "b"} && g["a"] == {"b"} && g["b"] == {}
    ensures !Cyclic(g)
    ensures ReachableFrom(g, ["a"], "", "a") && ReachableFrom(g, ["a"], "", "b")
  {
    assert IsOrder(g, ["a", "b"]);
    OrderIsAcyclic(g, ["a", "b"]);
    assert RouteTo(g, ["a"], "", ["a"], "a");
    assert HasEdge(g, "a", "b");
    assert RouteTo(g, ["a"], "", ["a", "b"], "b");
  }

  lemma TwoNodeGraph(edge: Edge) returns (g: Graph)
    requires edge.from == "a" && edge.to == "b"
    ensures g == GraphOf({"a", "b"}, [edge])
    ensures g.Keys == {"a", "b"} && g["a"] == {"b"} && g["b"] == {}
  {
    assert [edge][..0] == [];
    var empty := GraphOf({"a", "b"}, []);
    g := Insert(empty, "a", "b");
    assert Lookup(empty, "a") == {};
  }

  lemma LoneDataEdgeVisible(edge: Edge)
    requires edge.from == "a" && edge.to == "b" && edge.kind == Data
    ensures Visible({"a", "b"}, [edge], ["a"], "a", "b")
  {
    assert [edge][..0] == [];
    var empty := ByTarget([], Data);
    assert ByTarget([edge], Data) == Insert(empty, "b", "a");
    assert ByTarget([edge], Control) == ByTarget([], Control) == map[];
  }

  /** With several entrypoints a compiled reference can be missing although its edge
      asks for success: the entrypoint "c" reaches "n" but not the producer "a", and no
      control edge leads to "n" that its dominance could be decided on. */
  lemma OtherEntrysOutputMissing() returns (d: Definition, trace: seq<Snapshot<int>>)
    ensures Compilable(d, ["a", "c"]) && forall e :: e in NormalizeAll(d.edges) ==> e.condition == OnSuccess
    ensures var g := GraphOf(Elements(d.nodes), NormalizeAll(d.edges));
            IsOrder(g, ["a", "c", "n"]) && IsEntryOrder(g, ["a", "c", "n"], "c", ["c", "n"]) && "c" in d.entrypoints.Values
    ensures MakesReady(trace, ["c", "n"], NormalizeAll(d.edges), "n")
    ensures "a" in Lookup(d.references, "n") && "a" !in trace[|trace| - 1].outputs
  {
    d := Fork();
    ForkFacts();
    hide *;
    TwoEntriesCompilable(d, ForkEdge("a"), ForkEdge("c"));
    trace := SecondEntryRuns(ForkEdge("a"), ForkEdge("c"));
  }

  function Fork(): Definition {
    Definition(["a", "c", "n"], [AuthoredEdge("a", "n", Data, None, "", ""), AuthoredEdge("c", "n", Data, None, "", "")],
               map["first" := "a", "second" := "c"], map["n" := {"a"}], map[])
  }

  function ForkEdge(from: string): Edge {
    Edge(from, "n", Data, OnSuccess, "", "")
  }

  lemma ForkFacts()
    ensures NormalizeAll(Fork().edges) == [ForkEdge("a"), ForkEdge("c")]
    ensures forall e :: e in NormalizeAll(Fork().edges) ==> e.condition == OnSuccess
    ensures ForkEdge("a") == Edge("a", "n", Data, OnSuccess, "", "") && ForkEdge("c") == Edge("c", "n", Data, OnSuccess, "", "")
    ensures var d := Fork();
            && d.nodes == ["a", "c", "n"] && d.entrypoints == map["first" := "a", "second" := "c"]
            && d.references == map["n" := {"a"}] && d.resultReferences == map[]
            && "c" in d.entrypoints.Values && "a" in Lookup(d.references, "n")
  {
    assert Fork().entrypoints["second"] == "c";
  }

  lemma SecondEntryRuns(first: Edge, second: Edge) returns (trace: seq<Snapshot<int>>)
    requires first == Edge("a", "n", Data, OnSuccess, "", "") && second == Edge("c", "n", Data, OnSuccess, "", "")
    ensures MakesReady(trace, ["c", "n"], [first, second], "n") && "a" !in trace[|trace| - 1].outputs
  {
    var order, edges := ["c", "n"], [first, second];
    var s := Start<int>(order, edges);
    var t := RecordSucceeded(s, "c", 0, "", []).value;
    trace := [s, t];
    assert edges[1..] == [second] && [second][1..] == [];
    assert "a" != "c" && "a" != "n" && "a" !in order;
    assert Join(order, [second], t.outcomes, "n") == Ready;
    assert "c" != "n" && Join(order, [second], map[], "c") == Ready;
    assert Join(order, edges, map[], "c") == Ready;
    assert Step(s, t);
  }

  lemma TwoEntriesCompilable(d: Definition, first: Edge, second: Edge)
    requires first == Edge("a", "n", Data, OnSuccess, "", "") && second == Edge("c", "n", Data, OnSuccess, "", "")
    requires NormalizeAll(d.edges) == [first, second]
    requires d.nodes == ["a", "c", "n"] && d.entrypoints == map["first" := "a", "second" := "c"]
    requires d.references == map["n" := {"a"}] && d.resultReferences == map[]
    ensures Compilable(d, ["a", "c"])
    ensures var g := GraphOf(Elements(d.nodes), NormalizeAll(d.edges));
            IsOrder(g, ["a", "c", "n"]) && IsEntryOrder(g, ["a", "c", "n"], "c", ["c", "n"])
  {
    hide ReachableFrom, Cyclic, Visible, GraphOf, ByTarget, EdgesAccepted, NormalizeAll, HasEdge, ResultVisible, IsOrder, IsEntryOrder;
    var nodes := {"a", "c", "n"};
    assert Elements(d.nodes) == nodes;
    var g := ThreeNodeGraph(first, second);
    ThreeNodesReached(g);
    UncontrolledIsVisible(first, second);
    ForkAccepted(first, second);
    assert d.entrypoints["first"] in d.entrypoints.Values && d.entrypoints["second"] in d.entrypoints.Values;
  }

  lemma ForkAccepted(first: Edge, second: Edge)
    requires first == Edge("a", "n", Data, OnSuccess, "", "") && second == Edge("c", "n", Data, OnSuccess, "", "")
    ensures EdgesAccepted({"a", "c", "n"}, [first, second])
  {
    assert first.from != second.from by { assert "a"[0] != "c"[0]; }
    assert "a" != "n" by { assert "a"[0] != "n"[0]; }
    assert "c" != "n" by { assert "c"[0] != "n"[0]; }
  }

  lemma ThreeNodeGraph(first: Edge, second: Edge) returns (g: Graph)
    requires first.from == "a" && first.to == "n" && second.from == "c" && second.to == "n"
    ensures g == GraphOf({"a", "c", "n"}, [first, second])
    ensures g.Keys == {"a", "c", "n"} && g["a"] == {"n"} && g["c"] == {"n"} && g["n"] == {}
  {
    assert [first, second][..1] == [first] && [first][..0] == [];
    var empty := GraphOf({"a", "c", "n"}, []);
    var one := Insert(empty, "a", "n");
    g := Insert(one, "c", "n");
    assert Lookup(empty, "a") == {} && Lookup(one, "c") == {};
  }

  lemma ThreeNodesReached(g: Graph)
    requires g.Keys == {"a", "c", "n"} && g["a"] == {"n"} && g["c"] == {"n"} && g["n"] == {}
    ensures !Cyclic(g) && IsOrder(g, ["a", "c", "n"]) && IsEntryOrder(g, ["a", "c", "n"], "c", ["c", "n"])
    ensures ReachableFrom(g, ["a", "c"], "", "a") && ReachableFrom(g, ["a", "c"], "", "c") && ReachableFrom(g, ["a", "c"], "", "n")
  {
    assert IsOrder(g, ["a", "c", "n"]);
    OrderIsAcyclic(g, ["a", "c", "n"]);
    assert RouteTo(g, ["a", "c"], "", ["a"], "a");
    assert RouteTo(g, ["a", "c"], "", ["c"], "c");
    assert HasEdge(g, "a", "n") && HasEdge(g, "c", "n");
    assert RouteTo(g, ["a", "c"], "", ["a", "n"], "n");
    hide Cyclic;
    SecondEntryOrder(g);
  }

  lemma SecondEntryOrder(g: Graph)
    requires g.Keys == {"a", "c", "n"} && g["a"] == {"n"} && g["c"] == {"n"} && g["n"] == {}
    ensures IsEntryOrder(g, ["a", "c", "n"], "c", ["c", "n"])
  {
    var order, reached := ["a", "c", "n"], {"c", "n"};
    assert order[..2] == ["a", "c"] && ["a", "c"][..1] == ["a"] && ["a"][..0] == [];
    assert Restrict(["a"], reached) == [] && Restrict(["a", "c"], reached) == ["c"] && Restrict(order, reached) == ["c", "n"];
    assert RouteTo(g, ["c"], "", ["c"], "c");
    assert HasEdge(g, "c", "n");
    assert RouteTo(g, ["c"], "", ["c", "n"], "n");
    forall n | ReachableFrom(g, ["c"], "", n) ensures n in reached {
      var p :| RouteTo(g, ["c"], "", p, n);
      StaysInside(g, reached, p);
    }
    assert ReachedSet(g, "c", reached);
  }

  /** A path does not leave a set of nodes that no edge leaves. */
  lemma {:induction false} StaysInside(g: Graph, inside: set<string>, p: seq<string>)
    requires IsPath(g, p) && p[0] in inside && forall n :: n in g && n in inside ==> g[n] <= inside
    ensures p[|p| - 1] in inside
    decreases |p|
  {
    if |p| > 1 {
      var front := p[..|p| - 1];
      assert HasEdge(g, p[|p| - 2], p[|p| - 1]);
      assert IsPath(g, front);
      StaysInside(g, inside, front);
    }
  }

  lemma UncontrolledIsVisible(first: Edge, second: Edge)
    requires first == Edge("a", "n", Data, OnSuccess, "", "") && second == Edge("c", "n", Data, OnSuccess, "", "")
    ensures Visible({"a", "c", "n"}, [first, second], ["a", "c"], "a", "n")
  {
    var edges := [first, second];
    assert edges[..1] == [first] && [first][..0] == [];
    assert ByTarget([first], Data) == Insert(ByTarget([], Data), "n", "a");
    assert ByTarget(edges, Data) == Insert(ByTarget([first], Data), "n", "c");
    assert ByTarget(edges, Control) == ByTarget([first], Control) == ByTarget([], Control) == map[];
    var g := ControlProjection({"a", "c", "n"}, map[]);
    assert "a" in ByTarget([first], Data)["n"] && "a" in Lookup(ByTarget(edges, Data), "n");
    NoEdges(g, ["a", "c"], "a", "n");
  }

  lemma NoEdges(g: Graph, entries: seq<string>, source: string, target: string)
    requires (forall n :: n in g ==> g[n] == {}) && target !in entries
    ensures Dominating(g, entries, source, target)
  {
    forall p | IsPath(g, p) && p[0] in entries ensures p[|p| - 1] != target {
      StaysInside(g, Elements(entries), p);
    }
  }
}
