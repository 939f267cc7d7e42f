/** Breadth-first reachability around an excluded node, and the dominance and
    visibility relations the compiler derives from it. */
module Reachability {
  import opened Text
  import opened Graph

  /** A path from one of `starts` to `n` that avoids `excluded`. */
  ghost predicate RouteTo(g: Graph, starts: seq<string>, excluded: string, p: seq<string>, n: string) {
    IsPath(g, p) && p[0] in starts && p[|p| - 1] == n && excluded !in p
  }

  ghost predicate ReachableFrom(g: Graph, starts: seq<string>, excluded: string, n: string) {
    exists p :: RouteTo(g, starts, excluded, p, n)
  }

  /** Loop invariant of the search: what was found or queued is reachable, and
      nothing found has a successor that was neither found, queued nor excluded. */
  ghost predicate Searching(g: Graph, starts: seq<string>, excluded: string, queue: seq<string>, result: set<string>) {
    && (forall n :: n in result ==> ReachableFrom(g, starts, excluded, n))
    && (forall i :: 0 <= i < |queue| && queue[i] != excluded ==> ReachableFrom(g, starts, excluded, queue[i]))
    && (forall i :: 0 <= i < |starts| ==> Handled(excluded, queue, result, starts[i]))
    && (forall a, b :: a in result && HasEdge(g, a, b) ==> Handled(excluded, queue, result, b))
  }

  ghost predicate Handled(excluded: string, queue: seq<string>, result: set<string>, n: string) {
    n == excluded || n in result || n in queue
  }

  ghost function Universe(g: Graph, starts: seq<string>): set<string> {
    Elements(starts) + set a, b | a in g && b in g[a] :: b
  }

  lemma ExtendRoute(g: Graph, starts: seq<string>, excluded: string, a: string, b: string)
    requires ReachableFrom(g, starts, excluded, a) && HasEdge(g, a, b) && b != excluded
    ensures ReachableFrom(g, starts, excluded, b)
  {
    var p :| RouteTo(g, starts, excluded, p, a);
    var q := p + [b];
    forall i | 0 <= i < |q| - 1 ensures HasEdge(g, q[i], q[i + 1]) {
      if i + 1 < |p| { assert HasEdge(g, p[i], p[i + 1]); }
    }
    assert RouteTo(g, starts, excluded, q, b);
  }

  lemma StartIsReachable(g: Graph, starts: seq<string>, excluded: string, n: string)
    requires n in starts && n != excluded
    ensures ReachableFrom(g, starts, excluded, n)
  {
    assert RouteTo(g, starts, excluded, [n], n);
  }

  method AppendAll(queue0: seq<string>, elements: set<string>) returns (queue: seq<string>)
    ensures queue0 <= queue
    ensures forall n :: n in queue <==> n in queue0 || n in elements
  {
    queue := queue0;
    var todo := elements;
    while todo != {}
      invariant todo <= elements && queue0 <= queue
      invariant forall n :: n in queue <==> n in queue0 || (n in elements && n !in todo)
      decreases todo
    {
      var n :| n in todo;
      queue := queue + [n];
      todo := todo - {n};
    }
  }

  lemma VisitKeepsSearching(g: Graph, starts: seq<string>, excluded: string, queue: seq<string>, result: set<string>,
                            next: seq<string>)
    requires Searching(g, starts, excluded, queue, result) && queue != []
    requires queue[0] != excluded
    requires forall n :: n in next <==> n in queue[1..] || HasEdge(g, queue[0], n)
    ensures Searching(g, starts, excluded, next, result + {queue[0]})
  {
    hide ReachableFrom;
    forall i | 0 <= i < |next| && next[i] != excluded ensures ReachableFrom(g, starts, excluded, next[i]) {
      assert next[i] in next;
      if HasEdge(g, queue[0], next[i]) {
        ExtendRoute(g, starts, excluded, queue[0], next[i]);
      } else {
        var j :| 0 <= j < |queue[1..]| && queue[1..][j] == next[i];
        assert queue[j + 1] == next[i];
      }
    }
    forall n | Handled(excluded, queue, result, n) ensures Handled(excluded, next, result + {queue[0]}, n) {
      SkipKeepsHandled(excluded, queue, result, n);
    }
  }

  lemma SkipKeepsHandled(excluded: string, queue: seq<string>, result: set<string>, n: string)
    requires queue != [] && Handled(excluded, queue, result, n)
    ensures n == queue[0] || Handled(excluded, queue[1..], result, n)
  {
    assert queue == [queue[0]] + queue[1..];
  }

  lemma SkipKeepsSearching(g: Graph, starts: seq<string>, excluded: string, queue: seq<string>, result: set<string>)
    requires Searching(g, starts, excluded, queue, result) && queue != []
    requires queue[0] == excluded || queue[0] in result
    ensures Searching(g, starts, excluded, queue[1..], result)
  {
    hide ReachableFrom;
    forall n | Handled(excluded, queue, result, n) ensures Handled(excluded, queue[1..], result, n) {
      SkipKeepsHandled(excluded, queue, result, n);
    }
  }

  /** A finished search has found every node of every route. */
  lemma {:induction false} FinishedFinds(g: Graph, starts: seq<string>, excluded: string, result: set<string>,
                                         p: seq<string>, n: string)
    requires Searching(g, starts, excluded, [], result) && RouteTo(g, starts, excluded, p, n)
    ensures n in result
    decreases |p|
  {
    if |p| > 1 {
      var q := p[..|p| - 1];
      assert HasEdge(g, p[|p| - 2], p[|p| - 1]);
      assert forall i :: 0 <= i < |q| - 1 ==> HasEdge(g, p[i], p[i + 1]);
      FinishedFinds(g, starts, excluded, result, q, p[|p| - 2]);
      assert Handled(excluded, [], result, n);
    } else {
      var i :| 0 <= i < |starts| && starts[i] == p[0];
      assert Handled(excluded, [], result, starts[i]);
    }
  }

  /** Every route stays inside the finite universe that bounds the search. */
  lemma ReachableInUniverse(g: Graph, starts: seq<string>, excluded: string, n: string)
    requires ReachableFrom(g, starts, excluded, n)
    ensures n in Universe(g, starts)
  {
    var p :| RouteTo(g, starts, excluded, p, n);
    if |p| > 1 { assert HasEdge(g, p[|p| - 2], p[|p| - 1]); }
  }

  method Reachable(g: Graph, starts: seq<string>, excluded: string) returns (result: set<string>)
    ensures forall n :: n in result <==> ReachableFrom(g, starts, excluded, n)
  {
    result := {};
    var queue := starts;
    ghost var universe := Universe(g, starts);
    forall i | 0 <= i < |starts| && starts[i] != excluded ensures ReachableFrom(g, starts, excluded, starts[i]) {
      StartIsReachable(g, starts, excluded, starts[i]);
    }
    while queue != []
      invariant Searching(g, starts, excluded, queue, result)
      decreases universe - result, |queue|
    {
      hide Searching, ReachableFrom, Universe;
      var nodeId := queue[0];
      if nodeId == excluded || nodeId in result {
        SkipKeepsSearching(g, starts, excluded, queue, result);
        queue := queue[1..];
      } else {
        var successors := if nodeId in g then g[nodeId] else {};
        var next := AppendAll(queue[1..], successors);
        VisitKeepsSearching(g, starts, excluded, queue, result, next);
        VisitedInUniverse(g, starts, excluded, queue, result);
        result := result + {nodeId};
        queue := next;
      }
    }
    forall n ensures n in result <==> ReachableFrom(g, starts, excluded, n) {
      if ReachableFrom(g, starts, excluded, n) {
        var p :| RouteTo(g, starts, excluded, p, n);
        FinishedFinds(g, starts, excluded, result, p, n);
      }
    }
  }

  lemma VisitedInUniverse(g: Graph, starts: seq<string>, excluded: string, queue: seq<string>, result: set<string>)
    requires Searching(g, starts, excluded, queue, result) && queue != [] && queue[0] != excluded
    ensures queue[0] in Universe(g, starts)
  {
    ReachableInUniverse(g, starts, excluded, queue[0]);
  }

  // -------------------------------------------------------------- dominance

  /** Every path from an entry to `target` passes through `source`. */
  ghost predicate Dominating(g: Graph, entries: seq<string>, source: string, target: string) {
    forall p :: IsPath(g, p) && p[0] in entries && p[|p| - 1] == target ==> source in p
  }

  lemma DominatingIsCutOff(g: Graph, entries: seq<string>, source: string, target: string)
    ensures Dominating(g, entries, source, target) <==> !ReachableFrom(g, entries, source, target)
  {
    assert forall p :: RouteTo(g, entries, source, p, target) <==>
                       (IsPath(g, p) && p[0] in entries && p[|p| - 1] == target && source !in p);
  }

  method Dominates(source: string, target: string, g: Graph, entries: seq<string>) returns (r: bool)
    ensures r <==> Dominating(g, entries, source, target)
  {
    if source == target { return true; }
    var reached := Reachable(g, entries, source);
    DominatingIsCutOff(g, entries, source, target);
    return target !in reached;
  }

  function Lookup(edges: map<string, set<string>>, target: string): set<string> {
    if target in edges then edges[target] else {}
  }

  /** The control edges alone, turned round to point from predecessor to successor. */
  function ControlProjection(nodes: set<string>, controlEdges: map<string, set<string>>): (g: Graph)
    ensures g.Keys == nodes
    ensures forall a, b :: a in nodes ==> (HasEdge(g, a, b) <==> b in controlEdges && a in controlEdges[b])
  {
    map a | a in nodes :: set b | b in controlEdges && a in controlEdges[b]
  }

  /** The data predecessors of `target` that dominate it along control edges. */
  method VisiblePredecessors(target: string, dataEdges: map<string, set<string>>,
                             controlEdges: map<string, set<string>>, g: Graph, entries: seq<string>)
    returns (visible: set<string>)
    ensures forall s :: s in visible <==>
      (s in Lookup(dataEdges, target) && Dominating(ControlProjection(g.Keys, controlEdges), entries, s, target))
  {
    var dominanceGraph := ControlProjection(g.Keys, controlEdges);
    visible := {};
    var todo := Lookup(dataEdges, target);
    while todo != {}
      invariant todo <= Lookup(dataEdges, target)
      invariant forall s :: s in visible <==>
        s in Lookup(dataEdges, target) && s !in todo && Dominating(dominanceGraph, entries, s, target)
      decreases todo
    {
      hide Dominating;
      var source :| source in todo;
      var dominates := Dominates(source, target, dominanceGraph, entries);
      if dominates { visible := visible + {source}; }
      todo := todo - {source};
    }
  }

  ghost predicate IsSink(g: Graph, entries: seq<string>, n: string) {
    n in g && g[n] == {} && ReachableFrom(g, entries, "", n)
  }

  /** A reached node on every way to every reached sink. */
  ghost predicate ResultVisible(g: Graph, entries: seq<string>, n: string) {
    && n in g && ReachableFrom(g, entries, "", n)
    && forall sink :: IsSink(g, entries, sink) ==> Dominating(g, entries, n, sink)
  }

  method ResultVisibleNodes(g: Graph, entries: seq<string>) returns (visible: set<string>)
    ensures forall n :: n in visible <==> ResultVisible(g, entries, n)
  {
    var reached := Reachable(g, entries, "");
    var terminals := set n | n in g && n in reached && g[n] == {};
    visible := {};
    var todo := set n | n in g && n in reached;
    hide Dominating, ReachableFrom;
    while todo != {}
      invariant forall n :: n in todo ==> n in g && n in reached
      invariant forall n :: n in visible <==>
        (n in g && n in reached && n !in todo && forall sink :: sink in terminals ==> Dominating(g, entries, n, sink))
      decreases todo
    {
      var candidate :| candidate in todo;
      var dominatesAll := DominatesEvery(candidate, terminals, g, entries);
      if dominatesAll { visible := visible + {candidate}; }
      todo := todo - {candidate};
    }
    assert forall sink :: sink in terminals <==> IsSink(g, entries, sink);
  }

  method DominatesEvery(candidate: string, terminals: set<string>, g: Graph, entries: seq<string>) returns (all: bool)
    ensures all <==> forall sink :: sink in terminals ==> Dominating(g, entries, candidate, sink)
  {
    hide Dominating;
    var todo := terminals;
    while todo != {}
      invariant todo <= terminals
      invariant forall sink :: sink in terminals && sink !in todo ==> Dominating(g, entries, candidate, sink)
      decreases todo
    {
      var terminal :| terminal in todo;
      if candidate != terminal {
        var dominates := Dominates(candidate, terminal, g, entries);
        if !dominates { return false; }
      } else {
        DominatesItself(g, entries, terminal);
      }
      todo := todo - {terminal};
    }
    return true;
  }

  lemma DominatesItself(g: Graph, entries: seq<string>, n: string)
    ensures Dominating(g, entries, n, n)
  {
  }
}
