/** The dependency graph of the workflow compiler: deterministic topological
    order, reachability around an excluded node, and dominance. A Go map is
    iterated in an arbitrary order, so every such loop picks its element freely. */
module Graph {
  import opened Prelude
  import opened Text

  type Graph = map<string, set<string>>

  ghost predicate WellFormed(g: Graph) {
    forall n :: n in g ==> g[n] <= g.Keys
  }

  predicate HasEdge(g: Graph, a: string, b: string) {
    a in g && b in g[a]
  }

  ghost predicate IsPath(g: Graph, p: seq<string>) {
    p != [] && forall i :: 0 <= i < |p| - 1 ==> HasEdge(g, p[i], p[i + 1])
  }

  ghost predicate Cyclic(g: Graph) {
    exists p :: |p| > 1 && IsPath(g, p) && p[0] == p[|p| - 1]
  }

  ghost predicate NoDuplicates<T>(s: seq<T>) {
    forall i, j :: 0 <= i < j < |s| ==> s[i] != s[j]
  }

  /** A permutation of the nodes in which every edge points forward. */
  ghost predicate IsOrder(g: Graph, order: seq<string>) {
    && NoDuplicates(order)
    && Elements(order) == g.Keys
    && forall i, j :: 0 <= i < |order| && 0 <= j < |order| && HasEdge(g, order[i], order[j]) ==> i < j
  }

  /** Lexicographic comparison of node lists. */
  ghost predicate LexAtMost(a: seq<string>, b: seq<string>) {
    || a == b
    || exists k: nat :: k < |a| && k < |b| && a[..k] == b[..k] && Less(a[k], b[k])
  }

  ghost function Predecessors(g: Graph, n: string): set<string> {
    set p | p in g && n in g[p]
  }

  // ------------------------------------------------------ topological order

  /** Each node follows all its predecessors and is the least node that could stand in its place. */
  ghost predicate Greedy(g: Graph, order: seq<string>) {
    && NoDuplicates(order)
    && Elements(order) <= g.Keys
    && (forall j :: 0 <= j < |order| ==> Available(g, order[..j], order[j]))
    && (forall j, n {:trigger Available(g, order[..j], n)} :: 0 <= j < |order| && n in g && Available(g, order[..j], n) ==> AtMost(order[j], n))
  }

  ghost predicate Available(g: Graph, prefix: seq<string>, n: string) {
    n !in prefix && Predecessors(g, n) <= Elements(prefix)
  }

  ghost predicate Counts(g: Graph, indegree: map<string, int>, unseen: set<string>) {
    indegree.Keys == g.Keys && forall n {:trigger indegree[n]} :: n in g ==> indegree[n] == |Predecessors(g, n) - unseen|
  }

  /** The inner loop over the successors of one node: each of them gains an edge. */
  method CountEdges(g: Graph, nodeId: string, before: map<string, int>) returns (indegree: map<string, int>)
    requires WellFormed(g) && before.Keys == g.Keys && nodeId in g
    ensures indegree.Keys == g.Keys
    ensures forall n {:trigger indegree[n]} :: n in g ==> indegree[n] == before[n] + (if n in g[nodeId] then 1 else 0)
  {
    indegree := before;
    var todo := g[nodeId];
    while todo != {}
      invariant todo <= g[nodeId] && indegree.Keys == g.Keys
      invariant forall n {:trigger indegree[n]} :: n in g ==> indegree[n] == before[n] + (if n in g[nodeId] && n !in todo then 1 else 0)
      decreases todo
    {
      var successor :| successor in todo;
      indegree := indegree[successor := indegree[successor] + 1];
      todo := todo - {successor};
    }
  }

  lemma SeePredecessor(g: Graph, n: string, nodeId: string, unseen: set<string>)
    requires nodeId in unseen && nodeId in g
    ensures |Predecessors(g, n) - (unseen - {nodeId})| ==
            |Predecessors(g, n) - unseen| + (if n in g[nodeId] then 1 else 0)
  {
    var seen, seenNow := Predecessors(g, n) - unseen, Predecessors(g, n) - (unseen - {nodeId});
    if n in g[nodeId] { assert seenNow == seen + {nodeId}; } else { assert seenNow == seen; }
  }

  lemma SeeNode(g: Graph, before: map<string, int>, after: map<string, int>, nodeId: string, unseen: set<string>)
    requires nodeId in unseen && nodeId in g && Counts(g, before, unseen) && after.Keys == g.Keys
    requires forall n {:trigger after[n]} :: n in g ==> after[n] == before[n] + (if n in g[nodeId] then 1 else 0)
    ensures Counts(g, after, unseen - {nodeId})
  {
    hide Predecessors;
    forall n | n in g ensures after[n] == |Predecessors(g, n) - (unseen - {nodeId})| {
      SeePredecessor(g, n, nodeId, unseen);
    }
  }

  /** Number of edges into each node. */
  method CountPredecessors(g: Graph) returns (indegree: map<string, int>)
    requires WellFormed(g)
    ensures Counts(g, indegree, {})
  {
    indegree := map n | n in g :: 0;
    var rest := g.Keys;
    assert forall n :: Predecessors(g, n) - rest == {};
    while rest != {}
      invariant rest <= g.Keys && Counts(g, indegree, rest)
      decreases rest
    {
      var nodeId :| nodeId in rest;
      var next := CountEdges(g, nodeId, indegree);
      SeeNode(g, indegree, next, nodeId, rest);
      indegree, rest := next, rest - {nodeId};
    }
  }

  /** The inner loop that places a node: each successor loses an edge, and joins
      the sorted ready list when it was the last one. */
  method DropEdges(g: Graph, nodeId: string, before: map<string, int>, ready0: seq<string>)
    returns (indegree: map<string, int>, ready: seq<string>)
    requires WellFormed(g) && before.Keys == g.Keys && nodeId in g
    requires Sorted(ready0) && forall n :: n in g[nodeId] ==> n !in ready0
    ensures indegree.Keys == g.Keys && Sorted(ready)
    ensures forall n {:trigger indegree[n]} :: n in g ==> indegree[n] == before[n] - (if n in g[nodeId] then 1 else 0)
    ensures forall n {:trigger n in ready} :: n in ready <==> n in ready0 || (n in g[nodeId] && indegree[n] == 0)
  {
    indegree, ready := before, ready0;
    var todo := g[nodeId];
    while todo != {}
      invariant todo <= g[nodeId] && indegree.Keys == g.Keys && Sorted(ready)
      invariant forall n {:trigger indegree[n]} :: n in g ==>
        indegree[n] == before[n] - (if n in g[nodeId] && n !in todo then 1 else 0)
      invariant forall n {:trigger n in ready} :: n in ready <==>
        n in ready0 || (n in g[nodeId] && n !in todo && indegree[n] == 0)
      decreases todo
    {
      hide Sorted;
      var successor :| successor in todo;
      indegree := indegree[successor := indegree[successor] - 1];
      if indegree[successor] == 0 {
        ghost var previous := ready;
        ready := InsertSorted(ready, successor);
        forall n ensures n in ready <==> n in previous || n == successor {
          assert n in ready <==> n in Elements(ready);
          assert n in previous <==> n in Elements(previous);
        }
      }
      todo := todo - {successor};
    }
  }

  ghost function Waiting(g: Graph, order: seq<string>, n: string): set<string> {
    Predecessors(g, n) - Elements(order)
  }

  /** What the main loop maintains: the placed nodes are greedy, `indegree` counts
      the unplaced predecessors and `ready` lists, in order, the available nodes. */
  ghost predicate Kahn(g: Graph, order: seq<string>, indegree: map<string, int>, ready: seq<string>) {
    && Greedy(g, order)
    && indegree.Keys == g.Keys
    && Sorted(ready)
    && (forall n {:trigger indegree[n]} :: n in g ==> indegree[n] == |Waiting(g, order, n)|)
    && (forall n {:trigger n in ready} {:trigger Available(g, order, n)} :: n in ready <==> n in g && Available(g, order, n))
  }

  lemma PlacedIsClosed(g: Graph, order: seq<string>, n: string)
    requires Greedy(g, order) && n in order
    ensures Predecessors(g, n) <= Elements(order)
  {
    var j :| 0 <= j < |order| && order[j] == n;
    assert Available(g, order[..j], order[j]);
    assert Elements(order[..j]) <= Elements(order);
  }

  lemma WaitingDrops(g: Graph, order: seq<string>, nodeId: string, n: string)
    requires nodeId in g && nodeId !in order
    ensures |Waiting(g, order + [nodeId], n)| == |Waiting(g, order, n)| - (if n in g[nodeId] then 1 else 0)
  {
    assert Elements(order + [nodeId]) == Elements(order) + {nodeId};
    var before, after := Waiting(g, order, n), Waiting(g, order + [nodeId], n);
    if n in g[nodeId] { assert before == after + {nodeId}; } else { assert before == after; }
  }

  /** How the available nodes change when an available node is placed. */
  lemma AvailableAfter(g: Graph, order: seq<string>, nodeId: string, n: string)
    requires Greedy(g, order) && nodeId in g && Available(g, order, nodeId)
    ensures n in g[nodeId] ==> !Available(g, order, n)
    ensures Available(g, order + [nodeId], n) <==>
            if n in g[nodeId] then |Waiting(g, order + [nodeId], n)| == 0
            else Available(g, order, n) && n != nodeId
  {
    assert Elements(order + [nodeId]) == Elements(order) + {nodeId};
    var waiting := Waiting(g, order + [nodeId], n);
    assert |waiting| == 0 <==> waiting == {};
    if n in g[nodeId] {
      assert nodeId in Predecessors(g, n);
      if n in order { PlacedIsClosed(g, order, n); }
    }
  }

  lemma PlaceLeast(g: Graph, order: seq<string>, n: string)
    requires Greedy(g, order) && n in g && Available(g, order, n)
    requires forall other :: other in g && Available(g, order, other) ==> AtMost(n, other)
    ensures Greedy(g, order + [n])
  {
    hide Predecessors, Less;
    var next := order + [n];
    forall j | 0 <= j < |next| ensures next[..j] == order[..j] {}
    assert order[..|order|] == order;
    assert Elements(next) == Elements(order) + {n};
  }

  lemma ReadyHeadIsLeast(ready: seq<string>, other: string)
    requires Sorted(ready) && other in ready
    ensures AtMost(ready[0], other)
  {
    var i :| 0 <= i < |ready| && ready[i] == other;
  }

  lemma InReadyTail(ready: seq<string>, n: string)
    requires Sorted(ready) && ready != []
    ensures Sorted(ready[1..]) && (n in ready[1..] <==> n in ready && n != ready[0])
  {
    TailElements(ready);
    assert n in ready <==> n in Elements(ready);
    assert n in ready[1..] <==> n in Elements(ready[1..]);
  }

  method PlaceReady(g: Graph, ghost order: seq<string>, indegree0: map<string, int>, ready0: seq<string>)
    returns (indegree: map<string, int>, ready: seq<string>)
    requires WellFormed(g) && Kahn(g, order, indegree0, ready0) && ready0 != []
    ensures Kahn(g, order + [ready0[0]], indegree, ready)
  {
    hide Less, Sorted, Available, Greedy, Waiting, Predecessors;
    var nodeId := ready0[0];
    assert nodeId in ready0;
    forall n ensures n in ready0[1..] <==> n in ready0 && n != nodeId { InReadyTail(ready0, n); }
    forall n
      ensures n in g[nodeId] ==> !Available(g, order, n)
      ensures Available(g, order + [nodeId], n) <==>
              if n in g[nodeId] then |Waiting(g, order + [nodeId], n)| == 0
              else Available(g, order, n) && n != nodeId
    {
      AvailableAfter(g, order, nodeId, n);
    }
    InReadyTail(ready0, nodeId);
    forall n | n in ready0 { ReadyHeadIsLeast(ready0, n); }
    PlaceLeast(g, order, nodeId);
    AvailableIsFresh(g, order, nodeId);
    indegree, ready := DropEdges(g, nodeId, indegree0, ready0[1..]);
    forall n | n in g ensures indegree[n] == |Waiting(g, order + [nodeId], n)| { WaitingDrops(g, order, nodeId, n); }
  }

  lemma AvailableIsFresh(g: Graph, order: seq<string>, n: string)
    requires Available(g, order, n)
    ensures n !in order
  {
  }

  method TopologicalOrder(g: Graph) returns (r: Option<seq<string>>)
    requires WellFormed(g)
    ensures r.None? <==> Cyclic(g)
    ensures r.Some? ==> IsOrder(g, r.value) && forall other :: IsOrder(g, other) ==> LexAtMost(r.value, other)
  {
    var indegree := CountPredecessors(g);
    var sources := set n | n in g && indegree[n] == 0;
    var ready := SortStrings(sources);
    var order: seq<string> := [];
    forall n ensures n in ready <==> n in g && indegree[n] == 0 {
      InElements(ready, n);
      assert n in sources <==> n in g && indegree[n] == 0;
    }
    KahnStarts(g, indegree, ready);
    while ready != []
      invariant Kahn(g, order, indegree, ready)
      decreases |g| - |order|
    {
      hide Kahn;
      var nodeId := ready[0];
      indegree, ready := PlaceReady(g, order, indegree, ready);
      order := order + [nodeId];
      KahnFits(g, order, indegree, ready);
    }
    KahnEnds(g, order, indegree);
    if |order| != |g| { return None; }
    return Some(order);
  }

  lemma KahnStarts(g: Graph, indegree: map<string, int>, ready: seq<string>)
    requires Counts(g, indegree, {}) && Sorted(ready)
    requires forall n {:trigger n in ready} :: n in ready <==> n in g && indegree[n] == 0
    ensures Kahn(g, [], indegree, ready)
  {
    hide Available, Waiting, Predecessors, Sorted;
    StartCounts(g, indegree);
  }

  lemma StartCounts(g: Graph, indegree: map<string, int>)
    requires Counts(g, indegree, {})
    ensures forall n {:trigger indegree[n]} :: n in g ==> indegree[n] == |Waiting(g, [], n)|
    ensures forall n {:trigger indegree[n]} {:trigger Available(g, [], n)} :: n in g ==> (indegree[n] == 0 <==> Available(g, [], n))
  {
    hide Available, Waiting, Predecessors;
    forall n | n in g
      ensures indegree[n] == |Waiting(g, [], n)|
      ensures indegree[n] == 0 <==> Available(g, [], n)
    {
      NothingPlaced(g, n);
    }
  }

  lemma InElements<T>(s: seq<T>, x: T)
    ensures x in s <==> x in Elements(s)
  {
  }

  lemma NothingPlaced(g: Graph, n: string)
    ensures |Waiting(g, [], n)| == |Predecessors(g, n) - {}|
    ensures Available(g, [], n) <==> |Predecessors(g, n) - {}| == 0
  {
    assert Waiting(g, [], n) == Predecessors(g, n) - {} == Predecessors(g, n);
  }

  lemma KahnFits(g: Graph, order: seq<string>, indegree: map<string, int>, ready: seq<string>)
    requires Kahn(g, order, indegree, ready)
    ensures |order| == |Elements(order)| <= |g|
  {
    CountDistinct(order);
    SubsetIsSmaller(Elements(order), g.Keys);
  }

  /** When nothing is ready any more, either every node is placed or the rest is stuck in a cycle. */
  lemma KahnEnds(g: Graph, order: seq<string>, indegree: map<string, int>)
    requires WellFormed(g) && Kahn(g, order, indegree, [])
    ensures |order| != |g| <==> Cyclic(g)
    ensures |order| == |g| ==> IsOrder(g, order) && forall other :: IsOrder(g, other) ==> LexAtMost(order, other)
  {
    KahnFits(g, order, indegree, []);
    hide Less;
    if |order| == |g| {
      SubsetOfSameSize(Elements(order), g.Keys);
      GreedyIsOrder(g, order);
      OrderIsAcyclic(g, order);
      forall other | IsOrder(g, other) ensures LexAtMost(order, other) { GreedyIsLeast(g, order, other, 0); }
    } else {
      var stuck := g.Keys - Elements(order);
      forall n | n in stuck ensures Predecessors(g, n) * stuck != {} {
        assert !Available(g, order, n);
        var p :| p in Predecessors(g, n) && p !in Elements(order);
        assert p in Predecessors(g, n) * stuck;
      }
      ProperSubsetLeaves(Elements(order), g.Keys);
      StuckIsCyclic(g, stuck);
    }
  }

  lemma {:induction false} CountDistinct<T>(s: seq<T>)
    requires NoDuplicates(s)
    ensures |Elements(s)| == |s|
  {
    if s != [] {
      var front, last := s[..|s| - 1], s[|s| - 1];
      CountDistinct(front);
      assert s == front + [last];
      assert Elements(s) == Elements(front) + {last};
    }
  }

  lemma SubsetIsSmaller<T>(a: set<T>, b: set<T>)
    requires a <= b
    ensures |a| <= |b|
  {
    assert b == a + (b - a);
  }

  lemma ProperSubsetLeaves<T>(a: set<T>, b: set<T>)
    requires a <= b && |a| != |b|
    ensures b - a != {}
  {
    assert b == a + (b - a);
  }

  lemma GreedyIsOrder(g: Graph, order: seq<string>)
    requires Greedy(g, order) && Elements(order) == g.Keys
    ensures IsOrder(g, order)
  {
    forall i, j | 0 <= i < |order| && 0 <= j < |order| && HasEdge(g, order[i], order[j]) ensures i < j {
      assert Available(g, order[..j], order[j]);
      assert order[i] in Predecessors(g, order[j]);
      assert order[i] in order[..j];
      var k :| 0 <= k < j && order[k] == order[i];
    }
  }

  /** At the first place where they differ, the greedy order holds the smaller node. */
  lemma {:induction false} GreedyIsLeast(g: Graph, order: seq<string>, other: seq<string>, k: nat)
    requires Greedy(g, order) && IsOrder(g, order) && IsOrder(g, other)
    requires k <= |order| && k <= |other| && order[..k] == other[..k]
    ensures LexAtMost(order, other)
    decreases |order| - k
  {
    hide Less, Predecessors;
    CountDistinct(order);
    CountDistinct(other);
    if k == |order| {
      assert order == order[..k] == other[..k] == other;
    } else if order[k] == other[k] {
      assert order[..k + 1] == order[..k] + [order[k]] == other[..k + 1];
      GreedyIsLeast(g, order, other, k + 1);
    } else {
      OrderPlacesAvailable(g, other, k);
      assert other[k] in Elements(other);
      assert Available(g, order[..k], other[k]);
      assert AtMost(order[k], other[k]);
    }
  }

  lemma OrderPlacesAvailable(g: Graph, order: seq<string>, k: nat)
    requires IsOrder(g, order) && k < |order|
    ensures Available(g, order[..k], order[k])
  {
    forall p | p in Predecessors(g, order[k]) ensures p in order[..k] {
      assert p in Elements(order);
      var i :| 0 <= i < |order| && order[i] == p;
      assert HasEdge(g, order[i], order[k]);
      assert order[..k][i] == p;
    }
  }

  lemma {:induction false} PathIsForward(g: Graph, order: seq<string>, p: seq<string>, first: nat, last: nat)
    requires IsOrder(g, order) && WellFormed(g) && IsPath(g, p)
    requires first < |order| && last < |order| && p[0] == order[first] && p[|p| - 1] == order[last]
    ensures |p| > 1 ==> first < last
    decreases |p|
  {
    if |p| > 1 {
      assert HasEdge(g, p[0], p[1]);
      assert p[1] in Elements(order);
      var second :| 0 <= second < |order| && order[second] == p[1];
      assert HasEdge(g, order[first], order[second]);
      forall i | 0 <= i < |p[1..]| - 1 ensures HasEdge(g, p[1..][i], p[1..][i + 1]) {
        assert HasEdge(g, p[i + 1], p[i + 2]);
      }
      PathIsForward(g, order, p[1..], second, last);
      if |p| == 2 { assert second == last; }
    }
  }

  lemma OrderIsAcyclic(g: Graph, order: seq<string>)
    requires WellFormed(g) && IsOrder(g, order)
    ensures !Cyclic(g)
  {
    forall p | |p| > 1 && IsPath(g, p) && p[0] == p[|p| - 1] ensures false {
      assert HasEdge(g, p[0], p[1]);
      assert p[0] in Elements(order);
      var at :| 0 <= at < |order| && order[at] == p[0];
      PathIsForward(g, order, p, at, at);
    }
  }

  /** If every node of a non-empty set has a predecessor in the set, walking
      backwards long enough repeats a node. */
  lemma StuckIsCyclic(g: Graph, stuck: set<string>)
    requires WellFormed(g) && stuck <= g.Keys && stuck != {}
    requires forall n :: n in stuck ==> Predecessors(g, n) * stuck != {}
    ensures Cyclic(g)
  {
    var walk := WalkBack(g, stuck, |stuck|);
    if NoDuplicates(walk) {
      CountDistinct(walk);
      SubsetIsSmaller(Elements(walk), stuck);
    }
    var i, j :| 0 <= i < j < |walk| && walk[i] == walk[j];
    var cycle := walk[i..j + 1];
    forall k | 0 <= k < |cycle| - 1 ensures HasEdge(g, cycle[k], cycle[k + 1]) {
      assert HasEdge(g, walk[i + k], walk[i + k + 1]);
    }
    assert IsPath(g, cycle) && cycle[0] == cycle[|cycle| - 1];
  }

  lemma {:induction false} WalkBack(g: Graph, stuck: set<string>, steps: nat) returns (walk: seq<string>)
    requires stuck <= g.Keys && stuck != {}
    requires forall n :: n in stuck ==> Predecessors(g, n) * stuck != {}
    ensures |walk| == steps + 1 && IsPath(g, walk) && forall i :: 0 <= i < |walk| ==> walk[i] in stuck
  {
    if steps == 0 {
      var n :| n in stuck;
      walk := [n];
    } else {
      var rest := WalkBack(g, stuck, steps - 1);
      var p :| p in Predecessors(g, rest[0]) * stuck;
      walk := [p] + rest;
      forall i | 0 <= i < |walk| - 1 ensures HasEdge(g, walk[i], walk[i + 1]) {
        if i > 0 { assert HasEdge(g, rest[i - 1], rest[i]); }
      }
    }
  }
}
