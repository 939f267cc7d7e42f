/** A bound on the commits that a run has left: each one that drives the run forward
    spends some of it. */
module RunPotential {
  import opened Prelude
  import R = RunLifecycle
  import I = Invocation
  import Backoff
  import opened RunLoop
  import opened RunInvariant

  /** What the nodes from `i` on may take, before any of them was started. */
  function Work(pins: map<string, Pin>, order: seq<string>, i: nat): nat
    decreases |order| - i
  {
    if i >= |order| then 0
    else 4 * (if order[i] in pins then pins[order[i]].policy.maxAttempts as nat else 1) + 2 + Work(pins, order, i + 1)
  }

  /** How far the current node is: each attempt runs, waits, and falls back or retries. */
  function StageOf(max: nat, l: Option<I.Ledger>, waiting: bool): nat {
    if l.None? then 4 * max + 1
    else
      var h := l.value.head;
      if I.Terminal(h.status) || h.executions > max then 0
      else
        4 * (max - h.executions) +
        match h.status
        case Running => 3
        case Waiting => 2
        case RetryWait => if waiting then 2 else 1
        case _ => 0
  }

  function Stage(s: State): nat
    requires AtNode(s)
  {
    StageOf(MaxAttempts(s, Current(s)), if Current(s) in s.ledgers then Some(s.ledgers[Current(s)]) else None, s.run.status == R.Waiting)
  }

  predicate Unstarted(s: State) {
    s.run.status in {R.Accepted, R.Queued}
  }

  function Potential(s: State): nat {
    (if Unstarted(s) then 1 else 0)
    + (if AtNode(s) then Work(s.pins, s.snap.routing.order, s.snap.routing.next + 1) + Stage(s) + 1 else 0)
  }

  predicate Spends(s: State, t: State) {
    Potential(t) < Potential(s)
  }

  predicate SamePlan(s: State, t: State) {
    t.pins == s.pins && t.snap.routing.order == s.snap.routing.order
  }

  /** At the entry of a node all its work lies ahead. */
  lemma EntryPotential(t: State)
    requires AtNode(t) ==> Current(t) !in t.ledgers
    requires !Unstarted(t)
    ensures Potential(t) == Work(t.pins, t.snap.routing.order, t.snap.routing.next)
  {
  }

  lemma EndSpends(s: State, t: State)
    requires AtNode(s) && SamePlan(s, t) && t.snap.routing.next == s.snap.routing.next + 1
    requires (AtNode(t) ==> Current(t) !in t.ledgers) && !Unstarted(t)
    ensures Spends(s, t)
  {
    EntryPotential(t);
    hide Stage, Work;
  }

  lemma StageSpends(s: State, t: State)
    requires AtNode(s) && SamePlan(s, t) && t.snap.routing.next == s.snap.routing.next && !Unstarted(t) && Stage(t) < Stage(s)
    ensures Spends(s, t)
  {
    hide Stage, Work;
  }

  /** The run alone: nothing of the work comes back. */
  lemma RunSpendsNothing(s: State, t: State)
    requires RunMoves(s, t) && (Unstarted(t) ==> Unstarted(s)) && (t.run.status == R.Waiting ==> s.run.status == R.Waiting)
    ensures Potential(t) <= Potential(s) && (Unstarted(s) && !Unstarted(t) ==> Spends(s, t))
  {
    hide Work;
  }

  /** One attempt more for an invocation that was free. */
  lemma ClaimStage(max: nat, l: I.Ledger, m: I.Ledger, waiting: bool)
    requires l.head.status in {I.Ready, I.RetryWait} && m.head.status == I.Running && m.head.executions == l.head.executions + 1 <= max
    ensures StageOf(max, Some(m), waiting) < StageOf(max, Some(l), waiting)
  {
  }

  /** The attempt in flight gives way: to a wait, to a retry, or to a fresh start. */
  lemma RunningStage(max: nat, l: I.Ledger, m: I.Ledger, before: bool, after: bool)
    requires l.head.status == I.Running && m.head.status in {I.Ready, I.Waiting, I.RetryWait} && m.head.executions == l.head.executions <= max
    ensures StageOf(max, Some(m), after) < StageOf(max, Some(l), before)
  {
  }

  lemma ActivateStage(max: nat, m: I.Ledger, waiting: bool)
    requires m.head.status == I.Ready && m.head.executions == 0
    ensures StageOf(max, Some(m), waiting) < StageOf(max, None, waiting)
  {
  }

  lemma ResumeStage(max: nat, l: I.Ledger)
    requires l.head.status == I.RetryWait && l.head.executions <= max
    ensures StageOf(max, Some(l), false) < StageOf(max, Some(l), true)
  {
  }

  /** A plan of n nodes takes at most 402 commits for each. */
  lemma {:induction false} WorkIsBounded(pins: map<string, Pin>, order: seq<string>, i: nat)
    requires i <= |order| && forall n :: n in pins ==> Backoff.Accepted(pins[n].policy)
    ensures Work(pins, order, i) <= 402 * (|order| - i)
    decreases |order| - i
  {
    if i < |order| { WorkIsBounded(pins, order, i + 1); }
  }

  lemma PotentialIsBounded(s: State)
    requires forall n :: n in s.pins ==> Backoff.Accepted(s.pins[n].policy)
    ensures Potential(s) <= 402 * |s.snap.routing.order| + 3
  {
    var order, next := s.snap.routing.order, s.snap.routing.next;
    if AtNode(s) {
      WorkIsBounded(s.pins, order, next + 1);
      assert MaxAttempts(s, Current(s)) <= 100;
      StageIsBounded(MaxAttempts(s, Current(s)), if Current(s) in s.ledgers then Some(s.ledgers[Current(s)]) else None, s.run.status == R.Waiting);
    }
    hide Work, StageOf, MaxAttempts;
  }

  lemma StageIsBounded(max: nat, l: Option<I.Ledger>, waiting: bool)
    requires max > 0
    ensures StageOf(max, l, waiting) <= 4 * max + 3
  {
  }
}
