/** What every reachable state of a run keeps: routing, ledgers, wait projections,
    effects and intents agree with each other. */
module RunInvariant {
  import opened Prelude
  import R = RunLifecycle
  import I = Invocation
  import E = Effect
  import Routing
  import Workflow
  import Backoff
  import opened RunLoop
  import opened RunFacts

  // ------------------------------------------------------------- the invariant

  /** What compilation and stable identities guarantee of a pinned plan. */
  ghost predicate Pinned(pins: map<string, Pin>, order: seq<string>, edges: seq<Workflow.Edge>) {
    && Routing.EdgesForward(order, edges)
    && (forall n :: n in pins ==> Backoff.Accepted(pins[n].policy) && pins[n].child != Some(""))
    && (forall m, n :: m in pins && n in pins && pins[m].child.Some? && pins[m].child == pins[n].child ==> m == n)
  }

  predicate Engaged(s: I.Status) {
    s in {I.Running, I.Waiting, I.RetryWait}
  }

  /** An invocation that may still be claimed has an attempt left, and none has had too many. */
  predicate NodeKept(s: State, n: string, l: I.Ledger) {
    && LedgerKept(l) && l.head.executions <= MaxAttempts(s, n)
    && (l.head.status in {I.Ready, I.RetryWait} ==> l.head.executions < MaxAttempts(s, n))
  }

  ghost predicate LedgersKept(s: State) {
    forall n :: n in s.ledgers ==> NodeKept(s, n, s.ledgers[n])
  }

  function Ended(o: Routing.Status): I.Status {
    match o
    case Succeeded => I.Succeeded
    case Failed => I.Failed
    case Skipped => I.Skipped
  }

  /** Recorded outcomes are the ends of the invocations. */
  ghost predicate OutcomesAgree(s: State) {
    forall n :: n in s.snap.routing.outcomes ==>
      n in s.ledgers && s.ledgers[n].head.status == Ended(s.snap.routing.outcomes[n].status)
  }

  /** Only recorded nodes and the current one have invocations, and the current one
      was engaged only because its join was ready. */
  ghost predicate Frontier(s: State) {
    && (forall n :: n in s.ledgers ==> n in s.snap.routing.outcomes || (AtNode(s) && n == Current(s)))
    && (AtNode(s) && Current(s) in s.ledgers && Engaged(s.ledgers[Current(s)].head.status) ==> Disposition(s) == Routing.Ready)
  }

  ghost predicate Core(s: State) {
    && Pinned(s.pins, s.snap.routing.order, s.snap.routing.edges)
    && Routing.Recorded(s.snap.routing, s.snap.routing.order, s.snap.routing.edges)
    && LedgersKept(s) && OutcomesAgree(s) && Frontier(s)
  }

  /** A child wait or a retry wait outlives the cancellation of its invocation. */
  predicate Abandoned(s: State, n: string) {
    s.run.status == R.Stopping && AtNode(s) && n == Current(s) && n in s.ledgers && s.ledgers[n].head.status == I.Canceled
  }

  /** The invocation waits for the one resolution that its child will have. */
  predicate CallIsFirst(s: State) {
    CallAgrees(s) && (s.snap.call.Some? ==> s.ledgers[s.snap.call.value.node].head.waitGeneration == 1)
  }

  predicate Projections(s: State) {
    && Count(s.snap) <= 1 && RunStateAgrees(s) && WaitingAgrees(s)
    && (s.snap.call.Some? ==> CallIsFirst(s) || Abandoned(s, s.snap.call.value.node))
    && (s.snap.retry.Some? ==> RetryAgrees(s) || Abandoned(s, s.snap.retry.value.node))
  }

  predicate Progressing(s: State) {
    && R.Kept(s.run)
    && (s.run.status in {R.Accepted, R.Queued} ==> s.ledgers == map[])
    && (Driving(s) && AtNode(s) && Current(s) in s.ledgers ==>
          s.ledgers[Current(s)].head.status in {I.Ready, I.Running, I.RetryWait})
    && (s.run.status == R.Succeeded ==> !AtNode(s))
  }

  ghost predicate EffectsKept(s: State) {
    forall id :: id in s.effects ==>
      && E.Kept(s.effects[id])
      && (Announceable(s.effects[id].record) ==> WaitResolution(id, s.effects[id].record.terminalRevision) in s.intents)
  }

  /** Where an intent came from; a later one from the same source has another identity. */
  ghost predicate Accounted(s: State, id: IntentId) {
    match id
    case Cleanup(revision) => s.run.termination.Some? && revision == s.run.termination.value.requestedRevision + 1
    case ChildResolution(child, generation) =>
      exists n :: n in s.ledgers && ChildOf(s, n) == Some(child) && s.ledgers[n].head.status !in {I.Ready, I.Running, I.RetryWait}
    case WaitResolution(effect, revision) => effect in s.effects && revision <= s.effects[effect].record.revision
  }

  ghost predicate IntentsKept(s: State) {
    && (forall id :: id in s.intents ==> Accounted(s, id))
    && (s.run.status == R.Stopping ==> Cleanup(s.run.revision) in s.intents)
    && (s.snap.call.Some? ==> ChildResolution(s.snap.call.value.child, 1) in s.intents)
    && s.completed <= s.intents
  }

  ghost predicate Kept(s: State) {
    Core(s) && Projections(s) && Progressing(s) && EffectsKept(s) && IntentsKept(s)
  }

  // -------------------------------------------------------- how commits change it

  /** Nothing but the run and the announced intents changes. */
  predicate RunMoves(s: State, t: State) {
    t == s.(run := t.run, intents := t.intents)
  }

  /** The run stays, starts running, or begins to stop and announces its cleanup. */
  predicate RunFollows(s: State, t: State) {
    && (R.Kept(s.run) ==> R.Kept(t.run))
    && (|| (t.run == s.run && t.intents == s.intents)
        || (t.run.status == R.Running && t.intents == s.intents && s.run.status in {R.Accepted, R.Queued, R.Waiting}
            && t.run.termination == s.run.termination)
        || (t.run.status == R.Stopping && s.run.termination.None? && t.run.termination.Some?
            && t.run.revision == t.run.termination.value.requestedRevision + 1
            && t.intents == s.intents + {Cleanup(t.run.revision)}))
  }

  lemma MoveToRunning(s: State, at: int)
    requires MoveRun(s, R.Running, at).Some?
    ensures RunMoves(s, MoveRun(s, R.Running, at).value) && RunFollows(s, MoveRun(s, R.Running, at).value)
    ensures MoveRun(s, R.Running, at).value.run.status == R.Running
  {
    var c := R.Plain(s.run, R.Running, at);
    if R.Kept(s.run) { R.TransitionKeeps(s.run, c); }
    hide R.Kept;
  }

  lemma MoveToWaiting(s: State, at: int)
    requires MoveRun(s, R.Waiting, at).Some?
    ensures var t := MoveRun(s, R.Waiting, at).value;
            && RunMoves(s, t) && t.intents == s.intents && (R.Kept(s.run) ==> R.Kept(t.run)) && t.run.status == R.Waiting
            && s.run.status == R.Running && t.run.termination == s.run.termination
  {
    var c := R.Plain(s.run, R.Waiting, at);
    if R.Kept(s.run) { R.TransitionKeeps(s.run, c); }
    hide R.Kept;
  }

  lemma StopMoves(s: State, x: R.Termination, at: int)
    requires StopRun(s, x, at).Some?
    ensures RunMoves(s, StopRun(s, x, at).value) && RunFollows(s, StopRun(s, x, at).value)
    ensures StopRun(s, x, at).value.run.status == R.Stopping
  {
    var c := R.Stop(s.run, x, at);
    if R.Kept(s.run) { R.TransitionKeeps(s.run, c); }
    hide R.Kept;
  }

  // ------------------------------------------------------------- routing and ledgers

  lemma NonterminalIsCurrent(s: State, n: string)
    requires Core(s) && n in s.ledgers && !I.Terminal(s.ledgers[n].head.status)
    ensures AtNode(s) && n == Current(s)
  {
    hide Routing.Recorded, Pinned, NodeKept;
  }

  lemma CurrentIsUnrecorded(s: State)
    requires Core(s) && AtNode(s)
    ensures Routing.Current(s.snap.routing, Current(s)) && Disposition(s) != Routing.Blocked
  {
    Routing.NeverBlocked(s.snap.routing, s.snap.routing.order, s.snap.routing.edges);
  }

  lemma LedgersGrow(s: State, t: State, node: string, l: I.Ledger)
    requires LedgersKept(s) && NodeKept(s, node, l) && t.pins == s.pins && t.ledgers == s.ledgers[node := l]
    ensures LedgersKept(t)
  {
    forall n | n in t.ledgers ensures NodeKept(t, n, t.ledgers[n]) {
      if n != node { assert NodeKept(s, n, s.ledgers[n]); }
      hide LedgerKept;
    }
  }

  lemma OutcomesGrow(s: State, t: State, node: string, l: I.Ledger)
    requires OutcomesAgree(s) && t.ledgers == s.ledgers[node := l]
    requires node !in s.snap.routing.outcomes
    requires t.snap.routing.outcomes == s.snap.routing.outcomes ||
             (node in t.snap.routing.outcomes && t.snap.routing.outcomes == s.snap.routing.outcomes[node := t.snap.routing.outcomes[node]]
              && l.head.status == Ended(t.snap.routing.outcomes[node].status))
    ensures OutcomesAgree(t)
  {
  }

  /** Another ledger for the current node. */
  lemma PutKeepsCore(s: State, t: State, l: I.Ledger)
    requires Core(s) && AtNode(s) && NodeKept(s, Current(s), l)
    requires Engaged(l.head.status) ==> Disposition(s) == Routing.Ready
    requires t.pins == s.pins && t.snap.routing == s.snap.routing && t.ledgers == s.ledgers[Current(s) := l]
    ensures Core(t)
  {
    CurrentIsUnrecorded(s);
    LedgersGrow(s, t, Current(s), l);
    OutcomesGrow(s, t, Current(s), l);
    hide Routing.Recorded, Pinned, NodeKept, Routing.Join, LedgersKept, OutcomesAgree;
  }

  /** The end of the current node, recorded. */
  lemma RecordKeepsCore(s: State, t: State, l: I.Ledger)
    requires Core(s) && AtNode(s) && NodeKept(s, Current(s), l)
    requires Routing.Step(s.snap.routing, t.snap.routing)
    requires t.pins == s.pins && t.ledgers == s.ledgers[Current(s) := l]
    requires Current(s) in t.snap.routing.outcomes && l.head.status == Ended(t.snap.routing.outcomes[Current(s)].status)
    ensures Core(t) && (AtNode(t) ==> Current(t) !in t.ledgers)
  {
    hide *;
    CoreParts(s);
    Recorder(s, t);
    CurrentIsUnrecorded(s);
    UnrecordedCurrent(s);
    Routing.StepKeepsRecorded(s.snap.routing, t.snap.routing, s.snap.routing.order, s.snap.routing.edges);
    LedgersGrow(s, t, Current(s), l);
    OutcomesGrow(s, t, Current(s), l);
    FrontierMoves(s, t, l);
    CoreOf(t);
  }

  lemma CoreOf(t: State)
    requires Pinned(t.pins, t.snap.routing.order, t.snap.routing.edges)
    requires Routing.Recorded(t.snap.routing, t.snap.routing.order, t.snap.routing.edges)
    requires LedgersKept(t) && OutcomesAgree(t) && Frontier(t)
    ensures Core(t)
  {
  }

  lemma UnrecordedCurrent(s: State)
    requires AtNode(s) && Routing.Current(s.snap.routing, Current(s))
    ensures Current(s) !in s.snap.routing.outcomes
  {
  }

  lemma CoreParts(s: State)
    requires Core(s)
    ensures Pinned(s.pins, s.snap.routing.order, s.snap.routing.edges)
    ensures Routing.EdgesForward(s.snap.routing.order, s.snap.routing.edges)
    ensures Routing.Recorded(s.snap.routing, s.snap.routing.order, s.snap.routing.edges)
    ensures LedgersKept(s) && OutcomesAgree(s) && Frontier(s)
  {
  }

  lemma FrontierMoves(s: State, t: State, l: I.Ledger)
    requires AtNode(s) && Frontier(s) && t.ledgers == s.ledgers[Current(s) := l] && Current(s) in t.snap.routing.outcomes
    requires t.snap.routing.outcomes == s.snap.routing.outcomes[Current(s) := t.snap.routing.outcomes[Current(s)]]
    requires Pinned(t.pins, t.snap.routing.order, t.snap.routing.edges)
    requires Routing.Recorded(t.snap.routing, t.snap.routing.order, t.snap.routing.edges)
    ensures Frontier(t) && (AtNode(t) ==> Current(t) !in t.ledgers)
  {
    if AtNode(t) { NextIsUnrecorded(t); }
    hide Pinned, Routing.Recorded, Routing.Join;
  }

  lemma NextIsUnrecorded(t: State)
    requires Pinned(t.pins, t.snap.routing.order, t.snap.routing.edges) && AtNode(t)
    requires Routing.Recorded(t.snap.routing, t.snap.routing.order, t.snap.routing.edges)
    ensures Current(t) !in t.snap.routing.outcomes
  {
    Routing.NeverBlocked(t.snap.routing, t.snap.routing.order, t.snap.routing.edges);
  }

  lemma Recorder(s: State, t: State)
    requires AtNode(s) && Routing.Step(s.snap.routing, t.snap.routing)
    requires Current(s) in t.snap.routing.outcomes
    ensures t.snap.routing.outcomes == s.snap.routing.outcomes[Current(s) := t.snap.routing.outcomes[Current(s)]]
    ensures t.snap.routing.order == s.snap.routing.order && t.snap.routing.edges == s.snap.routing.edges
  {
    Routing.StepRecords(s.snap.routing, t.snap.routing);
    hide Routing.Step, Routing.Join;
  }

  // ------------------------------------------------------------ effects and intents

  /** An invocation past its first stages does not return to them. */
  predicate Advanced(h: I.Head) {
    h.status !in {I.Ready, I.Running, I.RetryWait}
  }

  ghost predicate LedgersAdvance(s: State, t: State) {
    t.pins == s.pins && forall n :: n in s.ledgers && Advanced(s.ledgers[n].head) ==> n in t.ledgers && Advanced(t.ledgers[n].head)
  }

  ghost predicate EffectsAdvance(s: State, t: State) {
    forall id :: id in s.effects ==> id in t.effects && s.effects[id].record.revision <= t.effects[id].record.revision
  }

  lemma AccountedStill(s: State, t: State, id: IntentId)
    requires Accounted(s, id) && LedgersAdvance(s, t) && EffectsAdvance(s, t)
    requires s.run.termination.Some? ==> t.run.termination == s.run.termination
    ensures Accounted(t, id)
  {
    if id.ChildResolution? {
      var n :| n in s.ledgers && ChildOf(s, n) == Some(id.child) && Advanced(s.ledgers[n].head);
      assert n in t.ledgers && ChildOf(t, n) == Some(id.child);
    }
  }

  lemma RunFollowsTermination(s: State, t: State)
    requires RunFollows(s, t)
    ensures s.run.termination.Some? ==> t.run.termination == s.run.termination
    ensures s.intents <= t.intents
    ensures forall id :: id in t.intents && id !in s.intents ==> id == Cleanup(t.run.revision) && Accounted(t, id)
  {
    hide R.Kept;
  }

  lemma IntentsFollow(s: State, t: State)
    requires IntentsKept(s) && RunFollows(s, t) && LedgersAdvance(s, t) && EffectsAdvance(s, t)
    requires t.snap.call.None? || t.snap.call == s.snap.call
    requires t.completed == s.completed
    ensures IntentsKept(t)
  {
    RunFollowsTermination(s, t);
    hide R.Kept, LedgersAdvance, EffectsAdvance;
    forall id | id in t.intents ensures Accounted(t, id) {
      if id in s.intents { AccountedStill(s, t, id); }
      hide Accounted;
    }
    hide Accounted;
  }

  lemma EffectsFollow(s: State, t: State)
    requires EffectsKept(s) && t.effects == s.effects && s.intents <= t.intents
    ensures EffectsKept(t)
  {
    hide E.Kept;
  }

  // --------------------------------------------------------------- an end, recorded

  ghost predicate Concluded(s: State, t: State, l: I.Ledger) {
    && AtNode(s) && t.pins == s.pins && t.ledgers == s.ledgers[Current(s) := l]
    && Routing.Step(s.snap.routing, t.snap.routing)
    && Current(s) in t.snap.routing.outcomes && l.head.status == Ended(t.snap.routing.outcomes[Current(s)].status)
    && t.snap == Snapshot(t.snap.routing, None, None, None) && t.effects == s.effects && t.completed == s.completed
    && RunFollows(s, t)
  }

  lemma ConcludedKeeps(s: State, t: State, l: I.Ledger)
    requires Kept(s) && Concluded(s, t, l) && Current(s) in s.ledgers && NodeKept(s, Current(s), l) && t.run.status != R.Waiting
    ensures Kept(t)
  {
    hide *;
    Parts(s);
    ConcludedParts(s, t, l);
    RecordKeepsCore(s, t, l);
    IntentsFollow(s, t);
    RunFollowsTermination(s, t);
    EffectsFollow(s, t);
    ConcludedProgresses(s, t);
    KeptOf(t);
  }

  lemma Parts(s: State)
    requires Kept(s)
    ensures Core(s) && Projections(s) && Progressing(s) && EffectsKept(s) && IntentsKept(s)
  {
    hide Core, Projections, Progressing, EffectsKept, IntentsKept;
  }

  lemma KeptOf(s: State)
    requires Core(s) && Projections(s) && Progressing(s) && EffectsKept(s) && IntentsKept(s)
    ensures Kept(s)
  {
    hide Core, Projections, Progressing, EffectsKept, IntentsKept;
  }

  lemma ConcludedParts(s: State, t: State, l: I.Ledger)
    requires Concluded(s, t, l)
    ensures AtNode(s) && Routing.Step(s.snap.routing, t.snap.routing) && t.pins == s.pins && t.ledgers == s.ledgers[Current(s) := l]
    ensures Current(s) in t.snap.routing.outcomes && l.head.status == Ended(t.snap.routing.outcomes[Current(s)].status)
    ensures RunFollows(s, t) && LedgersAdvance(s, t) && EffectsAdvance(s, t)
    ensures t.snap == Snapshot(t.snap.routing, None, None, None) && t.effects == s.effects && t.completed == s.completed
  {
    hide Routing.Step, RunFollows;
  }

  lemma ConcludedProgresses(s: State, t: State)
    requires Progressing(s) && AtNode(s) && Current(s) in s.ledgers && RunFollows(s, t) && t.run.status != R.Waiting
    requires t.snap == Snapshot(t.snap.routing, None, None, None)
    requires AtNode(t) ==> Current(t) !in t.ledgers
    ensures Progressing(t) && Projections(t)
  {
    hide R.Kept;
  }

  /** What Conclude does when the join of the current node was ready. */
  lemma ConcludeShape(s: State, l: I.Ledger, ending: Ending, at: int, resumed: bool)
    requires AtNode(s) && Disposition(s) == Routing.Ready && Conclude(s, l, ending, at, resumed).Some?
    requires l.head.status == if ending.Success? then I.Succeeded else I.Failed
    ensures var t := Conclude(s, l, ending, at, resumed).value;
            Concluded(s, t, l) && (t.run.status in {R.Running, R.Stopping} || (!resumed && t.run == s.run))
  {
    var node := Current(s);
    hide MoveRun, FailRun, RunFollows, Routing.Join, Routing.Step;
    if ending.Success? {
      var recorded := Routing.RecordSucceeded(s.snap.routing, node, ending.output, ending.route, ending.ports).value;
      SuccessIsStep(s.snap.routing, recorded, ending.output, ending.route, ending.ports);
      var next := Put(s, node, l).(snap := Snapshot(recorded, None, None, None));
      RunStays(next);
      if resumed { MoveToRunning(next, at); }
      FollowsThrough(s, next, Conclude(s, l, ending, at, resumed).value);
    } else {
      var recorded := Routing.RecordFailed(s.snap.routing, node).value;
      FailureIsStep(s.snap.routing, recorded.0);
      var next := Put(s, node, l).(snap := Snapshot(recorded.0, None, None, None));
      RunStays(next);
      if !recorded.1 { FailMoves(next, ending.failure, at); }
      else if resumed { MoveToRunning(next, at); }
      FollowsThrough(s, next, Conclude(s, l, ending, at, resumed).value);
    }
  }

  lemma SuccessIsStep(r: Routing.Snapshot<string>, n: Routing.Snapshot<string>, output: string, route: string, ports: seq<string>)
    requires r.next < |r.order| && Routing.Join(r.order, r.edges, r.outcomes, r.order[r.next]) == Routing.Ready
    requires Routing.RecordSucceeded(r, r.order[r.next], output, route, ports) == Some(n)
    ensures Routing.Step(r, n)
  {
  }

  lemma FailureIsStep(r: Routing.Snapshot<string>, n: Routing.Snapshot<string>)
    requires r.next < |r.order| && Routing.Join(r.order, r.edges, r.outcomes, r.order[r.next]) == Routing.Ready
    requires Routing.RecordFailed(r, r.order[r.next]).Some? && Routing.RecordFailed(r, r.order[r.next]).value.0 == n
    ensures Routing.Step(r, n)
  {
  }

  lemma RunStays(s: State)
    ensures RunMoves(s, s) && RunFollows(s, s)
  {
  }

  /** RunFollows looks only at the run and the intents. */
  lemma FollowsThrough(s: State, next: State, t: State)
    requires next.run == s.run && next.intents == s.intents && RunFollows(next, t)
    ensures RunFollows(s, t)
  {
  }

  lemma FailMoves(s: State, f: I.Failure, at: int)
    requires FailRun(s, f, at).Some?
    ensures RunMoves(s, FailRun(s, f, at).value) && RunFollows(s, FailRun(s, f, at).value)
    ensures FailRun(s, f, at).value.run.status == R.Stopping
  {
    StopMoves(s, R.Termination(R.FailedKind, s.run.revision, Some(f), f.code, f.wellFormed), at);
  }
}
