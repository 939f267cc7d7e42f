/** Every action keeps the invariant of a run; what follows for its snapshot and for
    the intents that its termination waits for. */
module RunSafety {
  import opened Prelude
  import R = RunLifecycle
  import I = Invocation
  import E = Effect
  import Routing
  import Workflow
  import opened RunLoop
  import opened RunFacts
  import opened RunInvariant
  import opened RunPotential

  // ----------------------------------------------------------- shapes of commits

  lemma RunMovesKeep(s: State, t: State)
    requires Kept(s) && RunMoves(s, t) && RunFollows(s, t) && Projections(t) && Progressing(t)
    ensures Kept(t)
  {
    hide *;
    Parts(s);
    RunMovesParts(s, t);
    RunFollowsTermination(s, t);
    IntentsFollow(s, t);
    EffectsFollow(s, t);
    KeptOf(t);
  }

  lemma RunMovesParts(s: State, t: State)
    requires RunMoves(s, t)
    ensures LedgersAdvance(s, t) && EffectsAdvance(s, t) && t.snap == s.snap && t.completed == s.completed && t.effects == s.effects
    ensures Core(s) ==> Core(t)
  {
    hide Routing.Recorded, Pinned, LedgerKept, Routing.Join, R.Kept;
    if Core(s) {
      forall n | n in t.ledgers ensures NodeKept(t, n, t.ledgers[n]) { assert NodeKept(s, n, s.ledgers[n]); }
    }
  }

  /** A run that begins to stop keeps its projections. */
  lemma StopKeeps(s: State, t: State)
    requires Kept(s) && RunMoves(s, t) && RunFollows(s, t) && t.run.status == R.Stopping && s.run.status != R.Stopping
    ensures Kept(t)
  {
    StopKeepsProjections(s, t);
    hide Kept, Projections, Progressing, RunMoves, RunFollows;
    RunMovesKeep(s, t);
  }

  lemma StopKeepsProjections(s: State, t: State)
    requires Projections(s) && Progressing(s) && RunMoves(s, t) && RunFollows(s, t) && t.run.status == R.Stopping && s.run.status != R.Stopping
    ensures Projections(t) && Progressing(t)
  {
    hide R.Kept;
  }

  /** Another early ledger for the current node of a running run. */
  lemma PutKeeps(s: State, t: State, l: I.Ledger)
    requires Kept(s) && Driving(s) && AtNode(s) && t == Put(s, Current(s), l) && NodeKept(s, Current(s), l)
    requires l.head.status in {I.Ready, I.Running, I.RetryWait} && (Engaged(l.head.status) ==> Disposition(s) == Routing.Ready)
    ensures Kept(t)
  {
    PutParts(s, t, l);
    hide *;
    Parts(s);
    PutKeepsCore(s, t, l);
    RunStays(s);
    FollowsThrough(s, s, t);
    IntentsFollow(s, t);
    EffectsFollow(s, t);
    KeptOf(t);
  }

  lemma PutSpends(s: State, t: State, l: I.Ledger)
    requires AtNode(s) && Driving(s) && t == Put(s, Current(s), l)
    requires StageOf(MaxAttempts(s, Current(s)), Some(l), false) < Stage(s)
    ensures Spends(s, t)
  {
    assert MaxAttempts(t, Current(t)) == MaxAttempts(s, Current(s));
    hide MaxAttempts, StageOf;
    StageSpends(s, t);
  }

  lemma PutParts(s: State, t: State, l: I.Ledger)
    requires Kept(s) && Driving(s) && AtNode(s) && t == Put(s, Current(s), l) && l.head.status in {I.Ready, I.Running, I.RetryWait}
    ensures t.pins == s.pins && t.snap == s.snap && t.ledgers == s.ledgers[Current(s) := l] && t.effects == s.effects
    ensures t.run == s.run && t.intents == s.intents && t.completed == s.completed && RunFollows(s, t)
    ensures LedgersAdvance(s, t) && EffectsAdvance(s, t) && Projections(t) && Progressing(t)
  {
    hide Core, EffectsKept, IntentsKept, R.Kept, Disposition;
  }

  // ------------------------------------------------------------ the drive, in turn

  lemma StartKeeps(s: State, at: int)
    requires Kept(s) && DoStart(s, at).Some?
    ensures Kept(DoStart(s, at).value) && Spends(s, DoStart(s, at).value)
  {
    var t := DoStart(s, at).value;
    MoveToRunning(s, at);
    StartProjects(s, t);
    hide Kept, Projections, Progressing, RunMoves, RunFollows, MoveRun, Spends;
    RunMovesKeep(s, t);
    RunSpendsNothing(s, t);
  }

  lemma StartProjects(s: State, t: State)
    requires Projections(s) && Progressing(s) && RunMoves(s, t) && RunFollows(s, t)
    requires s.run.status in {R.Accepted, R.Queued} && t.run.status == R.Running
    ensures Projections(t) && Progressing(t)
  {
    hide R.Kept;
  }

  lemma ResumeRetryKeeps(s: State, at: int)
    requires Kept(s) && DoResumeRetry(s, at).Some?
    ensures Kept(DoResumeRetry(s, at).value) && Spends(s, DoResumeRetry(s, at).value)
  {
    var t := DoResumeRetry(s, at).value;
    var cleared := s.(snap := s.snap.(retry := None));
    MoveToRunning(cleared, at);
    ResumeParts(s, cleared, t);
    ResumeSpends(s, t);
    hide *;
    Parts(s);
    RunFollowsTermination(s, t);
    IntentsFollow(s, t);
    EffectsFollow(s, t);
    KeptOf(t);
  }

  lemma ResumeSpends(s: State, t: State)
    requires Kept(s) && s.snap.retry.Some? && s.run.status == R.Waiting && t.run.status == R.Running
    requires t == s.(snap := s.snap.(retry := None), run := t.run, intents := t.intents)
    ensures Spends(s, t)
  {
    RetryIsDue(s);
    CurrentLedger(s);
    var l := s.ledgers[Current(s)];
    KeptNode(s, Current(s), l);
    ResumeStage(MaxAttempts(s, Current(s)), l);
    assert MaxAttempts(t, Current(t)) == MaxAttempts(s, Current(s));
    hide MaxAttempts, StageOf, Kept;
    StageSpends(s, t);
  }

  lemma RetryIsDue(s: State)
    requires Kept(s) && s.snap.retry.Some? && s.run.status == R.Waiting
    ensures AtNode(s) && Current(s) in s.ledgers && s.ledgers[Current(s)].head.status == I.RetryWait
  {
    Parts(s);
    hide Kept, Core, Progressing, EffectsKept, IntentsKept;
  }

  lemma ResumeParts(s: State, cleared: State, t: State)
    requires Kept(s) && s.snap.retry.Some? && s.run.status == R.Waiting && cleared == s.(snap := s.snap.(retry := None))
    requires RunMoves(cleared, t) && RunFollows(cleared, t) && t.run.status == R.Running
    ensures Core(t) && Projections(t) && Progressing(t) && RunFollows(s, t) && LedgersAdvance(s, t) && EffectsAdvance(s, t)
    ensures t.snap.call == s.snap.call && t.completed == s.completed && t.effects == s.effects
  {
    hide Core, EffectsKept, IntentsKept, R.Kept, Projections, Progressing;
    ClearKeepsCore(s, t);
    FollowsThrough(s, cleared, t);
    RunIsKept(s);
    ResumeProjects(s, t);
  }

  lemma RunIsKept(s: State)
    requires Progressing(s)
    ensures R.Kept(s.run)
  {
    hide R.Kept;
  }

  lemma ResumeProjects(s: State, t: State)
    requires Projections(s) && Progressing(s) && s.run.status == R.Waiting && s.snap.retry.Some?
    requires t == s.(snap := s.snap.(retry := None), run := t.run, intents := t.intents) && t.run.status == R.Running && R.Kept(t.run)
    ensures Projections(t) && Progressing(t)
  {
    hide R.Kept;
  }

  lemma ClearKeepsCore(s: State, t: State)
    requires Core(s) && t.pins == s.pins && t.ledgers == s.ledgers && t.snap.routing == s.snap.routing
    ensures Core(t)
  {
    hide Routing.Recorded, Pinned, LedgerKept, Routing.Join;
    forall n | n in t.ledgers ensures NodeKept(t, n, t.ledgers[n]) { assert NodeKept(s, n, s.ledgers[n]); }
  }

  lemma ActivateKeeps(s: State, at: int)
    requires Kept(s) && DoActivate(s, at).Some?
    ensures Kept(DoActivate(s, at).value) && Spends(s, DoActivate(s, at).value)
  {
    var node := Current(s);
    var l := I.Activate(node, node in s.pins && s.pins[node].compensatable, at);
    ActivateIsKept(node, node in s.pins && s.pins[node].compensatable, at);
    SomeAttempt(s, node);
    ActivateStage(MaxAttempts(s, node), l, false);
    hide Kept, LedgerKept, Disposition, MaxAttempts, StageOf, Spends;
    PutKeeps(s, DoActivate(s, at).value, l);
    PutSpends(s, DoActivate(s, at).value, l);
  }

  /** Every accepted policy allows one attempt, and at most a hundred. */
  lemma SomeAttempt(s: State, node: string)
    requires Kept(s)
    ensures 0 < MaxAttempts(s, node) <= 100
  {
    hide Routing.EdgesForward, Routing.Recorded, LedgersKept, OutcomesAgree, Frontier, Projections, Progressing, EffectsKept, IntentsKept;
  }

  lemma CurrentLedger(s: State)
    requires Kept(s) && AtNode(s) && Current(s) in s.ledgers
    ensures NodeKept(s, Current(s), s.ledgers[Current(s)])
    ensures Engaged(s.ledgers[Current(s)].head.status) ==> Disposition(s) == Routing.Ready
    ensures s.run.status !in {R.Accepted, R.Queued, R.Succeeded}
  {
    hide Projections, EffectsKept, IntentsKept, Routing.Recorded, Pinned, NodeKept, OutcomesAgree, R.Kept;
  }

  lemma ClaimStarts(s: State, owner: string, token: string, leaseExpiresAt: int, at: int)
    requires DoClaim(s, owner, token, leaseExpiresAt, at).Some?
    ensures Driving(s) && AtNode(s) && Disposition(s) == Routing.Ready && Current(s) in s.ledgers
    ensures s.ledgers[Current(s)].head.status in {I.Ready, I.RetryWait}
    ensures var l := s.ledgers[Current(s)];
            var next := I.Apply(l, I.Claim(l.head.revision, owner, token, leaseExpiresAt, at));
            next.Some? && DoClaim(s, owner, token, leaseExpiresAt, at) == Some(Put(s, Current(s), next.value))
  {
    hide I.Apply, Disposition;
  }

  /** An invocation that may be claimed has an attempt left. */
  lemma AttemptLeft(s: State, n: string, l: I.Ledger, m: I.Ledger)
    requires NodeKept(s, n, l) && l.head.status in {I.Ready, I.RetryWait}
    requires LedgerKept(m) && m.head.status == I.Running && m.head.executions == l.head.executions + 1
    ensures NodeKept(s, n, m) && m.head.executions <= MaxAttempts(s, n)
  {
    hide LedgerKept, MaxAttempts;
  }

  lemma ClaimKeeps(s: State, owner: string, token: string, leaseExpiresAt: int, at: int)
    requires Kept(s) && DoClaim(s, owner, token, leaseExpiresAt, at).Some?
    ensures Kept(DoClaim(s, owner, token, leaseExpiresAt, at).value) && Spends(s, DoClaim(s, owner, token, leaseExpiresAt, at).value)
  {
    ClaimStarts(s, owner, token, leaseExpiresAt, at);
    hide *;
    CurrentLedger(s);
    var l, t := s.ledgers[Current(s)], DoClaim(s, owner, token, leaseExpiresAt, at).value;
    var c := I.Claim(l.head.revision, owner, token, leaseExpiresAt, at);
    var m := I.Apply(l, c).value;
    KeptNode(s, Current(s), l);
    ClaimFacts(l, c);
    AttemptLeft(s, Current(s), l, m);
    PutKeeps(s, t, m);
    ClaimStage(MaxAttempts(s, Current(s)), l, m, false);
    StageIs(s);
    PutSpends(s, t, m);
  }

  lemma StageIs(s: State)
    requires AtNode(s) && Current(s) in s.ledgers
    ensures Stage(s) == StageOf(MaxAttempts(s, Current(s)), Some(s.ledgers[Current(s)]), s.run.status == R.Waiting)
    ensures Driving(s) ==> s.run.status == R.Running
  {
    hide StageOf, MaxAttempts;
  }

  /** A running run has no projections. */
  lemma RunningIsBare(s: State)
    requires Kept(s) && (Driving(s) || (AtNode(s) && Current(s) in s.ledgers && s.ledgers[Current(s)].head.status == I.Running))
    ensures s.snap == Snapshot(s.snap.routing, None, None, None) && s.run.status != R.Waiting
  {
    hide Core, Progressing, EffectsKept, IntentsKept;
  }

  lemma SkipIsStep(r: Routing.Snapshot<string>, n: Routing.Snapshot<string>)
    requires r.next < |r.order| && Routing.Join(r.order, r.edges, r.outcomes, r.order[r.next]) == Routing.Skip
    requires Routing.RecordSkipped(r, r.order[r.next]) == Some(n)
    ensures Routing.Step(r, n) && r.order[r.next] in n.outcomes && n.outcomes[r.order[r.next]].status == Routing.Skipped
  {
  }

  lemma SkipShape(s: State, l: I.Ledger, at: int)
    requires s.snap == Snapshot(s.snap.routing, None, None, None) && DoSkip(s, at).Some? && l == s.ledgers[Current(s)]
    ensures var m := I.Apply(l, I.ResolveUnleased(l.head.revision, I.Skipped, None, at));
            m.Some? && (m.value.head.status == I.Skipped ==> Concluded(s, DoSkip(s, at).value, m.value))
    ensures DoSkip(s, at).value.run == s.run && s.run.status == R.Running
  {
    var t := DoSkip(s, at).value;
    hide I.Apply, Routing.Join, RunFollows;
    SkipIsStep(s.snap.routing, t.snap.routing);
    RunStays(s);
    FollowsThrough(s, s, t);
    hide Routing.Step, Routing.RecordSkipped;
  }

  lemma SkipKeeps(s: State, at: int)
    requires Kept(s) && DoSkip(s, at).Some?
    ensures Kept(DoSkip(s, at).value) && Spends(s, DoSkip(s, at).value)
  {
    SkipStarts(s, at);
    hide *;
    CurrentLedger(s);
    RunningIsBare(s);
    var l := s.ledgers[Current(s)];
    var c := I.ResolveUnleased(l.head.revision, I.Skipped, None, at);
    SkipShape(s, l, at);
    KeptNode(s, Current(s), l);
    UnleasedFacts(l, c);
    NodeStaysKept(s, Current(s), l, I.Apply(l, c).value);
    ConcludedKeeps(s, DoSkip(s, at).value, I.Apply(l, c).value);
    ConcludedSpends(s, DoSkip(s, at).value, I.Apply(l, c).value);
  }

  lemma SkipStarts(s: State, at: int)
    requires DoSkip(s, at).Some?
    ensures AtNode(s) && Current(s) in s.ledgers && Driving(s)
  {
    hide I.Apply, Routing.Join;
  }

  lemma KeptNode(s: State, n: string, l: I.Ledger)
    requires NodeKept(s, n, l)
    ensures LedgerKept(l) && l.head.executions <= MaxAttempts(s, n)
  {
    hide LedgerKept, MaxAttempts;
  }

  /** No new attempt, and no way to get one. */
  lemma NodeStaysKept(s: State, n: string, l: I.Ledger, m: I.Ledger)
    requires NodeKept(s, n, l) && LedgerKept(m) && m.head.executions == l.head.executions && m.head.status !in {I.Ready, I.RetryWait}
    ensures NodeKept(s, n, m)
  {
    hide LedgerKept, MaxAttempts;
  }

  lemma ConcludedSpends(s: State, t: State, l: I.Ledger)
    requires Kept(s) && Concluded(s, t, l) && Current(s) in s.ledgers && NodeKept(s, Current(s), l) && t.run.status != R.Waiting
    ensures Spends(s, t)
  {
    hide *;
    Parts(s);
    ConcludedParts(s, t, l);
    RecordKeepsCore(s, t, l);
    ConcludedPlan(s, t, l);
    EndSpends(s, t);
  }

  lemma ConcludedPlan(s: State, t: State, l: I.Ledger)
    requires Concluded(s, t, l) && Progressing(s) && Current(s) in s.ledgers
    ensures SamePlan(s, t) && t.snap.routing.next == s.snap.routing.next + 1 && !Unstarted(t)
  {
    Routing.StepRecords(s.snap.routing, t.snap.routing);
    hide Routing.Step, R.Kept;
  }

  /** The current node of a kept state ends. */
  lemma ConcludeKeeps(s: State, l: I.Ledger, ending: Ending, at: int, resumed: bool)
    requires Kept(s) && AtNode(s) && Current(s) in s.ledgers && Disposition(s) == Routing.Ready && NodeKept(s, Current(s), l)
    requires l.head.status == if ending.Success? then I.Succeeded else I.Failed
    requires Conclude(s, l, ending, at, resumed).Some? && (resumed || s.run.status != R.Waiting)
    ensures Kept(Conclude(s, l, ending, at, resumed).value) && Spends(s, Conclude(s, l, ending, at, resumed).value)
  {
    hide *;
    ConcludeShape(s, l, ending, at, resumed);
    ConcludedKeeps(s, Conclude(s, l, ending, at, resumed).value, l);
    ConcludedSpends(s, Conclude(s, l, ending, at, resumed).value, l);
  }

  /** Both ends of an expired lease, spelled out. */
  lemma ExpireCases(s: State, at: int)
    requires DoExpire(s, at).Some?
    ensures Driving(s) && AtNode(s) && Disposition(s) == Routing.Ready && Current(s) in s.ledgers
    ensures ActiveAttempt(s.ledgers[Current(s)]).Some? && s.ledgers[Current(s)].head.status == I.Running
    ensures var l := s.ledgers[Current(s)];
            var a := ActiveAttempt(l).value;
            var retry := l.head.executions < MaxAttempts(s, Current(s)) && Replayable(s, Current(s));
            var next := I.Apply(l, I.Expire(l.head.revision, a.id, a.revision, retry, LEASE_EXPIRED, at));
            next.Some? && DoExpire(s, at) ==
              if retry then Some(Put(s, Current(s), next.value)) else Conclude(s, next.value, Broken(LEASE_EXPIRED), at, false)
  {
    hide I.Apply, Conclude, ActiveAttempt, Disposition, Replayable, MaxAttempts;
  }

  lemma ExpireKeeps(s: State, at: int)
    requires Kept(s) && DoExpire(s, at).Some?
    ensures Kept(DoExpire(s, at).value) && Spends(s, DoExpire(s, at).value)
  {
    ExpireCases(s, at);
    hide *;
    CurrentLedger(s);
    RunningIsBare(s);
    var node, l := Current(s), s.ledgers[Current(s)];
    var a := ActiveAttempt(l).value;
    var retry := l.head.executions < MaxAttempts(s, node) && Replayable(s, node);
    var c := I.Expire(l.head.revision, a.id, a.revision, retry, LEASE_EXPIRED, at);
    var m := I.Apply(l, c).value;
    KeptNode(s, node, l);
    ExpireFacts(l, c);
    if retry {
      NodeMayRetry(s, node, m);
      PutKeeps(s, DoExpire(s, at).value, m);
      RunningStage(MaxAttempts(s, node), l, m, false, false);
      StageIs(s);
      PutSpends(s, DoExpire(s, at).value, m);
    } else {
      NodeStaysKept(s, node, l, m);
      ConcludeKeeps(s, m, Broken(LEASE_EXPIRED), at, false);
    }
  }

  // ------------------------------------------------------------------- suspensions

  /** The current node of a running run starts to wait. */
  ghost predicate Suspended(s: State, t: State, l: I.Ledger) {
    && AtNode(s) && Current(s) in s.ledgers && s.ledgers[Current(s)].head.status == I.Running && Driving(s)
    && t.pins == s.pins && t.snap.routing == s.snap.routing && t.ledgers == s.ledgers[Current(s) := l]
    && l.head.status in {I.Waiting, I.RetryWait} && t.run.status == R.Waiting && t.run.termination == s.run.termination
    && (R.Kept(s.run) ==> R.Kept(t.run)) && t.completed == s.completed
    && (forall id :: id in s.effects ==> id in t.effects && t.effects[id] == s.effects[id])
    && (forall id :: id in t.effects && id !in s.effects ==> E.Kept(t.effects[id]) && !Announceable(t.effects[id].record))
    && s.intents <= t.intents
    && (forall id :: id in t.intents && id !in s.intents ==> Accounted(t, id))
    && Count(t.snap) == 1 && WaitingAgrees(t) && CallIsFirst(t) && RetryAgrees(t)
    && (t.snap.call.Some? ==> ChildResolution(t.snap.call.value.child, 1) in t.intents)
  }

  lemma SuspendedKeeps(s: State, t: State, l: I.Ledger)
    requires Kept(s) && Suspended(s, t, l) && NodeKept(s, Current(s), l)
    requires l.head.executions == s.ledgers[Current(s)].head.executions
    ensures Kept(t) && Spends(s, t)
  {
    hide *;
    Parts(s);
    SuspendedStarts(s, t, l);
    CurrentLedger(s);
    SuspendedSpends(s, t, l);
    PutKeepsCore(s, t, l);
    SuspendedIntents(s, t, l);
    SuspendedProjects(s, t, l);
    KeptOf(t);
  }

  lemma SuspendedSpends(s: State, t: State, l: I.Ledger)
    requires Suspended(s, t, l) && NodeKept(s, Current(s), s.ledgers[Current(s)])
    requires l.head.executions == s.ledgers[Current(s)].head.executions
    ensures Spends(s, t)
  {
    RunningStage(MaxAttempts(s, Current(s)), s.ledgers[Current(s)], l, false, true);
    assert MaxAttempts(t, Current(t)) == MaxAttempts(s, Current(s));
    hide MaxAttempts, StageOf, LedgerKept, E.Kept, R.Kept, Accounted, Announceable, WaitingAgrees, CallIsFirst, RetryAgrees;
    StageSpends(s, t);
  }

  lemma SuspendedStarts(s: State, t: State, l: I.Ledger)
    requires Suspended(s, t, l)
    ensures AtNode(s) && Current(s) in s.ledgers && Engaged(s.ledgers[Current(s)].head.status)
    ensures t.pins == s.pins && t.snap.routing == s.snap.routing && t.ledgers == s.ledgers[Current(s) := l]
  {
    hide E.Kept, R.Kept, Accounted;
  }

  lemma SuspendedProjects(s: State, t: State, l: I.Ledger)
    requires Suspended(s, t, l) && Progressing(s)
    ensures Projections(t) && Progressing(t)
  {
    hide E.Kept, R.Kept, Accounted, WaitingAgrees, CallIsFirst, RetryAgrees;
  }

  lemma SuspendedIntents(s: State, t: State, l: I.Ledger)
    requires Suspended(s, t, l) && EffectsKept(s) && IntentsKept(s)
    ensures EffectsKept(t) && IntentsKept(t)
  {
    hide E.Kept, R.Kept, WaitingAgrees, CallIsFirst, RetryAgrees;
    assert LedgersAdvance(s, t) && EffectsAdvance(s, t);
    hide LedgersAdvance, EffectsAdvance, Announceable;
    forall id | id in t.intents ensures Accounted(t, id) {
      if id in s.intents { AccountedStill(s, t, id); }
      hide Accounted;
    }
    hide Accounted;
  }

  /** scheduleClaimedRetry, spelled out. */
  lemma RetryShape(s: State, l: I.Ledger, a: I.Attempt, token: string, f: I.Failure, delay: nat, at: int)
    requires AtNode(s) && ScheduleRetry(s, l, a, token, f, delay, at).Some?
    ensures var c := I.Transition(FenceOf(l, a, token, at), I.RetryWait, I.AttemptFailed, None, Some(f), Some(at + delay), "", 0);
            I.Apply(l, c).Some? && ScheduleRetry(s, l, a, token, f, delay, at) == MoveRun(
              Put(s, Current(s), I.Apply(l, c).value).(snap := s.snap.(retry := Some(RetryWait(Current(s), a.ordinal, at + delay)))), R.Waiting, at)
  {
    hide I.Apply, MoveRun;
  }

  lemma RetrySuspends(s: State, next: State, t: State, m: I.Ledger, w: RetryWait)
    requires AtNode(s) && Current(s) in s.ledgers && s.ledgers[Current(s)].head.status == I.Running && Driving(s)
    requires s.snap == Snapshot(s.snap.routing, None, None, None)
    requires next == Put(s, Current(s), m).(snap := s.snap.(retry := Some(w))) && RunMoves(next, t) && t.intents == s.intents
    requires t.run.status == R.Waiting && t.run.termination == s.run.termination && (R.Kept(s.run) ==> R.Kept(t.run))
    requires m.head.status == I.RetryWait && m.head.executions == w.ordinal > 0 && m.head.nextAt == Some(w.availableAt)
    requires w.node == Current(s)
    ensures Suspended(s, t, m)
  {
    hide R.Kept, E.Kept, Announceable, Accounted;
  }

  lemma RetryKeeps(s: State, l: I.Ledger, a: I.Attempt, token: string, f: I.Failure, delay: nat, at: int)
    requires Kept(s) && Driving(s) && AtNode(s) && Current(s) in s.ledgers && l == s.ledgers[Current(s)] && l.head.status == I.Running
    requires ActiveAttempt(l) == Some(a) && a.ordinal < MaxAttempts(s, Current(s))
    requires ScheduleRetry(s, l, a, token, f, delay, at).Some?
    ensures Kept(ScheduleRetry(s, l, a, token, f, delay, at).value) && Spends(s, ScheduleRetry(s, l, a, token, f, delay, at).value)
  {
    hide *;
    var node, t := Current(s), ScheduleRetry(s, l, a, token, f, delay, at).value;
    CurrentLedger(s);
    RunningIsBare(s);
    KeptNode(s, node, l);
    ActiveOrdinal(l);
    RetryShape(s, l, a, token, f, delay, at);
    var c := I.Transition(FenceOf(l, a, token, at), I.RetryWait, I.AttemptFailed, None, Some(f), Some(at + delay), "", 0);
    TransitionFacts(l, c);
    var m := I.Apply(l, c).value;
    var next := Put(s, node, m).(snap := s.snap.(retry := Some(RetryWait(node, a.ordinal, at + delay))));
    MoveToWaiting(next, at);
    MovedFrom(s, next, m);
    RetrySuspends(s, next, t, m, RetryWait(node, a.ordinal, at + delay));
    NodeMayRetry(s, node, m);
    SuspendedKeeps(s, t, m);
  }

  lemma MovedFrom(s: State, next: State, m: I.Ledger)
    requires AtNode(s) && next == Put(s, Current(s), m).(snap := next.snap)
    ensures next.run == s.run && next.intents == s.intents
  {
  }

  lemma NodeMayRetry(s: State, n: string, m: I.Ledger)
    requires LedgerKept(m) && m.head.executions < MaxAttempts(s, n)
    ensures NodeKept(s, n, m)
  {
    hide LedgerKept, MaxAttempts;
  }

  lemma FailClaimedKeeps(s: State, l: I.Ledger, a: I.Attempt, token: string, f: I.Failure, at: int)
    requires Kept(s) && AtNode(s) && Current(s) in s.ledgers && l == s.ledgers[Current(s)] && l.head.status == I.Running
    requires ActiveAttempt(l) == Some(a) && FailClaimed(s, l, a, token, f, at).Some?
    ensures Kept(FailClaimed(s, l, a, token, f, at).value) && Spends(s, FailClaimed(s, l, a, token, f, at).value)
  {
    FailClaimedCases(s, l, a, token, f, at);
    hide *;
    CurrentLedger(s);
    RunningIsBare(s);
    EngagedRunning(l.head.status);
    KeptNode(s, Current(s), l);
    var delay := RetryAfter(PolicyOf(s, Current(s)), a.ordinal);
    if f.transient && delay.Some? {
      RetryBound(s, Current(s), a.ordinal);
      RetryKeeps(s, l, a, token, f, delay.value, at);
    } else {
      var c := I.Transition(FenceOf(l, a, token, at), I.Failed, I.AttemptFailed, None, Some(f), None, "", 0);
      TransitionFacts(l, c);
      NodeStaysKept(s, Current(s), l, I.Apply(l, c).value);
      ConcludeKeeps(s, I.Apply(l, c).value, Broken(f), at, false);
    }
  }

  lemma EngagedRunning(x: I.Status)
    requires x in {I.Running, I.Waiting, I.RetryWait}
    ensures Engaged(x)
  {
  }

  lemma RetryBound(s: State, n: string, k: nat)
    requires RetryAfter(PolicyOf(s, n), k).Some?
    ensures k < MaxAttempts(s, n)
  {
  }

  lemma FailClaimedCases(s: State, l: I.Ledger, a: I.Attempt, token: string, f: I.Failure, at: int)
    requires AtNode(s) && FailClaimed(s, l, a, token, f, at).Some?
    ensures var delay := RetryAfter(PolicyOf(s, Current(s)), a.ordinal);
            var r := FailClaimed(s, l, a, token, f, at);
            if f.transient && delay.Some? then r == ScheduleRetry(s, l, a, token, f, delay.value, at) && Driving(s)
            else
              var c := I.Transition(FenceOf(l, a, token, at), I.Failed, I.AttemptFailed, None, Some(f), None, "", 0);
              I.Apply(l, c).Some? && r == Conclude(s, I.Apply(l, c).value, Broken(f), at, false)
  {
    hide I.Apply, Conclude, R.Valid, RetryAfter, PolicyOf;
  }

  // A wait of its own, and the effect it proposed.

  lemma PreparedIsKept(key: string, p: Proposal, at: int)
    requires E.Prepare(key, p.policy, p.deadline, at).Some?
    ensures var w := E.World(E.Prepare(key, p.policy, p.deadline, at).value, map[], map[]);
            E.Kept(w) && !Announceable(w.record)
  {
    E.PrepareKeeps(key, p.policy, p.deadline, at);
  }

  /** Suspend, spelled out. */
  lemma SuspendShape(s: State, l: I.Ledger, a: I.Attempt, token: string, subject: string, p: Option<Proposal>, at: int)
    requires AtNode(s) && Suspend(s, l, a, token, subject, p, at).Some?
    ensures var c := I.Transition(FenceOf(l, a, token, at), I.Waiting, I.AttemptWaiting, None, None, None, subject, a.ordinal);
            && I.Apply(l, c).Some?
            && var t := Suspend(s, l, a, token, subject, p, at).value;
               var o := Occurrence(Current(s), a.ordinal, subject, p.Some?);
               var waiting := Put(s, Current(s), I.Apply(l, c).value).(snap := s.snap.(waiting := Some(o)), effects := t.effects);
               && MoveRun(waiting, R.Waiting, at) == Some(t)
               && (p.None? ==> t.effects == s.effects)
               && (p.Some? ==>
                     && EffectId(Current(s), subject) !in s.effects
                     && E.Prepare(subject, p.value.policy, p.value.deadline, at).Some?
                     && t.effects == s.effects[EffectId(Current(s), subject) :=
                          E.World(E.Prepare(subject, p.value.policy, p.value.deadline, at).value, map[], map[])])
  {
    hide I.Apply, R.Valid, E.Prepare;
  }

  lemma WaitSuspends(s: State, next: State, t: State, m: I.Ledger, o: Occurrence)
    requires AtNode(s) && Current(s) in s.ledgers && s.ledgers[Current(s)].head.status == I.Running && Driving(s)
    requires s.snap == Snapshot(s.snap.routing, None, None, None)
    requires next == Put(s, Current(s), m).(snap := s.snap.(waiting := Some(o)), effects := next.effects)
    requires RunMoves(next, t) && t.intents == s.intents
    requires forall id :: id in s.effects ==> id in next.effects && next.effects[id] == s.effects[id]
    requires forall id :: id in next.effects && id !in s.effects ==> E.Kept(next.effects[id]) && !Announceable(next.effects[id].record)
    requires t.run.status == R.Waiting && t.run.termination == s.run.termination && (R.Kept(s.run) ==> R.Kept(t.run))
    requires InStep(m) && m.head.status == I.Waiting && m.head.waitGeneration == o.generation > 0 && m.head.waitRef == o.subject
    requires o.node == Current(s)
    ensures Suspended(s, t, m)
  {
    hide R.Kept, E.Kept, Announceable, Accounted, ActiveAttempt;
  }

  lemma SuspendKeeps(s: State, l: I.Ledger, a: I.Attempt, token: string, subject: string, p: Option<Proposal>, at: int)
    requires Kept(s) && AtNode(s) && Current(s) in s.ledgers && l == s.ledgers[Current(s)] && l.head.status == I.Running
    requires ActiveAttempt(l) == Some(a) && Suspend(s, l, a, token, subject, p, at).Some?
    ensures Kept(Suspend(s, l, a, token, subject, p, at).value) && Spends(s, Suspend(s, l, a, token, subject, p, at).value)
  {
    hide *;
    var node, t := Current(s), Suspend(s, l, a, token, subject, p, at).value;
    CurrentLedger(s);
    RunningIsBare(s);
    KeptNode(s, node, l);
    SuspendShape(s, l, a, token, subject, p, at);
    var c := I.Transition(FenceOf(l, a, token, at), I.Waiting, I.AttemptWaiting, None, None, None, subject, a.ordinal);
    TransitionFacts(l, c);
    var m, o := I.Apply(l, c).value, Occurrence(node, a.ordinal, subject, p.Some?);
    KeptInStep(m);
    var next := Put(s, node, m).(snap := s.snap.(waiting := Some(o)), effects := t.effects);
    MoveToWaiting(next, at);
    MovedFromWith(s, next, m);
    DrivingIsRunning(s);
    if p.Some? { PreparedIsKept(subject, p.value, at); }
    WaitSuspends(s, next, t, m, o);
    NodeStaysKept(s, node, l, m);
    SuspendedKeeps(s, t, m);
  }

  lemma MovedFromWith(s: State, next: State, m: I.Ledger)
    requires AtNode(s) && next == Put(s, Current(s), m).(snap := next.snap, effects := next.effects)
    ensures next.run == s.run && next.intents == s.intents
  {
  }

  lemma DrivingIsRunning(s: State)
    ensures Driving(s) <==> s.run.status == R.Running
  {
  }

  lemma KeptInStep(l: I.Ledger)
    requires LedgerKept(l)
    ensures InStep(l)
  {
    hide I.Kept, InStep;
  }

  // A child run, and the intent to join it.

  /** executeClaimedActionCall's commit, spelled out. */
  lemma AwaitShape(s: State, l: I.Ledger, a: I.Attempt, token: string, child: string, at: int)
    requires AtNode(s) && AwaitChild(s, l, a, token, child, at).Some?
    ensures var c := I.Transition(FenceOf(l, a, token, at), I.Waiting, I.AttemptWaiting, None, None, None, child, 1);
            && I.Apply(l, c).Some?
            && var next := Put(s, Current(s), I.Apply(l, c).value).(snap := s.snap.(waiting := None, call := Some(Call(Current(s), child))));
               && MoveRun(next, R.Waiting, at).Some?
               && AwaitChild(s, l, a, token, child, at) == Emit(MoveRun(next, R.Waiting, at).value, ChildResolution(child, 1))
  {
    hide I.Apply, MoveRun, Emit;
  }

  lemma CallSuspends(s: State, next: State, moved: State, t: State, m: I.Ledger, child: string)
    requires AtNode(s) && Current(s) in s.ledgers && s.ledgers[Current(s)].head.status == I.Running && Driving(s)
    requires s.snap == Snapshot(s.snap.routing, None, None, None) && ChildOf(s, Current(s)) == Some(child)
    requires next == Put(s, Current(s), m).(snap := s.snap.(waiting := None, call := Some(Call(Current(s), child))))
    requires RunMoves(next, moved) && moved.intents == s.intents && Emit(moved, ChildResolution(child, 1)) == Some(t)
    requires moved.run.status == R.Waiting && moved.run.termination == s.run.termination && (R.Kept(s.run) ==> R.Kept(moved.run))
    requires m.head.status == I.Waiting && m.head.waitRef == child && m.head.waitGeneration == 1
    ensures Suspended(s, t, m)
  {
    hide R.Kept, E.Kept, Announceable;
    assert ChildOf(t, Current(s)) == Some(child) && Current(s) in t.ledgers && t.ledgers[Current(s)] == m;
    hide ChildOf;
    assert Accounted(t, ChildResolution(child, 1));
    hide Accounted;
  }

  lemma AwaitKeeps(s: State, l: I.Ledger, a: I.Attempt, token: string, child: string, at: int)
    requires Kept(s) && AtNode(s) && Current(s) in s.ledgers && l == s.ledgers[Current(s)] && l.head.status == I.Running
    requires ActiveAttempt(l) == Some(a) && ChildOf(s, Current(s)) == Some(child) && AwaitChild(s, l, a, token, child, at).Some?
    ensures Kept(AwaitChild(s, l, a, token, child, at).value) && Spends(s, AwaitChild(s, l, a, token, child, at).value)
  {
    hide *;
    var node, t := Current(s), AwaitChild(s, l, a, token, child, at).value;
    CurrentLedger(s);
    RunningIsBare(s);
    KeptNode(s, node, l);
    AwaitShape(s, l, a, token, child, at);
    var c := I.Transition(FenceOf(l, a, token, at), I.Waiting, I.AttemptWaiting, None, None, None, child, 1);
    TransitionFacts(l, c);
    var m := I.Apply(l, c).value;
    var next := Put(s, node, m).(snap := s.snap.(waiting := None, call := Some(Call(node, child))));
    MoveToWaiting(next, at);
    MovedFrom(s, next, m);
    DrivingIsRunning(s);
    CallSuspends(s, next, MoveRun(next, R.Waiting, at).value, t, m, child);
    NodeStaysKept(s, node, l, m);
    SuspendedKeeps(s, t, m);
  }

  lemma SuccessKeeps(s: State, l: I.Ledger, c: I.Command, ending: Ending, at: int)
    requires Kept(s) && AtNode(s) && Current(s) in s.ledgers && l == s.ledgers[Current(s)] && l.head.status == I.Running
    requires c.Transition? && c.to == I.Succeeded && ending.Success?
    requires I.Apply(l, c).Some? && Conclude(s, I.Apply(l, c).value, ending, at, false).Some?
    ensures Kept(Conclude(s, I.Apply(l, c).value, ending, at, false).value)
    ensures Spends(s, Conclude(s, I.Apply(l, c).value, ending, at, false).value)
  {
    hide *;
    CurrentLedger(s);
    RunningIsBare(s);
    EngagedRunning(l.head.status);
    KeptNode(s, Current(s), l);
    TransitionFacts(l, c);
    NodeStaysKept(s, Current(s), l, I.Apply(l, c).value);
    ConcludeKeeps(s, I.Apply(l, c).value, ending, at, false);
  }

  lemma ReportKeeps(s: State, token: string, report: Report, at: int)
    requires Kept(s) && DoReport(s, token, report, at).Some?
    ensures Kept(DoReport(s, token, report, at).value) && Spends(s, DoReport(s, token, report, at).value)
  {
    hide Kept, Spends, I.Apply, FailClaimed, Suspend, AwaitChild, Conclude, ActiveAttempt, ChildOf;
    var l := s.ledgers[Current(s)];
    var a := ActiveAttempt(l).value;
    match report {
      case Ends(Broken(f)) => FailClaimedKeeps(s, l, a, token, f, at);
      case Ends(Success(output, route, ports)) =>
        SuccessKeeps(s, l, I.Transition(FenceOf(l, a, token, at), I.Succeeded, I.AttemptSucceeded, Some(output), None, None, "", 0),
                     Success(output, route, ports), at);
      case Waits(subject, p) => SuspendKeeps(s, l, a, token, subject, p, at);
      case CallsChild => AwaitKeeps(s, l, a, token, ChildOf(s, Current(s)).value, at);
    }
  }

  // -------------------------------------------------------------------- resolutions

  lemma ResolveWithKeeps(s: State, node: string, subject: string, generation: nat, ending: Ending, at: int)
    requires Kept(s) && ResolveWith(s, node, subject, generation, ending, at).Some?
    ensures Kept(ResolveWith(s, node, subject, generation, ending, at).value) && Spends(s, ResolveWith(s, node, subject, generation, ending, at).value)
  {
    ResolveCases(s, node, subject, generation, ending, at);
    var l := s.ledgers[node];
    var a := ActiveAttempt(l).value;
    var c := I.ResolveWait(
      l.head.revision, a.id, a.revision, subject, generation, if ending.Success? then I.Succeeded else I.Failed,
      if ending.Success? then Some(ending.output) else None, if ending.Success? then None else Some(ending.failure), at);
    hide *;
    CurrentLedger(s);
    EngagedRunning(l.head.status);
    KeptNode(s, node, l);
    ResolveFacts(l, c);
    NodeStaysKept(s, node, l, I.Apply(l, c).value);
    ConcludeKeeps(s, I.Apply(l, c).value, ending, at, true);
  }

  lemma ResolveCases(s: State, node: string, subject: string, generation: nat, ending: Ending, at: int)
    requires ResolveWith(s, node, subject, generation, ending, at).Some?
    ensures AtNode(s) && node == Current(s) && node in s.ledgers && ActiveAttempt(s.ledgers[node]).Some?
    ensures s.ledgers[node].head.status == I.Waiting
    ensures var l := s.ledgers[node];
            var a := ActiveAttempt(l).value;
            var next := I.Apply(l, I.ResolveWait(
              l.head.revision, a.id, a.revision, subject, generation, if ending.Success? then I.Succeeded else I.Failed,
              if ending.Success? then Some(ending.output) else None, if ending.Success? then None else Some(ending.failure), at));
            next.Some? && ResolveWith(s, node, subject, generation, ending, at) == Conclude(s, next.value, ending, at, true)
  {
    hide I.Apply, Conclude, ActiveAttempt;
  }

  /** A resolution ends the invocation that waited, records its outcome and clears every
      projection; the run goes on, or stops with a failure that no edge handles. */
  lemma ResolutionRecords(s: State, node: string, subject: string, generation: nat, ending: Ending, at: int)
    requires Kept(s) && ResolveWith(s, node, subject, generation, ending, at).Some?
    ensures var t := ResolveWith(s, node, subject, generation, ending, at).value;
            var o := if ending.Success? then Routing.Outcome(Routing.Succeeded, ending.route, ending.ports)
                     else Routing.Outcome(Routing.Failed, "", []);
            && t.snap.waiting == None && t.snap.call == None && t.snap.retry == None
            && t.snap.routing == s.snap.routing.(
                 next := s.snap.routing.next + 1, outcomes := s.snap.routing.outcomes[node := o],
                 outputs := if ending.Success? then s.snap.routing.outputs[node := ending.output] else s.snap.routing.outputs)
            && node in t.ledgers && t.ledgers == s.ledgers[node := t.ledgers[node]]
            && t.ledgers[node].head.status == Ended(o.status)
            && t.run.status == if ending.Success? || Routing.FailureHandled(s.snap.routing, node, o) then R.Running else R.Stopping
  {
    ResolveCases(s, node, subject, generation, ending, at);
    var l := s.ledgers[node];
    var a := ActiveAttempt(l).value;
    var c := I.ResolveWait(
      l.head.revision, a.id, a.revision, subject, generation, if ending.Success? then I.Succeeded else I.Failed,
      if ending.Success? then Some(ending.output) else None, if ending.Success? then None else Some(ending.failure), at);
    hide *;
    CurrentLedger(s);
    KeptNode(s, node, l);
    ResolveFacts(l, c);
    ConcludeRecords(s, I.Apply(l, c).value, ending, at);
  }

  lemma ConcludeRecords(s: State, l: I.Ledger, ending: Ending, at: int)
    requires AtNode(s) && Conclude(s, l, ending, at, true).Some?
    requires l.head.status == if ending.Success? then I.Succeeded else I.Failed
    ensures var t := Conclude(s, l, ending, at, true).value;
            var node := Current(s);
            var o := if ending.Success? then Routing.Outcome(Routing.Succeeded, ending.route, ending.ports)
                     else Routing.Outcome(Routing.Failed, "", []);
            && t.snap.waiting == None && t.snap.call == None && t.snap.retry == None
            && t.snap.routing == s.snap.routing.(
                 next := s.snap.routing.next + 1, outcomes := s.snap.routing.outcomes[node := o],
                 outputs := if ending.Success? then s.snap.routing.outputs[node := ending.output] else s.snap.routing.outputs)
            && node in t.ledgers && t.ledgers == s.ledgers[node := t.ledgers[node]]
            && t.ledgers[node].head.status == Ended(o.status)
            && t.run.status == if ending.Success? || Routing.FailureHandled(s.snap.routing, node, o) then R.Running else R.Stopping
  {
    hide R.Valid, Routing.FailureHandled;
  }

  lemma ResolvedKeeps(s: State, a: Action)
    requires Kept(s) && (a.ResolveEffect? || a.ResolveExternal? || a.ResolveChild?) && Apply(s, a).Some?
    ensures Kept(Apply(s, a).value) && Spends(s, Apply(s, a).value)
  {
    hide Kept, Spends, ResolveWith, E.Terminal, EffectFailure;
    if a.ResolveEffect? {
      var o, r := s.snap.waiting.value, s.effects[a.effect].record;
      ResolveWithKeeps(s, o.node, o.subject, o.generation, if r.state == E.Applied then a.ending else Broken(EffectFailure(r)), a.at);
    } else if a.ResolveExternal? {
      ResolveWithKeeps(s, a.node, a.subject, a.generation, a.ending, a.at);
    } else {
      ResolveWithKeeps(s, s.snap.call.value.node, a.child, 1, a.ending, a.at);
    }
  }

  // -------------------------------------------------------------- stopping and ending

  lemma StopRunKeeps(s: State, x: R.Termination, at: int)
    requires Kept(s) && StopRun(s, x, at).Some?
    ensures Kept(StopRun(s, x, at).value)
  {
    StopFrom(s, x, at);
    hide *;
    StopMoves(s, x, at);
    StopKeeps(s, StopRun(s, x, at).value);
  }

  lemma StopFrom(s: State, x: R.Termination, at: int)
    requires StopRun(s, x, at).Some?
    ensures s.run.status != R.Stopping
  {
    hide R.Valid, Emit;
  }

  lemma EndKeeps(s: State, t: State, c: R.Command)
    requires Kept(s) && R.Transition(s.run, c) == Some(t.run) && t == s.(run := t.run) && R.Terminal(c.to)
    requires Count(s.snap) == 0 && (c.to == R.Succeeded ==> !AtNode(s)) && s.run.status in {R.Running, R.Stopping}
    ensures Kept(t)
  {
    EndOfRun(s, c);
    hide R.Transition, R.Kept, R.Terminal, RunMoves, RunFollows, Accounted;
    RunMovesParts(s, t);
    hide Core;
    RunStays(s);
    EndProjects(s, t);
    hide Projections, Progressing;
    EffectsFollow(s, t);
    hide EffectsKept;
    forall id | id in t.intents ensures Accounted(t, id) { AccountedStill(s, t, id); }
  }

  lemma EndOfRun(s: State, c: R.Command)
    requires Kept(s) && R.Transition(s.run, c).Some? && R.Terminal(c.to)
    ensures var run := R.Transition(s.run, c).value;
            R.Kept(run) && run.status == c.to && R.Terminal(run.status) && run.termination == s.run.termination
  {
    hide Core, Projections, EffectsKept, IntentsKept;
    R.TransitionKeeps(s.run, c);
    hide R.Kept, R.Valid;
  }

  lemma EndProjects(s: State, t: State)
    requires t == s.(run := t.run) && R.Kept(t.run) && R.Terminal(t.run.status) && (t.run.status == R.Succeeded ==> !AtNode(s))
    requires Count(s.snap) == 0
    ensures Projections(t) && Progressing(t) && t.run.status != R.Stopping
  {
    hide R.Kept;
  }

  lemma FailDirectlyKeeps(s: State, f: I.Failure, at: int)
    requires Kept(s) && DoFailDirectly(s, f, at).Some?
    ensures Kept(DoFailDirectly(s, f, at).value)
  {
    hide Kept, StopRun, Disposition;
    StopRunKeeps(s, R.Termination(R.FailedKind, s.run.revision, Some(f), f.code, f.wellFormed), at);
  }

  lemma SucceedKeeps(s: State, result: string, closed: bool, at: int)
    requires Kept(s) && DoSucceed(s, result, closed, at).Some?
    ensures Kept(DoSucceed(s, result, closed, at).value)
  {
    RunningIsBare(s);
    hide Kept, R.Transition;
    EndKeeps(s, DoSucceed(s, result, closed, at).value,
             R.Command(s.run.revision, R.Succeeded, None, result, [], closed, s.run.revision, at));
  }

  lemma RequestTerminationKeeps(s: State, a: Action)
    requires Kept(s) && a.RequestTermination? && DoRequestTermination(s, a).Some?
    ensures Kept(DoRequestTermination(s, a).value)
  {
    hide Kept, StopRun;
    StopRunKeeps(s, R.Termination(a.kind, a.revision, a.primary, a.commandId, true), a.at);
  }

  /** Of a drained run that can be read, nothing is projected any more. */
  lemma DrainedIsBare(s: State)
    requires Drained(s) && Readable(s)
    ensures Count(s.snap) == 0
  {
    hide ExactPrefix, RunStateAgrees;
  }

  lemma FinishKeeps(s: State, cleanup: seq<I.Failure>, closed: bool, at: int)
    requires Kept(s) && DoFinish(s, cleanup, closed, at).Some?
    ensures Kept(DoFinish(s, cleanup, closed, at).value)
  {
    hide Kept, R.Transition, Drained, Readable, Required;
    DrainedIsBare(s);
    var to := R.TerminalStatus(s.run.termination.value.kind).value;
    EndKeeps(s, DoFinish(s, cleanup, closed, at).value, R.Command(s.run.revision, to, None, "", cleanup, closed, s.run.revision, at));
  }

  lemma CancelKeeps(s: State, node: string, at: int)
    requires Kept(s) && DoCancel(s, node, at).Some?
    ensures Kept(DoCancel(s, node, at).value)
  {
    CancelStarts(s, node, at);
    hide *;
    var l, t := s.ledgers[node], DoCancel(s, node, at).value;
    var c := I.Cancel(l.head.revision, at);
    var m := I.Apply(l, c).value;
    Parts(s);
    LedgerOf(s, node);
    KeptNode(s, node, l);
    CancelFacts(l, c);
    NonterminalIsCurrent(s, node);
    NodeStaysKept(s, node, l, m);
    NotEngaged(m);
    CancelParts(s, t, node, m);
    PutKeepsCore(s, t, m);
    IntentsFollow(s, t);
    EffectsFollow(s, t);
    KeptOf(t);
  }

  lemma NotEngaged(m: I.Ledger)
    requires m.head.status == I.Canceled
    ensures !Engaged(m.head.status)
  {
  }

  lemma LedgerOf(s: State, n: string)
    requires Core(s) && n in s.ledgers
    ensures NodeKept(s, n, s.ledgers[n])
  {
    hide NodeKept, Pinned, Routing.Recorded, OutcomesAgree, Frontier;
  }

  lemma CancelStarts(s: State, node: string, at: int)
    requires DoCancel(s, node, at).Some?
    ensures s.run.status == R.Stopping && node in s.ledgers
    ensures var m := I.Apply(s.ledgers[node], I.Cancel(s.ledgers[node].head.revision, at));
            && m.Some?
            && DoCancel(s, node, at).value == Put(s, node, m.value).(snap := s.snap.(waiting :=
                 if s.snap.waiting.Some? && s.snap.waiting.value.node == node then None else s.snap.waiting))
  {
    hide I.Apply;
  }

  lemma CancelParts(s: State, t: State, node: string, m: I.Ledger)
    requires Projections(s) && Progressing(s) && s.run.status == R.Stopping && AtNode(s) && node == Current(s) && node in s.ledgers
    requires !I.Terminal(s.ledgers[node].head.status) && m.head.status == I.Canceled
    requires t == Put(s, node, m).(snap := s.snap.(waiting :=
               if s.snap.waiting.Some? && s.snap.waiting.value.node == node then None else s.snap.waiting))
    ensures Projections(t) && Progressing(t) && RunFollows(s, t) && LedgersAdvance(s, t) && EffectsAdvance(s, t)
    ensures t.pins == s.pins && t.snap.routing == s.snap.routing && t.ledgers == s.ledgers[Current(s) := m]
    ensures t.snap.call == s.snap.call && t.completed == s.completed && t.effects == s.effects && t.intents == s.intents
  {
    hide R.Kept, ActiveAttempt;
  }

  // ------------------------------------------------------------------------ effects

  /** An effect comes to have a terminal revision only by being observed, and keeps it until it is begun again. */
  lemma TerminalByObservation(w: E.World, c: E.Command)
    requires E.Step(w, c).Some?
    ensures var r, n := w.record, E.Step(w, c).value.record;
            Announceable(n) ==>
              if c.Observe? then n.terminalRevision == n.revision else Announceable(r) && n.terminalRevision == r.terminalRevision
  {
    hide E.Valid, E.LedgerValid, E.NextReceipt;
  }

  lemma StepEffectShape(s: State, id: EffectId, c: E.Command)
    requires Kept(s) && DoStepEffect(s, id, c).Some?
    ensures id in s.effects && E.Step(s.effects[id], c).Some?
    ensures var t := DoStepEffect(s, id, c).value;
            var w := E.Step(s.effects[id], c).value;
            && t == s.(effects := s.effects[id := w], intents := t.intents)
            && t.intents == s.intents +
                 (if c.Observe? && E.Terminal(w.record.state) then {WaitResolution(id, w.record.revision)} else {})
  {
    hide Kept, E.Step;
  }

  lemma StepEffectKeeps(s: State, id: EffectId, c: E.Command)
    requires Kept(s) && DoStepEffect(s, id, c).Some?
    ensures Kept(DoStepEffect(s, id, c).value)
  {
    StepEffectShape(s, id, c);
    var w, t := E.Step(s.effects[id], c).value, DoStepEffect(s, id, c).value;
    hide *;
    Parts(s);
    EffectOf(s, id);
    E.StepKeeps(s.effects[id], c);
    TerminalByObservation(s.effects[id], c);
    EffectsStep(s, t, id, w, c);
    IntentsStep(s, t, id, w);
    EffectsAreApart(s, t);
    KeptOf(t);
  }

  lemma EffectOf(s: State, id: EffectId)
    requires EffectsKept(s) && id in s.effects
    ensures E.Kept(s.effects[id])
  {
    hide E.Kept, Announceable;
  }

  lemma EffectsStep(s: State, t: State, id: EffectId, w: E.World, c: E.Command)
    requires EffectsKept(s) && id in s.effects && E.Kept(w) && t.effects == s.effects[id := w]
    requires t.intents == s.intents +
               (if c.Observe? && E.Terminal(w.record.state) then {WaitResolution(id, w.record.revision)} else {})
    requires Announceable(w.record) ==>
               if c.Observe? then w.record.terminalRevision == w.record.revision
               else Announceable(s.effects[id].record) && w.record.terminalRevision == s.effects[id].record.terminalRevision
    ensures EffectsKept(t)
  {
    hide E.Kept, E.Terminal;
    assert Announceable(w.record) ==> E.Terminal(w.record.state);
    hide Announceable;
  }

  lemma IntentsStep(s: State, t: State, id: EffectId, w: E.World)
    requires IntentsKept(s) && id in s.effects && w.record.revision == s.effects[id].record.revision + 1
    requires t == s.(effects := s.effects[id := w], intents := t.intents)
    requires s.intents <= t.intents && forall x :: x in t.intents && x !in s.intents ==> x == WaitResolution(id, w.record.revision)
    ensures IntentsKept(t)
  {
    assert LedgersAdvance(s, t) && EffectsAdvance(s, t);
    hide LedgersAdvance, EffectsAdvance;
    forall x | x in t.intents ensures Accounted(t, x) {
      if x in s.intents { AccountedStill(s, t, x); }
    }
    hide Accounted;
  }

  lemma EffectsAreApart(s: State, t: State)
    requires Core(s) && Projections(s) && Progressing(s) && t == s.(effects := t.effects, intents := t.intents, completed := t.completed)
    ensures Core(t) && Projections(t) && Progressing(t)
  {
    ClearKeepsCore(s, t);
    hide Core, R.Kept, ActiveAttempt;
  }

  lemma CompleteKeeps(s: State, id: IntentId)
    requires Kept(s) && id in s.intents
    ensures Kept(s.(completed := s.completed + {id}))
  {
    hide *;
    var t := s.(completed := s.completed + {id});
    Parts(s);
    EffectsAreApart(s, t);
    EffectsFollow(s, t);
    CompletedIntents(s, t, id);
    KeptOf(t);
  }

  lemma CompletedIntents(s: State, t: State, id: IntentId)
    requires IntentsKept(s) && id in s.intents && t == s.(completed := s.completed + {id})
    ensures IntentsKept(t)
  {
    assert LedgersAdvance(s, t) && EffectsAdvance(s, t);
    hide LedgersAdvance, EffectsAdvance, Accounted;
    forall x | x in t.intents ensures Accounted(t, x) { AccountedStill(s, t, x); }
  }

  // --------------------------------------------------------------------- whole runs

  predicate DriveAction(a: Action) {
    a.StartRun? || a.ResumeRetry? || a.ActivateNode? || a.SkipNode? || a.ClaimNode? || a.ExpireNode? || a.ReportNode?
  }

  lemma DriveActionKeeps(s: State, a: Action)
    requires Kept(s) && DriveAction(a) && Apply(s, a).Some?
    ensures Kept(Apply(s, a).value) && Spends(s, Apply(s, a).value)
  {
    hide Kept, Spends, DoStart, DoResumeRetry, DoActivate, DoSkip, DoClaim, DoExpire, DoReport;
    match a {
      case StartRun(at) => StartKeeps(s, at);
      case ResumeRetry(at) => ResumeRetryKeeps(s, at);
      case ActivateNode(at) => ActivateKeeps(s, at);
      case SkipNode(at) => SkipKeeps(s, at);
      case ClaimNode(owner, token, leaseExpiresAt, at) => ClaimKeeps(s, owner, token, leaseExpiresAt, at);
      case ExpireNode(at) => ExpireKeeps(s, at);
      case ReportNode(token, report, at) => ReportKeeps(s, token, report, at);
    }
  }

  lemma ApplyKeeps(s: State, a: Action)
    requires Kept(s) && Apply(s, a).Some?
    ensures Kept(Apply(s, a).value)
  {
    hide Kept, DriveAction, DoStart, DoResumeRetry, DoActivate, DoSkip, DoClaim, DoExpire, DoReport;
    hide DoFailDirectly, DoSucceed, DoRequestTermination, DoCancel, DoStepEffect, DoFinish, DoResolveEffect, DoResolveExternal, DoResolveChild;
    match a {
      case FailDirectly(failure, at) => FailDirectlyKeeps(s, failure, at);
      case SucceedRun(result, closed, at) => SucceedKeeps(s, result, closed, at);
      case ResolveEffect(_, _, _) => ResolvedKeeps(s, a);
      case ResolveExternal(_, _, _, _, _) => ResolvedKeeps(s, a);
      case ResolveChild(_, _, _) => ResolvedKeeps(s, a);
      case RequestTermination(_, _, _, _, _) => RequestTerminationKeeps(s, a);
      case CancelNode(node, at) => CancelKeeps(s, node, at);
      case StepEffect(effect, command) => StepEffectKeeps(s, effect, command);
      case CompleteIntent(intent) => CompleteKeeps(s, intent);
      case FinishRun(cleanup, closed, at) => FinishKeeps(s, cleanup, closed, at);
      case _ =>
        DriveActionIs(a);
        DriveActionKeeps(s, a);
    }
  }

  lemma DriveActionIs(a: Action)
    requires a.StartRun? || a.ResumeRetry? || a.ActivateNode? || a.SkipNode? || a.ClaimNode? || a.ExpireNode? || a.ReportNode?
    ensures DriveAction(a)
  {
  }

  lemma BeginKeeps(pins: map<string, Pin>, order: seq<string>, edges: seq<Workflow.Edge>, at: int)
    requires Pinned(pins, order, edges)
    ensures Kept(Begin(pins, order, edges, at))
  {
    var s := Begin(pins, order, edges, at);
    Routing.StartRecords<string>(order, edges);
    R.AdmitKeeps("run", at);
    hide Pinned, Routing.Recorded, R.Kept;
  }

  /** Every reachable state of a run keeps the invariant. */
  lemma {:induction false} PlayKeeps(s: State, actions: seq<Action>)
    requires Kept(s)
    ensures Kept(Play(s, actions))
  {
    if actions != [] {
      var before, a := Play(s, actions[..|actions| - 1]), actions[|actions| - 1];
      PlayKeeps(s, actions[..|actions| - 1]);
      hide Kept, Apply;
      if Apply(before, a).Some? { ApplyKeeps(before, a); }
    }
  }

  lemma PlayOne(s: State, a: Action)
    ensures Play(s, []) == s
    ensures Apply(s, a).Some? ==> Play(s, [a]) == Apply(s, a).value
  {
    hide Apply;
    assert [a][..0] == [];
  }

  lemma {:induction false} PlayAll(s: State, first: seq<Action>, rest: seq<Action>)
    ensures Play(s, first + rest) == Play(Play(s, first), rest)
  {
    hide Apply;
    if rest == [] {
      assert first + rest == first;
    } else {
      var front := rest[..|rest| - 1];
      PlayAll(s, first, front);
      assert (first + rest)[..|first + rest| - 1] == first + front;
    }
  }
}
