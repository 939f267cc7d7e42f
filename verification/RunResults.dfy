/** What the invariant of a run says to those who drive it, wait for it and stop it. */
module RunResults {
  import opened Prelude
  import opened Graph
  import R = RunLifecycle
  import I = Invocation
  import E = Effect
  import Routing
  import opened RunLoop
  import opened RunFacts
  import opened RunInvariant
  import opened RunSafety

  // ------------------------------------------------------------ snapshot agreement

  lemma RecordedIsExact(r: Routing.Snapshot<string>)
    requires Routing.EdgesForward(r.order, r.edges) && Routing.Recorded(r, r.order, r.edges)
    ensures ExactPrefix(r)
  {
    var prefix := r.order[..r.next];
    assert NoDuplicates(prefix);
    CountDistinct(prefix);
    forall i | 0 <= i < |r.order| ensures r.order[i] in r.outcomes <==> i < r.next {
      if i < r.next { assert prefix[i] == r.order[i]; }
      if r.order[i] in r.outcomes {
        assert r.order[i] in prefix;
      }
    }
  }

  /** A kept snapshot can be read except where a child wait or a retry wait has lost its invocation. */
  lemma ReadableExactly(s: State)
    requires Kept(s)
    ensures Readable(s) <==> !(s.snap.call.Some? && Abandoned(s, s.snap.call.value.node))
                             && !(s.snap.retry.Some? && Abandoned(s, s.snap.retry.value.node))
  {
    Parts(s);
    hide Kept, Progressing, EffectsKept, IntentsKept;
    CoreParts(s);
    hide Core;
    RecordedIsExact(s.snap.routing);
    hide ExactPrefix, Routing.Recorded, ActiveAttempt;
  }

  /** Until a run begins to stop its snapshot, its run and its invocation agree: the
      outcomes are an exact prefix of the order, and there is exactly one projection
      while it waits, matching the invocation, and none otherwise. */
  lemma SnapshotAgrees(s: State, actions: seq<Action>)
    requires Kept(s) && Play(s, actions).run.status != R.Stopping
    ensures Readable(Play(s, actions))
  {
    PlayKeeps(s, actions);
    ReadableExactly(Play(s, actions));
    hide Kept, Readable, Play;
  }

  /** The errors that Drive guards against never happen: the current node is not
      blocked, a skipped one was not started, and a started one is ready, running or
      due for a retry. */
  lemma DriveFindsItsNode(s: State)
    requires Kept(s) && Driving(s) && AtNode(s)
    ensures Disposition(s) != Routing.Blocked && Current(s) !in s.snap.routing.outcomes
    ensures Current(s) in s.ledgers ==>
              && s.ledgers[Current(s)].head.status in {I.Ready, I.Running, I.RetryWait}
              && (Disposition(s) == Routing.Skip ==> s.ledgers[Current(s)].head.status == I.Ready)
  {
    Parts(s);
    CurrentIsUnrecorded(s);
    hide Kept, Projections, EffectsKept, IntentsKept, Routing.Recorded, Pinned, LedgersKept, OutcomesAgree, Routing.Join;
  }

  // -------------------------------------------------------------- termination intents

  /** Whatever a stopping run waits for has been announced: its cleanup, the join of
      its child and the resolution of every terminal effect. */
  lemma TerminationIntentsExist(s: State, actions: seq<Action>)
    requires Kept(s) && Play(s, actions).run.status == R.Stopping
    ensures Required(Play(s, actions)) <= Play(s, actions).intents
    ensures forall id :: id in Play(s, actions).effects && Announceable(Play(s, actions).effects[id].record) ==>
              Play(s, actions).effects[id].record.terminalRevision != 0
  {
    PlayKeeps(s, actions);
    hide Play;
    RequiredExist(Play(s, actions));
  }

  lemma RequiredExist(s: State)
    requires Kept(s) && s.run.status == R.Stopping
    ensures Required(s) <= s.intents
    ensures forall id :: id in s.effects && Announceable(s.effects[id].record) ==> s.effects[id].record.terminalRevision != 0
  {
    hide Core, Projections, Progressing, Accounted;
    forall id | id in s.effects && Announceable(s.effects[id].record)
      ensures s.effects[id].record.terminalRevision != 0 && WaitResolution(id, s.effects[id].record.terminalRevision) in s.intents
    {
      TerminalRevision(s.effects[id]);
    }
    hide E.Kept;
  }

  lemma TerminalRevision(w: E.World)
    requires E.Kept(w) && Announceable(w.record)
    ensures w.record.terminalRevision != 0
  {
  }

  /** The store never refuses a cleanup intent: a run begins to stop once. */
  lemma CleanupIsNew(s: State, x: R.Termination, at: int)
    requires Kept(s) && R.Transition(s.run, R.Stop(s.run, x, at)).Some?
    ensures StopRun(s, x, at).Some?
  {
    var revision := R.Transition(s.run, R.Stop(s.run, x, at)).value.revision;
    hide Core, Projections, Progressing, EffectsKept, R.Valid;
    assert s.run.termination.None?;
    if Cleanup(revision) in s.intents {
      assert Accounted(s, Cleanup(revision));
    }
  }

  /** Nor a join intent: a node awaits its child once. */
  lemma ChildResolutionIsNew(s: State, child: string)
    requires Kept(s) && AtNode(s) && Current(s) in s.ledgers && s.ledgers[Current(s)].head.status == I.Running
    requires ChildOf(s, Current(s)) == Some(child)
    ensures ChildResolution(child, 1) !in s.intents
  {
    Parts(s);
    hide Kept, Projections, Progressing, EffectsKept;
    CoreParts(s);
    hide Core, Routing.Recorded, LedgersKept, OutcomesAgree, Frontier, Routing.EdgesForward;
    forall n | n in s.ledgers && ChildOf(s, n) == Some(child) ensures n == Current(s) { ChildHasOneNode(s, n, child); }
    assert !Accounted(s, ChildResolution(child, 1));
  }

  lemma ChildHasOneNode(s: State, n: string, child: string)
    requires Pinned(s.pins, s.snap.routing.order, s.snap.routing.edges) && AtNode(s)
    requires ChildOf(s, n) == Some(child) && ChildOf(s, Current(s)) == Some(child)
    ensures n == Current(s)
  {
    hide Routing.EdgesForward;
  }

  /** Nor the resolution of an effect: its revision only grows. */
  lemma WaitResolutionIsNew(s: State, id: EffectId, c: E.Command)
    requires Kept(s) && id in s.effects && E.Step(s.effects[id], c).Some?
    ensures c.CancelPrepared? || DoStepEffect(s, id, c).Some?
  {
    Parts(s);
    EffectOf(s, id);
    E.StepKeeps(s.effects[id], c);
    hide E.Step, E.Kept, Kept, Core, Projections, Progressing, EffectsKept;
    LaterIsNew(s, id, E.Step(s.effects[id], c).value.record.revision);
    hide IntentsKept;
  }

  /** The commit in which an effect becomes terminal is an observation, and announces the
      resolution of its wait under an identity that was not announced before. */
  lemma TerminalIsAnnounced(s: State, id: EffectId, c: E.Command)
    requires Kept(s) && DoStepEffect(s, id, c).Some?
    ensures id in s.effects && id in DoStepEffect(s, id, c).value.effects
    ensures var t := DoStepEffect(s, id, c).value;
            var r, n := s.effects[id].record, t.effects[id].record;
            Announceable(n) && !(Announceable(r) && n.terminalRevision == r.terminalRevision) ==>
              && c.Observe? && n.terminalRevision == n.revision
              && WaitResolution(id, n.revision) !in s.intents && t.intents == s.intents + {WaitResolution(id, n.revision)}
  {
    hide *;
    Parts(s);
    StepEffectShape(s, id, c);
    EffectOf(s, id);
    E.StepKeeps(s.effects[id], c);
    TerminalByObservation(s.effects[id], c);
    AnnouncedStates(E.Step(s.effects[id], c).value.record);
    LaterIsNew(s, id, E.Step(s.effects[id], c).value.record.revision);
  }

  lemma AnnouncedStates(r: E.Record)
    ensures Announceable(r) ==> E.Terminal(r.state)
  {
  }

  lemma LaterIsNew(s: State, id: EffectId, revision: nat)
    requires IntentsKept(s) && id in s.effects && s.effects[id].record.revision < revision
    ensures WaitResolution(id, revision) !in s.intents
  {
    assert !Accounted(s, WaitResolution(id, revision));
  }

  // ---------------------------------------------------- stopping in a wait that stays

  predicate Trapped(s: State) {
    s.run.status == R.Stopping && (s.snap.call.Some? || s.snap.retry.Some?)
  }

  /** Once all invocations of a stopping run are closed, its snapshot can be read
      exactly if the run did not stop in a child wait or a retry wait. */
  lemma DrainedStopIsReadableExactly(s: State)
    requires Kept(s) && s.run.status == R.Stopping && Drained(s)
    ensures Readable(s) <==> !Trapped(s)
  {
    ReadableExactly(s);
    if Readable(s) { DrainedIsBare(s); }
    hide Kept, Readable, Drained;
  }

  lemma TrappedStep(s: State, a: Action)
    requires Kept(s) && Trapped(s) && Apply(s, a).Some?
    ensures Trapped(Apply(s, a).value)
  {
    hide *;
    TrappedStarts(s);
    TrappedCounts(s);
    ReportsAreRunning(s, a);
    FinishesAreBare(s, a);
    if !a.ReportNode? && !a.FinishRun? { OtherStepsStay(s, a); }
  }

  lemma ReportsAreRunning(s: State, a: Action)
    ensures a.ReportNode? && Apply(s, a).Some? ==>
              AtNode(s) && Current(s) in s.ledgers && s.ledgers[Current(s)].head.status == I.Running
  {
    hide FailClaimed, Suspend, AwaitChild, Conclude, I.Apply, ActiveAttempt;
  }

  lemma FinishesAreBare(s: State, a: Action)
    ensures a.FinishRun? && Apply(s, a).Some? ==> Count(s.snap) == 0
  {
    hide Drained, Readable, Required, R.Transition;
    if a.FinishRun? && Apply(s, a).Some? { DrainedIsBare(s); }
  }

  /** All that is left for a stopping run but reports and its end. */
  lemma OtherStepsStay(s: State, a: Action)
    requires Trapped(s) && s.run.termination.Some? && Apply(s, a).Some? && !a.ReportNode? && !a.FinishRun?
    ensures Trapped(Apply(s, a).value)
  {
    hide R.Transition, I.Apply, E.Step, Conclude, Disposition, ActiveAttempt, FailRun, ResolveWith, DoReport, DoFinish;
  }

  lemma TrappedStarts(s: State)
    requires Kept(s) && Trapped(s)
    ensures s.run.termination.Some?
    ensures AtNode(s) && Current(s) in s.ledgers && s.ledgers[Current(s)].head.status != I.Running
  {
    hide *;
    Parts(s);
    StoppingIsAsked(s);
    TrappedLedger(s);
  }

  lemma TrappedCounts(s: State)
    requires Trapped(s)
    ensures Count(s.snap) > 0
  {
  }

  lemma StoppingIsAsked(s: State)
    requires Progressing(s) && Trapped(s)
    ensures s.run.termination.Some?
  {
    hide R.Valid;
  }

  lemma TrappedLedger(s: State)
    requires Projections(s) && Trapped(s)
    ensures AtNode(s) && Current(s) in s.ledgers && s.ledgers[Current(s)].head.status != I.Running
  {
    hide WaitingAgrees, RunStateAgrees;
  }

  /** A run that begins to stop while it waits for a child or a retry never ends:
      cancellation clears neither projection, and the snapshot cannot be read any more. */
  lemma {:induction false} TrappedForever(s: State, actions: seq<Action>)
    requires Kept(s) && Trapped(s)
    ensures Trapped(Play(s, actions))
  {
    if actions != [] {
      var before, a := Play(s, actions[..|actions| - 1]), actions[|actions| - 1];
      TrappedForever(s, actions[..|actions| - 1]);
      PlayKeeps(s, actions[..|actions| - 1]);
      hide Kept, Apply, Trapped;
      if Apply(before, a).Some? { TrappedStep(before, a); }
    }
  }
}
