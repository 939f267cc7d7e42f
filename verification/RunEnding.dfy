/** Which runs can still end: some answers of providers, child runs and operators
    bring every run to its end, except one that began to stop in a wait that stays. */
module RunEnding {
  import opened Prelude
  import R = RunLifecycle
  import I = Invocation
  import E = Effect
  import Routing
  import Workflow
  import opened RunLoop
  import opened RunFacts
  import opened RunInvariant
  import opened RunSafety
  import opened RunResults

  /** Some actions end the run. */
  ghost predicate CanEnd(s: State) {
    exists actions :: R.Terminal(Play(s, actions).run.status)
  }

  lemma EndedCanEnd(s: State)
    requires R.Terminal(s.run.status)
    ensures CanEnd(s)
  {
    assert Play(s, []) == s;
  }

  lemma EndsLater(s: State, a: Action)
    requires Apply(s, a).Some? && CanEnd(Apply(s, a).value)
    ensures CanEnd(s)
  {
    hide Apply;
    var rest :| R.Terminal(Play(Apply(s, a).value, rest).run.status);
    PlayOne(s, a);
    PlayAll(s, [a], rest);
    assert R.Terminal(Play(s, [a] + rest).run.status);
  }

  // ------------------------------------------------------------ a run that stops

  /** Everything canceled and carried out: the last commit. */
  lemma FinishEnds(s: State)
    requires Kept(s) && s.run.status == R.Stopping && !Trapped(s) && Drained(s) && Required(s) <= s.completed
    ensures CanEnd(s)
  {
    hide *;
    RunIsKept(s);
    NoCleanup();
    FinishExactly(s, [], true, s.run.updatedAt);
    EndedCanEnd(Apply(s, FinishRun([], true, s.run.updatedAt)).value);
    EndsLater(s, FinishRun([], true, s.run.updatedAt));
  }

  lemma NoCleanup()
    ensures R.CleanupValid([])
  {
  }

  /** The last commit of a drained run succeeds exactly if the run is not trapped, its
      announced work is carried out, and nothing it owns is open. */
  lemma FinishExactly(s: State, cleanup: seq<I.Failure>, closed: bool, at: int)
    requires Kept(s) && s.run.status == R.Stopping && Drained(s) && s.run.updatedAt <= at
    ensures Apply(s, FinishRun(cleanup, closed, at)).Some? <==>
            !Trapped(s) && Required(s) <= s.completed && closed && R.CleanupValid(cleanup)
    ensures Apply(s, FinishRun(cleanup, closed, at)).Some? ==> R.Terminal(Apply(s, FinishRun(cleanup, closed, at)).value.run.status)
  {
    hide *;
    RunIsKept(s);
    DrainedStopIsReadableExactly(s);
    if Readable(s) {
      DrainedIsBare(s);
      BareWaitsForNothing(s);
    }
    R.StoppingEndsExactly(s.run, cleanup, closed, at);
    FinishIs(s, cleanup, closed, at);
  }

  lemma BareWaitsForNothing(s: State)
    requires Count(s.snap) == 0
    ensures s.snap.waiting.None? && s.snap.call.None? && s.snap.retry.None?
  {
  }

  lemma RunIsKept(s: State)
    requires Kept(s)
    ensures R.Kept(s.run) && (s.run.status == R.Stopping ==> s.run.termination.Some?)
  {
    hide Core, Projections, EffectsKept, IntentsKept;
  }

  lemma FinishIs(s: State, cleanup: seq<I.Failure>, closed: bool, at: int)
    requires s.run.status == R.Stopping && s.run.termination.Some? && Drained(s) && (Readable(s) ==> s.snap.waiting.None?)
    requires R.TerminalStatus(s.run.termination.value.kind).Some?
    ensures var to := R.TerminalStatus(s.run.termination.value.kind).value;
            var ended := R.Transition(s.run, R.Command(s.run.revision, to, None, "", cleanup, closed, s.run.revision, at));
            var t := Apply(s, FinishRun(cleanup, closed, at));
            && (t.Some? <==> Readable(s) && Required(s) <= s.completed && ended.Some?)
            && (t.Some? ==> t.value.run == ended.value)
  {
    hide Drained, Readable, Required, R.Transition, R.TerminalStatus, R.Terminal;
  }

  /** Everything canceled: the announced work is carried out, one intent at a time. */
  lemma {:induction false} CompletionEnds(s: State)
    requires Kept(s) && s.run.status == R.Stopping && !Trapped(s) && Drained(s)
    ensures CanEnd(s)
    decreases Required(s) - s.completed
  {
    hide *;
    if Required(s) <= s.completed {
      FinishEnds(s);
    } else {
      RequiredExist(s);
      var id :| id in Required(s) && id !in s.completed;
      CompleteIs(s, id);
      var t := Apply(s, CompleteIntent(id)).value;
      ApplyKeeps(s, CompleteIntent(id));
      CompletionEnds(t);
      EndsLater(s, CompleteIntent(id));
    }
  }

  lemma CompleteIs(s: State, id: IntentId)
    requires id in s.intents
    ensures var t := Apply(s, CompleteIntent(id));
            && t == Some(s.(completed := s.completed + {id}))
            && Required(t.value) == Required(s) && (Drained(s) ==> Drained(t.value)) && (Trapped(t.value) <==> Trapped(s))
  {
  }

  predicate Closed(s: State) {
    forall n :: n in s.ledgers ==> I.Terminal(s.ledgers[n].head.status)
  }

  function PreparedEffects(s: State): set<EffectId> {
    set id | id in s.effects && s.effects[id].record.state == E.Prepared
  }

  /** Every invocation closed: the prepared effects are withdrawn, one at a time. */
  lemma {:induction false} WithdrawalEnds(s: State)
    requires Kept(s) && s.run.status == R.Stopping && !Trapped(s) && Closed(s)
    ensures CanEnd(s)
    decreases PreparedEffects(s)
  {
    hide *;
    if PreparedEffects(s) == {} {
      ClosedIsDrained(s);
      CompletionEnds(s);
    } else {
      var id :| id in PreparedEffects(s);
      Parts(s);
      var a := Withdraw(s, id);
      var t := Apply(s, a).value;
      ApplyKeeps(s, a);
      WithdrawalEnds(t);
      EndsLater(s, a);
    }
  }

  lemma ClosedIsDrained(s: State)
    requires Closed(s) && PreparedEffects(s) == {}
    ensures Drained(s)
  {
    forall id | id in s.effects ensures s.effects[id].record.state != E.Prepared { assert id !in PreparedEffects(s); }
  }

  lemma Withdraw(s: State, id: EffectId) returns (a: Action)
    requires EffectsKept(s) && s.run.status == R.Stopping && id in PreparedEffects(s)
    ensures Apply(s, a).Some?
    ensures var t := Apply(s, a).value;
            && t.run == s.run && (Closed(s) ==> Closed(t)) && (Trapped(t) <==> Trapped(s))
            && PreparedEffects(t) == PreparedEffects(s) - {id}
  {
    IsPrepared(s, id);
    hide *;
    var r := s.effects[id].record;
    a := StepEffect(id, E.CancelPrepared(r.revision, r.updatedAt));
    WithdrawWorks(s, id, r.updatedAt);
    WithdrawnIsFewer(s, Apply(s, a).value, id);
  }

  lemma IsPrepared(s: State, id: EffectId)
    requires id in PreparedEffects(s)
    ensures id in s.effects && s.effects[id].record.state == E.Prepared
  {
  }

  /** One prepared effect is canceled, and nothing else changes. */
  predicate Withdrawn(s: State, t: State, id: EffectId) {
    && id in s.effects && id in t.effects && s.effects[id].record.state == E.Prepared && t.effects[id].record.state == E.Canceled
    && t == s.(effects := s.effects[id := t.effects[id]])
  }

  lemma WithdrawWorks(s: State, id: EffectId, at: int)
    requires EffectsKept(s) && s.run.status == R.Stopping && id in s.effects && s.effects[id].record.state == E.Prepared
    requires s.effects[id].record.updatedAt <= at
    ensures var t := Apply(s, StepEffect(id, E.CancelPrepared(s.effects[id].record.revision, at)));
            t.Some? && Withdrawn(s, t.value, id)
  {
    hide *;
    EffectOf(s, id);
    E.CancelSucceeds(s.effects[id], at);
    WithdrawIs(s, id, at);
  }

  lemma WithdrawIs(s: State, id: EffectId, at: int)
    requires s.run.status == R.Stopping && id in s.effects && s.effects[id].record.state == E.Prepared
    requires var next := E.Step(s.effects[id], E.CancelPrepared(s.effects[id].record.revision, at));
             next.Some? && next.value.record.state == E.Canceled
    ensures var t := Apply(s, StepEffect(id, E.CancelPrepared(s.effects[id].record.revision, at)));
            t.Some? && Withdrawn(s, t.value, id)
  {
    hide E.Step;
  }

  lemma WithdrawnIsFewer(s: State, t: State, id: EffectId)
    requires Withdrawn(s, t, id)
    ensures t.run == s.run && (Closed(s) ==> Closed(t)) && (Trapped(t) <==> Trapped(s))
    ensures PreparedEffects(t) == PreparedEffects(s) - {id} && Required(t) == Required(s)
  {
    hide E.Terminal;
    assert !Announceable(s.effects[id].record) && !Announceable(t.effects[id].record) by { NotAnnounced(s, t, id); }
    hide Announceable;
    forall k | k in s.effects && k != id ensures t.effects[k] == s.effects[k] {}
    var x := set k | k in s.effects && Announceable(s.effects[k].record) :: WaitResolution(k, s.effects[k].record.terminalRevision);
    var y := set k | k in t.effects && Announceable(t.effects[k].record) :: WaitResolution(k, t.effects[k].record.terminalRevision);
    assert x == y;
  }

  lemma NotAnnounced(s: State, t: State, id: EffectId)
    requires Withdrawn(s, t, id)
    ensures !Announceable(s.effects[id].record) && !Announceable(t.effects[id].record)
  {
  }

  /** The open invocation, if there is one, is canceled first. */
  lemma StopEnds(s: State)
    requires Kept(s) && s.run.status == R.Stopping && !Trapped(s)
    ensures CanEnd(s)
  {
    hide *;
    if Closed(s) {
      WithdrawalEnds(s);
    } else {
      Parts(s);
      var n := OpenNode(s);
      var a := CancelNode(n, s.ledgers[n].head.updatedAt);
      CancelCloses(s, n);
      ApplyKeeps(s, a);
      WithdrawalEnds(Apply(s, a).value);
      EndsLater(s, a);
    }
  }

  lemma OpenNode(s: State) returns (n: string)
    requires !Closed(s)
    ensures n in s.ledgers && !I.Terminal(s.ledgers[n].head.status)
  {
    n :| n in s.ledgers && !I.Terminal(s.ledgers[n].head.status);
  }

  lemma CancelCloses(s: State, n: string)
    requires Core(s) && s.run.status == R.Stopping && !Trapped(s) && n in s.ledgers && !I.Terminal(s.ledgers[n].head.status)
    ensures var t := Apply(s, CancelNode(n, s.ledgers[n].head.updatedAt));
            t.Some? && t.value.run == s.run && !Trapped(t.value) && Closed(t.value)
  {
    hide *;
    CancelWorks(s, n, s.ledgers[n].head.updatedAt);
    OthersAreClosed(s, n);
    CanceledCloses(s, Apply(s, CancelNode(n, s.ledgers[n].head.updatedAt)).value, n);
  }

  /** One open invocation is canceled, with the wait it owns, and nothing else changes. */
  predicate NodeCanceled(s: State, t: State, n: string) {
    && n in s.ledgers && n in t.ledgers && t.ledgers[n].head.status == I.Canceled
    && t == s.(ledgers := s.ledgers[n := t.ledgers[n]], snap := s.snap.(waiting := t.snap.waiting))
  }

  lemma CancelWorks(s: State, n: string, at: int)
    requires Core(s) && s.run.status == R.Stopping && n in s.ledgers && !I.Terminal(s.ledgers[n].head.status)
    requires s.ledgers[n].head.updatedAt <= at
    ensures var t := Apply(s, CancelNode(n, at)); t.Some? && NodeCanceled(s, t.value, n)
  {
    hide *;
    var l := s.ledgers[n];
    LedgerOf(s, n);
    KeptNode(s, n, l);
    KeptLedger(l);
    I.CancelSucceeds(l, at);
    CancelFacts(l, I.Cancel(l.head.revision, at));
    CancelIs(s, n, at);
  }

  lemma KeptLedger(l: I.Ledger)
    requires LedgerKept(l)
    ensures I.Kept(l)
  {
  }

  lemma CancelIs(s: State, n: string, at: int)
    requires s.run.status == R.Stopping && n in s.ledgers
    requires var m := I.Apply(s.ledgers[n], I.Cancel(s.ledgers[n].head.revision, at)); m.Some? && m.value.head.status == I.Canceled
    ensures var t := Apply(s, CancelNode(n, at)); t.Some? && NodeCanceled(s, t.value, n)
  {
    hide I.Apply;
  }

  lemma OthersAreClosed(s: State, n: string)
    requires Core(s) && n in s.ledgers && !I.Terminal(s.ledgers[n].head.status)
    ensures forall m :: m in s.ledgers && m != n ==> I.Terminal(s.ledgers[m].head.status)
  {
    hide *;
    NonterminalIsCurrent(s, n);
    forall m | m in s.ledgers && m != n ensures I.Terminal(s.ledgers[m].head.status) {
      if !I.Terminal(s.ledgers[m].head.status) { NonterminalIsCurrent(s, m); }
    }
  }

  lemma CanceledCloses(s: State, t: State, n: string)
    requires NodeCanceled(s, t, n) && !Trapped(s)
    requires forall k :: k in s.ledgers && k != n ==> I.Terminal(s.ledgers[k].head.status)
    ensures t.run == s.run && !Trapped(t) && Closed(t)
  {
  }

  /** A run that has begun to stop can end exactly if it did not stop in a child wait
      or a retry wait. */
  lemma StopCanEndExactly(s: State)
    requires Kept(s) && s.run.status == R.Stopping
    ensures CanEnd(s) <==> !Trapped(s)
  {
    hide *;
    if Trapped(s) {
      forall actions ensures !R.Terminal(Play(s, actions).run.status) {
        TrappedForever(s, actions);
        TrappedIsStopping(Play(s, actions));
      }
      CannotEnd(s);
    } else {
      StopEnds(s);
    }
  }

  lemma TrappedIsStopping(s: State)
    requires Trapped(s)
    ensures !R.Terminal(s.run.status)
  {
  }

  lemma CannotEnd(s: State)
    requires forall actions :: !R.Terminal(Play(s, actions).run.status)
    ensures !CanEnd(s)
  {
  }

  // --------------------------------------------------------------- every other run

  const HALT := R.Termination(R.StoppedKind, 0, None, "halt", true)

  function Halt(r: R.Run): Action {
    RequestTermination(r.revision, R.StoppedKind, None, "halt", r.updatedAt)
  }

  /** Asked to stop, a run begins to stop and keeps its projections. */
  lemma AskedStops(s: State)
    requires Kept(s) && !R.Terminal(s.run.status) && s.run.status != R.Stopping
    ensures var t := Apply(s, Halt(s.run)); t.Some? && t.value.run.status == R.Stopping && RunMoves(s, t.value)
  {
    hide *;
    RunIsKept(s);
    var x := HALT.(requestedRevision := s.run.revision);
    HaltIsValid(s.run, x);
    R.OpenCanStop(s.run, x);
    CleanupIsNew(s, x, s.run.updatedAt);
    StopMoves(s, x, s.run.updatedAt);
    RequestIs(s, x);
  }

  lemma AskedEnds(s: State)
    requires Kept(s) && !R.Terminal(s.run.status) && s.run.status != R.Stopping && s.snap.call.None? && s.snap.retry.None?
    ensures CanEnd(s)
  {
    hide *;
    var a := Halt(s.run);
    AskedStops(s);
    ApplyKeeps(s, a);
    BareIsUntrapped(s, Apply(s, a).value);
    StopEnds(Apply(s, a).value);
    EndsLater(s, a);
  }

  lemma BareIsUntrapped(s: State, t: State)
    requires s.snap.call.None? && s.snap.retry.None? && RunMoves(s, t)
    ensures !Trapped(t)
  {
  }

  lemma HaltIsValid(r: R.Run, x: R.Termination)
    requires R.Kept(r) && x == HALT.(requestedRevision := r.revision)
    ensures R.TerminationValid(x) && x.requestedRevision == r.revision
  {
  }

  lemma RequestIs(s: State, x: R.Termination)
    requires s.run.termination.None? && !R.Terminal(s.run.status) && x == HALT.(requestedRevision := s.run.revision)
    requires var t := StopRun(s, x, s.run.updatedAt); t.Some? && t.value.run.status == R.Stopping && RunMoves(s, t.value)
    ensures var t := Apply(s, Halt(s.run)); t.Some? && t.value.run.status == R.Stopping && RunMoves(s, t.value)
  {
    hide StopRun;
  }

  /** A retry wait is over once its time has come. */
  lemma RetryEnds(s: State)
    requires Kept(s) && s.run.status == R.Waiting && s.snap.retry.Some?
    ensures CanEnd(s)
  {
    hide *;
    Parts(s);
    RunIsKept(s);
    var due := s.snap.retry.value.availableAt;
    var at := if due < s.run.updatedAt then s.run.updatedAt else due;
    R.WaitingCanRun(s.run, at);
    RetryIs(s, at);
    ApplyKeeps(s, ResumeRetry(at));
    RunningEnds(Apply(s, ResumeRetry(at)).value);
    EndsLater(s, ResumeRetry(at));
  }

  lemma RetryIs(s: State, at: int)
    requires s.run.status == R.Waiting && s.snap.retry.Some? && s.snap.retry.value.availableAt <= at
    requires var next := R.Transition(s.run, R.Plain(s.run, R.Running, at)); next.Some? && next.value.status == R.Running
    ensures var t := Apply(s, ResumeRetry(at)); t.Some? && t.value.run.status == R.Running
  {
    hide R.Transition;
  }

  lemma RunningEnds(s: State)
    requires Kept(s) && s.run.status == R.Running
    ensures CanEnd(s)
  {
    RunningCalls(s);
    hide *;
    AskedEnds(s);
  }

  lemma RunningCalls(s: State)
    requires Kept(s) && s.run.status == R.Running
    ensures s.snap.call.None? && s.snap.retry.None? && !R.Terminal(s.run.status) && s.run.status != R.Stopping
  {
    hide Core, Progressing, EffectsKept, IntentsKept;
  }

  /** A child wait is over once the child has ended. */
  lemma CallEnds(s: State)
    requires Kept(s) && s.run.status == R.Waiting && s.snap.call.Some?
    ensures CanEnd(s)
  {
    hide *;
    Parts(s);
    RunIsKept(s);
    CallLedger(s);
    CoreParts(s);
    var l := s.ledgers[Current(s)];
    LedgerOf(s, Current(s));
    KeptNode(s, Current(s), l);
    KeptLedger(l);
    var at := if l.head.updatedAt < s.run.updatedAt then s.run.updatedAt else l.head.updatedAt;
    WaitResolves(l, at);
    R.WaitingCanRun(s.run, at);
    CurrentIsUnrecorded(s);
    ResolveIs(s, at);
    var a := ResolveChild(s.snap.call.value.child, Success("", "", []), at);
    ApplyKeeps(s, a);
    RunningEnds(Apply(s, a).value);
    EndsLater(s, a);
  }

  lemma CallLedger(s: State)
    requires Projections(s) && s.run.status == R.Waiting && s.snap.call.Some?
    ensures AtNode(s) && s.snap.call.value.node == Current(s) && Current(s) in s.ledgers
    ensures var h := s.ledgers[Current(s)].head;
            h.status == I.Waiting && h.waitRef == s.snap.call.value.child && h.waitGeneration == 1
  {
    hide WaitingAgrees, RetryAgrees;
  }

  lemma WaitResolves(l: I.Ledger, at: int)
    requires LedgerKept(l) && l.head.status == I.Waiting && l.head.updatedAt <= at
    ensures ActiveAttempt(l).Some?
    ensures var a := ActiveAttempt(l).value;
            I.Apply(l, I.ResolveWait(l.head.revision, a.id, a.revision, l.head.waitRef, l.head.waitGeneration,
                                     I.Succeeded, Some(""), None, at)).Some?
  {
    hide I.Apply, I.Kept, I.Find;
    I.ResolveSucceeds(l, I.Find(l.attempts, l.head.active.value), "", at);
  }

  lemma ResolveIs(s: State, at: int)
    requires s.run.status == R.Waiting && s.snap.call.Some? && AtNode(s) && s.snap.call.value.node == Current(s) && Current(s) in s.ledgers
    requires var l := s.ledgers[Current(s)];
             && l.head.status == I.Waiting && l.head.waitRef == s.snap.call.value.child && l.head.waitGeneration == 1
             && ActiveAttempt(l).Some?
             && var a := ActiveAttempt(l).value;
                I.Apply(l, I.ResolveWait(l.head.revision, a.id, a.revision, l.head.waitRef, l.head.waitGeneration,
                                         I.Succeeded, Some(""), None, at)).Some?
    requires Routing.Current(s.snap.routing, Current(s))
    requires var next := R.Transition(s.run, R.Plain(s.run, R.Running, at)); next.Some? && next.value.status == R.Running
    ensures var t := Apply(s, ResolveChild(s.snap.call.value.child, Success("", "", []), at)); t.Some? && t.value.run.status == R.Running
  {
    hide I.Apply, R.Transition, ActiveAttempt;
  }

  /** Every run that the controller can reach can still come to an end, unless it
      began to stop in a child wait or a retry wait. */
  lemma CanEndExactly(s: State)
    requires Kept(s)
    ensures CanEnd(s) <==> !Trapped(s)
  {
    hide *;
    Parts(s);
    Cases(s);
    if s.run.status == R.Stopping {
      StopCanEndExactly(s);
    } else if R.Terminal(s.run.status) {
      EndedCanEnd(s);
    } else if s.snap.call.Some? {
      CallEnds(s);
    } else if s.snap.retry.Some? {
      RetryEnds(s);
    } else {
      AskedEnds(s);
    }
  }

  lemma Cases(s: State)
    requires Projections(s)
    ensures Trapped(s) ==> s.run.status == R.Stopping
    ensures !R.Terminal(s.run.status) && s.run.status != R.Stopping && (s.snap.call.Some? || s.snap.retry.Some?) ==> s.run.status == R.Waiting
  {
  }

  /** The same of every run from its admission on. */
  lemma RunsCanEnd(pins: map<string, Pin>, order: seq<string>, edges: seq<Workflow.Edge>, at: int, actions: seq<Action>)
    requires Pinned(pins, order, edges)
    ensures var s := Play(Begin(pins, order, edges, at), actions);
            CanEnd(s) <==> !Trapped(s)
  {
    hide *;
    BeginKeeps(pins, order, edges, at);
    PlayKeeps(Begin(pins, order, edges, at), actions);
    CanEndExactly(Play(Begin(pins, order, edges, at), actions));
  }
}
