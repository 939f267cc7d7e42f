/** Drive: a bounded loop that reads the durable state of a run again in every
    round and commits its next action. */
module Controllers {
  import opened Prelude
  import R = RunLifecycle
  import I = Invocation
  import E = Effect
  import Routing
  import opened RunLoop
  import opened RunInvariant
  import opened RunPotential
  import opened RunSafety
  import opened RunResults
  import opened RunEnding

  /** What the outside world answers in one round: the clock, a lease, the resolution
      of node inputs or of the workflow result, the report of the worker and when it
      came; and while the run stops, whether its children have ended, whether a
      compensation is still due, what cleanup failed, and whether all it owns is closed. */
  datatype Turn = Turn(
    now: int, owner: string, token: string, leaseExpiresAt: int, unresolved: Option<I.Failure>, result: string, closed: bool,
    report: Report, reportedAt: int, childrenEnded: bool, compensating: bool, cleanup: seq<I.Failure>)

  datatype Answer =
    | Ended | WaitsOutside | LeaseActive | Corrupt
    | Stops            // the run begins to stop, and is to be driven again
    | ClosureOpen      // it stops, and something it owns is still open
    | Refused          // a reducer or the store reports an error
    | Inconsistent     // the state contradicts the plan
    | TooManyRounds

  const MAX_ROUNDS := 100000

  /** The commits of finalizeStoppingRun. */
  predicate StopAction(a: Action) {
    a.CancelNode? || (a.StepEffect? && a.command.CancelPrepared?) || a.FinishRun?
  }

  predicate Driven(a: Action) {
    DriveAction(a) || a.FailDirectly? || a.SucceedRun? || StopAction(a)
  }

  /** Closing what is open changes neither the run nor what it waits for. */
  predicate Frozen(s: State, t: State) {
    && t.run == s.run && t.snap.call == s.snap.call && t.snap.retry == s.snap.retry && t.ledgers.Keys == s.ledgers.Keys
    && t.effects.Keys == s.effects.Keys && t.completed == s.completed && Required(t) == Required(s)
  }

  class Controller {
    var state: State

    constructor (s: State)
      ensures state == s
    {
      state := s;
    }

    /** One commit, or an error and nothing changed. */
    method Commit(a: Action) returns (ok: bool)
      modifies this
      ensures ok <==> Apply(old(state), a).Some?
      ensures state == if ok then Apply(old(state), a).value else old(state)
    {
      var next := Apply(state, a);
      ok := next.Some?;
      if ok { state := next.value; }
    }

    /** Drive, up to where something outside has to happen. */
    method Drive(turns: nat -> Turn) returns (answer: Answer, ghost actions: seq<Action>)
      requires Kept(state)
      modifies this
      ensures state == Play(old(state), actions) && Kept(state)
      ensures forall a :: a in actions ==> Driven(a)
      ensures answer != Inconsistent && (answer == TooManyRounds ==> Potential(old(state)) >= MAX_ROUNDS)
      ensures answer == Ended ==> R.Terminal(state.run.status)
      ensures answer == WaitsOutside ==> state.run.status == R.Waiting
      ensures answer == LeaseActive ==> Driving(state) && AtNode(state)
      ensures answer in {Stops, ClosureOpen, Corrupt} ==> state.run.status == R.Stopping
      ensures answer == Corrupt ==> Trapped(state)
    {
      actions := [];
      var round := 0;
      while round < MAX_ROUNDS
        invariant 0 <= round <= MAX_ROUNDS && Potential(state) + round <= Potential(old(state))
        invariant state == Play(old(state), actions) && Kept(state)
        invariant forall a :: a in actions ==> Driven(a)
      {
        var done;
        ghost var taken;
        done, answer, taken := Round(turns(round));
        PlayAll(old(state), actions, taken);
        actions := actions + taken;
        if done { return; }
        round := round + 1;
      }
      answer := TooManyRounds;
    }

    /** One round of the loop; it goes on only after a commit that drove the run. */
    method Round(turn: Turn) returns (done: bool, answer: Answer, ghost actions: seq<Action>)
      requires Kept(state)
      modifies this
      ensures state == Play(old(state), actions) && Kept(state)
      ensures forall a :: a in actions ==> Driven(a)
      ensures !done ==> Spends(old(state), state)
      ensures done ==> answer !in {Inconsistent, TooManyRounds}
      ensures done && answer == Ended ==> R.Terminal(state.run.status)
      ensures done && answer == WaitsOutside ==> state.run.status == R.Waiting
      ensures done && answer == LeaseActive ==> Driving(state) && AtNode(state)
      ensures done && answer in {Stops, ClosureOpen, Corrupt} ==> state.run.status == R.Stopping
      ensures done && answer == Corrupt ==> Trapped(state)
    {
      hide Kept, Apply, Play, Spends, DriveAction, StopAction, Trapped, Readable, AtNode;
      done, answer, actions := true, Ended, [];
      OneAction();
      PlayOne(state, StartRun(0));
      if R.Terminal(state.run.status) { return; }
      if !Readable(state) {
        answer := Corrupt;
        UnreadableStops(state);
        return;
      }
      var now := if turn.now < state.run.updatedAt then state.run.updatedAt else turn.now;
      if state.run.status == R.Stopping {
        answer, actions := Finalize(turn, now);
      } else if state.run.status in {R.Accepted, R.Queued} {
        done, answer, actions := Go(StartRun(now));
      } else if state.run.status == R.Waiting {
        if state.snap.retry.None? || now < state.snap.retry.value.availableAt {
          answer := WaitsOutside;
        } else {
          done, answer, actions := Go(ResumeRetry(now));
        }
      } else if !AtNode(state) {
        done, answer, actions := Conclusion(turn, now);
      } else {
        done, answer, actions := AtCurrent(turn, now);
      }
    }

    /** An action that drives the run; Drive continues after it. */
    method Go(a: Action) returns (done: bool, answer: Answer, ghost actions: seq<Action>)
      requires Kept(state) && DriveAction(a)
      modifies this
      ensures state == Play(old(state), actions) && Kept(state) && actions in {[], [a]}
      ensures done ==> answer == Refused && state == old(state)
      ensures !done ==> Spends(old(state), state) && Apply(old(state), a) == Some(state)
    {
      answer := Refused;
      var ok := Commit(a);
      done, actions := !ok, if ok then [a] else [];
      if ok { DriveActionKeeps(old(state), a); }
      PlayOne(old(state), a);
    }

    /** finalizeStoppingRun: it ends the run exactly if everything outside is closed
        and the run did not begin to stop in a child wait or a retry wait. */
    method Finalize(turn: Turn, now: int) returns (answer: Answer, ghost actions: seq<Action>)
      requires Kept(state) && state.run.status == R.Stopping && state.run.updatedAt <= now
      modifies this
      ensures state == Play(old(state), actions) && Kept(state)
      ensures forall a :: a in actions ==> StopAction(a)
      ensures answer in {Ended, ClosureOpen, Corrupt, Refused}
      ensures answer == Ended <==>
              && turn.childrenEnded && !turn.compensating && turn.closed && R.CleanupValid(turn.cleanup)
              && Required(old(state)) <= old(state).completed && !Trapped(old(state))
      ensures answer == Ended ==> R.Terminal(state.run.status)
      ensures answer != Ended ==> state.run == old(state).run
      ensures turn.childrenEnded && !Trapped(old(state)) ==> Drained(state)
      ensures answer == Corrupt ==> Trapped(state)
    {
      hide *;
      actions, answer := [], ClosureOpen;
      PlayOne(state, CompleteIntent(Cleanup(0)));
      if !turn.childrenEnded { return; }
      var readable;
      ghost var more;
      readable, actions := CancelOpen(now);
      FrozenTraps(old(state), state);
      if !readable {
        answer := Corrupt;
        UnreadableStops(state);
        return;
      }
      ghost var canceled := state;
      more := WithdrawPrepared(now);
      PlayAll(old(state), actions, more);
      actions := actions + more;
      FrozenTraps(canceled, state);
      DrainedStopIsReadableExactly(state);
      if !Readable(state) {
        answer := Corrupt;
        return;
      }
      DrainedIsBare(state);
      BareWaitsForNothing(state);
      RequiredExist(state);
      if state.snap.waiting.Some? || !(Required(state) <= state.intents) { return Inconsistent, actions; }
      if turn.compensating || !(Required(state) <= state.completed) || !turn.closed { return; }
      ghost var drained := state;
      var a := FinishRun(turn.cleanup, turn.closed, now);
      FinishExactly(state, turn.cleanup, turn.closed, now);
      var ok := Commit(a);
      answer := if ok then Ended else Refused;
      PlayOne(drained, a);
      PlayAll(old(state), actions, if ok then [a] else []);
      if ok {
        ApplyKeeps(drained, a);
        FinishLeaves(drained, a);
      }
      actions := actions + if ok then [a] else [];
    }

    /** cancelOpenInvocations, for the invocations in any order. */
    method CancelOpen(now: int) returns (readable: bool, ghost actions: seq<Action>)
      requires Kept(state) && state.run.status == R.Stopping
      modifies this
      ensures state == Play(old(state), actions) && Kept(state) && Frozen(old(state), state)
      ensures forall a :: a in actions ==> StopAction(a)
      ensures readable <==> Readable(old(state))
      ensures if readable then Closed(state) && state.effects == old(state).effects else state == old(state)
    {
      hide *;
      actions, readable := [], Readable(state);
      PlayOne(state, CompleteIntent(Cleanup(0)));
      FrozenStays(state);
      if !readable { return; }
      var todo := state.ledgers.Keys;
      while todo != {}
        invariant state == Play(old(state), actions) && Kept(state) && Frozen(old(state), state) && state.run.status == R.Stopping
        invariant forall a :: a in actions ==> StopAction(a)
        invariant todo <= state.ledgers.Keys && state.effects == old(state).effects
        invariant forall n :: n in state.ledgers && n !in todo ==> I.Terminal(state.ledgers[n].head.status)
        decreases |todo|
      {
        var node :| node in todo;
        var head := state.ledgers[node].head;
        if !I.Terminal(head.status) {
          ghost var before := state;
          var a := CancelNode(node, if now < head.updatedAt then head.updatedAt else now);
          Parts(state);
          CancelWorks(state, node, a.at);
          var ok := Commit(a);
          ApplyKeeps(before, a);
          CanceledFreezes(before, state, node);
          FrozenOn(old(state), before, state);
          PlayOne(before, a);
          PlayAll(old(state), actions, [a]);
          CancelStops(a);
          actions := actions + [a];
        }
        todo := todo - {node};
      }
      AllClosed(state);
    }

    /** cancelPreparedEffects, in any order. */
    method WithdrawPrepared(now: int) returns (ghost actions: seq<Action>)
      requires Kept(state) && state.run.status == R.Stopping && Closed(state)
      modifies this
      ensures state == Play(old(state), actions) && Kept(state) && Frozen(old(state), state) && Drained(state)
      ensures forall a :: a in actions ==> StopAction(a)
    {
      hide *;
      actions := [];
      PlayOne(state, CompleteIntent(Cleanup(0)));
      FrozenStays(state);
      var todo := state.effects.Keys;
      while todo != {}
        invariant state == Play(old(state), actions) && Kept(state) && Frozen(old(state), state) && state.run.status == R.Stopping
        invariant forall a :: a in actions ==> StopAction(a)
        invariant todo <= state.effects.Keys && Closed(state)
        invariant forall id :: id in state.effects && id !in todo ==> state.effects[id].record.state != E.Prepared
        decreases |todo|
      {
        var id :| id in todo;
        var record := state.effects[id].record;
        if record.state == E.Prepared {
          ghost var before := state;
          var at := if now < record.updatedAt then record.updatedAt else now;
          var a := StepEffect(id, E.CancelPrepared(record.revision, at));
          Parts(state);
          WithdrawWorks(state, id, at);
          var ok := Commit(a);
          ApplyKeeps(before, a);
          WithdrawnFreezes(before, state, id);
          FrozenOn(old(state), before, state);
          PlayOne(before, a);
          PlayAll(old(state), actions, [a]);
          CancelStops(a);
          actions := actions + [a];
        }
        todo := todo - {id};
      }
      AllDrained(state);
    }

    /** succeedRun. */
    method Conclusion(turn: Turn, now: int) returns (done: bool, answer: Answer, ghost actions: seq<Action>)
      requires Kept(state) && Driving(state) && !AtNode(state)
      modifies this
      ensures state == Play(old(state), actions) && Kept(state) && done
      ensures forall a :: a in actions ==> a.FailDirectly? || a.SucceedRun?
      ensures answer in {Ended, Stops, Refused}
      ensures answer == Ended ==> R.Terminal(state.run.status)
      ensures answer == Stops ==> state.run.status == R.Stopping
    {
      var a := if turn.unresolved.Some? then FailDirectly(turn.unresolved.value, now) else SucceedRun(turn.result, turn.closed, now);
      var ok := Commit(a);
      done, actions := true, if ok then [a] else [];
      answer := if !ok then Refused else if turn.unresolved.Some? then Stops else Ended;
      if ok {
        ApplyKeeps(old(state), a);
        EndsAs(old(state), a);
      }
      PlayOne(old(state), a);
    }

    /** The current node of a running run. */
    method AtCurrent(turn: Turn, now: int) returns (done: bool, answer: Answer, ghost actions: seq<Action>)
      requires Kept(state) && Driving(state) && AtNode(state)
      modifies this
      ensures state == Play(old(state), actions) && Kept(state)
      ensures forall a :: a in actions ==> DriveAction(a) || a.FailDirectly?
      ensures !done ==> Spends(old(state), state)
      ensures done ==> answer in {WaitsOutside, LeaseActive, Stops, Refused}
      ensures done && answer == WaitsOutside ==> state.run.status == R.Waiting
      ensures done && answer == LeaseActive ==> Driving(state) && AtNode(state)
      ensures done && answer == Stops ==> state.run.status == R.Stopping
    {
      hide Kept, Apply, Play, Spends, Disposition, DriveAction, ActiveAttempt;
      done, answer, actions := true, Refused, [];
      DriveFindsItsNode(state);
      OneAction();
      PlayOne(state, ActivateNode(now));
      var node, disposition := Current(state), Disposition(state);
      if disposition == Routing.Blocked {
        answer := Inconsistent;
      } else if disposition == Routing.Ready && turn.unresolved.Some? {
        var a := FailDirectly(turn.unresolved.value, now);
        var ok := Commit(a);
        if ok {
          ApplyKeeps(old(state), a);
          EndsAs(old(state), a);
          answer, actions := Stops, [a];
        }
        PlayOne(old(state), a);
      } else if node !in state.ledgers {
        done, answer, actions := Go(ActivateNode(now));
      } else if disposition == Routing.Skip && state.ledgers[node].head.status != I.Ready {
        answer := Inconsistent;
      } else if disposition == Routing.Skip {
        done, answer, actions := Go(SkipNode(now));
      } else if state.ledgers[node].head.status == I.Running {
        var attempt := ActiveAttempt(state.ledgers[node]);
        if attempt.None? || (attempt.value.leaseExpiresAt.Some? && now < attempt.value.leaseExpiresAt.value) {
          answer := LeaseActive;
        } else {
          done, answer, actions := Settle(ExpireNode(now));
        }
      } else if state.ledgers[node].head.status !in {I.Ready, I.RetryWait} {
        answer := Inconsistent;
      } else {
        done, answer, actions := Go(ClaimNode(turn.owner, turn.token, turn.leaseExpiresAt, now));
        if !done {
          ghost var claimed := actions;
          ghost var between := state;
          ClaimKeepsRun(old(state), turn.owner, turn.token, turn.leaseExpiresAt, now);
          done, answer, actions := Settle(ReportNode(turn.token, turn.report, turn.reportedAt));
          PlayAll(old(state), claimed, actions);
          if Spends(between, state) { SpendsOn(old(state), between, state); }
          actions := claimed + actions;
        }
      }
    }

    /** A node result: Drive goes on if the run is still running. */
    method Settle(a: Action) returns (done: bool, answer: Answer, ghost actions: seq<Action>)
      requires Kept(state) && DriveAction(a) && (a.ExpireNode? || a.ReportNode?) && Driving(state)
      modifies this
      ensures state == Play(old(state), actions) && Kept(state) && actions in {[], [a]}
      ensures !done ==> Spends(old(state), state)
      ensures done ==> answer in {WaitsOutside, Stops, Refused}
      ensures done && answer == WaitsOutside ==> state.run.status == R.Waiting
      ensures done && answer == Stops ==> state.run.status == R.Stopping
    {
      done, answer, actions := Go(a);
      if !done && !Driving(state) {
        SettledRun(old(state), a);
        done := true;
        answer := if state.run.status == R.Waiting then WaitsOutside else Stops;
      }
    }
  }

  // -------------------------------------------------------------------- lemmas

  /** Which actions are of the drive. */
  lemma OneAction()
    ensures forall a: Action ::
      a.StartRun? || a.ResumeRetry? || a.ActivateNode? || a.SkipNode? || a.ClaimNode? || a.ExpireNode? || a.ReportNode? <==> DriveAction(a)
  {
  }

  lemma ClaimKeepsRun(s: State, owner: string, token: string, leaseExpiresAt: int, at: int)
    requires Apply(s, ClaimNode(owner, token, leaseExpiresAt, at)).Some?
    ensures Apply(s, ClaimNode(owner, token, leaseExpiresAt, at)).value.run == s.run
  {
    ClaimStarts(s, owner, token, leaseExpiresAt, at);
    hide I.Apply, Disposition;
  }

  lemma SpendsOn(s: State, t: State, u: State)
    requires Spends(s, t) && Spends(t, u)
    ensures Spends(s, u)
  {
    hide Potential;
  }

  lemma UnreadableStops(s: State)
    requires Kept(s) && !Readable(s)
    ensures s.run.status == R.Stopping && Trapped(s)
  {
    ReadableExactly(s);
    hide Kept, Readable;
  }

  /** A direct failure stops the run; success ends it. */
  lemma EndsAs(s: State, a: Action)
    requires (a.FailDirectly? || a.SucceedRun?) && Apply(s, a).Some?
    ensures a.FailDirectly? ==> Apply(s, a).value.run.status == R.Stopping
    ensures a.SucceedRun? ==> R.Terminal(Apply(s, a).value.run.status)
  {
    hide R.Valid, R.Guarded, Disposition;
  }

  /** After a report or an expiry a running run still runs, waits, or stops. */
  lemma SettledRun(s: State, a: Action)
    requires Driving(s) && (a.ExpireNode? || a.ReportNode?) && Apply(s, a).Some?
    ensures Apply(s, a).value.run.status in {R.Running, R.Waiting, R.Stopping}
  {
    hide I.Apply, Disposition, R.Valid, R.Guarded, Routing.RecordSucceeded, Routing.RecordFailed, ActiveAttempt;
  }

  // --------------------------------------------------------------- while it stops

  lemma FrozenStays(s: State)
    ensures Frozen(s, s)
  {
  }

  lemma FrozenOn(s: State, t: State, u: State)
    requires Frozen(s, t) && Frozen(t, u)
    ensures Frozen(s, u)
  {
    hide Required;
  }

  lemma FrozenTraps(s: State, t: State)
    requires Frozen(s, t)
    ensures t.run == s.run && t.completed == s.completed && Required(t) == Required(s) && (Trapped(t) <==> Trapped(s))
  {
    hide Required;
  }

  lemma CanceledFreezes(s: State, t: State, n: string)
    requires NodeCanceled(s, t, n)
    ensures n in t.ledgers && I.Terminal(t.ledgers[n].head.status)
    ensures Frozen(s, t) && t.run == s.run && t.effects == s.effects && t.ledgers.Keys == s.ledgers.Keys
    ensures forall k :: k in s.ledgers && k != n ==> k in t.ledgers && t.ledgers[k] == s.ledgers[k]
  {
    hide Announceable;
  }

  lemma WithdrawnFreezes(s: State, t: State, id: EffectId)
    requires Withdrawn(s, t, id)
    ensures id in t.effects && t.effects[id].record.state == E.Canceled
    ensures Frozen(s, t) && t.run == s.run && (Closed(s) ==> Closed(t)) && t.effects.Keys == s.effects.Keys
    ensures forall k :: k in s.effects && k != id ==> k in t.effects && t.effects[k] == s.effects[k]
  {
    WithdrawnIsFewer(s, t, id);
    hide Required, Closed, Trapped;
  }

  lemma CancelStops(a: Action)
    requires a.CancelNode? || (a.StepEffect? && a.command.CancelPrepared?)
    ensures StopAction(a)
  {
  }

  lemma FinishLeaves(s: State, a: Action)
    requires a.FinishRun? && Drained(s) && Apply(s, a).Some?
    ensures StopAction(a) && Drained(Apply(s, a).value)
  {
    hide R.Transition, R.Terminal, Readable, Required;
  }

  lemma AllClosed(s: State)
    requires forall n :: n in s.ledgers ==> I.Terminal(s.ledgers[n].head.status)
    ensures Closed(s)
  {
  }

  lemma AllDrained(s: State)
    requires Closed(s) && forall id :: id in s.effects ==> s.effects[id].record.state != E.Prepared
    ensures Drained(s)
  {
  }
}
