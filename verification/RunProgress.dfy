/** Driving a run ends: every commit that drives it spends some of a potential that
    nothing refills, whatever workers, providers, operators and crashes do in between. */
module RunProgress {
  import opened Prelude
  import R = RunLifecycle
  import I = Invocation
  import E = Effect
  import Routing
  import Workflow
  import opened RunLoop
  import opened RunFacts
  import opened RunInvariant
  import opened RunPotential
  import opened RunSafety

  predicate Resolves(a: Action) {
    a.ResolveEffect? || a.ResolveExternal? || a.ResolveChild?
  }

  /** The actions of Drive and the resolutions of waits. */
  predicate Advances(a: Action) {
    DriveAction(a) || Resolves(a)
  }

  lemma AdvancesSpend(s: State, a: Action)
    requires Kept(s) && Advances(a) && Apply(s, a).Some?
    ensures Spends(s, Apply(s, a).value)
  {
    hide Kept, Apply, Spends, DriveAction;
    if DriveAction(a) { DriveActionKeeps(s, a); } else { ResolvedKeeps(s, a); }
  }

  predicate Aside(s: State, t: State) {
    t == s.(effects := t.effects, intents := t.intents, completed := t.completed)
  }

  lemma AsideSpendsNothing(s: State, t: State)
    requires Aside(s, t)
    ensures Potential(t) == Potential(s)
  {
    hide Work, StageOf;
  }

  lemma CancelSpendsNothing(s: State, node: string, at: int)
    requires Kept(s) && DoCancel(s, node, at).Some?
    ensures Potential(DoCancel(s, node, at).value) <= Potential(s)
  {
    CancelStarts(s, node, at);
    hide *;
    var l, t := s.ledgers[node], DoCancel(s, node, at).value;
    Parts(s);
    LedgerOf(s, node);
    KeptNode(s, node, l);
    CancelFacts(l, I.Cancel(l.head.revision, at));
    NonterminalIsCurrent(s, node);
    CanceledIsLeast(s, t, I.Apply(l, I.Cancel(l.head.revision, at)).value);
  }

  lemma CanceledIsLeast(s: State, t: State, m: I.Ledger)
    requires AtNode(s) && m.head.status == I.Canceled && t == Put(s, Current(s), m).(snap := t.snap)
    requires t.snap.routing == s.snap.routing
    ensures Potential(t) <= Potential(s)
  {
    assert Stage(t) == 0;
    hide Work, Stage;
  }

  lemma StopSpendsNothing(s: State, x: R.Termination, at: int)
    requires StopRun(s, x, at).Some?
    ensures Potential(StopRun(s, x, at).value) <= Potential(s)
  {
    hide *;
    StopMoves(s, x, at);
    StoppedIsNoMore(StopRun(s, x, at).value);
    RunSpendsNothing(s, StopRun(s, x, at).value);
  }

  lemma StoppedIsNoMore(t: State)
    requires t.run.status == R.Stopping
    ensures !Unstarted(t)
  {
  }

  lemma EndSpendsNothing(s: State, t: State, c: R.Command)
    requires R.Transition(s.run, c) == Some(t.run) && t == s.(run := t.run) && R.Terminal(c.to)
    ensures Potential(t) <= Potential(s)
  {
    EndStatus(s.run, c);
    hide R.Transition, Potential;
    RunSpendsNothing(s, t);
  }

  lemma EndStatus(r: R.Run, c: R.Command)
    requires R.Transition(r, c).Some? && R.Terminal(c.to)
    ensures R.Transition(r, c).value.status == c.to
  {
    hide R.Valid, R.Guarded;
  }

  lemma EffectsSpendNothing(s: State, a: Action)
    requires (a.StepEffect? || a.CompleteIntent?) && Apply(s, a).Some?
    ensures Potential(Apply(s, a).value) == Potential(s)
  {
    hide E.Step, Potential;
    AsideSpendsNothing(s, Apply(s, a).value);
  }

  lemma StopsSpendNothing(s: State, a: Action)
    requires (a.FailDirectly? || a.RequestTermination?) && Apply(s, a).Some?
    ensures Potential(Apply(s, a).value) <= Potential(s)
  {
    hide StopRun, Potential, Disposition;
    if a.FailDirectly? {
      StopSpendsNothing(s, R.Termination(R.FailedKind, s.run.revision, Some(a.failure), a.failure.code, a.failure.wellFormed), a.at);
    } else {
      StopSpendsNothing(s, R.Termination(a.kind, a.revision, a.primary, a.commandId, true), a.at);
    }
  }

  lemma EndsSpendNothing(s: State, a: Action)
    requires (a.SucceedRun? || a.FinishRun?) && Apply(s, a).Some?
    ensures Potential(Apply(s, a).value) <= Potential(s)
  {
    hide R.Transition, Potential, Drained, Readable, Required;
    if a.SucceedRun? {
      EndSpendsNothing(s, Apply(s, a).value,
                       R.Command(s.run.revision, R.Succeeded, None, a.result, [], a.closed, s.run.revision, a.at));
    } else {
      var to := R.TerminalStatus(s.run.termination.value.kind).value;
      EndSpendsNothing(s, Apply(s, a).value,
                       R.Command(s.run.revision, to, None, "", a.cleanup, a.closed, s.run.revision, a.at));
    }
  }

  lemma OthersSpendNothing(s: State, a: Action)
    requires Kept(s) && !Advances(a) && Apply(s, a).Some?
    ensures Potential(Apply(s, a).value) <= Potential(s)
  {
    hide Kept, Potential, DoCancel, Apply;
    if a.CancelNode? {
      CancelIs(s, a);
      CancelSpendsNothing(s, a.node, a.at);
    } else if a.StepEffect? || a.CompleteIntent? {
      EffectsSpendNothing(s, a);
    } else if a.FailDirectly? || a.RequestTermination? {
      StopsSpendNothing(s, a);
    } else {
      EndsSpendNothing(s, a);
    }
  }

  lemma CancelIs(s: State, a: Action)
    requires a.CancelNode?
    ensures Apply(s, a) == DoCancel(s, a.node, a.at)
  {
    hide DoCancel;
  }

  /** The advancing actions among `actions` that were accepted. */
  function Spent(s: State, actions: seq<Action>): nat {
    if actions == [] then 0
    else
      var before, a := Play(s, actions[..|actions| - 1]), actions[|actions| - 1];
      Spent(s, actions[..|actions| - 1]) + (if Advances(a) && Apply(before, a).Some? then 1 else 0)
  }

  /** Only so many actions can ever advance a run, in any order and with anything in between. */
  lemma {:induction false} RunIsBounded(s: State, actions: seq<Action>)
    requires Kept(s)
    ensures Spent(s, actions) + Potential(Play(s, actions)) <= Potential(s)
  {
    if actions != [] {
      var before, a := Play(s, actions[..|actions| - 1]), actions[|actions| - 1];
      RunIsBounded(s, actions[..|actions| - 1]);
      PlayKeeps(s, actions[..|actions| - 1]);
      hide Kept, Apply, Potential, Advances;
      if Apply(before, a).Some? {
        if Advances(a) { AdvancesSpend(before, a); } else { OthersSpendNothing(before, a); }
      }
    }
  }

  /** A run of n nodes is driven to its end, or to where it has to be stopped, by at
      most 402 n + 1 commits. */
  lemma WholeRunIsBounded(pins: map<string, Pin>, order: seq<string>, edges: seq<Workflow.Edge>, at: int, actions: seq<Action>)
    requires Pinned(pins, order, edges)
    ensures Spent(Begin(pins, order, edges, at), actions) <= 402 * |order| + 1
  {
    var s := Begin(pins, order, edges, at);
    BeginKeeps(pins, order, edges, at);
    RunIsBounded(s, actions);
    PoliciesAreAccepted(pins, order, edges);
    WorkIsBounded(pins, order, 0);
    BeginPotential(pins, order, edges, at);
    hide *;
  }

  lemma PoliciesAreAccepted(pins: map<string, Pin>, order: seq<string>, edges: seq<Workflow.Edge>)
    requires Pinned(pins, order, edges)
    ensures forall n :: n in pins ==> RunInvariant.Backoff.Accepted(pins[n].policy)
  {
    hide Routing.EdgesForward;
  }

  lemma BeginPotential(pins: map<string, Pin>, order: seq<string>, edges: seq<Workflow.Edge>, at: int)
    ensures Potential(Begin(pins, order, edges, at)) == 1 + Work(pins, order, 0)
  {
  }

  /** No invocation ever records more execution attempts than its policy allows, nor more than a hundred. */
  lemma AttemptsAreBounded(s: State, actions: seq<Action>, n: string)
    requires Kept(s) && n in Play(s, actions).ledgers
    ensures I.CountPhase(Play(s, actions).ledgers[n].attempts, I.Execution) <= MaxAttempts(Play(s, actions), n) <= 100
  {
    PlayKeeps(s, actions);
    hide Play;
    SomeAttempt(Play(s, actions), n);
    Parts(Play(s, actions));
    hide Kept, MaxAttempts;
    LedgerOf(Play(s, actions), n);
    hide Core, Projections, Progressing, EffectsKept, IntentsKept;
  }
}
