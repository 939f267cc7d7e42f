/** Commits decided on an earlier read of a run: their transaction names the invocation,
    and perhaps the snapshot, but not the run, which may have moved on meanwhile. */
module RunStale {
  import opened Prelude
  import R = RunLifecycle
  import I = Invocation
  import E = Effect
  import Routing
  import opened RunLoop
  import opened RunFacts
  import opened RunInvariant
  import opened RunSafety
  import opened RunResults
  import opened RunEnding

  /** The run as an earlier reader saw it. */
  function Earlier(s: State): State {
    s.(run := s.run.(status := R.Running))
  }

  /** Drive commits these without naming the run, unless they stop it. */
  predicate NamesNoRun(a: Action) {
    a.ActivateNode? || a.SkipNode? || a.ClaimNode? || a.ExpireNode?
  }

  /** What a controller commits that took the run for running. A commit that would
      change the run names the revision it read, and is refused. */
  function Carried(s: State, a: Action): Option<State> {
    var t := Apply(Earlier(s), a);
    if t.None? || t.value.run != Earlier(s).run then None else Some(t.value.(run := s.run))
  }

  /** The commit of a controller that read the run before it came to be as it is. */
  function Late(s: State, a: Action): Option<State> {
    if !NamesNoRun(a) || s.run.status in {R.Accepted, R.Queued} then None else Carried(s, a)
  }

  predicate Bare(s: State) {
    s.snap == Snapshot(s.snap.routing, None, None, None)
  }

  // ------------------------------------------------------------- what it still finds

  /** Where the invocation of the current node is missing or early, nothing is projected
      but perhaps a retry wait. */
  lemma EarlyIsBare(s: State)
    requires Projections(s) && AtNode(s)
    requires Current(s) in s.ledgers ==> s.ledgers[Current(s)].head.status in {I.Ready, I.Running, I.RetryWait}
    ensures s.snap.waiting.None? && s.snap.call.None?
    ensures Current(s) !in s.ledgers || s.ledgers[Current(s)].head.status != I.RetryWait ==> s.snap.retry.None?
    ensures s.snap.retry.None? ==> Bare(s) && s.run.status != R.Waiting
  {
    hide ActiveAttempt;
  }

  lemma LatePutKeeps(s: State, t: State, l: I.Ledger)
    requires Kept(s) && AtNode(s) && Bare(s) && s.run.status !in {R.Accepted, R.Queued, R.Waiting}
    requires t == Put(s, Current(s), l) && NodeKept(s, Current(s), l)
    requires Current(s) in s.ledgers ==> s.ledgers[Current(s)].head.status in {I.Ready, I.Running, I.RetryWait}
    requires l.head.status in {I.Ready, I.Running, I.RetryWait} && (Engaged(l.head.status) ==> Disposition(s) == Routing.Ready)
    ensures Kept(t)
  {
    hide *;
    Parts(s);
    LatePutParts(s, t, l);
    PutKeepsCore(s, t, l);
    RunStays(s);
    FollowsThrough(s, s, t);
    IntentsFollow(s, t);
    EffectsFollow(s, t);
    KeptOf(t);
  }

  lemma LatePutParts(s: State, t: State, l: I.Ledger)
    requires Projections(s) && Progressing(s) && AtNode(s) && Bare(s) && s.run.status !in {R.Accepted, R.Queued, R.Waiting}
    requires t == Put(s, Current(s), l) && l.head.status in {I.Ready, I.Running, I.RetryWait}
    requires Current(s) in s.ledgers ==> s.ledgers[Current(s)].head.status in {I.Ready, I.Running, I.RetryWait}
    ensures t.pins == s.pins && t.snap == s.snap && t.ledgers == s.ledgers[Current(s) := l] && t.effects == s.effects
    ensures t.run == s.run && t.intents == s.intents && t.completed == s.completed
    ensures LedgersAdvance(s, t) && EffectsAdvance(s, t) && Projections(t) && Progressing(t) && s.intents <= t.intents
  {
    hide R.Kept;
  }

  // -------------------------------------------------------------- each commit, in turn

  lemma LateActivation(s: State, a: Action)
    requires Kept(s) && a.ActivateNode? && Late(s, a).Some?
    ensures Kept(Late(s, a).value)
  {
    hide *;
    Parts(s);
    ActivationIs(s, a);
    var node := Current(s);
    var compensatable := node in s.pins && s.pins[node].compensatable;
    EarlyIsBare(s);
    ActivateIsKept(node, compensatable, a.at);
    SomeAttempt(s, node);
    FreshNode(s, node, I.Activate(node, compensatable, a.at));
    LatePutKeeps(s, Late(s, a).value, I.Activate(node, compensatable, a.at));
  }

  lemma FreshNode(s: State, n: string, l: I.Ledger)
    requires LedgerKept(l) && l.head.executions == 0 < MaxAttempts(s, n)
    ensures NodeKept(s, n, l)
  {
    hide LedgerKept, MaxAttempts;
  }

  lemma ActivationIs(s: State, a: Action)
    requires a.ActivateNode? && Late(s, a).Some?
    ensures AtNode(s) && Current(s) !in s.ledgers && s.run.status !in {R.Accepted, R.Queued}
    ensures var l := I.Activate(Current(s), Current(s) in s.pins && s.pins[Current(s)].compensatable, a.at);
            && Late(s, a) == Some(Put(s, Current(s), l)) && l.head.status == I.Ready && l.head.executions == 0
            && !Engaged(l.head.status)
  {
    hide Routing.Join;
  }

  lemma LateClaim(s: State, a: Action)
    requires Kept(s) && a.ClaimNode? && Late(s, a).Some?
    ensures Kept(Late(s, a).value) <==> s.snap.retry.None?
  {
    hide *;
    Parts(s);
    ClaimIs(s, a);
    EarlyIsBare(s);
    CurrentLedger(s);
    var l := s.ledgers[Current(s)];
    var c := I.Claim(l.head.revision, a.owner, a.token, a.leaseExpiresAt, a.at);
    var m := I.Apply(l, c).value;
    KeptNode(s, Current(s), l);
    ClaimFacts(l, c);
    AttemptLeft(s, Current(s), l, m);
    if s.snap.retry.None? {
      RunningEngages(m);
      LatePutKeeps(s, Late(s, a).value, m);
    } else {
      ClaimedRetry(s, Late(s, a).value, m);
    }
  }

  lemma RunningEngages(m: I.Ledger)
    requires m.head.status == I.Running
    ensures m.head.status in {I.Ready, I.Running, I.RetryWait}
  {
  }

  lemma ClaimIs(s: State, a: Action)
    requires a.ClaimNode? && Late(s, a).Some?
    ensures AtNode(s) && Current(s) in s.ledgers && s.run.status !in {R.Accepted, R.Queued} && Disposition(s) == Routing.Ready
    ensures s.ledgers[Current(s)].head.status in {I.Ready, I.RetryWait}
    ensures var l := s.ledgers[Current(s)];
            var next := I.Apply(l, I.Claim(l.head.revision, a.owner, a.token, a.leaseExpiresAt, a.at));
            next.Some? && Late(s, a) == Some(Put(s, Current(s), next.value))
  {
    hide I.Apply, Routing.Join;
  }

  lemma ClaimGoes(s: State, a: Action)
    requires a.ClaimNode? && AtNode(s) && Current(s) in s.ledgers && s.run.status !in {R.Accepted, R.Queued}
    requires Disposition(s) == Routing.Ready && s.ledgers[Current(s)].head.status in {I.Ready, I.RetryWait}
    requires var l := s.ledgers[Current(s)];
             I.Apply(l, I.Claim(l.head.revision, a.owner, a.token, a.leaseExpiresAt, a.at)).Some?
    ensures var l := s.ledgers[Current(s)];
            Late(s, a) == Some(Put(s, Current(s), I.Apply(l, I.Claim(l.head.revision, a.owner, a.token, a.leaseExpiresAt, a.at)).value))
  {
    hide I.Apply, Routing.Join;
  }

  /** A retry wait that is projected without its invocation waiting for it. */
  lemma ClaimedRetry(s: State, t: State, m: I.Ledger)
    requires AtNode(s) && t == Put(s, Current(s), m) && m.head.status == I.Running && s.snap.retry.Some? && Projections(s)
    ensures !Kept(t) && !Readable(t)
  {
    hide Core, Progressing, EffectsKept, IntentsKept, ActiveAttempt, ExactPrefix;
  }

  lemma LateSkip(s: State, a: Action)
    requires Kept(s) && a.SkipNode? && Late(s, a).Some?
    ensures Kept(Late(s, a).value)
  {
    hide *;
    Parts(s);
    SkipIs(s, a);
    EarlyIsBare(s);
    CurrentLedger(s);
    var l := s.ledgers[Current(s)];
    var c := I.ResolveUnleased(l.head.revision, I.Skipped, None, a.at);
    KeptNode(s, Current(s), l);
    BareEarlier(s);
    SkipShape(Earlier(s), l, a.at);
    UnleasedFacts(l, c);
    NodeStaysKept(s, Current(s), l, I.Apply(l, c).value);
    ConcludedNow(s, DoSkip(Earlier(s), a.at).value, I.Apply(l, c).value);
    ConcludedKeeps(s, Late(s, a).value, I.Apply(l, c).value);
  }

  lemma SkipIs(s: State, a: Action)
    requires a.SkipNode? && Late(s, a).Some?
    ensures AtNode(s) && Current(s) in s.ledgers && s.ledgers[Current(s)].head.status == I.Ready
    ensures AtNode(Earlier(s)) && Current(Earlier(s)) == Current(s) && Earlier(s).ledgers == s.ledgers
    ensures var t := DoSkip(Earlier(s), a.at);
            && t.Some? && t.value.intents == s.intents && t.value.run == Earlier(s).run && Late(s, a) == Some(t.value.(run := s.run))
            && Late(s, a).value.run == s.run
  {
    hide I.Apply, Routing.Join, Routing.RecordSkipped;
  }

  lemma BareEarlier(s: State)
    requires Bare(s)
    ensures Earlier(s).snap == Snapshot(Earlier(s).snap.routing, None, None, None)
  {
  }

  lemma ConcludedNow(s: State, t: State, l: I.Ledger)
    requires Concluded(Earlier(s), t, l) && t.intents == s.intents
    ensures Concluded(s, t.(run := s.run), l)
  {
    hide Routing.Step, R.Kept;
  }

  lemma LateExpiry(s: State, a: Action)
    requires Kept(s) && a.ExpireNode? && Late(s, a).Some?
    ensures Kept(Late(s, a).value)
  {
    hide *;
    Parts(s);
    ExpiryIs(s, a);
    RunningIsBare(s);
    CurrentLedger(s);
    BareIs(s);
    var l := s.ledgers[Current(s)];
    var x := ActiveAttempt(l).value;
    var retry := l.head.executions < MaxAttempts(s, Current(s)) && Replayable(s, Current(s));
    var c := I.Expire(l.head.revision, x.id, x.revision, retry, LEASE_EXPIRED, a.at);
    var m := I.Apply(l, c).value;
    KeptNode(s, Current(s), l);
    ExpireFacts(l, c);
    if retry {
      NodeMayRetry(s, Current(s), m);
      LatePutKeeps(s, Late(s, a).value, m);
    } else {
      NodeStaysKept(s, Current(s), l, m);
      ConcludeKeeps(s, m, Broken(LEASE_EXPIRED), a.at, false);
    }
  }

  lemma BareIs(s: State)
    requires s.snap == Snapshot(s.snap.routing, None, None, None)
    ensures Bare(s)
  {
  }

  lemma ExpiryIs(s: State, a: Action)
    requires a.ExpireNode? && Late(s, a).Some?
    ensures AtNode(s) && Disposition(s) == Routing.Ready && Current(s) in s.ledgers && ActiveAttempt(s.ledgers[Current(s)]).Some?
    ensures s.ledgers[Current(s)].head.status == I.Running && s.run.status !in {R.Accepted, R.Queued}
    ensures var l := s.ledgers[Current(s)];
            var x := ActiveAttempt(l).value;
            var retry := l.head.executions < MaxAttempts(s, Current(s)) && Replayable(s, Current(s));
            var next := I.Apply(l, I.Expire(l.head.revision, x.id, x.revision, retry, LEASE_EXPIRED, a.at));
            next.Some? && Late(s, a) ==
              if retry then Some(Put(s, Current(s), next.value)) else Conclude(s, next.value, Broken(LEASE_EXPIRED), a.at, false)
  {
    LateIs(s, a);
    hide *;
    EarlierSees(s);
    ExpireCases(Earlier(s), a.at);
    var l := s.ledgers[Current(s)];
    var x := ActiveAttempt(l).value;
    var retry := l.head.executions < MaxAttempts(s, Current(s)) && Replayable(s, Current(s));
    var next := I.Apply(l, I.Expire(l.head.revision, x.id, x.revision, retry, LEASE_EXPIRED, a.at));
    if retry { PutLate(s, next.value); } else { ConcludedUnmoved(s, next.value, Broken(LEASE_EXPIRED), a.at); }
  }

  lemma LateIs(s: State, a: Action)
    requires a.ExpireNode? && Late(s, a).Some?
    ensures s.run.status !in {R.Accepted, R.Queued}
    ensures var t := DoExpire(Earlier(s), a.at);
            t.Some? && t.value.run == Earlier(s).run && Late(s, a) == Some(t.value.(run := s.run))
  {
    hide DoExpire;
  }

  lemma EarlierSees(s: State)
    ensures AtNode(Earlier(s)) <==> AtNode(s)
    ensures Earlier(s).ledgers == s.ledgers && Earlier(s).snap == s.snap
    ensures AtNode(s) ==> Current(Earlier(s)) == Current(s) && Disposition(Earlier(s)) == Disposition(s)
    ensures forall n :: MaxAttempts(Earlier(s), n) == MaxAttempts(s, n) && ChildOf(Earlier(s), n) == ChildOf(s, n)
    ensures forall n :: Replayable(Earlier(s), n) == Replayable(s, n)
  {
    hide Routing.Join;
  }

  lemma PutLate(s: State, l: I.Ledger)
    requires AtNode(s)
    ensures Put(Earlier(s), Current(s), l).(run := s.run) == Put(s, Current(s), l)
  {
  }

  /** An end that leaves the run as it was read leaves it as it is. */
  lemma ConcludedUnmoved(s: State, l: I.Ledger, ending: Ending, at: int)
    requires AtNode(s) && AtNode(Earlier(s)) && Conclude(Earlier(s), l, ending, at, false).Some?
    requires Conclude(Earlier(s), l, ending, at, false).value.run == Earlier(s).run
    ensures Conclude(s, l, ending, at, false) == Some(Conclude(Earlier(s), l, ending, at, false).value.(run := s.run))
    ensures ending.Broken? ==> Routing.RecordFailed(s.snap.routing, Current(s)).Some? && Routing.RecordFailed(s.snap.routing, Current(s)).value.1
  {
    hide Routing.RecordFailed, Routing.RecordSucceeded, FailRun;
    if ending.Broken? {
      var recorded := Routing.RecordFailed(s.snap.routing, Current(s));
      if recorded.Some? {
        FailureMoves(Put(Earlier(s), Current(s), l).(snap := Snapshot(recorded.value.0, None, None, None)), ending.failure, at);
      }
    }
  }

  lemma FailureMoves(s: State, f: I.Failure, at: int)
    ensures FailRun(s, f, at).Some? ==> FailRun(s, f, at).value.run != s.run
  {
    hide R.Valid, R.Guarded, R.Allowed;
  }

  /** A late commit keeps the invariant exactly if it does not claim the invocation of
      a retry wait that is projected. */
  lemma LateKeepsExactly(s: State, a: Action)
    requires Kept(s) && Late(s, a).Some?
    ensures Kept(Late(s, a).value) <==> !(a.ClaimNode? && s.snap.retry.Some?)
  {
    hide Kept, Apply, Earlier;
    if a.ActivateNode? {
      LateActivation(s, a);
    } else if a.ClaimNode? {
      LateClaim(s, a);
    } else if a.SkipNode? {
      LateSkip(s, a);
    } else {
      LateExpiry(s, a);
    }
  }

  /** A late claim leaves a snapshot that can be read exactly if no retry wait is projected. */
  lemma StaleClaimIsHarmlessExactly(s: State, a: Action)
    requires Kept(s) && a.ClaimNode? && Late(s, a).Some?
    ensures Readable(Late(s, a).value) <==> s.snap.retry.None?
  {
    hide *;
    Parts(s);
    ClaimIs(s, a);
    EarlyIsBare(s);
    LateClaim(s, a);
    CurrentLedger(s);
    var l := s.ledgers[Current(s)];
    var c := I.Claim(l.head.revision, a.owner, a.token, a.leaseExpiresAt, a.at);
    KeptNode(s, Current(s), l);
    ClaimFacts(l, c);
    PutOnly(s, I.Apply(l, c).value);
    if s.snap.retry.None? {
      ReadableExactly(Late(s, a).value);
    } else {
      ClaimedRetry(s, Late(s, a).value, I.Apply(l, c).value);
    }
  }

  lemma PutOnly(s: State, l: I.Ledger)
    requires AtNode(s)
    ensures var t := Put(s, Current(s), l);
            && t.snap == s.snap && t.run == s.run && t.pins == s.pins && t.intents == s.intents
            && AtNode(t) && Current(t) == Current(s) && Current(s) in t.ledgers && t.ledgers[Current(s)] == l
  {
  }

  // ------------------------------------------------------ whole runs with late commits

  datatype Commit = Timely(action: Action) | Tardy(action: Action)

  function Enter(s: State, c: Commit): Option<State> {
    match c
    case Timely(a) => Apply(s, a)
    case Tardy(a) => Late(s, a)
  }

  function PlayMixed(s: State, commits: seq<Commit>): State {
    if commits == [] then s
    else
      var before := PlayMixed(s, commits[..|commits| - 1]);
      var after := Enter(before, commits[|commits| - 1]);
      if after.Some? then after.value else before
  }

  predicate ClaimsRetry(s: State, c: Commit) {
    c.Tardy? && c.action.ClaimNode? && Late(s, c.action).Some? && s.snap.retry.Some?
  }

  ghost predicate Undisturbed(s: State, commits: seq<Commit>) {
    forall i :: 0 <= i < |commits| ==> !ClaimsRetry(PlayMixed(s, commits[..i]), commits[i])
  }

  ghost predicate KeptThroughout(s: State, commits: seq<Commit>) {
    forall i :: 0 <= i <= |commits| ==> Kept(PlayMixed(s, commits[..i]))
  }

  lemma EnterKeepsExactly(s: State, c: Commit)
    requires Kept(s)
    ensures Enter(s, c).Some? ==> (Kept(Enter(s, c).value) <==> !ClaimsRetry(s, c))
    ensures ClaimsRetry(s, c) ==> Enter(s, c).Some?
  {
    hide Kept, Apply, Late;
    if Enter(s, c).Some? {
      if c.Timely? { ApplyKeeps(s, c.action); } else { LateKeepsExactly(s, c.action); }
    }
  }

  lemma NextMixed(s: State, commits: seq<Commit>, i: nat)
    requires i < |commits|
    ensures var x := PlayMixed(s, commits[..i]);
            PlayMixed(s, commits[..i + 1]) == if Enter(x, commits[i]).Some? then Enter(x, commits[i]).value else x
  {
    assert commits[..i + 1][..|commits[..i + 1]| - 1] == commits[..i];
    hide Enter;
  }

  /** Timely and late commits in any order keep the invariant exactly as long as no
      late claim meets a projected retry wait. */
  lemma MixedKeepsExactly(s: State, commits: seq<Commit>)
    requires Kept(s)
    ensures KeptThroughout(s, commits) <==> Undisturbed(s, commits)
  {
    hide Kept, PlayMixed, Enter, ClaimsRetry;
    if Undisturbed(s, commits) {
      forall i | 0 <= i <= |commits| ensures Kept(PlayMixed(s, commits[..i])) { UndisturbedKeeps(s, commits, i); }
    } else {
      var i: nat :| i < |commits| && ClaimsRetry(PlayMixed(s, commits[..i]), commits[i]);
      NextMixed(s, commits, i);
      if Kept(PlayMixed(s, commits[..i])) { EnterKeepsExactly(PlayMixed(s, commits[..i]), commits[i]); }
    }
  }

  lemma {:induction false} UndisturbedKeeps(s: State, commits: seq<Commit>, i: nat)
    requires Kept(s) && Undisturbed(s, commits) && i <= |commits|
    ensures Kept(PlayMixed(s, commits[..i]))
  {
    if i > 0 {
      UndisturbedKeeps(s, commits, i - 1);
      hide Kept, PlayMixed, Enter, ClaimsRetry;
      NextMixed(s, commits, i - 1);
      EnterKeepsExactly(PlayMixed(s, commits[..i - 1]), commits[i - 1]);
    }
  }

  /** Until a run begins to stop, its snapshot agrees with it although controllers
      act on what they read earlier, as long as they claim no projected retry wait. */
  lemma MixedAgrees(s: State, commits: seq<Commit>)
    requires Kept(s) && Undisturbed(s, commits) && PlayMixed(s, commits).run.status != R.Stopping
    ensures Readable(PlayMixed(s, commits))
  {
    assert commits[..|commits|] == commits;
    UndisturbedKeeps(s, commits, |commits|);
    ReadableExactly(PlayMixed(s, commits));
    hide Kept, Readable, PlayMixed;
  }

  // ------------------------------------------------------ the end, after a late commit

  /** Committed without reading the snapshot. */
  predicate Blind(a: Action) {
    a.RequestTermination? || a.CompleteIntent? || (a.StepEffect? && !a.command.CancelPrepared?)
  }

  /** The next commit when a late one is the last of its kind. Every controller refuses
      a snapshot that it cannot read. Then only blind commits are left, and the report
      of the claimant if the snapshot is `current`, the one that it read. */
  function Later(s: State, a: Action, current: bool): Option<State> {
    if Readable(s) || Blind(a) then Apply(s, a)
    else if a.ReportNode? && current then Carried(s, a) else None
  }

  function PlayLater(s: State, actions: seq<Action>, current: bool): State {
    if actions == [] then s
    else
      var before := PlayLater(s, actions[..|actions| - 1], current);
      var after := Later(before, actions[|actions| - 1], current);
      if after.Some? then after.value else before
  }

  ghost predicate CanEndLater(s: State, current: bool) {
    exists actions :: R.Terminal(PlayLater(s, actions, current).run.status)
  }

  const BROKEN := Routing.Outcome(Routing.Failed, "", [])

  /** The current node can report an end that leaves the run alone. */
  predicate ReportsAlone(s: State) {
    AtNode(s) && (ChildOf(s, Current(s)).None? || Routing.FailureHandled(s.snap.routing, Current(s), BROKEN))
  }

  lemma LaterOne(s: State, a: Action, current: bool)
    ensures PlayLater(s, [], current) == s
    ensures Later(s, a, current).Some? ==> PlayLater(s, [a], current) == Later(s, a, current).value
  {
    hide Later;
    assert [a][..0] == [];
  }

  lemma {:induction false} LaterAll(s: State, first: seq<Action>, rest: seq<Action>, current: bool)
    ensures PlayLater(s, first + rest, current) == PlayLater(PlayLater(s, first, current), rest, current)
  {
    hide Later;
    if rest == [] {
      assert first + rest == first;
    } else {
      var front := rest[..|rest| - 1];
      LaterAll(s, first, front, current);
      assert (first + rest)[..|first + rest| - 1] == first + front;
    }
  }

  lemma LaterEnds(s: State, a: Action, current: bool)
    requires Later(s, a, current).Some? && CanEndLater(Later(s, a, current).value, current)
    ensures CanEndLater(s, current)
  {
    hide Later;
    var rest :| R.Terminal(PlayLater(Later(s, a, current).value, rest, current).run.status);
    LaterOne(s, a, current);
    LaterAll(s, [a], rest, current);
    assert R.Terminal(PlayLater(s, [a] + rest, current).run.status);
  }

  // -------------------------------------------------- where the invariant still holds

  lemma UntrappedIsReadable(s: State)
    requires Kept(s) && !Trapped(s)
    ensures Readable(s)
  {
    ReadableExactly(s);
    hide Kept, Readable;
  }

  lemma {:induction false} PlaysAlike(s: State, actions: seq<Action>, current: bool)
    requires Kept(s)
    ensures Trapped(Play(s, actions)) || PlayLater(s, actions, current) == Play(s, actions)
  {
    if actions != [] {
      var front, a := actions[..|actions| - 1], actions[|actions| - 1];
      PlaysAlike(s, front, current);
      PlayKeeps(s, front);
      hide Kept, Apply, Trapped, Readable;
      if Trapped(Play(s, front)) {
        if Apply(Play(s, front), a).Some? { TrappedStep(Play(s, front), a); }
      } else {
        UntrappedIsReadable(Play(s, front));
      }
    }
  }

  lemma KeptEndsLater(s: State, current: bool)
    requires Kept(s) && !Trapped(s)
    ensures CanEndLater(s, current)
  {
    CanEndExactly(s);
    var actions :| R.Terminal(Play(s, actions).run.status);
    PlaysAlike(s, actions, current);
    hide Kept, Play, PlayLater;
    assert R.Terminal(PlayLater(s, actions, current).run.status);
  }

  /** Every late commit but the claim of a projected retry leaves nothing projected. */
  lemma LateIsUntrapped(s: State, a: Action)
    requires Kept(s) && Late(s, a).Some? && !(a.ClaimNode? && s.snap.retry.Some?)
    ensures !Trapped(Late(s, a).value)
  {
    hide *;
    Parts(s);
    if a.ActivateNode? {
      ActivationIs(s, a);
    } else if a.ClaimNode? {
      ClaimIs(s, a);
    } else if a.SkipNode? {
      SkipIs(s, a);
    } else {
      LateNames(s, a);
      ExpiryIs(s, a);
    }
    EarlyIsBare(s);
    LateProjects(s, a);
  }

  lemma LateNames(s: State, a: Action)
    requires Late(s, a).Some?
    ensures a.ActivateNode? || a.SkipNode? || a.ClaimNode? || a.ExpireNode?
  {
    hide Carried;
  }

  /** A late commit projects nothing new. */
  lemma LateProjects(s: State, a: Action)
    requires Late(s, a).Some? && s.snap.call.None? && s.snap.retry.None?
    ensures !Trapped(Late(s, a).value)
  {
    hide I.Apply, Disposition, ActiveAttempt, Replayable, MaxAttempts, R.Transition, Routing.FailureHandled;
  }

  // ----------------------------------------------- a projected retry that was claimed

  /** The current invocation runs under a retry wait that is still projected, in a run
      that waits or stops, and its worker cannot end it alone. */
  predicate Stuck(s: State, current: bool) {
    && s.run.status in {R.Waiting, R.Stopping} && (s.run.status == R.Stopping ==> s.run.termination.Some?)
    && s.snap.retry.Some? && AtNode(s) && Current(s) in s.ledgers && s.ledgers[Current(s)].head.status == I.Running
    && !(current && ReportsAlone(s))
  }

  lemma StuckIsUnreadable(s: State, current: bool)
    requires Stuck(s, current)
    ensures !Readable(s) && !R.Terminal(s.run.status)
  {
    hide ReportsAlone, ExactPrefix;
  }

  lemma StuckStep(s: State, a: Action, current: bool)
    requires Stuck(s, current) && Later(s, a, current).Some?
    ensures Stuck(Later(s, a, current).value, current)
  {
    StuckIsUnreadable(s, current);
    hide Readable;
    if a.ReportNode? && current {
      hide Carried;
      ReportNeedsTheRun(s, a);
    } else {
      hide R.Transition, E.Step, DoReport;
      StuckBlindly(s, a, current);
    }
  }

  lemma StuckBlindly(s: State, a: Action, current: bool)
    requires Stuck(s, current) && Blind(a) && Apply(s, a).Some?
    ensures Stuck(Apply(s, a).value, current)
  {
    var t := Apply(s, a).value;
    BlindStays(s, a);
    hide *;
    StuckStays(s, t, current);
  }

  lemma BlindStays(s: State, a: Action)
    requires Blind(a) && Apply(s, a).Some?
    ensures var t := Apply(s, a).value;
            && t.snap == s.snap && t.ledgers == s.ledgers && t.pins == s.pins
            && (t.run == s.run || (t.run.status == R.Stopping && t.run.termination.Some?))
  {
    hide R.Valid, R.Guarded, R.Allowed, E.Step;
  }

  lemma StuckStays(s: State, t: State, current: bool)
    requires Stuck(s, current) && t.snap == s.snap && t.ledgers == s.ledgers && t.pins == s.pins
    requires t.run == s.run || (t.run.status == R.Stopping && t.run.termination.Some?)
    ensures Stuck(t, current)
  {
    hide Routing.FailureHandled;
  }

  /** Such a worker has nothing to report that would not change the run. */
  lemma ReportNeedsTheRun(s: State, a: Action)
    requires a.ReportNode? && AtNode(s) && !ReportsAlone(s)
    ensures Carried(s, a).None?
  {
    EarlierSees(s);
    hide *;
    if Apply(Earlier(s), a).Some? { ReportMoves(Earlier(s), s, a); }
    CarriedUnmoved(s, a);
  }

  lemma CarriedUnmoved(s: State, a: Action)
    ensures Carried(s, a).Some? ==> Apply(Earlier(s), a).Some? && Apply(Earlier(s), a).value.run == Earlier(s).run
  {
    hide Apply;
  }

  lemma ReportMoves(e: State, s: State, a: Action)
    requires a.ReportNode? && e == Earlier(s) && AtNode(s) && !ReportsAlone(s) && Apply(e, a).Some?
    ensures Apply(e, a).value.run != e.run
  {
    hide Routing.FailureHandled, I.Apply, ActiveAttempt, RetryAfter, E.Prepare, R.Valid, R.Guarded, R.Allowed;
  }

  lemma {:induction false} StuckForever(s: State, actions: seq<Action>, current: bool)
    requires Stuck(s, current)
    ensures Stuck(PlayLater(s, actions, current), current)
  {
    if actions != [] {
      var before, a := PlayLater(s, actions[..|actions| - 1], current), actions[|actions| - 1];
      StuckForever(s, actions[..|actions| - 1], current);
      hide Stuck, Later;
      if Later(before, a, current).Some? { StuckStep(before, a, current); }
    }
  }

  lemma ClaimedIsStuck(s: State, a: Action, current: bool)
    requires Kept(s) && a.ClaimNode? && Late(s, a).Some? && s.snap.retry.Some? && !(current && ReportsAlone(s))
    ensures Stuck(Late(s, a).value, current)
  {
    hide *;
    Parts(s);
    ClaimIs(s, a);
    CurrentLedger(s);
    RetryWaits(s);
    RunEnding.RunIsKept(s);
    var l := s.ledgers[Current(s)];
    var c := I.Claim(l.head.revision, a.owner, a.token, a.leaseExpiresAt, a.at);
    KeptNode(s, Current(s), l);
    ClaimFacts(l, c);
    PutOnly(s, I.Apply(l, c).value);
    StuckNow(s, Late(s, a).value, current);
  }

  lemma RetryWaits(s: State)
    requires Projections(s) && s.snap.retry.Some?
    ensures s.run.status in {R.Waiting, R.Stopping}
  {
    hide WaitingAgrees, RetryAgrees, CallIsFirst;
  }

  lemma StuckNow(s: State, t: State, current: bool)
    requires s.run.status in {R.Waiting, R.Stopping} && (s.run.status == R.Stopping ==> s.run.termination.Some?)
    requires AtNode(s) && s.snap.retry.Some? && !(current && ReportsAlone(s)) && t.snap == s.snap && t.run == s.run && t.pins == s.pins
    requires Current(s) in t.ledgers && t.ledgers[Current(s)].head.status == I.Running
    ensures Stuck(t, current)
  {
    hide Routing.FailureHandled;
  }

  // --------------------------------------------- the claimant ends what it has claimed

  /** An end that leaves the run alone. */
  function QuietEnding(s: State): Ending
    requires AtNode(s)
  {
    if ChildOf(s, Current(s)).None? then Success("", "", []) else Broken(I.Failure("claimed", false, true))
  }

  function EndCommand(l: I.Ledger, x: I.Attempt, token: string, ending: Ending, at: int): I.Command {
    match ending
    case Success(output, _, _) =>
      I.Transition(FenceOf(l, x, token, at), I.Succeeded, I.AttemptSucceeded, Some(output), None, None, "", 0)
    case Broken(f) => I.Transition(FenceOf(l, x, token, at), I.Failed, I.AttemptFailed, None, Some(f), None, "", 0)
  }

  function RecordedEnd(r: Routing.Snapshot<string>, node: string, ending: Ending): Routing.Snapshot<string>
    requires Routing.Current(r, node)
  {
    match ending
    case Success(output, route, ports) => Routing.RecordSucceeded(r, node, output, route, ports).value
    case Broken(_) => Routing.RecordFailed(r, node).value.0
  }

  function Quiet(s: State, l: I.Ledger, ending: Ending): State
    requires AtNode(s) && Routing.Current(s.snap.routing, Current(s))
  {
    Put(s, Current(s), l).(snap := Snapshot(RecordedEnd(s.snap.routing, Current(s), ending), None, None, None))
  }

  lemma QuietReport(s: State, token: string, ending: Ending, at: int)
    requires AtNode(s) && Current(s) in s.ledgers && s.ledgers[Current(s)].head.status == I.Running
    requires Routing.Current(s.snap.routing, Current(s)) && ReportsAlone(s) && ending == QuietEnding(s)
    requires var l := s.ledgers[Current(s)];
             ActiveAttempt(l).Some? && I.Apply(l, EndCommand(l, ActiveAttempt(l).value, token, ending, at)).Some?
    ensures var l := s.ledgers[Current(s)];
            Apply(s, ReportNode(token, Ends(ending), at))
              == Some(Quiet(s, I.Apply(l, EndCommand(l, ActiveAttempt(l).value, token, ending, at)).value, ending))
  {
    hide I.Apply, ActiveAttempt, Routing.FailureHandled;
  }

  lemma ClaimantMayEnd(l: I.Ledger, c: I.Command, ending: Ending)
    requires LedgerKept(l) && c.Claim? && I.Apply(l, c).Some?
    requires ending.Broken? ==> ending.failure.wellFormed
    ensures var m := I.Apply(l, c).value;
            ActiveAttempt(m).Some? && I.Apply(m, EndCommand(m, ActiveAttempt(m).value, c.token, ending, c.at)).Some?
  {
    hide I.Apply, I.Kept, I.Find, I.Fenced;
    I.ClaimHolds(l, c);
    var m := I.Apply(l, c).value;
    var i := I.Find(m.attempts, m.head.active.value);
    I.ReportSucceeds(m, i, EndCommand(m, m.attempts[i], c.token, ending, c.at));
  }

  function Dropped(s: State): State {
    s.(snap := s.snap.(retry := None))
  }

  /** A run that stops in a retry wait keeps the invariant when the projection is dropped. */
  lemma DropKeeps(s: State)
    requires Kept(s) && s.run.status == R.Stopping && s.snap.retry.Some?
    ensures Kept(Dropped(s))
  {
    hide *;
    Parts(s);
    var t := Dropped(s);
    DroppedParts(s, t);
    ClearKeepsCore(s, t);
    RunStays(s);
    FollowsThrough(s, s, t);
    IntentsFollow(s, t);
    EffectsFollow(s, t);
    KeptOf(t);
  }

  lemma DroppedParts(s: State, t: State)
    requires Projections(s) && Progressing(s) && s.run.status == R.Stopping && s.snap.retry.Some? && t == Dropped(s)
    ensures t.pins == s.pins && t.ledgers == s.ledgers && t.snap.routing == s.snap.routing && t.effects == s.effects
    ensures t.run == s.run && t.intents == s.intents && t.completed == s.completed && s.intents <= t.intents
    ensures t.snap.call == s.snap.call && RunFollows(s, t) && LedgersAdvance(s, t) && EffectsAdvance(s, t)
    ensures Projections(t) && Progressing(t) && t.snap.retry.None?
  {
    hide R.Kept, ActiveAttempt;
  }

  lemma DroppedSees(s: State)
    requires AtNode(s)
    ensures var t := Dropped(s);
            && AtNode(t) && Current(t) == Current(s) && Disposition(t) == Disposition(s) && QuietEnding(t) == QuietEnding(s)
            && t.ledgers == s.ledgers && t.run == s.run && t.snap.routing == s.snap.routing && t.snap.retry.None?
            && (ReportsAlone(t) <==> ReportsAlone(s))
  {
    hide Routing.FailureHandled, Routing.Join;
  }

  /** What the claimant's report leaves behind does not depend on the dropped
      projection, nor on how far the run has come. */
  lemma SameQuiet(s: State, m: I.Ledger, next: I.Ledger, ending: Ending)
    requires AtNode(s) && Routing.Current(s.snap.routing, Current(s))
    ensures var t, d := Put(s, Current(s), m), Put(Dropped(s), Current(s), m);
            && AtNode(t) && AtNode(d) && Current(t) == Current(s) && Current(d) == Current(s)
            && AtNode(Earlier(t)) && Current(Earlier(t)) == Current(s)
            && Routing.Current(t.snap.routing, Current(t)) && Routing.Current(d.snap.routing, Current(d))
            && Quiet(Earlier(t), next, ending).(run := s.run) == Quiet(d, next, ending)
            && Quiet(Earlier(t), next, ending).run == Earlier(t).run
            && !Trapped(Quiet(d, next, ending))
  {
    hide RecordedEnd, Routing.Current;
  }

  lemma SameEnding(s: State, m: I.Ledger)
    requires AtNode(s)
    ensures var t, d := Put(s, Current(s), m), Put(Dropped(s), Current(s), m);
            && AtNode(t) && AtNode(d) && AtNode(Earlier(t)) && Current(Earlier(t)) == Current(s)
            && QuietEnding(Earlier(t)) == QuietEnding(s) && QuietEnding(d) == QuietEnding(s)
            && (ReportsAlone(Earlier(t)) <==> ReportsAlone(s)) && (ReportsAlone(d) <==> ReportsAlone(s))
            && Earlier(t).ledgers == t.ledgers && t.ledgers[Current(s)] == m && d.ledgers[Current(s)] == m
            && Current(s) in t.ledgers && Current(s) in d.ledgers && Earlier(t).snap.routing == s.snap.routing
  {
    hide Routing.FailureHandled;
  }

  lemma QuietEndingIsSound(s: State)
    requires AtNode(s)
    ensures QuietEnding(s).Broken? ==> QuietEnding(s).failure.wellFormed
  {
  }

  lemma CarriedIs(t: State, a: Action, u: State)
    requires Apply(Earlier(t), a) == Some(u) && u.run == Earlier(t).run
    ensures Carried(t, a) == Some(u.(run := t.run))
  {
    hide Apply;
  }

  /** The claimant of a retry that a stopping run still projects ends it: its report
      clears the projection. */
  lemma ClaimantEnds(s: State, a: Action)
    requires Kept(s) && s.run.status == R.Stopping && s.snap.retry.Some? && a.ClaimNode? && Late(s, a).Some? && ReportsAlone(s)
    ensures CanEndLater(Late(s, a).value, true)
  {
    hide *;
    Parts(s);
    ClaimIs(s, a);
    CurrentLedger(s);
    CoreParts(s);
    CurrentIsUnrecorded(s);
    var l := s.ledgers[Current(s)];
    var c := I.Claim(l.head.revision, a.owner, a.token, a.leaseExpiresAt, a.at);
    var m := I.Apply(l, c).value;
    KeptNode(s, Current(s), l);
    ClaimFacts(l, c);
    var ending := QuietEnding(s);
    QuietEndingIsSound(s);
    ClaimantMayEnd(l, c, ending);
    var next := I.Apply(m, EndCommand(m, ActiveAttempt(m).value, a.token, ending, a.at)).value;
    var t, d := Put(s, Current(s), m), Put(Dropped(s), Current(s), m);
    var report := ReportNode(a.token, Ends(ending), a.at);
    DropKeeps(s);
    DroppedSees(s);
    ClaimGoes(Dropped(s), a);
    LateClaim(Dropped(s), a);
    SameEnding(s, m);
    SameQuiet(s, m, next, ending);
    QuietReport(d, a.token, ending, a.at);
    ApplyKeeps(d, report);
    QuietReport(Earlier(t), a.token, ending, a.at);
    PutOnly(s, m);
    CarriedIs(t, report, Quiet(Earlier(t), next, ending));
    StaleClaimIsHarmlessExactly(s, a);
    LaterReports(t, report, Quiet(d, next, ending));
    KeptEndsLater(Quiet(d, next, ending), true);
    LaterEnds(t, report, true);
  }

  lemma LaterReports(t: State, a: Action, u: State)
    requires a.ReportNode? && !Readable(t) && Carried(t, a) == Some(u)
    ensures Later(t, a, true) == Some(u)
  {
    hide Readable, Carried, Apply;
  }

  /** A waiting run is asked to stop first. */
  lemma AskedClaimantEnds(s: State, a: Action)
    requires Kept(s) && s.run.status == R.Waiting && s.snap.retry.Some? && a.ClaimNode? && Late(s, a).Some? && ReportsAlone(s)
    ensures CanEndLater(Late(s, a).value, true)
  {
    hide *;
    ClaimIs(s, a);
    Open(s);
    AskedStops(s);
    ApplyKeeps(s, Halt(s.run));
    var s', t := Apply(s, Halt(s.run)).value, Late(s, a).value;
    MovedSees(s, s');
    ClaimGoes(s', a);
    ClaimantEnds(s', a);
    var l := s.ledgers[Current(s)];
    HaltAlike(s, I.Apply(l, I.Claim(l.head.revision, a.owner, a.token, a.leaseExpiresAt, a.at)).value);
    LaterHalts(t, true);
    LaterEnds(t, Halt(t.run), true);
  }

  lemma Open(s: State)
    requires s.run.status == R.Waiting
    ensures !R.Terminal(s.run.status)
  {
  }

  lemma MovedSees(s: State, t: State)
    requires RunMoves(s, t) && AtNode(s)
    ensures AtNode(t) && Current(t) == Current(s) && Disposition(t) == Disposition(s) && t.ledgers == s.ledgers && t.snap == s.snap
    ensures ReportsAlone(t) <==> ReportsAlone(s)
  {
    hide Routing.FailureHandled, Routing.Join;
  }

  lemma HaltAlike(s: State, m: I.Ledger)
    requires AtNode(s) && Apply(s, Halt(s.run)).Some? && RunMoves(s, Apply(s, Halt(s.run)).value)
    ensures var t := Put(s, Current(s), m);
            && t.run == s.run
            && Apply(t, Halt(s.run)) == Some(Put(Apply(s, Halt(s.run)).value, Current(s), m))
  {
    hide R.Transition;
  }

  lemma LaterHalts(t: State, current: bool)
    ensures Later(t, Halt(t.run), current) == Apply(t, Halt(t.run))
  {
    hide Apply, Readable;
  }

  /** After a late commit a run can still end, except where it claimed the invocation of
      a projected retry wait. There it can exactly if the claimant read the snapshot
      that is there and can report an end that leaves the run alone: of its own node,
      or a failure that an edge handles. */
  lemma LateEndsExactly(s: State, a: Action, current: bool)
    requires Kept(s) && Late(s, a).Some?
    ensures CanEndLater(Late(s, a).value, current) <==>
            !(a.ClaimNode? && s.snap.retry.Some?) || (current && ReportsAlone(s))
  {
    hide *;
    var t := Late(s, a).value;
    if !(a.ClaimNode? && s.snap.retry.Some?) {
      LateKeepsExactly(s, a);
      LateIsUntrapped(s, a);
      KeptEndsLater(t, current);
    } else if current && ReportsAlone(s) {
      Parts(s);
      RetryWaits(s);
      if s.run.status == R.Stopping { ClaimantEnds(s, a); } else { AskedClaimantEnds(s, a); }
    } else {
      ClaimedIsStuck(s, a, current);
      StuckNeverEnds(t, current);
    }
  }

  lemma StuckNeverEnds(s: State, current: bool)
    requires Stuck(s, current)
    ensures !CanEndLater(s, current)
  {
    hide Stuck, PlayLater, R.Terminal;
    forall actions ensures !R.Terminal(PlayLater(s, actions, current).run.status) {
      StuckForever(s, actions, current);
      StuckIsUnreadable(PlayLater(s, actions, current), current);
    }
  }
}
