/** One run, step by step: its first attempt fails for a transient reason, so it waits
    for a retry; from there the two failures of the retry projection can be reached. */
module RunWitness {
  import opened Prelude
  import R = RunLifecycle
  import I = Invocation
  import Routing
  import Backoff
  import opened RunLoop
  import opened RunInvariant
  import RunSafety
  import opened RunResults
  import opened RunStale

  function Flaky(): I.Failure {
    I.Failure("flaky", true, true)
  }

  function First(): State {
    Begin(map["a" := Pin(None, false, false, Backoff.Policy(2, 1, 1))], ["a"], [], 0)
  }

  /** The invocation ready, claimed, and waiting for its retry. */
  function ReadyLedger(): I.Ledger {
    I.Activate("a", false, 0)
  }

  function ClaimedLedger(): I.Ledger {
    I.Ledger(
      I.Head("a", I.Running, Some(I.AttemptId(I.Execution, 1)), None, 1, 0, "", None, None, None, I.NotRequired, 0, None, None,
             0, Some(0), 0, None, 2),
      [I.NewAttempt(I.Execution, 1, "w", "t", 10, 0)])
  }

  function WaitingLedger(): I.Ledger {
    I.Ledger(
      I.Head("a", I.RetryWait, None, None, 1, 0, "", Some(1), None, Some(Flaky()), I.NotRequired, 0, None, None,
             0, Some(0), 0, None, 3),
      [I.NewAttempt(I.Execution, 1, "w", "t", 10, 0).(status := I.AttemptFailed, failure := Some(Flaky()), leaseExpiresAt := None,
                                                       finishedAt := Some(0), revision := 2)])
  }

  function ReclaimedLedger(): I.Ledger {
    I.Ledger(
      I.Head("a", I.Running, Some(I.AttemptId(I.Execution, 2)), None, 2, 0, "", None, None, None, I.NotRequired, 0, None, None,
             0, Some(0), 1, None, 4),
      WaitingLedger().attempts + [I.NewAttempt(I.Execution, 2, "w", "u", 20, 1)])
  }

  lemma ClaimedIsValid()
    ensures I.Valid(ReadyLedger()) && I.Valid(ClaimedLedger())
  {
    assert ClaimedLedger().attempts[..0] == [];
    assert I.CountPhase(ClaimedLedger().attempts, I.Execution) == 1;
    assert I.OrdinalFits(ClaimedLedger().attempts, 0);
  }

  lemma WaitingIsValid()
    ensures I.Valid(WaitingLedger())
  {
    assert WaitingLedger().attempts[..0] == [];
    assert I.CountPhase(WaitingLedger().attempts, I.Execution) == 1;
    assert I.OrdinalFits(WaitingLedger().attempts, 0);
  }

  lemma ReclaimedIsValid()
    ensures I.Valid(ReclaimedLedger())
  {
    var one, two := WaitingLedger().attempts, ReclaimedLedger().attempts;
    assert two[..1] == one && two[..0] == [] && one[..0] == [];
    assert I.CountPhase(one, I.Execution) == 1 && I.CountPhase(one, I.Compensation) == 0;
    assert I.CountPhase(two, I.Execution) == 2 && I.CountPhase(two, I.Compensation) == 0;
    assert I.OrdinalFits(two, 0) && I.OrdinalFits(two, 1);
    assert two[1].id == I.AttemptId(I.Execution, 2) && I.Live(two[1].status);
  }

  lemma ClaimFollows()
    ensures I.Apply(ReadyLedger(), I.Claim(1, "w", "t", 10, 0)) == Some(ClaimedLedger())
    ensures I.Apply(WaitingLedger(), I.Claim(3, "w", "u", 20, 1)) == Some(ReclaimedLedger())
  {
    ClaimedIsValid();
    WaitingIsValid();
    ReclaimedIsValid();
    hide I.Valid;
    assert ReadyLedger().attempts + ClaimedLedger().attempts == ClaimedLedger().attempts;
  }

  function Fence(): I.Fence {
    I.Fence(2, I.AttemptId(I.Execution, 1), 1, "t", 0)
  }

  lemma FenceHolds()
    ensures I.Fenced(ClaimedLedger(), Fence()) == Some(0)
    ensures ActiveAttempt(ClaimedLedger()) == Some(ClaimedLedger().attempts[0])
  {
    assert I.Find(ClaimedLedger().attempts, I.AttemptId(I.Execution, 1)) == 0;
  }

  lemma FailureFollows()
    ensures I.Apply(ClaimedLedger(), I.Transition(Fence(), I.RetryWait, I.AttemptFailed, None, Some(Flaky()), Some(1), "", 0))
            == Some(WaitingLedger())
  {
    ClaimedIsValid();
    WaitingIsValid();
    FenceHolds();
    hide I.Valid, I.Fenced;
    assert ClaimedLedger().attempts[0 := WaitingLedger().attempts[0]] == WaitingLedger().attempts;
  }

  // ------------------------------------------------------------------- the run

  function RunAt(status: R.Status, revision: nat): R.Run {
    R.Admit("run", 0).(status := status, revision := revision, startedAt := Some(0))
  }

  function At(run: R.Run, l: Option<I.Ledger>, retry: Option<RetryWait>): State {
    First().(run := run, snap := First().snap.(retry := retry), ledgers := if l.None? then map[] else map["a" := l.value])
  }

  /** The run waits for the retry of its only node. */
  function WaitingRun(): State {
    At(RunAt(R.Waiting, 3), Some(WaitingLedger()), Some(RetryWait("a", 1, 1)))
  }

  function Steps(): seq<Action> {
    [StartRun(0), ActivateNode(0), ClaimNode("w", "t", 10, 0), ReportNode("t", Ends(Broken(Flaky())), 0)]
  }

  lemma RunsFollow()
    ensures R.Transition(R.Admit("run", 0), R.Plain(R.Admit("run", 0), R.Running, 0)) == Some(RunAt(R.Running, 2))
    ensures R.Transition(RunAt(R.Running, 2), R.Plain(RunAt(R.Running, 2), R.Waiting, 0)) == Some(RunAt(R.Waiting, 3))
  {
  }

  lemma NodeIsReady(s: State)
    requires s.snap.routing == First().snap.routing
    ensures AtNode(s) && Current(s) == "a" && Disposition(s) == Routing.Ready
  {
  }

  lemma PutIs(run: R.Run, before: Option<I.Ledger>, l: I.Ledger)
    ensures Put(At(run, before, None), "a", l) == At(run, Some(l), None)
  {
  }

  lemma StartApplies()
    ensures DoStart(First(), 0) == Some(At(RunAt(R.Running, 2), None, None))
  {
    RunsFollow();
    hide R.Transition;
  }

  lemma ActivateApplies()
    ensures DoActivate(At(RunAt(R.Running, 2), None, None), 0) == Some(At(RunAt(R.Running, 2), Some(ReadyLedger()), None))
  {
    var s := At(RunAt(R.Running, 2), None, None);
    NodeIsReady(s);
    PutIs(s.run, None, ReadyLedger());
    hide Disposition, Current, AtNode, Put;
  }

  lemma ClaimApplies()
    ensures DoClaim(At(RunAt(R.Running, 2), Some(ReadyLedger()), None), "w", "t", 10, 0)
            == Some(At(RunAt(R.Running, 2), Some(ClaimedLedger()), None))
  {
    var s := At(RunAt(R.Running, 2), Some(ReadyLedger()), None);
    NodeIsReady(s);
    ClaimFollows();
    PutIs(s.run, Some(ReadyLedger()), ClaimedLedger());
    hide Disposition, Current, AtNode, Put, I.Apply;
  }

  lemma RetryApplies()
    ensures ScheduleRetry(At(RunAt(R.Running, 2), Some(ClaimedLedger()), None), ClaimedLedger(), ClaimedLedger().attempts[0], "t", Flaky(), 1, 0)
            == Some(WaitingRun())
  {
    var s := At(RunAt(R.Running, 2), Some(ClaimedLedger()), None);
    NodeIsReady(s);
    FailureFollows();
    RunsFollow();
    PutIs(s.run, Some(ClaimedLedger()), WaitingLedger());
    hide Disposition, AtNode, Put, I.Apply, R.Transition, Current;
    assert FenceOf(ClaimedLedger(), ClaimedLedger().attempts[0], "t", 0) == Fence();
  }

  lemma ReportApplies()
    ensures DoReport(At(RunAt(R.Running, 2), Some(ClaimedLedger()), None), "t", Ends(Broken(Flaky())), 0) == Some(WaitingRun())
  {
    var s := At(RunAt(R.Running, 2), Some(ClaimedLedger()), None);
    NodeIsReady(s);
    FenceHolds();
    RetryApplies();
    PolicyAllowsRetry(s);
    hide Disposition, AtNode, Current, ScheduleRetry, ActiveAttempt, RetryAfter, PolicyOf, WaitingRun, WaitingLedger;
  }

  lemma PolicyAllowsRetry(s: State)
    requires s.pins == First().pins
    ensures RetryAfter(PolicyOf(s, "a"), 1) == Some(1)
  {
    assert Backoff.Pow2(0) == 1;
  }

  lemma WaitingIsReached()
    ensures Play(First(), Steps()) == WaitingRun() && Kept(WaitingRun())
  {
    StepsPlay(Steps());
    FirstIsKept();
    RunSafety.PlayKeeps(First(), Steps());
    hide Kept, Play, Steps, WaitingRun;
  }

  lemma StepsPlay(a: seq<Action>)
    requires a == Steps()
    ensures Play(First(), a) == WaitingRun()
  {
    hide DoStart, DoActivate, DoClaim, DoReport, First, At, WaitingRun;
    StartApplies();
    ActivateApplies();
    ClaimApplies();
    ReportApplies();
    assert a[..1][..0] == [] && a[..2][..1] == a[..1] && a[..3][..2] == a[..2];
    assert Play(First(), a[..1]) == At(RunAt(R.Running, 2), None, None);
    assert Play(First(), a[..2]) == At(RunAt(R.Running, 2), Some(ReadyLedger()), None);
    assert Play(First(), a[..3]) == At(RunAt(R.Running, 2), Some(ClaimedLedger()), None);
  }

  lemma FirstIsKept()
    ensures Kept(First())
  {
    assert Backoff.Accepted(Backoff.Policy(2, 1, 1));
    RunSafety.BeginKeeps(map["a" := Pin(None, false, false, Backoff.Policy(2, 1, 1))], ["a"], [], 0);
    hide Kept;
  }

  /** A controller that read the run while it was running, and the rest a moment
      later, claims the waiting invocation when its retry is due: the run still waits,
      and its snapshot cannot be read any more. */
  lemma StaleClaimBreaksTheSnapshot()
    ensures var s := Play(First(), Steps());
            && Kept(s) && Readable(s) && s.run.status == R.Waiting
            && Late(s, Stale()).Some?
            && !Readable(Late(s, Stale()).value)
  {
    WaitingIsReached();
    WaitingIsReadable();
    StaleClaimGoes();
    hide *;
    StaleClaimIsHarmlessExactly(WaitingRun(), Stale());
  }

  lemma WaitingIsReadable()
    requires Kept(WaitingRun())
    ensures Readable(WaitingRun()) && WaitingRun().run.status == R.Waiting && WaitingRun().snap.retry.Some?
  {
    ReadableExactly(WaitingRun());
    hide Kept, Readable, WaitingLedger;
  }

  function Stale(): Action {
    ClaimNode("w", "u", 20, 1)
  }

  lemma StaleClaimGoes()
    ensures Late(WaitingRun(), Stale()).Some?
  {
    WaitingHas();
    NodeIsReady(WaitingRun());
    ClaimFollows();
    hide *;
    ClaimGoes(WaitingRun(), Stale());
  }

  lemma WaitingHas()
    ensures var s := WaitingRun();
            && s.snap.routing == First().snap.routing && s.run.status == R.Waiting
            && "a" in s.ledgers && s.ledgers["a"] == WaitingLedger()
            && WaitingLedger().head.status == I.RetryWait && WaitingLedger().head.revision == 3
            && Stale() == ClaimNode("w", "u", 20, 1)
  {
  }

  /** An operator who stops the run in its retry wait freezes it for ever. */
  lemma StoppedRetryNeverEnds(actions: seq<Action>)
    ensures var s := Apply(Play(First(), Steps()), RequestTermination(3, R.StoppedKind, None, "stop", 1));
            s.Some? && s.value.run.status == R.Stopping && Play(s.value, actions).run.status == R.Stopping
  {
    WaitingIsReached();
    StopGoes();
    hide *;
    var a := RequestTermination(3, R.StoppedKind, None, "stop", 1);
    RunSafety.ApplyKeeps(WaitingRun(), a);
    TrappedForever(Apply(WaitingRun(), a).value, actions);
    TrappedIsStopping(Play(Apply(WaitingRun(), a).value, actions));
  }

  lemma StopGoes()
    ensures var s := Apply(WaitingRun(), RequestTermination(3, R.StoppedKind, None, "stop", 1));
            s.Some? && Trapped(s.value) && s.value.run.status == R.Stopping
  {
    hide WaitingLedger;
  }

  lemma TrappedIsStopping(s: State)
    requires Trapped(s)
    ensures s.run.status == R.Stopping
  {
  }
}
