/** The lifecycle of one run: its transition table, the frozen termination intent
    and what validation asks of a stored run. Frozen identities and digests are one
    field; `wellFormed` is the outcome of the syntax checks of an intent. */
module RunLifecycle {
  import opened Prelude
  import Invocation

  type Failure = Invocation.Failure

  datatype Status = Accepted | Queued | Running | Waiting | Stopping | Succeeded | Failed | Canceled | Stopped | Rejected

  predicate Terminal(s: Status) {
    s in {Succeeded, Failed, Canceled, Stopped, Rejected}
  }

  datatype Kind = CompletedKind | FailedKind | CanceledKind | StoppedKind | RejectedKind

  predicate RequiresStopping(k: Kind) {
    k in {FailedKind, CanceledKind, StoppedKind}
  }

  datatype Termination = Termination(kind: Kind, requestedRevision: nat, failure: Option<Failure>, commandId: string, wellFormed: bool)

  datatype Run = Run(
    frozen: string, status: Status, revision: nat, acceptedAt: int, startedAt: Option<int>, updatedAt: int, finishedAt: Option<int>,
    termination: Option<Termination>, kind: Option<Kind>, result: string, failure: Option<Failure>, cleanup: seq<Failure>)

  function TerminalStatus(k: Kind): Option<Status> {
    match k
    case FailedKind => Some(Failed)
    case CanceledKind => Some(Canceled)
    case StoppedKind => Some(Stopped)
    case _ => None
  }

  // ---------------------------------------------------------------- validation

  /** validateTermination. */
  predicate TerminationValid(t: Termination) {
    RequiresStopping(t.kind) && t.requestedRevision > 0 && t.wellFormed && Invocation.FailureValid(t.failure, t.kind == FailedKind)
  }

  predicate CleanupValid(failures: seq<Failure>) {
    forall i :: 0 <= i < |failures| ==> failures[i].wellFormed
  }

  predicate Within(at: Option<int>, r: Run) {
    at.Some? ==> r.acceptedAt <= at.value <= r.updatedAt
  }

  /** ValidateRun. */
  predicate Valid(r: Run) {
    && r.revision > 0 && r.acceptedAt <= r.updatedAt && Within(r.startedAt, r) && Within(r.finishedAt, r)
    && (Terminal(r.status) <==> r.finishedAt.Some?)
    && (r.status == Stopping ==> r.termination.Some?)
    && (r.termination.Some? ==>
          && TerminationValid(r.termination.value) && (r.status == Stopping || Terminal(r.status))
          && (Terminal(r.status) ==> TerminalStatus(r.termination.value.kind) == Some(r.status))
          && r.revision == r.termination.value.requestedRevision + (if Terminal(r.status) then 2 else 1))
    && Invocation.FailureValid(r.failure, r.status == Failed) && CleanupValid(r.cleanup)
    && (r.status == Succeeded ==> r.kind == Some(CompletedKind) && r.result != "")
    && (r.status == Rejected ==> r.kind == Some(RejectedKind))
    && (Terminal(r.status) ==> r.kind.Some?)
  }

  // --------------------------------------------------------------- transitions

  /** `closed` and `closureRevision` are the ownership facts handed in with a final step. */
  datatype Command = Command(
    expected: nat, to: Status, termination: Option<Termination>, result: string, cleanup: seq<Failure>,
    closed: bool, closureRevision: nat, at: int)

  predicate Allowed(from: Status, to: Status) {
    match from
    case Accepted => to in {Queued, Running, Stopping, Rejected}
    case Queued => to in {Running, Stopping}
    case Running => to in {Waiting, Stopping, Succeeded}
    case Waiting => to in {Running, Stopping, Succeeded}
    case Stopping => to in {Failed, Canceled, Stopped}
    case _ => false
  }

  /** validateRunTransitionGuards. */
  predicate Guarded(r: Run, c: Command) {
    && (Terminal(c.to) ==> c.closed)
    && (!Terminal(c.to) ==> c.result == "")
    && (if c.to == Stopping then
          r.termination.None? && c.termination.Some? && RequiresStopping(c.termination.value.kind) && TerminationValid(c.termination.value)
        else
          && c.termination.None?
          && (r.status == Stopping ==> r.termination.Some? && TerminalStatus(r.termination.value.kind) == Some(c.to))
          && (c.to == Succeeded ==> c.result != ""))
  }

  /** The run after an accepted transition, before it is validated again. */
  function Moved(r: Run, c: Command): Run {
    var stopped := r.termination.Some? && RequiresStopping(r.termination.value.kind);
    r.(status := c.to, revision := r.revision + 1, updatedAt := c.at,
       startedAt := if r.startedAt.None? && c.to == Running then Some(c.at) else r.startedAt,
       termination := if c.to == Stopping then c.termination else r.termination,
       result := if c.to == Succeeded then c.result else r.result,
       kind := if Terminal(c.to) && stopped then Some(r.termination.value.kind)
               else if c.to == Succeeded then Some(CompletedKind)
               else if c.to == Rejected then Some(RejectedKind) else r.kind,
       failure := if Terminal(c.to) && stopped then r.termination.value.failure else r.failure,
       cleanup := if Terminal(c.to) then c.cleanup else r.cleanup,
       finishedAt := if Terminal(c.to) then Some(c.at) else r.finishedAt)
  }

  /** TransitionRun; None when it reports an error. */
  function Transition(r: Run, c: Command): Option<Run> {
    if !Valid(r) || c.expected != r.revision || c.at < r.updatedAt || !Allowed(r.status, c.to)
       || (Terminal(c.to) && c.closureRevision != r.revision) || !Guarded(r, c) || !Valid(Moved(r, c)) then None
    else Some(Moved(r, c))
  }

  /** AdmitRun. */
  function Admit(frozen: string, at: int): Run {
    Run(frozen, Accepted, 1, at, None, at, None, None, None, "", None, [])
  }

  function Plain(r: Run, to: Status, at: int): Command {
    Command(r.revision, to, None, "", [], false, 0, at)
  }

  function Stop(r: Run, t: Termination, at: int): Command {
    Command(r.revision, Stopping, Some(t), "", [], false, 0, at)
  }

  // -------------------------------------------------------------------- lemmas

  /** What a reachable run knows beyond its validator: only a stopped run has a
      failure, and it ended in one of the stopped states exactly when it was asked to. */
  predicate Kept(r: Run) {
    && Valid(r)
    && (r.termination.Some? <==> r.status in {Stopping, Failed, Canceled, Stopped})
    && (r.failure.Some? ==> Terminal(r.status) && r.termination.Some? && r.failure == r.termination.value.failure)
    && (!Terminal(r.status) ==> r.cleanup == [])
  }

  lemma AdmitKeeps(frozen: string, at: int)
    ensures Kept(Admit(frozen, at))
  {
  }

  lemma TransitionKeeps(r: Run, c: Command)
    requires Kept(r) && Transition(r, c).Some?
    ensures Kept(Transition(r, c).value) && Transition(r, c).value.revision == r.revision + 1
  {
  }

  /** The final validation refuses only two things that the guards let through: a
      termination requested at another revision, and ill-formed cleanup failures. */
  lemma TransitionSucceedsExactly(r: Run, c: Command)
    requires Kept(r)
    ensures Transition(r, c).Some? <==>
              && c.expected == r.revision && c.at >= r.updatedAt && Allowed(r.status, c.to)
              && (Terminal(c.to) ==> c.closureRevision == r.revision) && Guarded(r, c)
              && (c.to == Stopping ==> c.termination.value.requestedRevision == r.revision)
              && (Terminal(c.to) ==> CleanupValid(c.cleanup))
  {
  }

  function Play(r: Run, commands: seq<Command>): Run {
    if commands == [] then r
    else
      var before := Play(r, commands[..|commands| - 1]);
      var after := Transition(before, commands[|commands| - 1]);
      if after.Some? then after.value else before
  }

  /** From the request on, a run either still stops at the next revision or has
      ended at the one after, in the state its frozen intent asks for. */
  predicate FollowsRequest(r: Run, t: Termination) {
    && r.termination == Some(t)
    && (if r.status == Stopping then r.revision == t.requestedRevision + 1
        else Some(r.status) == TerminalStatus(t.kind) && r.revision == t.requestedRevision + 2)
  }

  lemma FollowsStep(r: Run, t: Termination, c: Command)
    requires Kept(r) && FollowsRequest(r, t) && Transition(r, c).Some?
    ensures r.status == Stopping && FollowsRequest(Transition(r, c).value, t)
  {
  }

  /** A termination intent is frozen: whatever is tried afterwards, the run ends as
      it was first asked to, one step after it began to stop. */
  lemma {:induction false} TerminationIsFrozen(r: Run, commands: seq<Command>)
    requires Kept(r) && r.status == Stopping
    ensures Kept(Play(r, commands)) && FollowsRequest(Play(r, commands), r.termination.value)
  {
    if commands != [] {
      var before, c := Play(r, commands[..|commands| - 1]), commands[|commands| - 1];
      TerminationIsFrozen(r, commands[..|commands| - 1]);
      hide Kept, Transition, FollowsRequest;
      if Transition(before, c).Some? {
        FollowsStep(before, r.termination.value, c);
        TransitionKeeps(before, c);
      }
    }
  }

  /** A terminal run never changes again. */
  lemma {:induction false} TerminalIsFinal(r: Run, commands: seq<Command>)
    requires Terminal(r.status)
    ensures Play(r, commands) == r
  {
    if commands != [] {
      TerminalIsFinal(r, commands[..|commands| - 1]);
      hide Valid, Guarded, Moved;
    }
  }

  /** A stopping run can end as it was asked to, once nothing it owns is open. */
  lemma StoppingEndsExactly(r: Run, cleanup: seq<Failure>, closed: bool, at: int)
    requires Kept(r) && r.status == Stopping && r.updatedAt <= at
    ensures TerminalStatus(r.termination.value.kind).Some?
    ensures var to := TerminalStatus(r.termination.value.kind).value;
            var ended := Transition(r, Command(r.revision, to, None, "", cleanup, closed, r.revision, at));
            && (ended.Some? <==> closed && CleanupValid(cleanup))
            && (ended.Some? ==> Terminal(ended.value.status))
  {
  }

  /** A run that has neither ended nor begun to stop can be asked to. */
  lemma OpenCanStop(r: Run, t: Termination)
    requires Kept(r) && !Terminal(r.status) && r.status != Stopping
    requires TerminationValid(t) && t.requestedRevision == r.revision
    ensures r.termination.None? && Transition(r, Stop(r, t, r.updatedAt)).Some?
  {
  }

  /** A waiting run can run again. */
  lemma WaitingCanRun(r: Run, at: int)
    requires Kept(r) && r.status == Waiting && r.updatedAt <= at
    ensures var next := Transition(r, Plain(r, Running, at)); next.Some? && next.value.status == Running
  {
  }
}
