/** The invocation ledger: one node's execution and compensation attempts, changed
    by reducers that copy the ledger. Frozen identities and digests are one field;
    attempt identities are the phase and ordinal they are derived from; a lease
    token stands for its hash. */
module Invocation {
  import opened Prelude

  datatype Status = Ready | Running | Waiting | RetryWait | Succeeded | Failed | Skipped | Canceled

  predicate Terminal(s: Status) {
    s in {Succeeded, Failed, Skipped, Canceled}
  }

  predicate Leased(s: Status) {
    s in {Running, Waiting}
  }

  datatype CompensationStatus = NotRequired | Unscheduled | Due | InProgress | RetryLater | Compensated | Broken | Abandoned

  datatype Phase = Execution | Compensation

  datatype AttemptStatus = AttemptRunning | AttemptWaiting | AttemptSucceeded | AttemptFailed | AttemptCanceled | AttemptAbandoned

  predicate Live(s: AttemptStatus) {
    s in {AttemptRunning, AttemptWaiting}
  }

  datatype AttemptId = AttemptId(phase: Phase, ordinal: nat)

  /** `wellFormed` is the outcome of validateFailure on a failure that is present. */
  datatype Failure = Failure(code: string, transient: bool, wellFormed: bool)

  datatype Attempt = Attempt(
    id: AttemptId, phase: Phase, ordinal: nat, status: AttemptStatus, owner: string, token: string,
    leaseExpiresAt: Option<int>, failure: Option<Failure>, createdAt: int, updatedAt: int, finishedAt: Option<int>, revision: nat)

  datatype Head = Head(
    frozen: string, status: Status, active: Option<AttemptId>, activeCompensation: Option<AttemptId>,
    executions: nat, waitGeneration: nat, waitRef: string, nextAt: Option<int>, output: Option<string>, failure: Option<Failure>,
    compensation: CompensationStatus, compensations: nat, compensationFailure: Option<Failure>, compensationNextAt: Option<int>,
    createdAt: int, startedAt: Option<int>, updatedAt: int, finishedAt: Option<int>, revision: nat)

  datatype Ledger = Ledger(head: Head, attempts: seq<Attempt>)

  // ---------------------------------------------------------------- validation

  predicate FailureValid(f: Option<Failure>, required: bool) {
    if f.None? then !required else f.value.wellFormed
  }

  function CountPhase(attempts: seq<Attempt>, phase: Phase): nat {
    if attempts == [] then 0
    else CountPhase(attempts[..|attempts| - 1], phase) + (if attempts[|attempts| - 1].phase == phase then 1 else 0)
  }

  /** validateAttempt. */
  predicate AttemptValid(a: Attempt) {
    && a.ordinal > 0 && a.revision > 0 && a.id == AttemptId(a.phase, a.ordinal)
    && a.createdAt <= a.updatedAt
    && (Live(a.status) <==> a.finishedAt.None?)
    && (if Live(a.status) then a.leaseExpiresAt.Some? && a.updatedAt < a.leaseExpiresAt.value else a.leaseExpiresAt.None?)
    && FailureValid(a.failure, a.status in {AttemptFailed, AttemptAbandoned})
  }

  /** validateInvocationCompensation. */
  predicate CompensationValid(h: Head) {
    if h.compensation == NotRequired then
      h.compensations == 0 && h.activeCompensation.None? && h.compensationFailure.None? && h.compensationNextAt.None?
    else
      && (h.compensation == Unscheduled || Terminal(h.status))
      && (if h.compensation == InProgress then
            h.activeCompensation.Some? && h.compensationFailure.None? && h.compensationNextAt.None?
          else
            && h.activeCompensation.None?
            && (match h.compensation
                case RetryLater => h.compensationNextAt.Some? && h.compensationFailure.Some? && h.compensationFailure.value.transient
                case Broken => h.compensationNextAt.None? && h.compensationFailure.Some?
                case _ => h.compensationNextAt.None? && h.compensationFailure.None?))
  }

  predicate HeadValid(h: Head) {
    && h.revision > 0 && h.createdAt <= h.updatedAt
    && (Terminal(h.status) <==> h.finishedAt.Some?)
    && (Leased(h.status) <==> h.active.Some?)
    && (h.status == RetryWait ==> h.nextAt.Some?)
    && (h.status == Waiting ==> h.waitRef != "" && h.waitGeneration > 0)
    && (h.status == Succeeded ==> h.output.Some?)
    && FailureValid(h.failure, h.status in {Failed, RetryWait})
    && (h.status !in {Failed, RetryWait} ==> h.failure.None?)
    && CompensationValid(h)
  }

  predicate OrdinalFits(attempts: seq<Attempt>, i: nat)
    requires i < |attempts|
  {
    attempts[i].ordinal == CountPhase(attempts[..i], attempts[i].phase) + 1
  }

  predicate PointsAt(attempts: seq<Attempt>, id: Option<AttemptId>, phase: Phase) {
    id.Some? ==> exists i :: 0 <= i < |attempts| && attempts[i].id == id.value && attempts[i].phase == phase && Live(attempts[i].status)
  }

  /** ValidateInvocationLedger. */
  predicate Valid(l: Ledger) {
    && HeadValid(l.head)
    && l.head.executions == CountPhase(l.attempts, Execution)
    && l.head.compensations == CountPhase(l.attempts, Compensation)
    && (forall i :: 0 <= i < |l.attempts| ==> AttemptValid(l.attempts[i]) && OrdinalFits(l.attempts, i))
    && PointsAt(l.attempts, l.head.active, Execution)
    && PointsAt(l.attempts, l.head.activeCompensation, Compensation)
  }

  function Checked(l: Ledger): Option<Ledger> {
    if Valid(l) then Some(l) else None
  }

  // ------------------------------------------------------------------ commands

  datatype Fence = Fence(revision: nat, id: AttemptId, attemptRevision: nat, token: string, at: int)

  datatype Command =
    | Claim(revision: nat, owner: string, token: string, leaseExpiresAt: int, at: int)
    | Transition(fence: Fence, to: Status, attemptTo: AttemptStatus, output: Option<string>, failure: Option<Failure>,
                 retryAt: Option<int>, waitRef: string, waitGeneration: nat)
    | ResolveWait(revision: nat, id: AttemptId, attemptRevision: nat, waitRef: string, waitGeneration: nat,
                  to: Status, output: Option<string>, failure: Option<Failure>, at: int)
    | Heartbeat(fence: Fence, owner: string, leaseExpiresAt: int)
    | Expire(revision: nat, id: AttemptId, attemptRevision: nat, retry: bool, expiry: Failure, at: int)
    | ResolveUnleased(revision: nat, to: Status, failure: Option<Failure>, at: int)
    | Cancel(revision: nat, at: int)
    | ScheduleCompensation(revision: nat, at: int)
    | ClaimCompensation(revision: nat, owner: string, token: string, leaseExpiresAt: int, at: int)
    | TransitionCompensation(fence: Fence, compensationTo: CompensationStatus, attemptTo: AttemptStatus,
                             failure: Option<Failure>, retryAt: Option<int>)

  /** The first attempt with an identity. */
  function Find(attempts: seq<Attempt>, id: AttemptId): (i: nat)
    ensures i <= |attempts| && (i < |attempts| ==> attempts[i].id == id)
    ensures forall j :: 0 <= j < i ==> attempts[j].id != id
  {
    if attempts == [] || attempts[0].id == id then 0 else 1 + Find(attempts[1..], id)
  }

  /** validateAttemptFenceAny: the attempt that the fence of a worker names, if it still holds its lease. */
  function Fenced(l: Ledger, f: Fence): (r: Option<nat>)
    ensures r.Some? ==> r.value < |l.attempts| && l.attempts[r.value].id == f.id
  {
    var i := Find(l.attempts, f.id);
    if f.revision != l.head.revision || f.at < l.head.updatedAt || i == |l.attempts| then None
    else
      var a := l.attempts[i];
      if a.revision == f.attemptRevision && a.token == f.token && a.leaseExpiresAt.Some? && f.at < a.leaseExpiresAt.value
         && (if a.phase == Compensation then l.head.activeCompensation else l.head.active) == Some(a.id)
      then Some(i) else None
  }

  predicate AttemptStep(from: AttemptStatus, to: AttemptStatus) {
    Live(from) && from != to
  }

  predicate InvocationStep(from: Status, to: Status) {
    match from
    case Ready => to in {Running, Skipped, Canceled}
    case Running => to in {Waiting, RetryWait, Succeeded, Failed, Canceled}
    case Waiting => to in {Running, RetryWait, Succeeded, Failed, Canceled}
    case RetryWait => to in {Running, Failed, Canceled}
    case _ => false
  }

  /** validateAlignedTransition. */
  predicate Aligned(c: Command)
    requires c.Transition?
  {
    && (match c.to
        case Waiting => c.attemptTo == AttemptWaiting && c.waitRef != "" && c.waitGeneration > 0
        case Running => c.attemptTo == AttemptRunning
        case Succeeded => c.attemptTo == AttemptSucceeded && c.output.Some? && c.failure.None?
        case RetryWait => c.attemptTo == AttemptFailed && c.retryAt.Some? && c.retryAt.value > c.fence.at && FailureValid(c.failure, true)
        case Failed => c.attemptTo in {AttemptFailed, AttemptAbandoned} && FailureValid(c.failure, true)
        case Canceled => c.attemptTo in {AttemptCanceled, AttemptAbandoned}
        case _ => false)
    && (c.to != Waiting ==> c.waitRef == "" && c.waitGeneration == 0)
    && (c.to != RetryWait ==> c.retryAt.None?)
  }

  function NewAttempt(phase: Phase, ordinal: nat, owner: string, token: string, leaseExpiresAt: int, at: int): Attempt {
    Attempt(AttemptId(phase, ordinal), phase, ordinal, AttemptRunning, owner, token, Some(leaseExpiresAt), None, at, at, None, 1)
  }

  /** An attempt that ends: its lease goes and the end is recorded. */
  function Ended(a: Attempt, status: AttemptStatus, failure: Option<Failure>, at: int): Attempt {
    a.(status := status, failure := failure, leaseExpiresAt := None, updatedAt := at, finishedAt := Some(at), revision := a.revision + 1)
  }

  function Touched(h: Head, at: int): Head {
    h.(updatedAt := at, revision := h.revision + 1)
  }

  function ClaimLedger(l: Ledger, c: Command): Option<Ledger>
    requires c.Claim?
  {
    var h := l.head;
    if c.revision != h.revision || c.at < h.updatedAt || c.leaseExpiresAt <= c.at then None
    else if h.status !in {Ready, RetryWait} || (h.status == RetryWait && (h.nextAt.None? || c.at < h.nextAt.value)) then None
    else
      var ordinal := h.executions + 1;
      Checked(Ledger(
        Touched(h, c.at).(status := Running, active := Some(AttemptId(Execution, ordinal)), executions := ordinal,
                          nextAt := None, failure := None, startedAt := if h.startedAt.None? then Some(c.at) else h.startedAt),
        l.attempts + [NewAttempt(Execution, ordinal, c.owner, c.token, c.leaseExpiresAt, c.at)]))
  }

  function TransitionLedger(l: Ledger, c: Command): Option<Ledger>
    requires c.Transition?
  {
    var index := Fenced(l, c.fence);
    if index.None? || l.attempts[index.value].phase != Execution then None
    else
      var h, a := l.head, l.attempts[index.value];
      if !InvocationStep(h.status, c.to) || !AttemptStep(a.status, c.attemptTo) || !Aligned(c) then None
      else
        var at := c.fence.at;
        var moved := a.(status := c.attemptTo, failure := c.failure, updatedAt := at, revision := a.revision + 1);
        var attempt := if Live(c.attemptTo) then moved else moved.(finishedAt := Some(at), leaseExpiresAt := None);
        var head := Touched(h, at).(
          status := c.to,
          waitRef := if c.to == Waiting then c.waitRef else "",
          waitGeneration := if c.to == Waiting then c.waitGeneration else 0,
          nextAt := if c.to == RetryWait then c.retryAt else None,
          active := if c.to == RetryWait || Terminal(c.to) then None else h.active,
          output := if c.to == Succeeded then c.output else h.output,
          failure := if c.to in {Failed, RetryWait} then c.failure else h.failure,
          finishedAt := if Terminal(c.to) then Some(at) else h.finishedAt);
        Checked(Ledger(head, l.attempts[index.value := attempt]))
  }

  function WaitOutcome(to: Status): AttemptStatus {
    if to == Succeeded then AttemptSucceeded else if to == Failed then AttemptFailed else AttemptCanceled
  }

  function ResolveWaitLedger(l: Ledger, c: Command): Option<Ledger>
    requires c.ResolveWait?
  {
    var h, i := l.head, Find(l.attempts, c.id);
    if c.revision != h.revision || h.status != Waiting || c.waitRef != h.waitRef || c.waitGeneration != h.waitGeneration
       || c.waitGeneration == 0 || c.at < h.updatedAt || i == |l.attempts| then None
    else
      var a := l.attempts[i];
      if Some(a.id) != h.active || a.phase != Execution || a.status != AttemptWaiting || a.revision != c.attemptRevision then None
      else if c.to !in {Succeeded, Failed, Canceled}
              || (c.to == Succeeded && (c.output.None? || c.failure.Some?))
              || (c.to == Failed && (!FailureValid(c.failure, true) || c.output.Some?))
              || (c.to == Canceled && (c.failure.Some? || c.output.Some?)) then None
      else
        Checked(Ledger(
          Touched(h, c.at).(status := c.to, active := None, waitRef := "", waitGeneration := 0, output := c.output,
                            failure := c.failure, finishedAt := Some(c.at)),
          l.attempts[i := Ended(a, WaitOutcome(c.to), c.failure, c.at)]))
  }

  /** HeartbeatAttempt, which skips the final check. */
  function HeartbeatLedger(l: Ledger, c: Command): Option<Ledger>
    requires c.Heartbeat?
  {
    var index := Fenced(l, c.fence);
    if index.None? then None
    else
      var a := l.attempts[index.value];
      if !Live(a.status) || c.owner != a.owner || a.leaseExpiresAt.None? || c.leaseExpiresAt <= a.leaseExpiresAt.value then None
      else
        Some(Ledger(Touched(l.head, c.fence.at),
                    l.attempts[index.value := a.(leaseExpiresAt := Some(c.leaseExpiresAt), updatedAt := c.fence.at, revision := a.revision + 1)]))
  }

  function ExpireLedger(l: Ledger, c: Command): Option<Ledger>
    requires c.Expire?
  {
    var h, i := l.head, Find(l.attempts, c.id);
    if c.revision != h.revision || !Leased(h.status) || Some(c.id) != h.active || c.at < h.updatedAt
       || !c.expiry.wellFormed || i == |l.attempts| then None
    else
      var a := l.attempts[i];
      if a.phase != Execution || a.revision != c.attemptRevision || !Live(a.status)
         || (a.leaseExpiresAt.Some? && c.at < a.leaseExpiresAt.value) then None
      else
        var head := Touched(h, c.at).(active := None, waitRef := "", waitGeneration := 0);
        Checked(Ledger(
          if c.retry then head.(status := Ready)
          else head.(status := Failed, failure := Some(c.expiry), finishedAt := Some(c.at)),
          l.attempts[i := Ended(a, AttemptAbandoned, Some(c.expiry), c.at)]))
  }

  function ResolveUnleasedLedger(l: Ledger, c: Command): Option<Ledger>
    requires c.ResolveUnleased?
  {
    var h := l.head;
    var allowed := (h.status == Ready && c.to in {Skipped, Canceled}) || (h.status == RetryWait && c.to in {Failed, Canceled});
    if c.revision != h.revision || c.at < h.updatedAt || !allowed || !FailureValid(c.failure, c.to == Failed)
       || (c.to != Failed && c.failure.Some?) then None
    else
      Checked(Ledger(
        Touched(h, c.at).(status := c.to, active := None, nextAt := None, failure := c.failure, finishedAt := Some(c.at),
                          compensation := if c.to == Skipped && h.compensation == Unscheduled then NotRequired else h.compensation),
        l.attempts))
  }

  function CanceledHead(h: Head, at: int): Head {
    Touched(h, at).(
      status := Canceled, active := None, waitRef := "", waitGeneration := 0, nextAt := None, failure := None,
      compensation := if h.compensation == Unscheduled then Abandoned else h.compensation, finishedAt := Some(at))
  }

  function CancelLedger(l: Ledger, c: Command): Option<Ledger>
    requires c.Cancel?
  {
    var h := l.head;
    if c.revision != h.revision || Terminal(h.status) || c.at < h.updatedAt then None
    else
      var head := CanceledHead(h, c.at);
      if h.active.None? then Checked(Ledger(head, l.attempts))
      else
        var i := Find(l.attempts, h.active.value);
        if i == |l.attempts| || !Live(l.attempts[i].status) then None
        else
          var a := l.attempts[i];
          Checked(Ledger(head, l.attempts[i := Ended(a, AttemptCanceled, a.failure, c.at)]))
  }

  /** ScheduleInvocationCompensation, which skips the final check. */
  function ScheduleLedger(l: Ledger, c: Command): Option<Ledger>
    requires c.ScheduleCompensation?
  {
    var h := l.head;
    if c.revision != h.revision || !Terminal(h.status) || h.status == Skipped || h.compensation != Unscheduled || c.at < h.updatedAt then None
    else Some(Ledger(Touched(h, c.at).(compensation := Due), l.attempts))
  }

  function ClaimCompensationLedger(l: Ledger, c: Command): Option<Ledger>
    requires c.ClaimCompensation?
  {
    var h := l.head;
    if c.revision != h.revision || h.compensation !in {Due, RetryLater}
       || (h.compensation == RetryLater && (h.compensationNextAt.None? || c.at < h.compensationNextAt.value))
       || c.at < h.updatedAt || c.leaseExpiresAt <= c.at then None
    else
      var ordinal := h.compensations + 1;
      Checked(Ledger(
        Touched(h, c.at).(compensation := InProgress, activeCompensation := Some(AttemptId(Compensation, ordinal)),
                          compensations := ordinal, compensationFailure := None, compensationNextAt := None),
        l.attempts + [NewAttempt(Compensation, ordinal, c.owner, c.token, c.leaseExpiresAt, c.at)]))
  }

  /** validateInvocationCompensationTransition. */
  predicate CompensationAligned(c: Command)
    requires c.TransitionCompensation?
  {
    match c.compensationTo
    case Compensated => c.attemptTo == AttemptSucceeded && c.failure.None? && c.retryAt.None?
    case RetryLater =>
      && c.attemptTo == AttemptFailed && c.retryAt.Some? && c.retryAt.value > c.fence.at
      && FailureValid(c.failure, true) && c.failure.value.transient
    case Broken => c.attemptTo in {AttemptFailed, AttemptAbandoned} && FailureValid(c.failure, true) && c.retryAt.None?
    case Abandoned => c.attemptTo in {AttemptCanceled, AttemptAbandoned} && c.failure.None? && c.retryAt.None?
    case _ => false
  }

  function TransitionCompensationLedger(l: Ledger, c: Command): Option<Ledger>
    requires c.TransitionCompensation?
  {
    var index := Fenced(l, c.fence);
    if index.None? || l.attempts[index.value].phase != Compensation then None
    else
      var h, a := l.head, l.attempts[index.value];
      if h.compensation != InProgress || !AttemptStep(a.status, c.attemptTo) || !CompensationAligned(c) then None
      else
        Checked(Ledger(
          Touched(h, c.fence.at).(compensation := c.compensationTo, activeCompensation := None,
                                  compensationFailure := c.failure, compensationNextAt := c.retryAt),
          l.attempts[index.value := Ended(a, c.attemptTo, c.failure, c.fence.at)]))
  }

  /** One reducer call; None when it reports an error. */
  function Apply(l: Ledger, c: Command): Option<Ledger> {
    if !Valid(l) then None
    else
      match c
      case Claim(_, _, _, _, _) => ClaimLedger(l, c)
      case Transition(_, _, _, _, _, _, _, _) => TransitionLedger(l, c)
      case ResolveWait(_, _, _, _, _, _, _, _, _) => ResolveWaitLedger(l, c)
      case Heartbeat(_, _, _) => HeartbeatLedger(l, c)
      case Expire(_, _, _, _, _, _) => ExpireLedger(l, c)
      case ResolveUnleased(_, _, _, _) => ResolveUnleasedLedger(l, c)
      case Cancel(_, _) => CancelLedger(l, c)
      case ScheduleCompensation(_, _) => ScheduleLedger(l, c)
      case ClaimCompensation(_, _, _, _, _) => ClaimCompensationLedger(l, c)
      case TransitionCompensation(_, _, _, _, _) => TransitionCompensationLedger(l, c)
  }

  /** ActivateInvocation. */
  function Activate(frozen: string, compensatable: bool, at: int): Ledger {
    Ledger(Head(frozen, Ready, None, None, 0, 0, "", None, None, None,
                if compensatable then Unscheduled else NotRequired, 0, None, None, at, None, at, None, 1), [])
  }

  function Run(l: Ledger, commands: seq<Command>): Ledger {
    if commands == [] then l
    else
      var before := Run(l, commands[..|commands| - 1]);
      var after := Apply(before, commands[|commands| - 1]);
      if after.Some? then after.value else before
  }

  // ------------------------------------------------------------- the invariant

  /** A live attempt is the one an active pointer names. */
  predicate LiveIsPointed(l: Ledger, i: nat)
    requires i < |l.attempts|
  {
    Live(l.attempts[i].status) ==>
      Some(l.attempts[i].id) == (if l.attempts[i].phase == Execution then l.head.active else l.head.activeCompensation)
  }

  /** What the validator does not check: no live attempt without a pointer, and no
      attempt touched after the invocation was. */
  predicate Kept(l: Ledger) {
    && Valid(l)
    && forall i :: 0 <= i < |l.attempts| ==> LiveIsPointed(l, i) && l.attempts[i].updatedAt <= l.head.updatedAt
  }

  /** How a step may change a ledger. */
  predicate Steps(before: Ledger, after: Ledger) {
    && after.head.revision == before.head.revision + 1
    && after.head.frozen == before.head.frozen && after.head.createdAt == before.head.createdAt
    && before.head.updatedAt <= after.head.updatedAt
    && |before.attempts| <= |after.attempts| <= |before.attempts| + 1
    && forall i :: 0 <= i < |before.attempts| ==> AttemptEvolves(before.attempts[i], after.attempts[i])
  }

  /** A terminal attempt never changes; a live one keeps who and what it is. */
  predicate AttemptEvolves(before: Attempt, after: Attempt) {
    && (!Live(before.status) ==> after == before)
    && after.id == before.id && after.phase == before.phase && after.ordinal == before.ordinal
    && after.owner == before.owner && after.token == before.token && after.createdAt == before.createdAt
    && (after == before || after.revision == before.revision + 1)
  }

  // ----------------------------------------------------- attempts are identified

  lemma {:induction false} CountPhaseAppends(attempts: seq<Attempt>, a: Attempt, phase: Phase)
    ensures CountPhase(attempts + [a], phase) == CountPhase(attempts, phase) + (if a.phase == phase then 1 else 0)
  {
    assert (attempts + [a])[..|attempts|] == attempts;
  }

  lemma {:induction false} CountPhaseMonotone(attempts: seq<Attempt>, i: nat, phase: Phase)
    requires i <= |attempts|
    ensures CountPhase(attempts[..i], phase) <= CountPhase(attempts, phase)
  {
    if i == |attempts| {
      assert attempts[..i] == attempts;
    } else {
      CountPhaseMonotone(attempts[..|attempts| - 1], i, phase);
      assert attempts[..|attempts| - 1][..i] == attempts[..i];
    }
  }

  lemma {:induction false} CountPhaseUpdate(attempts: seq<Attempt>, i: nat, a: Attempt, phase: Phase)
    requires i < |attempts| && a.phase == attempts[i].phase
    ensures CountPhase(attempts[i := a], phase) == CountPhase(attempts, phase)
  {
    var front := attempts[..|attempts| - 1];
    if i == |attempts| - 1 {
      assert attempts[i := a][..|attempts| - 1] == front;
    } else {
      assert attempts[i := a][..|attempts| - 1] == front[i := a];
      CountPhaseUpdate(front, i, a, phase);
    }
  }

  /** Contiguous ordinals make attempt identities distinct. */
  lemma DistinctAttempts(l: Ledger, i: nat, j: nat)
    requires Valid(l) && i < j < |l.attempts|
    ensures l.attempts[i].id != l.attempts[j].id
  {
    assert AttemptValid(l.attempts[i]) && AttemptValid(l.attempts[j]) && OrdinalFits(l.attempts, i) && OrdinalFits(l.attempts, j);
    hide Valid, CountPhase, OrdinalFits;
    if l.attempts[i].phase == l.attempts[j].phase { LaterOrdinal(l.attempts, i, j); }
  }

  lemma LaterOrdinal(attempts: seq<Attempt>, i: nat, j: nat)
    requires i < j < |attempts| && attempts[i].phase == attempts[j].phase && OrdinalFits(attempts, i) && OrdinalFits(attempts, j)
    ensures attempts[i].ordinal < attempts[j].ordinal
  {
    hide CountPhase;
    var phase := attempts[i].phase;
    assert attempts[..i + 1] == attempts[..i] + [attempts[i]];
    CountPhaseAppends(attempts[..i], attempts[i], phase);
    assert attempts[..j][..i + 1] == attempts[..i + 1];
    CountPhaseMonotone(attempts[..j], i + 1, phase);
  }

  /** Only one attempt is live, and no pointer is left over. */
  lemma AtMostOneLive(l: Ledger, i: nat, j: nat)
    requires Kept(l) && i < |l.attempts| && j < |l.attempts| && Live(l.attempts[i].status) && Live(l.attempts[j].status)
    ensures i == j
  {
    assert LiveIsPointed(l, i) && LiveIsPointed(l, j);
    if i < j { DistinctAttempts(l, i, j); }
    if j < i { DistinctAttempts(l, j, i); }
  }

  // ------------------------------------------------------ three shapes of steps

  lemma UpdateKeeps(l: Ledger, head: Head, i: nat, a: Attempt)
    requires Kept(l) && i < |l.attempts| && Live(l.attempts[i].status)
    requires Valid(Ledger(head, l.attempts[i := a])) && AttemptEvolves(l.attempts[i], a)
    requires l.head.updatedAt <= head.updatedAt && a.updatedAt <= head.updatedAt
    requires Live(a.status) ==> Some(a.id) == (if a.phase == Execution then head.active else head.activeCompensation)
    ensures Kept(Ledger(head, l.attempts[i := a]))
    ensures forall j :: 0 <= j < |l.attempts| ==> AttemptEvolves(l.attempts[j], l.attempts[i := a][j])
  {
    var after := Ledger(head, l.attempts[i := a]);
    hide Valid;
    forall j | 0 <= j < |after.attempts| ensures LiveIsPointed(after, j) && after.attempts[j].updatedAt <= head.updatedAt {
      assert l.attempts[j].updatedAt <= l.head.updatedAt;
      if j != i && Live(l.attempts[j].status) { AtMostOneLive(l, i, j); }
    }
  }

  lemma AppendKeeps(l: Ledger, head: Head, a: Attempt)
    requires Kept(l) && Valid(Ledger(head, l.attempts + [a]))
    requires l.head.active.None? && l.head.activeCompensation.None?
    requires l.head.updatedAt <= head.updatedAt && a.updatedAt <= head.updatedAt
    requires Some(a.id) == (if a.phase == Execution then head.active else head.activeCompensation)
    ensures Kept(Ledger(head, l.attempts + [a]))
  {
    var after := Ledger(head, l.attempts + [a]);
    hide Valid;
    forall j | 0 <= j < |after.attempts| ensures LiveIsPointed(after, j) && after.attempts[j].updatedAt <= head.updatedAt {
      if j < |l.attempts| { assert LiveIsPointed(l, j) && l.attempts[j].updatedAt <= l.head.updatedAt; }
    }
  }

  lemma HeadKeeps(l: Ledger, head: Head)
    requires Kept(l) && Valid(Ledger(head, l.attempts)) && l.head.updatedAt <= head.updatedAt
    requires head.active == l.head.active && head.activeCompensation == l.head.activeCompensation
    ensures Kept(Ledger(head, l.attempts))
  {
    var after := Ledger(head, l.attempts);
    hide Valid;
    forall j | 0 <= j < |l.attempts| ensures LiveIsPointed(after, j) && l.attempts[j].updatedAt <= head.updatedAt {
      assert LiveIsPointed(l, j);
    }
  }

  /** The fence of a worker that still holds its lease names a live, pointed attempt. */
  lemma FencedIsLive(l: Ledger, f: Fence)
    requires Valid(l) && Fenced(l, f).Some?
    ensures var a := l.attempts[Fenced(l, f).value];
            && Live(a.status) && l.head.updatedAt <= f.at && AttemptValid(a)
            && Some(a.id) == (if a.phase == Execution then l.head.active else l.head.activeCompensation)
  {
    assert AttemptValid(l.attempts[Fenced(l, f).value]);
  }

  /** With an execution attempt active there is no compensation, and the other way round. */
  lemma PointersExclude(h: Head)
    requires HeadValid(h)
    ensures h.active.Some? ==> h.activeCompensation.None?
    ensures h.status in {Ready, RetryWait} ==> h.active.None? && h.activeCompensation.None?
    ensures h.compensation in {Due, RetryLater} ==> h.active.None? && h.activeCompensation.None?
    ensures Terminal(h.status) ==> h.active.None?
  {
  }

  lemma ValidHead(l: Ledger)
    requires Valid(l)
    ensures HeadValid(l.head)
  {
  }

  // ------------------------------------------------------- each reducer, in turn

  /** One new attempt, which a pointer names. */
  predicate Grows(l: Ledger, next: Ledger) {
    && |next.attempts| == |l.attempts| + 1 && next.attempts == l.attempts + [next.attempts[|l.attempts|]]
    && next.head.revision == l.head.revision + 1 && next.head.frozen == l.head.frozen && next.head.createdAt == l.head.createdAt
    && l.head.updatedAt <= next.head.updatedAt
    && var a := next.attempts[|l.attempts|];
       && a.updatedAt <= next.head.updatedAt
       && Some(a.id) == (if a.phase == Execution then next.head.active else next.head.activeCompensation)
  }

  lemma GrowthKeeps(l: Ledger, next: Ledger)
    requires Kept(l) && Valid(next) && Grows(l, next) && l.head.active.None? && l.head.activeCompensation.None?
    ensures Kept(next) && Steps(l, next)
  {
    hide Valid, Kept;
    assert next == Ledger(next.head, l.attempts + [next.attempts[|l.attempts|]]);
    AppendKeeps(l, next.head, next.attempts[|l.attempts|]);
  }

  lemma ClaimGrows(l: Ledger, c: Command)
    requires (c.Claim? && ClaimLedger(l, c).Some?) || (c.ClaimCompensation? && ClaimCompensationLedger(l, c).Some?)
    ensures var next := if c.Claim? then ClaimLedger(l, c).value else ClaimCompensationLedger(l, c).value;
            Valid(next) && Grows(l, next)
    ensures if c.Claim? then l.head.status in {Ready, RetryWait} else l.head.compensation in {Due, RetryLater}
  {
    hide Valid;
  }

  lemma ClaimKeeps(l: Ledger, c: Command)
    requires Kept(l) && c.Claim? && ClaimLedger(l, c).Some?
    ensures Kept(ClaimLedger(l, c).value) && Steps(l, ClaimLedger(l, c).value)
  {
    KeptIsValid(l);
    hide *;
    ValidHead(l);
    ClaimGrows(l, c);
    PointersExclude(l.head);
    GrowthKeeps(l, ClaimLedger(l, c).value);
  }

  lemma ClaimCompensationKeeps(l: Ledger, c: Command)
    requires Kept(l) && c.ClaimCompensation? && ClaimCompensationLedger(l, c).Some?
    ensures Kept(ClaimCompensationLedger(l, c).value) && Steps(l, ClaimCompensationLedger(l, c).value)
  {
    KeptIsValid(l);
    hide *;
    ValidHead(l);
    ClaimGrows(l, c);
    PointersExclude(l.head);
    GrowthKeeps(l, ClaimCompensationLedger(l, c).value);
  }

  lemma KeptIsValid(l: Ledger)
    requires Kept(l)
    ensures Valid(l)
  {
    hide Valid;
  }

  /** One live attempt is written, together with the head. */
  predicate Writes(l: Ledger, next: Ledger, i: nat) {
    && i < |l.attempts| == |next.attempts| && next.attempts == l.attempts[i := next.attempts[i]]
    && next.head.revision == l.head.revision + 1 && next.head.frozen == l.head.frozen && next.head.createdAt == l.head.createdAt
    && l.head.updatedAt <= next.head.updatedAt && next.attempts[i].updatedAt <= next.head.updatedAt
    && AttemptEvolves(l.attempts[i], next.attempts[i])
    && (Live(next.attempts[i].status) ==>
          Some(l.attempts[i].id) == (if l.attempts[i].phase == Execution then next.head.active else next.head.activeCompensation))
  }

  lemma WritesKeep(l: Ledger, next: Ledger, i: nat)
    requires Kept(l) && Valid(next) && Writes(l, next, i) && Live(l.attempts[i].status)
    ensures Kept(next) && Steps(l, next)
  {
    hide Valid, Kept;
    assert next == Ledger(next.head, l.attempts[i := next.attempts[i]]);
    UpdateKeeps(l, next.head, i, next.attempts[i]);
  }

  lemma TransitionWrites(l: Ledger, c: Command)
    requires c.Transition? && TransitionLedger(l, c).Some?
    requires l.head.updatedAt <= c.fence.at
    requires var a := l.attempts[Fenced(l, c.fence).value];
             Live(a.status) && Some(a.id) == (if a.phase == Execution then l.head.active else l.head.activeCompensation)
    ensures Valid(TransitionLedger(l, c).value) && Writes(l, TransitionLedger(l, c).value, Fenced(l, c.fence).value)
  {
    hide Valid, Fenced, InvocationStep;
  }

  lemma TransitionKeeps(l: Ledger, c: Command)
    requires Kept(l) && c.Transition? && TransitionLedger(l, c).Some?
    ensures Kept(TransitionLedger(l, c).value) && Steps(l, TransitionLedger(l, c).value)
  {
    TransitionStarts(l, c);
    hide *;
    FencedIsLive(l, c.fence);
    TransitionWrites(l, c);
    WritesKeep(l, TransitionLedger(l, c).value, Fenced(l, c.fence).value);
  }

  lemma TransitionStarts(l: Ledger, c: Command)
    requires Kept(l)
    requires (c.Transition? && TransitionLedger(l, c).Some?) || (c.TransitionCompensation? && TransitionCompensationLedger(l, c).Some?)
    ensures Valid(l) && Fenced(l, c.fence).Some?
  {
    hide Valid, Fenced;
  }

  lemma TransitionCompensationWrites(l: Ledger, c: Command)
    requires c.TransitionCompensation? && TransitionCompensationLedger(l, c).Some?
    requires l.head.updatedAt <= c.fence.at
    requires var a := l.attempts[Fenced(l, c.fence).value];
             Live(a.status) && Some(a.id) == (if a.phase == Execution then l.head.active else l.head.activeCompensation)
    ensures Valid(TransitionCompensationLedger(l, c).value)
    ensures Writes(l, TransitionCompensationLedger(l, c).value, Fenced(l, c.fence).value)
  {
    hide Valid, Fenced;
  }

  lemma TransitionCompensationKeeps(l: Ledger, c: Command)
    requires Kept(l) && c.TransitionCompensation? && TransitionCompensationLedger(l, c).Some?
    ensures Kept(TransitionCompensationLedger(l, c).value) && Steps(l, TransitionCompensationLedger(l, c).value)
  {
    TransitionStarts(l, c);
    hide *;
    FencedIsLive(l, c.fence);
    TransitionCompensationWrites(l, c);
    WritesKeep(l, TransitionCompensationLedger(l, c).value, Fenced(l, c.fence).value);
  }

  lemma ResolveWaitKeeps(l: Ledger, c: Command)
    requires Kept(l) && c.ResolveWait? && ResolveWaitLedger(l, c).Some?
    ensures Kept(ResolveWaitLedger(l, c).value) && Steps(l, ResolveWaitLedger(l, c).value)
  {
    var i := Find(l.attempts, c.id);
    hide Valid, Kept, Find;
    var next := ResolveWaitLedger(l, c).value;
    UpdateKeeps(l, next.head, i, next.attempts[i]);
  }

  lemma ExpireKeeps(l: Ledger, c: Command)
    requires Kept(l) && c.Expire? && ExpireLedger(l, c).Some?
    ensures Kept(ExpireLedger(l, c).value) && Steps(l, ExpireLedger(l, c).value)
  {
    var i := Find(l.attempts, c.id);
    hide Valid, Kept, Find;
    var next := ExpireLedger(l, c).value;
    UpdateKeeps(l, next.head, i, next.attempts[i]);
  }

  lemma CancelKeeps(l: Ledger, c: Command)
    requires Kept(l) && c.Cancel? && CancelLedger(l, c).Some?
    ensures Kept(CancelLedger(l, c).value) && Steps(l, CancelLedger(l, c).value)
  {
    hide Valid, Kept, Find;
    var next := CancelLedger(l, c).value;
    if l.head.active.None? {
      HeadKeeps(l, next.head);
    } else {
      var i := Find(l.attempts, l.head.active.value);
      UpdateKeeps(l, next.head, i, next.attempts[i]);
    }
  }

  lemma ResolveUnleasedKeeps(l: Ledger, c: Command)
    requires Kept(l) && c.ResolveUnleased? && ResolveUnleasedLedger(l, c).Some?
    ensures Kept(ResolveUnleasedLedger(l, c).value) && Steps(l, ResolveUnleasedLedger(l, c).value)
  {
    ValidHead(l);
    PointersExclude(l.head);
    hide Valid, Kept;
    HeadKeeps(l, ResolveUnleasedLedger(l, c).value.head);
  }

  /** ScheduleInvocationCompensation yields a valid ledger although it never checks it. */
  lemma ScheduleKeepsValid(l: Ledger, c: Command)
    requires Valid(l) && c.ScheduleCompensation? && ScheduleLedger(l, c).Some?
    ensures Valid(ScheduleLedger(l, c).value)
  {
    var next := ScheduleLedger(l, c).value;
    assert HeadValid(next.head);
    forall i | 0 <= i < |next.attempts| ensures AttemptValid(next.attempts[i]) && OrdinalFits(next.attempts, i) {
      assert OrdinalFits(l.attempts, i);
    }
    hide HeadValid, OrdinalFits;
  }

  lemma ScheduleKeeps(l: Ledger, c: Command)
    requires Kept(l) && c.ScheduleCompensation? && ScheduleLedger(l, c).Some?
    ensures Kept(ScheduleLedger(l, c).value) && Steps(l, ScheduleLedger(l, c).value)
  {
    ScheduleKeepsValid(l, c);
    hide Valid, Kept;
    HeadKeeps(l, ScheduleLedger(l, c).value.head);
  }

  lemma OrdinalsSurviveUpdate(attempts: seq<Attempt>, i: nat, a: Attempt, j: nat)
    requires i < |attempts| && j < |attempts| && a.phase == attempts[i].phase && a.ordinal == attempts[i].ordinal
    requires OrdinalFits(attempts, j)
    ensures OrdinalFits(attempts[i := a], j)
  {
    if i < j {
      assert attempts[i := a][..j] == attempts[..j][i := a];
      CountPhaseUpdate(attempts[..j], i, a, attempts[j].phase);
    } else {
      assert attempts[i := a][..j] == attempts[..j];
    }
  }

  lemma PointerSurvivesUpdate(attempts: seq<Attempt>, i: nat, a: Attempt, id: Option<AttemptId>, phase: Phase)
    requires i < |attempts| && a.id == attempts[i].id && a.phase == attempts[i].phase && Live(a.status) && PointsAt(attempts, id, phase)
    ensures PointsAt(attempts[i := a], id, phase)
  {
    if id.Some? {
      var j :| 0 <= j < |attempts| && attempts[j].id == id.value && attempts[j].phase == phase && Live(attempts[j].status);
      assert attempts[i := a][j].id == id.value;
    }
  }

  /** Replacing an attempt by one with the same identity keeps a ledger valid while
      the pointers do not dangle. */
  lemma UpdateIsValid(l: Ledger, head: Head, i: nat, a: Attempt)
    requires Valid(l) && i < |l.attempts| && HeadValid(head) && AttemptValid(a)
    requires a.id == l.attempts[i].id && a.phase == l.attempts[i].phase && a.ordinal == l.attempts[i].ordinal
    requires head.executions == l.head.executions && head.compensations == l.head.compensations
    requires PointsAt(l.attempts[i := a], head.active, Execution)
    requires PointsAt(l.attempts[i := a], head.activeCompensation, Compensation)
    ensures Valid(Ledger(head, l.attempts[i := a]))
  {
    var attempts := l.attempts[i := a];
    CountPhaseUpdate(l.attempts, i, a, Execution);
    CountPhaseUpdate(l.attempts, i, a, Compensation);
    hide HeadValid, PointsAt, CountPhase, AttemptValid, OrdinalFits;
    forall j | 0 <= j < |attempts| ensures AttemptValid(attempts[j]) && OrdinalFits(attempts, j) {
      OrdinalsSurviveUpdate(l.attempts, i, a, j);
      assert AttemptValid(l.attempts[j]);
    }
  }

  lemma LiveUpdateIsValid(l: Ledger, head: Head, i: nat, a: Attempt)
    requires Valid(l) && i < |l.attempts| && HeadValid(head) && AttemptValid(a) && Live(a.status)
    requires a.id == l.attempts[i].id && a.phase == l.attempts[i].phase && a.ordinal == l.attempts[i].ordinal
    requires head.executions == l.head.executions && head.compensations == l.head.compensations
    requires head.active == l.head.active && head.activeCompensation == l.head.activeCompensation
    ensures Valid(Ledger(head, l.attempts[i := a]))
  {
    PointerSurvivesUpdate(l.attempts, i, a, l.head.active, Execution);
    PointerSurvivesUpdate(l.attempts, i, a, l.head.activeCompensation, Compensation);
    UpdateIsValid(l, head, i, a);
  }

  /** An open invocation can always be canceled. */
  lemma CancelSucceeds(l: Ledger, at: int)
    requires Kept(l) && !Terminal(l.head.status) && l.head.updatedAt <= at
    ensures Apply(l, Cancel(l.head.revision, at)).Some?
  {
    KeptIsValid(l);
    hide Valid, Kept;
    ValidHead(l);
    CanceledHeadIsValid(l.head, at);
    if l.head.active.None? {
      HeadIsValid(l, CanceledHead(l.head, at));
    } else {
      var i := ActiveIsLive(l);
      EndedIsValid(l, i, at);
      assert Ended(l.attempts[i], AttemptCanceled, l.attempts[i].failure, at).id == l.attempts[i].id;
      hide Find;
      UpdateIsValid(l, CanceledHead(l.head, at), i, Ended(l.attempts[i], AttemptCanceled, l.attempts[i].failure, at));
    }
  }

  lemma CanceledHeadIsValid(h: Head, at: int)
    requires HeadValid(h) && !Terminal(h.status) && h.updatedAt <= at
    ensures HeadValid(CanceledHead(h, at)) && h.activeCompensation.None?
  {
  }

  /** The wait that an invocation is in can always be resolved by a success. */
  lemma ResolveSucceeds(l: Ledger, i: nat, output: string, at: int)
    requires Kept(l) && l.head.status == Waiting && l.head.updatedAt <= at && l.head.active.Some?
    requires i == Find(l.attempts, l.head.active.value) < |l.attempts| && l.attempts[i].status == AttemptWaiting
    ensures Apply(l, ResolveWait(l.head.revision, l.attempts[i].id, l.attempts[i].revision, l.head.waitRef, l.head.waitGeneration,
                                 Succeeded, Some(output), None, at)).Some?
  {
    KeptIsValid(l);
    hide *;
    ValidHead(l);
    ResolvedHeadIsValid(l.head, output, at);
    SucceededIsValid(l, i, at);
    var j := ActiveIsLive(l);
    NoPointers(l.attempts, i, ResolvedHead(l.head, output, at), Ended(l.attempts[i], AttemptSucceeded, None, at));
    UpdateIsValid(l, ResolvedHead(l.head, output, at), i, Ended(l.attempts[i], AttemptSucceeded, None, at));
    ResolveIs(l, i, output, at);
  }

  lemma ResolveIs(l: Ledger, i: nat, output: string, at: int)
    requires Valid(l) && l.head.status == Waiting && l.head.updatedAt <= at && l.head.waitGeneration > 0
    requires l.head.active.Some? && i == Find(l.attempts, l.head.active.value) < |l.attempts|
    requires l.attempts[i].status == AttemptWaiting && l.attempts[i].phase == Execution
    requires Valid(Ledger(ResolvedHead(l.head, output, at), l.attempts[i := Ended(l.attempts[i], AttemptSucceeded, None, at)]))
    ensures Apply(l, ResolveWait(l.head.revision, l.attempts[i].id, l.attempts[i].revision, l.head.waitRef, l.head.waitGeneration,
                                 Succeeded, Some(output), None, at)).Some?
  {
    hide Valid, Find;
  }

  /** The worker that has just claimed an invocation holds its lease. */
  lemma ClaimHolds(l: Ledger, c: Command)
    requires Kept(l) && c.Claim? && Apply(l, c).Some?
    ensures var m := Apply(l, c).value;
            && Kept(m) && m.head.status == Running && m.head.active.Some? && Find(m.attempts, m.head.active.value) < |m.attempts|
            && var i := Find(m.attempts, m.head.active.value);
               var a := m.attempts[i];
               && a.phase == Execution && a.status == AttemptRunning
               && Fenced(m, Fence(m.head.revision, a.id, a.revision, c.token, c.at)) == Some(i)
  {
    ApplyKeeps(l, c);
    var m := Apply(l, c).value;
    KeptIsValid(m);
    ClaimedLast(l, c);
    hide Kept, Valid, Apply, Find;
    var i := ActiveIsLive(m);
    if i < |l.attempts| { DistinctAttempts(m, i, |l.attempts|); }
  }

  lemma ClaimedLast(l: Ledger, c: Command)
    requires c.Claim? && Apply(l, c).Some?
    ensures var m := Apply(l, c).value;
            && m.attempts == l.attempts + [NewAttempt(Execution, l.head.executions + 1, c.owner, c.token, c.leaseExpiresAt, c.at)]
            && m.head.status == Running && m.head.active == Some(AttemptId(Execution, l.head.executions + 1))
            && m.head.updatedAt == c.at < c.leaseExpiresAt
  {
    hide Valid;
  }

  /** The holder of the lease can always report an end. */
  lemma ReportSucceeds(l: Ledger, i: nat, c: Command)
    requires Kept(l) && l.head.status == Running && c.Transition? && Fenced(l, c.fence) == Some(i)
    requires l.attempts[i].phase == Execution && l.attempts[i].status == AttemptRunning
    requires Aligned(c) && c.to in {Succeeded, Failed} && c.attemptTo in {AttemptSucceeded, AttemptFailed}
    requires (c.to == Succeeded ==> c.failure.None?) && c.waitRef == "" && c.waitGeneration == 0 && c.retryAt.None?
    ensures Apply(l, c).Some?
  {
    KeptIsValid(l);
    FencedIsLive(l, c.fence);
    hide *;
    ValidHead(l);
    ReportedHeadIsValid(l.head, c);
    ReportedIsValid(l, i, c);
    NoPointers(l.attempts, i, ReportedHead(l.head, c), Ended(l.attempts[i], c.attemptTo, c.failure, c.fence.at));
    UpdateIsValid(l, ReportedHead(l.head, c), i, Ended(l.attempts[i], c.attemptTo, c.failure, c.fence.at));
    ReportIs(l, i, c);
  }

  function ReportedHead(h: Head, c: Command): Head
    requires c.Transition?
  {
    Touched(h, c.fence.at).(status := c.to, active := None, waitRef := "", waitGeneration := 0, nextAt := None,
                            output := if c.to == Succeeded then c.output else h.output,
                            failure := if c.to == Failed then c.failure else h.failure, finishedAt := Some(c.fence.at))
  }

  lemma ReportedHeadIsValid(h: Head, c: Command)
    requires HeadValid(h) && h.status == Running && c.Transition? && h.updatedAt <= c.fence.at
    requires Aligned(c) && c.to in {Succeeded, Failed}
    ensures HeadValid(ReportedHead(h, c))
    ensures var next := ReportedHead(h, c);
            next.active.None? && next.activeCompensation.None? && next.executions == h.executions && next.compensations == h.compensations
  {
  }

  lemma ReportedIsValid(l: Ledger, i: nat, c: Command)
    requires Kept(l) && i < |l.attempts| && c.Transition? && l.head.updatedAt <= c.fence.at
    requires Aligned(c) && c.to in {Succeeded, Failed} && c.attemptTo in {AttemptSucceeded, AttemptFailed}
    ensures var a := Ended(l.attempts[i], c.attemptTo, c.failure, c.fence.at);
            AttemptValid(a) && a.id == l.attempts[i].id && a.phase == l.attempts[i].phase && a.ordinal == l.attempts[i].ordinal
  {
    assert AttemptValid(l.attempts[i]) && l.attempts[i].updatedAt <= l.head.updatedAt;
    hide CountPhase, HeadValid, OrdinalFits;
  }

  lemma ReportIs(l: Ledger, i: nat, c: Command)
    requires Valid(l) && l.head.status == Running && c.Transition? && Fenced(l, c.fence) == Some(i) && i < |l.attempts|
    requires l.attempts[i].phase == Execution && l.attempts[i].status == AttemptRunning
    requires Aligned(c) && c.to in {Succeeded, Failed} && c.attemptTo in {AttemptSucceeded, AttemptFailed}
    requires Valid(Ledger(ReportedHead(l.head, c), l.attempts[i := Ended(l.attempts[i], c.attemptTo, c.failure, c.fence.at)]))
    ensures Apply(l, c).Some?
  {
    hide Valid, Fenced;
  }

  lemma NoPointers(attempts: seq<Attempt>, i: nat, head: Head, a: Attempt)
    requires i < |attempts| && head.active.None? && head.activeCompensation.None?
    ensures PointsAt(attempts[i := a], head.active, Execution) && PointsAt(attempts[i := a], head.activeCompensation, Compensation)
  {
  }

  function ResolvedHead(h: Head, output: string, at: int): Head {
    Touched(h, at).(status := Succeeded, active := None, waitRef := "", waitGeneration := 0, output := Some(output),
                    failure := None, finishedAt := Some(at))
  }

  lemma ResolvedHeadIsValid(h: Head, output: string, at: int)
    requires HeadValid(h) && h.status == Waiting && h.updatedAt <= at
    ensures HeadValid(ResolvedHead(h, output, at)) && h.waitGeneration > 0 && h.activeCompensation.None?
    ensures var next := ResolvedHead(h, output, at);
            next.active.None? && next.activeCompensation.None? && next.executions == h.executions && next.compensations == h.compensations
  {
  }

  lemma SucceededIsValid(l: Ledger, i: nat, at: int)
    requires Kept(l) && i < |l.attempts| && l.head.updatedAt <= at
    ensures var a := Ended(l.attempts[i], AttemptSucceeded, None, at);
            AttemptValid(a) && a.id == l.attempts[i].id && a.phase == l.attempts[i].phase && a.ordinal == l.attempts[i].ordinal
  {
    assert AttemptValid(l.attempts[i]) && l.attempts[i].updatedAt <= l.head.updatedAt;
    hide CountPhase, HeadValid, OrdinalFits;
  }

  lemma HeadIsValid(l: Ledger, head: Head)
    requires Valid(l) && HeadValid(head) && head.executions == l.head.executions && head.compensations == l.head.compensations
    requires head.active.None? && head.activeCompensation.None?
    ensures Valid(Ledger(head, l.attempts))
  {
    hide HeadValid, AttemptValid, CountPhase;
    forall i | 0 <= i < |l.attempts| ensures AttemptValid(l.attempts[i]) && OrdinalFits(Ledger(head, l.attempts).attempts, i) {
      assert OrdinalFits(l.attempts, i);
    }
    hide OrdinalFits;
  }

  lemma ActiveIsLive(l: Ledger) returns (i: nat)
    requires Valid(l) && l.head.active.Some?
    ensures i == Find(l.attempts, l.head.active.value) < |l.attempts|
    ensures l.attempts[i].id == l.head.active.value && l.attempts[i].phase == Execution && Live(l.attempts[i].status)
  {
    hide Valid, Find;
    var j := Pointed(l);
    i := Find(l.attempts, l.head.active.value);
    hide *;
    if i < j { DistinctAttempts(l, i, j); }
  }

  lemma Pointed(l: Ledger) returns (j: nat)
    requires Valid(l) && l.head.active.Some?
    ensures j < |l.attempts| && l.attempts[j].id == l.head.active.value
    ensures l.attempts[j].phase == Execution && Live(l.attempts[j].status)
  {
    j :| j < |l.attempts| && l.attempts[j].id == l.head.active.value && l.attempts[j].phase == Execution && Live(l.attempts[j].status);
  }

  lemma EndedIsValid(l: Ledger, i: nat, at: int)
    requires Kept(l) && i < |l.attempts| && l.head.updatedAt <= at
    ensures AttemptValid(Ended(l.attempts[i], AttemptCanceled, l.attempts[i].failure, at))
  {
    assert AttemptValid(l.attempts[i]) && l.attempts[i].updatedAt <= l.head.updatedAt;
    hide CountPhase, HeadValid, OrdinalFits;
  }

  /** HeartbeatAttempt yields a valid ledger although it never checks it: here the
      bound on attempt times, which no validator checks, is needed. */
  lemma HeartbeatKeepsValid(l: Ledger, c: Command)
    requires Kept(l) && c.Heartbeat? && HeartbeatLedger(l, c).Some?
    ensures Valid(HeartbeatLedger(l, c).value)
  {
    var i := Fenced(l, c.fence).value;
    FencedIsLive(l, c.fence);
    ValidHead(l);
    assert l.attempts[i].updatedAt <= l.head.updatedAt;
    hide Valid, Kept;
    HeartbeatAttempt(l, c, i);
    LiveUpdateIsValid(l, HeartbeatLedger(l, c).value.head, i, HeartbeatLedger(l, c).value.attempts[i]);
  }

  lemma HeartbeatAttempt(l: Ledger, c: Command, i: nat)
    requires c.Heartbeat? && HeartbeatLedger(l, c).Some? && Fenced(l, c.fence) == Some(i)
    requires HeadValid(l.head) && AttemptValid(l.attempts[i]) && l.attempts[i].updatedAt <= l.head.updatedAt <= c.fence.at
    ensures var next := HeartbeatLedger(l, c).value;
            && i < |l.attempts| && next.attempts == l.attempts[i := next.attempts[i]] && next.head == Touched(l.head, c.fence.at)
            && HeadValid(next.head) && AttemptValid(next.attempts[i]) && Live(next.attempts[i].status)
            && AttemptEvolves(l.attempts[i], next.attempts[i]) && next.attempts[i].updatedAt == c.fence.at
  {
    FenceLease(l, c.fence, i);
    hide Fenced;
  }

  lemma FenceLease(l: Ledger, f: Fence, i: nat)
    requires Fenced(l, f) == Some(i)
    ensures i < |l.attempts| && l.attempts[i].leaseExpiresAt.Some? && f.at < l.attempts[i].leaseExpiresAt.value
  {
  }

  lemma HeartbeatKeeps(l: Ledger, c: Command)
    requires Kept(l) && c.Heartbeat? && HeartbeatLedger(l, c).Some?
    ensures Kept(HeartbeatLedger(l, c).value) && Steps(l, HeartbeatLedger(l, c).value)
  {
    HeartbeatStarts(l, c);
    HeartbeatKeepsValid(l, c);
    hide *;
    var i, next := Fenced(l, c.fence).value, HeartbeatLedger(l, c).value;
    FencedIsLive(l, c.fence);
    ValidHead(l);
    HeartbeatAttempt(l, c, i);
    HeartbeatEnds(l, next, i, c.fence.at);
  }

  lemma HeartbeatStarts(l: Ledger, c: Command)
    requires Kept(l) && c.Heartbeat? && HeartbeatLedger(l, c).Some?
    ensures Valid(l) && Fenced(l, c.fence).Some? && l.attempts[Fenced(l, c.fence).value].updatedAt <= l.head.updatedAt <= c.fence.at
  {
    FencedIsLive(l, c.fence);
    hide Valid, Fenced;
  }

  lemma HeartbeatEnds(l: Ledger, next: Ledger, i: nat, at: int)
    requires Kept(l) && Valid(next) && i < |l.attempts| && Live(l.attempts[i].status) && l.head.updatedAt <= at
    requires i < |next.attempts| && next.attempts == l.attempts[i := next.attempts[i]] && next.head == Touched(l.head, at)
    requires AttemptEvolves(l.attempts[i], next.attempts[i]) && next.attempts[i].updatedAt == at
    requires Some(l.attempts[i].id) == (if l.attempts[i].phase == Execution then l.head.active else l.head.activeCompensation)
    ensures Kept(next) && Steps(l, next)
  {
    assert Writes(l, next, i);
    hide *;
    WritesKeep(l, next, i);
  }

  /** Every reducer keeps the invariant and freezes what has ended. */
  lemma ApplyKeeps(l: Ledger, c: Command)
    requires Kept(l) && Apply(l, c).Some?
    ensures Kept(Apply(l, c).value) && Steps(l, Apply(l, c).value)
  {
    hide Kept, Valid, Steps;
    hide ClaimLedger, TransitionLedger, ResolveWaitLedger, HeartbeatLedger, ExpireLedger;
    hide ResolveUnleasedLedger, CancelLedger, ScheduleLedger, ClaimCompensationLedger, TransitionCompensationLedger;
    match c {
      case Claim(_, _, _, _, _) => ClaimKeeps(l, c);
      case Transition(_, _, _, _, _, _, _, _) => TransitionKeeps(l, c);
      case ResolveWait(_, _, _, _, _, _, _, _, _) => ResolveWaitKeeps(l, c);
      case Heartbeat(_, _, _) => HeartbeatKeeps(l, c);
      case Expire(_, _, _, _, _, _) => ExpireKeeps(l, c);
      case ResolveUnleased(_, _, _, _) => ResolveUnleasedKeeps(l, c);
      case Cancel(_, _) => CancelKeeps(l, c);
      case ScheduleCompensation(_, _) => ScheduleKeeps(l, c);
      case ClaimCompensation(_, _, _, _, _) => ClaimCompensationKeeps(l, c);
      case TransitionCompensation(_, _, _, _, _) => TransitionCompensationKeeps(l, c);
    }
  }

  // ---------------------------------------------------------------- whole runs

  lemma ActivateKeeps(frozen: string, compensatable: bool, at: int)
    ensures Kept(Activate(frozen, compensatable, at))
  {
  }

  /** Every ledger reachable from activation keeps the invariant. */
  lemma {:induction false} RunKeeps(l: Ledger, commands: seq<Command>)
    requires Kept(l)
    ensures Kept(Run(l, commands))
  {
    if commands != [] {
      var before, c := Run(l, commands[..|commands| - 1]), commands[|commands| - 1];
      RunKeeps(l, commands[..|commands| - 1]);
      hide Kept, Apply;
      if Apply(before, c).Some? { ApplyKeeps(before, c); }
    }
  }

  /** What has ended stays as it ended, through any further commands, and time and
      revision never go back. */
  lemma {:induction false} EndedAttemptsAreFrozen(l: Ledger, commands: seq<Command>, i: nat)
    requires Kept(l) && i < |l.attempts| && !Live(l.attempts[i].status)
    ensures var after := Run(l, commands);
            i < |after.attempts| && after.attempts[i] == l.attempts[i]
            && l.head.revision <= after.head.revision && l.head.updatedAt <= after.head.updatedAt
  {
    if commands != [] {
      var before, c := Run(l, commands[..|commands| - 1]), commands[|commands| - 1];
      EndedAttemptsAreFrozen(l, commands[..|commands| - 1], i);
      RunKeeps(l, commands[..|commands| - 1]);
      hide Kept, Apply;
      if Apply(before, c).Some? { ApplyKeeps(before, c); }
    }
  }

  /** A command is accepted only at the current revision, so of two commands
      prepared at one revision at most one is applied. */
  lemma RevisionFencesCommands(l: Ledger, first: Command, second: Command)
    requires Kept(l) && Apply(l, first).Some? && Apply(l, second).Some?
    ensures Apply(Apply(l, first).value, second).None?
  {
    ApplyKeeps(l, first);
    RequiresRevision(l, second);
    hide Kept, Apply;
    if Apply(Apply(l, first).value, second).Some? { RequiresRevision(Apply(l, first).value, second); }
  }

  function RevisionOf(c: Command): nat {
    match c
    case Transition(fence, _, _, _, _, _, _, _) => fence.revision
    case Heartbeat(fence, _, _) => fence.revision
    case TransitionCompensation(fence, _, _, _, _) => fence.revision
    case Claim(revision, _, _, _, _) => revision
    case ResolveWait(revision, _, _, _, _, _, _, _, _) => revision
    case Expire(revision, _, _, _, _, _) => revision
    case ResolveUnleased(revision, _, _, _) => revision
    case Cancel(revision, _) => revision
    case ScheduleCompensation(revision, _) => revision
    case ClaimCompensation(revision, _, _, _, _) => revision
  }

  lemma RequiresRevision(l: Ledger, c: Command)
    requires Apply(l, c).Some?
    ensures RevisionOf(c) == l.head.revision
  {
    hide Valid;
  }
}
