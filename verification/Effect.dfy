/** The external-effect protocol: a record, and one receipt ledger per command that
    was ever begun for it. Identity and digest checks of intents, envelopes and
    receipts are `wellFormed` fields; a command identity stands for its digest. */
module Effect {
  import opened Prelude

  datatype State = Prepared | Applying | Applied | Failed | Uncertain | Canceled

  predicate Terminal(s: State) {
    s !in {Prepared, Applying}
  }

  datatype Policy = NoCompensation | Optional | Required

  datatype Class = Transient | Permanent | CanceledClass | UncertainClass

  datatype Failure = Failure(class_: Class, code: string, wellFormed: bool)

  datatype ReceiptStatus = Accepted | Rejected | Succeeded | FailedReceipt | UncertainReceipt

  datatype Receipt = Receipt(
    commandId: string, identity: string, sequence: nat, status: ReceiptStatus, provider: string,
    result: Option<string>, artifact: string, external: string, failure: Option<Failure>, observedAt: int, wellFormed: bool)

  datatype Envelope = Envelope(commandId: string, effectId: string, identity: string, deadline: int, wellFormed: bool)

  datatype Ledger = Ledger(envelope: Envelope, receipts: seq<Receipt>)

  datatype Compensation =
    NotRequired | Unscheduled | Pending | InProgress | RetryWait | Compensated | Reconciled | CompensationFailed | CompensationCanceled

  datatype Proof = Proof(requestedRevision: nat, evidence: string, reconciledBy: string, reason: string, commandId: string, at: int)

  datatype Record = Record(
    id: string, policy: Policy, deadline: int, state: State, command: Option<(string, string)>,
    external: string, result: Option<string>, artifact: string, failure: Option<Failure>,
    compensation: Compensation, compensations: nat, compensationCommand: string, compensationFailure: Option<Failure>,
    compensationNextAt: Option<int>, proof: Option<Proof>,
    preparedAt: int, applyingAt: Option<int>, terminalAt: Option<int>, terminalRevision: nat,
    compensationFinishedAt: Option<int>, updatedAt: int, revision: nat)

  // ---------------------------------------------------------------- validation

  predicate FailureValid(f: Option<Failure>, uncertain: bool) {
    f.Some? && f.value.wellFormed && (uncertain ==> f.value.class_ == UncertainClass)
  }

  /** validateReceipt. */
  predicate ReceiptValid(e: Envelope, r: Receipt) {
    && r.commandId == e.commandId && r.identity == e.identity && r.wellFormed && r.sequence > 0
    && match r.status
       case Accepted => r.sequence == 1 && r.result.None? && r.artifact == "" && r.failure.None?
       case Rejected =>
         r.sequence == 1 && r.result.None? && r.artifact == "" && FailureValid(r.failure, false) && r.failure.value.class_ != UncertainClass
       case Succeeded => r.sequence == 2 && r.result.Some? && r.failure.None?
       case FailedReceipt =>
         r.sequence == 2 && r.result.None? && r.artifact == "" && FailureValid(r.failure, false) && r.failure.value.class_ != UncertainClass
       case UncertainReceipt => r.sequence == 2 && r.result.None? && r.artifact == "" && FailureValid(r.failure, true)
  }

  predicate Final(s: ReceiptStatus) {
    s != Accepted
  }

  predicate ReceiptFits(l: Ledger, i: nat)
    requires i < |l.receipts|
  {
    && l.receipts[i].sequence == i + 1 && ReceiptValid(l.envelope, l.receipts[i])
    && (i > 0 ==>
          && !Final(l.receipts[i - 1].status)
          && l.receipts[i - 1].provider == l.receipts[i].provider && l.receipts[i - 1].observedAt <= l.receipts[i].observedAt)
  }

  /** ValidateLedger. */
  predicate LedgerValid(l: Ledger) {
    l.envelope.wellFormed && forall i :: 0 <= i < |l.receipts| ==> ReceiptFits(l, i)
  }

  predicate CompensationValid(r: Record) {
    if r.policy == NoCompensation then r.compensation == NotRequired && r.proof.None?
    else
      && r.compensation != NotRequired
      && (r.compensation == InProgress ==> r.compensations > 0 && r.compensationCommand != "")
      && (if r.compensation == RetryWait then r.compensationNextAt.Some? && r.compensationFailure.Some? else r.compensationNextAt.None?)
      && (r.compensation == CompensationFailed ==> r.compensationFailure.Some?)
      && (r.compensation !in {CompensationFailed, RetryWait} ==> r.compensationFailure.None?)
      && (if r.compensation == Reconciled then
            && r.policy == Required && r.proof.Some? && r.proof.value.requestedRevision > 0
            && r.proof.value.requestedRevision + 1 == r.revision && r.proof.value.at == r.updatedAt
            && r.compensationFinishedAt == Some(r.proof.value.at)
          else r.proof.None?)
  }

  predicate Within(at: Option<int>, r: Record) {
    at.Some? ==> r.preparedAt <= at.value <= r.updatedAt
  }

  predicate Unobserved(r: Record) {
    r.result.None? && r.artifact == "" && r.external == "" && r.failure.None?
  }

  /** ValidateRecord. */
  predicate Valid(r: Record) {
    && r.revision > 0 && r.preparedAt <= r.updatedAt
    && (match r.state
        case Prepared => r.command.None? && r.applyingAt.None? && r.terminalAt.None? && r.terminalRevision == 0
        case Canceled => r.command.None? && r.applyingAt.None? && r.terminalAt.Some?
        case _ => r.command.Some? && r.applyingAt.Some?)
    && Within(r.applyingAt, r) && Within(r.terminalAt, r)
    && (Terminal(r.state) <==> r.terminalAt.Some?)
    && (Terminal(r.state) <==> r.terminalRevision != 0) && r.terminalRevision <= r.revision
    && (match r.state
        case Applied => r.result.Some? && r.failure.None?
        case Failed => FailureValid(r.failure, false) && r.failure.value.class_ != UncertainClass
        case Uncertain => FailureValid(r.failure, true)
        case _ => Unobserved(r))
    && CompensationValid(r)
  }

  function Checked(r: Record): Option<Record> {
    if Valid(r) then Some(r) else None
  }

  // ------------------------------------------------------------------ reducers

  datatype Command =
    | CancelPrepared(revision: nat, at: int)
    | Begin(revision: nat, envelope: Envelope, at: int)
    | Observe(revision: nat, receipt: Receipt)
    | RequestReconciliation(revision: nat, at: int)
    | MoveCompensation(revision: nat, to: Compensation, commandId: string, failure: Option<Failure>, retryAt: Option<int>, at: int)
    | ObserveCompensation(revision: nat, receipt: Receipt)
    | ReconcileCompensation(revision: nat, evidence: string, reconciledBy: string, reason: string, commandId: string, at: int)

  function Prepare(id: string, policy: Policy, deadline: int, at: int): Option<Record> {
    if deadline <= at then None
    else
      Some(Record(id, policy, deadline, Prepared, None, "", None, "", None,
                  if policy == NoCompensation then NotRequired else Unscheduled, 0, "", None, None, None,
                  at, None, None, 0, None, at, 1))
  }

  function CancelRecord(r: Record, c: Command): Option<Record>
    requires c.CancelPrepared?
  {
    if c.revision != r.revision || r.state != Prepared || c.at < r.updatedAt then None
    else
      Checked(r.(state := Canceled, terminalAt := Some(c.at), updatedAt := c.at, revision := r.revision + 1, terminalRevision := r.revision + 1,
                 compensation := if r.policy != NoCompensation then CompensationCanceled else r.compensation,
                 compensationFinishedAt := if r.policy != NoCompensation then Some(c.at) else r.compensationFinishedAt))
  }

  /** What may be sent to a provider: a prepared effect, or one whose last command
      ended in a transient failure. */
  predicate MayBegin(r: Record) {
    r.state == Prepared || (r.state == Failed && r.failure.Some? && r.failure.value.class_ == Transient)
  }

  function BeginRecord(r: Record, c: Command): Option<Record>
    requires c.Begin?
  {
    if c.revision != r.revision || c.at < r.updatedAt || !MayBegin(r)
       || (r.command.Some? && r.command.value.0 == c.envelope.commandId)
       || !c.envelope.wellFormed || c.envelope.effectId != r.id || c.envelope.deadline > r.deadline || c.envelope.deadline <= c.at then None
    else
      Checked(r.(state := Applying, command := Some((c.envelope.commandId, c.envelope.identity)), external := "", result := None,
                 artifact := "", failure := None, terminalAt := None, terminalRevision := 0, applyingAt := Some(c.at),
                 updatedAt := c.at, revision := r.revision + 1))
  }

  /** validateNextReceipt. */
  predicate NextReceipt(l: Ledger, r: Receipt) {
    && (l.receipts != [] ==> !Final(l.receipts[|l.receipts| - 1].status))
    && r.sequence == |l.receipts| + 1 && ReceiptValid(l.envelope, r)
  }

  /** How one receipt moves the primary state. */
  function Folded(r: Record, receipt: Receipt): Record {
    var touched := r.(updatedAt := receipt.observedAt, revision := r.revision + 1);
    var ended := touched.(terminalAt := Some(receipt.observedAt), terminalRevision := r.revision + 1);
    match receipt.status
    case Accepted => touched
    case Succeeded => ended.(state := Applied, result := receipt.result, artifact := receipt.artifact, external := receipt.external)
    case Rejected => ended.(state := Failed, failure := receipt.failure)
    case FailedReceipt => ended.(state := Failed, failure := receipt.failure)
    case UncertainReceipt => ended.(state := Uncertain, failure := receipt.failure, external := receipt.external)
  }

  function ObserveRecord(r: Record, l: Ledger, c: Command): Option<(Record, Ledger)>
    requires c.Observe?
  {
    var longer := l.(receipts := l.receipts + [c.receipt]);
    if !LedgerValid(l) || c.revision != r.revision || r.state != Applying || r.command.None?
       || l.envelope.commandId != r.command.value.0 || l.envelope.effectId != r.id
       || !NextReceipt(l, c.receipt) || !LedgerValid(longer) || !Valid(Folded(r, c.receipt)) then None
    else Some((Folded(r, c.receipt), longer))
  }

  /** RequestReconciliation, which skips the final check. */
  function ReconcileRecord(r: Record, c: Command): Option<Record>
    requires c.RequestReconciliation?
  {
    if c.revision != r.revision || r.state != Uncertain || c.at < r.updatedAt then None
    else Some(r.(updatedAt := c.at, revision := r.revision + 1))
  }

  predicate CompensationStep(from: Compensation, to: Compensation) {
    match from
    case Unscheduled => to in {Pending, CompensationCanceled}
    case Pending => to in {InProgress, CompensationCanceled}
    case InProgress => to in {Compensated, RetryWait, CompensationFailed, CompensationCanceled}
    case RetryWait => to in {InProgress, CompensationFailed, CompensationCanceled}
    case _ => false
  }

  function MoveRecord(r: Record, c: Command): Option<Record>
    requires c.MoveCompensation?
  {
    if c.revision != r.revision || c.at < r.updatedAt || r.state != Applied || r.policy == NoCompensation
       || !CompensationStep(r.compensation, c.to)
       || (c.to == InProgress) != (c.commandId != "")
       || (if c.to == RetryWait then c.retryAt.None? || c.retryAt.value <= c.at || c.failure.None? || c.failure.value.class_ != Transient
           else c.retryAt.Some?)
       || (c.to == CompensationFailed && !FailureValid(c.failure, false))
       || (c.to !in {CompensationFailed, RetryWait} && c.failure.Some?) then None
    else
      var moved := r.(compensation := c.to, compensationFailure := c.failure, compensationNextAt := c.retryAt,
                      updatedAt := c.at, revision := r.revision + 1);
      Checked(
        if c.to == InProgress then
          moved.(compensations := r.compensations + 1, compensationCommand := c.commandId, compensationFinishedAt := None)
        else if c.to in {Compensated, CompensationFailed, CompensationCanceled} then moved.(compensationFinishedAt := Some(c.at))
        else moved)
  }

  function FoldedCompensation(r: Record, receipt: Receipt): Record {
    var touched := r.(updatedAt := receipt.observedAt, revision := r.revision + 1);
    match receipt.status
    case Accepted => touched
    case Succeeded => touched.(compensation := Compensated, compensationFinishedAt := Some(receipt.observedAt))
    case _ =>
      touched.(compensation := CompensationFailed, compensationFailure := receipt.failure, compensationFinishedAt := Some(receipt.observedAt))
  }

  function ObserveCompensationRecord(r: Record, l: Ledger, c: Command): Option<(Record, Ledger)>
    requires c.ObserveCompensation?
  {
    var longer := l.(receipts := l.receipts + [c.receipt]);
    if !LedgerValid(l) || c.revision != r.revision || r.state != Applied || r.compensation != InProgress
       || l.envelope.commandId != r.compensationCommand || l.envelope.effectId != r.id
       || !NextReceipt(l, c.receipt) || !LedgerValid(longer) || !Valid(FoldedCompensation(r, c.receipt)) then None
    else Some((FoldedCompensation(r, c.receipt), longer))
  }

  function ProveRecord(r: Record, c: Command): Option<Record>
    requires c.ReconcileCompensation?
  {
    if c.revision != r.revision || r.state != Applied || r.policy != Required
       || r.compensation !in {CompensationFailed, CompensationCanceled, RetryWait} || c.at < r.updatedAt then None
    else
      Checked(r.(compensation := Reconciled, compensationFailure := None, compensationNextAt := None,
                 proof := Some(Proof(c.revision, c.evidence, c.reconciledBy, c.reason, c.commandId, c.at)),
                 compensationFinishedAt := Some(c.at), updatedAt := c.at, revision := r.revision + 1))
  }

  // -------------------------------------------------------------------- worlds

  /** The record with the ledgers of its primary and its compensation commands. A
      ledger is created, at revision zero, by the commit that begins its command. */
  datatype World = World(record: Record, primary: map<string, Ledger>, compensating: map<string, Ledger>)

  function Step(w: World, c: Command): Option<World> {
    if !Valid(w.record) then None
    else
      match c
      case CancelPrepared(_, _) =>
        var r := CancelRecord(w.record, c);
        if r.None? then None else Some(w.(record := r.value))
      case Begin(_, envelope, _) =>
        var r := BeginRecord(w.record, c);
        if r.None? || envelope.commandId in w.primary then None
        else Some(w.(record := r.value, primary := w.primary[envelope.commandId := Ledger(envelope, [])]))
      case Observe(_, _) =>
        if w.record.command.None? || w.record.command.value.0 !in w.primary then None
        else
          var r := ObserveRecord(w.record, w.primary[w.record.command.value.0], c);
          if r.None? then None else Some(w.(record := r.value.0, primary := w.primary[w.record.command.value.0 := r.value.1]))
      case RequestReconciliation(_, _) =>
        var r := ReconcileRecord(w.record, c);
        if r.None? then None else Some(w.(record := r.value))
      case MoveCompensation(_, to, commandId, _, _, at) =>
        var r := MoveRecord(w.record, c);
        if r.None? || (to == InProgress && commandId in w.compensating) then None
        else
          Some(w.(record := r.value, compensating :=
            if to == InProgress then w.compensating[commandId := Ledger(Envelope(commandId, w.record.id, commandId, at, true), [])]
            else w.compensating))
      case ObserveCompensation(_, _) =>
        if w.record.compensationCommand !in w.compensating then None
        else
          var r := ObserveCompensationRecord(w.record, w.compensating[w.record.compensationCommand], c);
          if r.None? then None
          else Some(w.(record := r.value.0, compensating := w.compensating[w.record.compensationCommand := r.value.1]))
      case ReconcileCompensation(_, _, _, _, _, _) =>
        var r := ProveRecord(w.record, c);
        if r.None? then None else Some(w.(record := r.value))
  }

  function Run(w: World, commands: seq<Command>): World {
    if commands == [] then w
    else
      var before := Run(w, commands[..|commands| - 1]);
      var after := Step(before, commands[|commands| - 1]);
      if after.Some? then after.value else before
  }

  // --------------------------------------------------------- shapes of a ledger

  datatype Shape = Silent | A | R | AS | AF | AU

  function ShapeOf(l: Ledger): Option<Shape> {
    var s := l.receipts;
    if s == [] then Some(Silent)
    else if |s| == 1 then
      if s[0].status == Accepted then Some(A) else if s[0].status == Rejected then Some(R) else None
    else if |s| == 2 && s[0].status == Accepted then
      match s[1].status
      case Succeeded => Some(AS)
      case FailedReceipt => Some(AF)
      case UncertainReceipt => Some(AU)
      case _ => None
    else None
  }

  /** A valid ledger is empty, accepted, rejected, or accepted and then succeeded,
      failed or uncertain. */
  lemma LedgersHaveSixShapes(l: Ledger)
    requires LedgerValid(l)
    ensures ShapeOf(l).Some?
  {
    var s := l.receipts;
    if s != [] { FirstReceipt(l); }
    if |s| >= 2 { LaterReceipt(l, 1); }
    if |s| >= 3 { LaterReceipt(l, 2); }
  }

  lemma FirstReceipt(l: Ledger)
    requires LedgerValid(l) && l.receipts != []
    ensures l.receipts[0].status in {Accepted, Rejected}
  {
    assert ReceiptFits(l, 0);
  }

  lemma LaterReceipt(l: Ledger, i: nat)
    requires LedgerValid(l) && 1 <= i < |l.receipts|
    ensures i == 1 && l.receipts[0].status == Accepted && l.receipts[1].status in {Succeeded, FailedReceipt, UncertainReceipt}
  {
    assert ReceiptFits(l, i);
  }

  /** The last receipt of a command, when its ledger is final. */
  function Verdict(l: Ledger): Option<Receipt> {
    if l.receipts != [] && Final(l.receipts[|l.receipts| - 1].status) then Some(l.receipts[|l.receipts| - 1]) else None
  }

  // ------------------------------------------------------------- the invariant

  /** The primary state is the fold of the current command's receipts. */
  predicate IsFold(r: Record, l: Ledger) {
    var v := Verdict(l);
    if v.None? then r.state == Applying && Unobserved(r)
    else if v.value.status == Succeeded then
      r.state == Applied && r.result == v.value.result && r.artifact == v.value.artifact && r.external == v.value.external && r.failure.None?
    else if v.value.status == UncertainReceipt then
      r.state == Uncertain && r.failure == v.value.failure && r.external == v.value.external && r.result.None?
    else r.state == Failed && r.failure == v.value.failure && r.external == "" && r.result.None?
  }

  /** A command that a later one replaced ended in a transient rejection or failure. */
  predicate Superseded(l: Ledger) {
    var v := Verdict(l);
    v.Some? && v.value.status in {Rejected, FailedReceipt} && v.value.failure.Some? && v.value.failure.value.class_ == Transient
  }

  predicate CommandKept(w: World, id: string) {
    id in w.primary ==>
      && LedgerValid(w.primary[id]) && w.primary[id].envelope.commandId == id && w.primary[id].envelope.effectId == w.record.id
      && (if w.record.command.Some? && w.record.command.value.0 == id
          then IsFold(w.record, w.primary[id]) && w.primary[id].envelope.identity == w.record.command.value.1
          else Superseded(w.primary[id]))
  }

  ghost predicate Kept(w: World) {
    && Valid(w.record)
    && (w.record.command.Some? ==> w.record.command.value.0 in w.primary)
    && (w.record.command.None? ==> w.primary == map[])
    && (forall id :: CommandKept(w, id))
    && (w.record.state !in {Applied, Canceled} ==> w.record.compensation in {NotRequired, Unscheduled})
  }

  lemma PrepareKeeps(id: string, policy: Policy, deadline: int, at: int)
    requires Prepare(id, policy, deadline, at).Some?
    ensures Kept(World(Prepare(id, policy, deadline, at).value, map[], map[]))
  {
  }

  lemma CancelKeeps(w: World, c: Command)
    requires Kept(w) && c.CancelPrepared? && Step(w, c).Some?
    ensures Kept(Step(w, c).value)
  {
    assert w.record.command.None? && Valid(Step(w, c).value.record);
    hide Valid;
    forall id ensures CommandKept(Step(w, c).value, id) { assert CommandKept(w, id); }
  }

  /** A prepared effect can always be withdrawn. */
  lemma CancelSucceeds(w: World, at: int)
    requires Kept(w) && w.record.state == Prepared && w.record.updatedAt <= at
    ensures var next := Step(w, CancelPrepared(w.record.revision, at));
            next.Some? && next.value.record.state == Canceled
  {
    hide CommandKept;
  }

  lemma BeginKeeps(w: World, c: Command)
    requires Kept(w) && c.Begin? && Step(w, c).Some?
    ensures Kept(Step(w, c).value)
  {
    var next := Step(w, c).value;
    assert w.record.state == Failed ==> w.record.command.Some?;
    EmptyLedger(c.envelope);
    hide Valid, LedgerValid, CompensationValid;
    forall id ensures CommandKept(next, id) { assert CommandKept(w, id); }
  }

  lemma EmptyLedger(e: Envelope)
    requires e.wellFormed
    ensures LedgerValid(Ledger(e, []))
  {
  }

  lemma FoldFollowsReceipt(r: Record, l: Ledger, receipt: Receipt)
    requires IsFold(r, l) && r.state == Applying && Unobserved(r) && ReceiptValid(l.envelope, receipt)
    ensures IsFold(Folded(r, receipt), l.(receipts := l.receipts + [receipt]))
  {
    var longer := l.(receipts := l.receipts + [receipt]);
    assert longer.receipts[|longer.receipts| - 1] == receipt;
    assert Verdict(longer) == if Final(receipt.status) then Some(receipt) else None;
  }

  lemma ApplyingIsUnobserved(r: Record)
    requires Valid(r) && r.state == Applying
    ensures Unobserved(r)
  {
  }

  lemma ObserveKeeps(w: World, c: Command)
    requires Kept(w) && c.Observe? && Step(w, c).Some?
    ensures Kept(Step(w, c).value)
  {
    var next := Step(w, c).value;
    var id := w.record.command.value.0;
    assert CommandKept(w, id);
    ApplyingIsUnobserved(w.record);
    FoldFollowsReceipt(w.record, w.primary[id], c.receipt);
    hide Valid, LedgerValid, IsFold, NextReceipt, ReceiptValid, Verdict;
    forall other ensures CommandKept(next, other) {
      assert CommandKept(w, other);
      hide Superseded;
    }
  }

  /** RequestReconciliation yields a valid record although it never checks it: an
      uncertain effect was never compensated, so no proof pins its revision. */
  lemma ReconcileKeepsValid(w: World, c: Command)
    requires Kept(w) && c.RequestReconciliation? && Step(w, c).Some?
    ensures Valid(Step(w, c).value.record)
  {
  }

  lemma ReconcileKeeps(w: World, c: Command)
    requires Kept(w) && c.RequestReconciliation? && Step(w, c).Some?
    ensures Kept(Step(w, c).value)
  {
    ReconcileKeepsValid(w, c);
    hide Valid, LedgerValid;
    forall id ensures CommandKept(Step(w, c).value, id) { assert CommandKept(w, id); }
  }

  predicate SamePrimary(a: Record, b: Record) {
    && a.id == b.id && a.policy == b.policy && a.state == b.state && a.command == b.command && a.external == b.external && a.result == b.result
    && a.artifact == b.artifact && a.failure == b.failure && a.applyingAt == b.applyingAt && a.terminalAt == b.terminalAt
    && a.terminalRevision == b.terminalRevision
  }

  predicate Compensates(c: Command) {
    c.MoveCompensation? || c.ObserveCompensation? || c.ReconcileCompensation?
  }

  /** Compensation never touches the evidence of the primary command. */
  lemma CompensationKeepsPrimary(w: World, c: Command)
    requires Compensates(c) && Step(w, c).Some?
    ensures var next := Step(w, c).value;
            SamePrimary(w.record, next.record) && next.primary == w.primary && w.record.state == Applied && Valid(next.record)
  {
    hide Valid, LedgerValid;
  }

  lemma CompensationKeeps(w: World, c: Command)
    requires Kept(w) && Compensates(c) && Step(w, c).Some?
    ensures Kept(Step(w, c).value)
  {
    CompensationKeepsPrimary(w, c);
    hide Valid, LedgerValid, Step;
    forall id ensures CommandKept(Step(w, c).value, id) { assert CommandKept(w, id); }
  }

  lemma StepKeeps(w: World, c: Command)
    requires Kept(w) && Step(w, c).Some?
    ensures Kept(Step(w, c).value) && Step(w, c).value.record.revision == w.record.revision + 1
  {
    StepRaisesRevision(w, c);
    hide Step, Kept;
    match c {
      case CancelPrepared(_, _) => CancelKeeps(w, c);
      case Begin(_, _, _) => BeginKeeps(w, c);
      case Observe(_, _) => ObserveKeeps(w, c);
      case RequestReconciliation(_, _) => ReconcileKeeps(w, c);
      case MoveCompensation(_, _, _, _, _, _) => CompensationKeeps(w, c);
      case ObserveCompensation(_, _) => CompensationKeeps(w, c);
      case ReconcileCompensation(_, _, _, _, _, _) => CompensationKeeps(w, c);
    }
  }

  lemma StepRaisesRevision(w: World, c: Command)
    requires Step(w, c).Some?
    ensures Step(w, c).value.record.revision == w.record.revision + 1
  {
    hide Valid, LedgerValid;
  }

  /** In every reachable world the state is the fold of the current command's
      receipts, and every earlier command ended in a transient refusal. */
  lemma {:induction false} RunKeeps(w: World, commands: seq<Command>)
    requires Kept(w)
    ensures Kept(Run(w, commands))
  {
    if commands != [] {
      var before, c := Run(w, commands[..|commands| - 1]), commands[|commands| - 1];
      RunKeeps(w, commands[..|commands| - 1]);
      hide Kept, Step;
      if Step(before, c).Some? { StepKeeps(before, c); }
    }
  }

  // --------------------------------------------------------------- main results

  /** The state of a started effect says exactly which of the six ledgers its command has. */
  lemma StateTellsLedger(w: World)
    requires Kept(w) && w.record.command.Some?
    ensures var l := w.primary[w.record.command.value.0];
            && (w.record.state == Applying <==> ShapeOf(l) in {Some(Silent), Some(A)})
            && (w.record.state == Applied <==> ShapeOf(l) == Some(AS))
            && (w.record.state == Failed <==> ShapeOf(l) in {Some(R), Some(AF)})
            && (w.record.state == Uncertain <==> ShapeOf(l) == Some(AU))
  {
    var id := w.record.command.value.0;
    assert CommandKept(w, id);
    LedgersHaveSixShapes(w.primary[id]);
    hide Kept, Valid, LedgerValid;
  }

  /** States that no command leaves. */
  predicate Settled(r: Record) {
    r.state in {Applied, Uncertain, Canceled} || (r.state == Failed && !MayBegin(r))
  }

  lemma SettledStep(w: World, c: Command)
    requires Valid(w.record) && Settled(w.record) && Step(w, c).Some?
    ensures !c.Begin? && Step(w, c).value.record.state == w.record.state && Step(w, c).value.primary == w.primary
    ensures Step(w, c).value.record.failure == w.record.failure && Step(w, c).value.record.command == w.record.command
  {
    hide Valid, LedgerValid;
  }

  /** An applied, uncertain, canceled or permanently failed effect stays so: no
      further mutation is ever begun for it and its primary receipts are final. */
  lemma {:induction false} SettledEffectsStay(w: World, commands: seq<Command>)
    requires Kept(w) && Settled(w.record)
    ensures var after := Run(w, commands);
            after.record.state == w.record.state && after.primary == w.primary && Settled(after.record)
            && after.record.failure == w.record.failure && after.record.command == w.record.command
  {
    if commands != [] {
      var before, c := Run(w, commands[..|commands| - 1]), commands[|commands| - 1];
      SettledEffectsStay(w, commands[..|commands| - 1]);
      RunKeeps(w, commands[..|commands| - 1]);
      assert Valid(before.record);
      hide Kept, Step;
      if Step(before, c).Some? { SettledStep(before, c); }
    }
  }

  /** A second mutation is begun only after the provider refused the one before it
      for a transient reason. */
  lemma BeginFollowsTransientRefusal(w: World, c: Command)
    requires Kept(w) && c.Begin? && Step(w, c).Some? && w.record.command.Some?
    ensures Superseded(w.primary[w.record.command.value.0])
    ensures forall id :: id in w.primary ==> Superseded(w.primary[id]) && id != c.envelope.commandId
  {
    assert CommandKept(w, w.record.command.value.0);
    forall id | id in w.primary ensures Superseded(w.primary[id]) { assert CommandKept(w, id); }
    hide LedgerValid;
  }
}
