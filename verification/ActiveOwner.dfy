/** Run admission under a single active owner: any number of controllers that read
    stale records and commit. Keys are already normalised to owner references;
    ingress policy checks and AdmitRun's own validation come before this model. */
module ActiveOwner {
  import opened Prelude
  import opened Store
  import opened Protocol

  datatype RunStatus =
    Accepted | Queued | Running | Waiting | Stopping | Succeeded | Failed | Canceled | Stopped | Rejected

  predicate Terminal(status: RunStatus) {
    status in {Succeeded, Failed, Canceled, Stopped, Rejected}
  }

  /** The fields of a Run that admission and release look at. */
  datatype Run = Run(id: string, status: RunStatus, owner: Option<string>, generation: nat, policy: string)

  datatype Release = Release(status: RunStatus, runRevision: nat)

  datatype Owner = Owner(ref: string, policy: string, runId: string, generation: nat, release: Option<Release>)

  /** Which run a command was answered with. */
  datatype Receipt = Receipt(command: CommandKey, identity: string, run: Run)

  datatype Doc = RunDoc(run: Run) | OwnerDoc(owner: Owner) | ReceiptDoc(receipt: Receipt) | OtherDoc(text: string)

  type World = State<Doc>

  const RUN := "run"
  const OWNER := "active-run-owner"
  const RECEIPT := "run-admission-receipt"

  function RunKey(id: string): Key { Key(RUN, id) }

  function OwnerKey(ref: string): Key { Key(OWNER, ref) }

  /** A receipt is stored under the identity of its command; `digest` stands for CommandIdentityKey. */
  function ReceiptKey(digest: CommandKey -> string, command: CommandKey): Key {
    Key(RECEIPT, digest(command))
  }

  predicate Ours(k: Key) {
    k.kind in {RUN, OWNER, RECEIPT}
  }

  // --------------------------------------------------------------- the records

  predicate Active(o: Owner) {
    o.release.None?
  }

  /** The revision that the state and generation of an owner record imply. */
  function OwnerRevision(o: Owner): int {
    if Active(o) then 2 * o.generation - 1 else 2 * o.generation
  }

  /** decodeActiveRunOwner: what every reader demands of an owner record. */
  predicate OwnerDecodes(r: Record<Doc>, ref: string) {
    && r.payload.OwnerDoc? && r.key == OwnerKey(ref) && r.payload.owner.ref == ref
    && r.payload.owner.generation > 0 && r.revision == OwnerRevision(r.payload.owner)
    && (r.payload.owner.release.Some? ==>
          Terminal(r.payload.owner.release.value.status) && r.payload.owner.release.value.runRevision > 0)
  }

  predicate RunDecodes(r: Record<Doc>, id: string) {
    r.payload.RunDoc? && r.payload.run.id == id
  }

  // --------------------------------------------------------------- the actions

  datatype StartRequest = StartRequest(
    scope: Scope, commandId: string, identity: string, runId: string, owner: Option<string>, policy: string, at: int)

  /** What controllers may do next. `seen…` are the indices of the earlier states
      that the decision was read from. */
  datatype Action =
    | Start(request: StartRequest, seenOwner: nat, seenReceipt: nat)
    | Proceed(runId: string, seenRun: nat, next: RunStatus, command: Command<Doc>)
    | Finish(runId: string, seenRun: nat, seenOwner: nat, status: RunStatus, command: Command<Doc>)
    | Elsewhere(op: Op<Doc>)

  function RecordAt(history: seq<World>, seen: nat, k: Key): Option<Record<Doc>> {
    if seen < |history| then Lookup(history[seen], k) else None
  }

  /** prepareActiveOwnerAcquire: the record to write and the revision to expect,
      or None when the record read does not decode. */
  function Acquire(seen: Option<Record<Doc>>, ref: string, runId: string, policy: string): Option<(Owner, nat)> {
    if seen.None? then Some((Owner(ref, policy, runId, 1, None), 0))
    else if !OwnerDecodes(seen.value, ref) then None
    else if Active(seen.value.payload.owner) then
      // Deliberately stale: only the command ledger can still answer this commit.
      Some((Owner(ref, policy, runId, 1, None), 0))
    else Some((Owner(ref, policy, runId, seen.value.payload.owner.generation + 1, None), seen.value.revision))
  }

  function StartCommand(digest: CommandKey -> string, request: StartRequest, acquired: Option<(Owner, nat)>): Command<Doc> {
    var generation := if acquired.Some? then acquired.value.0.generation else 0;
    var run := Run(request.runId, Accepted, request.owner, generation, request.policy);
    var command := CommandKey(request.scope, request.commandId);
    var owned := if acquired.None? then []
      else [Put(OwnerKey(acquired.value.0.ref), acquired.value.1, OwnerDoc(acquired.value.0)),
            Put(ReceiptKey(digest, command), 0, ReceiptDoc(Receipt(command, request.identity, run)))];
    Command(request.scope, request.commandId, request.identity,
            [Put(RunKey(request.runId), 0, RunDoc(run)), Put(Key("run-snapshot", request.runId), 0, OtherDoc(""))] + owned,
            [], RunDoc(run), request.at)
  }

  /** A further command of the controller that writes the run and aggregates of other kinds. */
  ghost predicate WritesElsewhere(puts: seq<Put<Doc>>) {
    DistinctPuts(puts) && forall i :: 0 <= i < |puts| ==> !Ours(puts[i].key)
  }

  /** releaseActiveOwner: None when the owner read is not the one this run holds. */
  function ReleaseOwner(seen: Option<Record<Doc>>, run: Run, status: RunStatus, runRevision: nat): Option<Put<Doc>>
    requires run.owner.Some?
  {
    if seen.None? || !OwnerDecodes(seen.value, run.owner.value) then None
    else
      var o := seen.value.payload.owner;
      if !Active(o) || o.runId != run.id || o.generation != run.generation || o.policy != run.policy then None
      else Some(Put(OwnerKey(o.ref), seen.value.revision, OwnerDoc(o.(release := Some(Release(status, runRevision))))))
  }

  /** The command an action submits, if the controller gets that far. */
  ghost function Submitted(digest: CommandKey -> string, history: seq<World>, a: Action): Option<Command<Doc>> {
    match a
    case Start(request, seenOwner, seenReceipt) =>
      if request.owner.None? then Some(StartCommand(digest, request, None))
      else if RecordAt(history, seenReceipt, ReceiptKey(digest, CommandKey(request.scope, request.commandId))).Some? then None
      else
        var acquired := Acquire(RecordAt(history, seenOwner, OwnerKey(request.owner.value)), request.owner.value, request.runId, request.policy);
        if acquired.None? then None else Some(StartCommand(digest, request, acquired))
    case Proceed(runId, seenRun, next, command) =>
      var seen := RecordAt(history, seenRun, RunKey(runId));
      if seen.None? || !RunDecodes(seen.value, runId) || Terminal(seen.value.payload.run.status) || Terminal(next)
         || !WritesElsewhere(command.puts) then None
      else
        var put := Put(RunKey(runId), seen.value.revision, RunDoc(seen.value.payload.run.(status := next)));
        Some(command.(puts := [put] + command.puts))
    case Finish(runId, seenRun, seenOwner, status, command) =>
      var seen := RecordAt(history, seenRun, RunKey(runId));
      if seen.None? || !RunDecodes(seen.value, runId) || Terminal(seen.value.payload.run.status) || !Terminal(status)
         || !WritesElsewhere(command.puts) then None
      else
        var run := seen.value.payload.run;
        var put := Put(RunKey(runId), seen.value.revision, RunDoc(run.(status := status)));
        if run.owner.None? then Some(command.(puts := [put] + command.puts))
        else
          var release := ReleaseOwner(RecordAt(history, seenOwner, OwnerKey(run.owner.value)), run, status, seen.value.revision + 1);
          if release.None? then None else Some(command.(puts := [put, release.value] + command.puts))
    case Elsewhere(op) => None
  }

  ghost predicate ForeignOp(op: Op<Doc>) {
    op.CommitOp? ==> forall m :: m in op.tx.mutations ==> !Ours(m.record.key)
  }

  ghost function Next(digest: CommandKey -> string, history: seq<World>, a: Action): World
    requires history != []
  {
    var c := Submitted(digest, history, a);
    if c.Some? then Step(Latest(history), CommitOp(Compose(c.value)))
    else if a.Elsewhere? && ForeignOp(a.op) then Step(Latest(history), a.op)
    else Latest(history)
  }

  ghost function Play(digest: CommandKey -> string, actions: seq<Action>): (history: seq<World>)
    ensures |history| == |actions| + 1
  {
    if actions == [] then [Empty<Doc>()]
    else
      var before := Play(digest, actions[..|actions| - 1]);
      before + [Next(digest, before, actions[|actions| - 1])]
  }

  // ------------------------------------------------------------- the invariant

  /** A run that has not ended is the one its owner record names. */
  predicate RunHeld(s: World, id: string) {
    var r := Lookup(s, RunKey(id));
    r.Some? ==>
      && RunDecodes(r.value, id)
      && (r.value.payload.run.owner.Some? ==>
            var run := r.value.payload.run;
            var o := Lookup(s, OwnerKey(run.owner.value));
            && o.Some? && OwnerDecodes(o.value, run.owner.value)
            && 0 < run.generation <= o.value.payload.owner.generation
            && (run.generation == o.value.payload.owner.generation ==> o.value.payload.owner.runId == id)
            && (!Terminal(run.status) ==> run.generation == o.value.payload.owner.generation && Active(o.value.payload.owner)))
  }

  /** An owner record decodes, and the run it names was admitted under it; while
      the record is active that run has not ended. */
  predicate OwnerHolds(s: World, ref: string) {
    var o := Lookup(s, OwnerKey(ref));
    o.Some? ==>
      && OwnerDecodes(o.value, ref)
      && var owner := o.value.payload.owner;
         var r := Lookup(s, RunKey(owner.runId));
         && r.Some? && RunDecodes(r.value, owner.runId)
         && r.value.payload.run.owner == Some(ref) && r.value.payload.run.generation == owner.generation
         && r.value.payload.run.policy == owner.policy
         && (Active(owner) <==> !Terminal(r.value.payload.run.status))
  }

  /** No two runs were admitted under the same generation of an owner. */
  predicate AdmittedOnce(s: World, a: string, b: string) {
    var x, y := Lookup(s, RunKey(a)), Lookup(s, RunKey(b));
    (x.Some? && y.Some? && RunDecodes(x.value, a) && RunDecodes(y.value, b) && SameAdmission(x.value.payload.run, y.value.payload.run))
    ==> a == b
  }

  predicate SameAdmission(a: Run, b: Run) {
    a.owner.Some? && a.owner == b.owner && a.generation == b.generation
  }

  /** A receipt names the run that its command was accepted as. */
  predicate ReceiptHolds(s: World, id: string) {
    var r := Lookup(s, Key(RECEIPT, id));
    r.Some? ==>
      && r.value.payload.ReceiptDoc? && r.value.revision == 1
      && var accepted := r.value.payload.receipt.run;
         var run := Lookup(s, RunKey(accepted.id));
         && accepted.owner.Some? && accepted.status == Accepted
         && run.Some? && RunDecodes(run.value, accepted.id) && SameAdmission(run.value.payload.run, accepted)
         && run.value.payload.run.policy == accepted.policy
  }

  ghost predicate Guarded(s: World) {
    && (forall id :: RunHeld(s, id))
    && (forall ref :: OwnerHolds(s, ref))
    && (forall a, b :: AdmittedOnce(s, a, b))
    && (forall id :: ReceiptHolds(s, id))
  }

  lemma EmptyIsGuarded()
    ensures Guarded(Empty<Doc>()) && Sound(Empty<Doc>())
  {
    forall id ensures EventFits(Empty<Doc>(), id) {}
  }

  /** The invariant looks only at runs, owners and receipts. */
  lemma GuardedElsewhere(s: World, t: World)
    requires Guarded(s) && forall k :: Ours(k) ==> Lookup(t, k) == Lookup(s, k)
    ensures Guarded(t)
  {
    hide Lookup;
    forall id ensures RunHeld(t, id) { assert RunHeld(s, id); }
    forall ref ensures OwnerHolds(t, ref) { assert OwnerHolds(s, ref); }
    forall a, b ensures AdmittedOnce(t, a, b) { assert AdmittedOnce(s, a, b); }
    forall id ensures ReceiptHolds(t, id) { assert ReceiptHolds(s, id); }
  }

  // ------------------------------------------------------------------ admission

  /** A new command that acquires an owner finds it absent or released, however stale its read was. */
  lemma AcquiredWasFree(earlier: World, s: World, ref: string, runId: string, policy: string)
    requires Advances(earlier, s) && Sound(s)
    requires Acquire(Lookup(earlier, OwnerKey(ref)), ref, runId, policy).Some?
    requires var (owner, expected) := Acquire(Lookup(earlier, OwnerKey(ref)), ref, runId, policy).value;
             RevisionOf(s, OwnerKey(ref)) == expected
    ensures var (owner, expected) := Acquire(Lookup(earlier, OwnerKey(ref)), ref, runId, policy).value;
            Free(s, ref, owner.generation, expected)
  {
    var k := OwnerKey(ref);
    assert RecordFits(s, k) && RecordAdvances(earlier, s, k);
    hide GapFree, Advances;
  }

  predicate Free(s: World, ref: string, generation: nat, expected: nat) {
    var o := Lookup(s, OwnerKey(ref));
    if o.None? then generation == 1 && expected == 0
    else
      && o.value.payload.OwnerDoc? && !Active(o.value.payload.owner)
      && generation == o.value.payload.owner.generation + 1 && expected == o.value.revision
  }

  /** A fresh owned admission: one new run, one new owner generation, one receipt. */
  ghost predicate Admits(s: World, t: World, run: Run, owner: Owner, expected: nat, receiptId: string, receipt: Receipt) {
    && run.owner == Some(owner.ref) && run.generation == owner.generation && run.policy == owner.policy
    && run.status == Accepted && owner.runId == run.id && Active(owner) && receipt.run == run
    && Lookup(s, RunKey(run.id)).None? && Lookup(t, RunKey(run.id)) == Some(Record(RunKey(run.id), 1, RunDoc(run)))
    && Free(s, owner.ref, owner.generation, expected)
    && Lookup(t, OwnerKey(owner.ref)) == Some(Record(OwnerKey(owner.ref), expected + 1, OwnerDoc(owner)))
    && Lookup(s, Key(RECEIPT, receiptId)).None?
    && Lookup(t, Key(RECEIPT, receiptId)) == Some(Record(Key(RECEIPT, receiptId), 1, ReceiptDoc(receipt)))
    && forall k :: Ours(k) && k != RunKey(run.id) && k != OwnerKey(owner.ref) && k != Key(RECEIPT, receiptId) ==>
         Lookup(t, k) == Lookup(s, k)
  }

  lemma AdmitKeepsRun(s: World, t: World, run: Run, owner: Owner, expected: nat, receiptId: string, receipt: Receipt, id: string)
    requires Guarded(s) && Admits(s, t, run, owner, expected, receiptId, receipt)
    ensures RunHeld(t, id)
  {
    assert RunHeld(s, id) && OwnerHolds(s, owner.ref);
    hide Guarded, Lookup;
  }

  lemma AdmitKeepsOwner(s: World, t: World, run: Run, owner: Owner, expected: nat, receiptId: string, receipt: Receipt, ref: string)
    requires Guarded(s) && Admits(s, t, run, owner, expected, receiptId, receipt)
    ensures OwnerHolds(t, ref)
  {
    assert OwnerHolds(s, ref);
    hide Guarded, Lookup;
  }

  lemma AdmitKeepsOnce(s: World, t: World, run: Run, owner: Owner, expected: nat, receiptId: string, receipt: Receipt, a: string, b: string)
    requires Guarded(s) && Admits(s, t, run, owner, expected, receiptId, receipt)
    ensures AdmittedOnce(t, a, b)
  {
    assert AdmittedOnce(s, a, b) && RunHeld(s, a) && RunHeld(s, b) && OwnerHolds(s, owner.ref);
    hide Guarded, Lookup;
  }

  lemma AdmitKeepsReceipt(s: World, t: World, run: Run, owner: Owner, expected: nat, receiptId: string, receipt: Receipt, id: string)
    requires Guarded(s) && Admits(s, t, run, owner, expected, receiptId, receipt)
    ensures ReceiptHolds(t, id)
  {
    assert ReceiptHolds(s, id);
    hide Guarded, Lookup;
  }

  lemma AdmitKeepsGuarded(s: World, t: World, run: Run, owner: Owner, expected: nat, receiptId: string, receipt: Receipt)
    requires Guarded(s) && Admits(s, t, run, owner, expected, receiptId, receipt)
    ensures Guarded(t)
  {
    hide Admits, RunHeld, OwnerHolds, AdmittedOnce, ReceiptHolds;
    forall id ensures RunHeld(t, id) { AdmitKeepsRun(s, t, run, owner, expected, receiptId, receipt, id); }
    forall ref ensures OwnerHolds(t, ref) { AdmitKeepsOwner(s, t, run, owner, expected, receiptId, receipt, ref); }
    forall a, b ensures AdmittedOnce(t, a, b) { AdmitKeepsOnce(s, t, run, owner, expected, receiptId, receipt, a, b); }
    forall id ensures ReceiptHolds(t, id) { AdmitKeepsReceipt(s, t, run, owner, expected, receiptId, receipt, id); }
  }

  // ------------------------------------------------- a run that moves or ends

  /** A run changes its status, and if it ends it releases its owner in the same commit. */
  ghost predicate Moves(s: World, t: World, id: string, next: RunStatus) {
    var before := Lookup(s, RunKey(id));
    && before.Some? && RunDecodes(before.value, id) && !Terminal(before.value.payload.run.status)
    && var run := before.value.payload.run;
       && Lookup(t, RunKey(id)) == Some(Record(RunKey(id), before.value.revision + 1, RunDoc(run.(status := next))))
       && (if run.owner.Some? && Terminal(next) then
             var o := Lookup(s, OwnerKey(run.owner.value));
             && o.Some? && OwnerDecodes(o.value, run.owner.value) && Active(o.value.payload.owner)
             && o.value.payload.owner.runId == id && o.value.payload.owner.generation == run.generation
             && var release := Release(next, before.value.revision + 1);
                Lookup(t, OwnerKey(run.owner.value)) ==
                  Some(Record(OwnerKey(run.owner.value), o.value.revision + 1, OwnerDoc(o.value.payload.owner.(release := Some(release)))))
           else run.owner.Some? ==> Lookup(t, OwnerKey(run.owner.value)) == Lookup(s, OwnerKey(run.owner.value)))
       && forall k :: Ours(k) && k != RunKey(id) && (run.owner.Some? ==> k != OwnerKey(run.owner.value)) ==>
            Lookup(t, k) == Lookup(s, k)
  }

  lemma MoveKeepsRun(s: World, t: World, id: string, next: RunStatus, other: string)
    requires Guarded(s) && Moves(s, t, id, next)
    ensures RunHeld(t, other)
  {
    assert RunHeld(s, other) && RunHeld(s, id);
    hide Guarded, Lookup;
  }

  lemma MoveKeepsOwner(s: World, t: World, id: string, next: RunStatus, ref: string)
    requires Guarded(s) && Moves(s, t, id, next)
    ensures OwnerHolds(t, ref)
  {
    assert OwnerHolds(s, ref) && RunHeld(s, id);
    hide Guarded, Lookup;
  }

  lemma MoveKeepsOnce(s: World, t: World, id: string, next: RunStatus, a: string, b: string)
    requires Guarded(s) && Moves(s, t, id, next)
    ensures AdmittedOnce(t, a, b)
  {
    assert AdmittedOnce(s, a, b);
    hide Guarded, Lookup;
  }

  lemma MoveKeepsReceipt(s: World, t: World, id: string, next: RunStatus, receiptId: string)
    requires Guarded(s) && Moves(s, t, id, next)
    ensures ReceiptHolds(t, receiptId)
  {
    assert ReceiptHolds(s, receiptId);
    hide Guarded, Lookup;
  }

  lemma MoveKeepsGuarded(s: World, t: World, id: string, next: RunStatus)
    requires Guarded(s) && Moves(s, t, id, next)
    ensures Guarded(t)
  {
    hide Moves, RunHeld, OwnerHolds, AdmittedOnce, ReceiptHolds;
    forall other ensures RunHeld(t, other) { MoveKeepsRun(s, t, id, next, other); }
    forall ref ensures OwnerHolds(t, ref) { MoveKeepsOwner(s, t, id, next, ref); }
    forall a, b ensures AdmittedOnce(t, a, b) { MoveKeepsOnce(s, t, id, next, a, b); }
    forall receiptId ensures ReceiptHolds(t, receiptId) { MoveKeepsReceipt(s, t, id, next, receiptId); }
  }

  // ------------------------------------------------------- from commits to steps

  lemma StartPutsDistinct(digest: CommandKey -> string, request: StartRequest, acquired: Option<(Owner, nat)>)
    ensures DistinctPuts(StartCommand(digest, request, acquired).puts)
  {
  }

  lemma OwnedStartAdmits(digest: CommandKey -> string, earlier: World, s: World, request: StartRequest)
    requires Sound(s) && Advances(earlier, s) && request.owner.Some?
    requires Acquire(Lookup(earlier, OwnerKey(request.owner.value)), request.owner.value, request.runId, request.policy).Some?
    requires var acquired := Acquire(Lookup(earlier, OwnerKey(request.owner.value)), request.owner.value, request.runId, request.policy);
             Commit(s, Compose(StartCommand(digest, request, acquired))).1.Fresh?
    ensures var acquired := Acquire(Lookup(earlier, OwnerKey(request.owner.value)), request.owner.value, request.runId, request.policy);
            var c := StartCommand(digest, request, acquired);
            var t := Commit(s, Compose(c)).0;
            Admits(s, t, c.outcome.run, acquired.value.0, acquired.value.1,
                   digest(CommandKey(request.scope, request.commandId)), c.puts[3].payload.receipt)
  {
    var ref := request.owner.value;
    var acquired := Acquire(Lookup(earlier, OwnerKey(ref)), ref, request.runId, request.policy);
    var c := StartCommand(digest, request, acquired);
    var t := Commit(s, Compose(c)).0;
    StartPutsDistinct(digest, request, acquired);
    assert c.puts[0].key == RunKey(request.runId) && c.puts[2].key == OwnerKey(ref) && c.puts[3].key.kind == RECEIPT;
    StartLookups(s, c);
    hide Commit, Compose, Sound, Advances, Lookup, DistinctPuts, Acquire, OwnerDecodes;
    AcquiredWasFree(earlier, s, ref, request.runId, request.policy);
    AcquiredOwner(Lookup(earlier, OwnerKey(ref)), ref, request.runId, request.policy);
    hide Free;
  }

  lemma AcquiredOwner(seen: Option<Record<Doc>>, ref: string, runId: string, policy: string)
    requires Acquire(seen, ref, runId, policy).Some?
    ensures var o := Acquire(seen, ref, runId, policy).value.0;
            o.ref == ref && o.runId == runId && o.policy == policy && Active(o)
  {
  }

  lemma StartLookups(s: World, c: Command<Doc>)
    requires Sound(s) && |c.puts| == 4 && DistinctPuts(c.puts) && Commit(s, Compose(c)).1.Fresh?
    requires c.puts[0].expected == 0 && c.puts[3].expected == 0 && !Ours(c.puts[1].key)
    ensures var t := Commit(s, Compose(c)).0;
            && Lookup(s, c.puts[0].key).None? && Lookup(t, c.puts[0].key) == Some(Record(c.puts[0].key, 1, c.puts[0].payload))
            && RevisionOf(s, c.puts[2].key) == c.puts[2].expected
            && Lookup(t, c.puts[2].key) == Some(Record(c.puts[2].key, c.puts[2].expected + 1, c.puts[2].payload))
            && Lookup(s, c.puts[3].key).None? && Lookup(t, c.puts[3].key) == Some(Record(c.puts[3].key, 1, c.puts[3].payload))
            && forall k :: Ours(k) && k != c.puts[0].key && k != c.puts[2].key && k != c.puts[3].key ==> Lookup(t, k) == Lookup(s, k)
  {
    ComposedLookup(s, c, c.puts[0].key);
    ComposedLookup(s, c, c.puts[2].key);
    ComposedLookup(s, c, c.puts[3].key);
    AbsentAtZero(s, c.puts[0].key);
    AbsentAtZero(s, c.puts[3].key);
    hide Commit, Compose, Sound, Lookup;
    forall k | Ours(k) && k != c.puts[0].key && k != c.puts[2].key && k != c.puts[3].key
      ensures Lookup(Commit(s, Compose(c)).0, k) == Lookup(s, k)
    {
      ComposedLookup(s, c, k);
    }
  }

  lemma {:induction false} UnownedStartKeepsGuarded(digest: CommandKey -> string, s: World, request: StartRequest)
    requires Sound(s) && Guarded(s) && request.owner.None?
    requires Commit(s, Compose(StartCommand(digest, request, None))).1.Fresh?
    ensures Guarded(Commit(s, Compose(StartCommand(digest, request, None))).0)
  {
    var c := StartCommand(digest, request, None);
    var t := Commit(s, Compose(c)).0;
    StartPutsDistinct(digest, request, None);
    ComposedLookup(s, c, RunKey(request.runId));
    AbsentAtZero(s, RunKey(request.runId));
    assert c.puts[0].key == RunKey(request.runId);
    forall k | Ours(k) && k != RunKey(request.runId) ensures Lookup(t, k) == Lookup(s, k) { ComposedLookup(s, c, k); }
    hide Commit, Compose, Sound, Lookup, DistinctPuts;
    NewUnownedRun(s, t, request.runId);
  }

  lemma NewUnownedRun(s: World, t: World, id: string)
    requires Guarded(s) && Lookup(s, RunKey(id)).None?
    requires var r := Lookup(t, RunKey(id)); r.Some? && RunDecodes(r.value, id) && r.value.payload.run.owner.None?
    requires forall k :: Ours(k) && k != RunKey(id) ==> Lookup(t, k) == Lookup(s, k)
    ensures Guarded(t)
  {
    hide Lookup;
    forall other ensures RunHeld(t, other) { assert RunHeld(s, other); }
    forall ref ensures OwnerHolds(t, ref) { assert OwnerHolds(s, ref); }
    forall a, b ensures AdmittedOnce(t, a, b) { assert AdmittedOnce(s, a, b); }
    forall receiptId ensures ReceiptHolds(t, receiptId) { assert ReceiptHolds(s, receiptId); }
  }

  /** A command that writes run `id` and aggregates of other kinds moves the run it read. */
  lemma ProceedMoves(earlier: World, s: World, id: string, next: RunStatus, c: Command<Doc>, others: seq<Put<Doc>>)
    requires Sound(s) && Advances(earlier, s) && WritesElsewhere(others) && !Terminal(next)
    requires var seen := Lookup(earlier, RunKey(id));
             && seen.Some? && RunDecodes(seen.value, id) && !Terminal(seen.value.payload.run.status)
             && c.puts == [Put(RunKey(id), seen.value.revision, RunDoc(seen.value.payload.run.(status := next)))] + others
    requires Commit(s, Compose(c)).1.Fresh?
    ensures Moves(s, Commit(s, Compose(c)).0, id, next)
  {
    var t := Commit(s, Compose(c)).0;
    assert c.puts[0].key == RunKey(id);
    OneOfOurs(c.puts[0], others);
    ComposedLookup(s, c, RunKey(id));
    ReadIsCurrent(earlier, s, RunKey(id));
    forall k | Ours(k) && k != RunKey(id) ensures Lookup(t, k) == Lookup(s, k) { ComposedLookup(s, c, k); }
    hide Commit, Compose, Sound, Advances, WritesElsewhere;
  }

  lemma OneOfOurs(put: Put<Doc>, others: seq<Put<Doc>>)
    requires Ours(put.key) && WritesElsewhere(others)
    ensures DistinctPuts([put] + others)
    ensures forall i :: 0 < i < |[put] + others| ==> !Ours(([put] + others)[i].key)
  {
  }

  lemma TwoOfOurs(a: Put<Doc>, b: Put<Doc>, others: seq<Put<Doc>>)
    requires Ours(a.key) && Ours(b.key) && a.key != b.key && WritesElsewhere(others)
    ensures DistinctPuts([a, b] + others)
    ensures forall i :: 1 < i < |[a, b] + others| ==> !Ours(([a, b] + others)[i].key)
  {
  }

  lemma FinishMoves(earlierRun: World, earlierOwner: World, s: World, id: string, status: RunStatus, c: Command<Doc>, others: seq<Put<Doc>>)
    requires Sound(s) && Advances(earlierRun, s) && Advances(earlierOwner, s) && WritesElsewhere(others) && Terminal(status)
    requires var seen := Lookup(earlierRun, RunKey(id));
             && seen.Some? && RunDecodes(seen.value, id) && !Terminal(seen.value.payload.run.status)
             && seen.value.payload.run.owner.Some?
             && var run := seen.value.payload.run;
                var release := ReleaseOwner(Lookup(earlierOwner, OwnerKey(run.owner.value)), run, status, seen.value.revision + 1);
                && release.Some?
                && c.puts == [Put(RunKey(id), seen.value.revision, RunDoc(run.(status := status))), release.value] + others
    requires Commit(s, Compose(c)).1.Fresh?
    ensures Moves(s, Commit(s, Compose(c)).0, id, status)
  {
    var t := Commit(s, Compose(c)).0;
    var ref := Lookup(earlierRun, RunKey(id)).value.payload.run.owner.value;
    assert c.puts[0].key == RunKey(id) && c.puts[1].key == OwnerKey(ref);
    TwoOfOurs(c.puts[0], c.puts[1], others);
    ComposedLookup(s, c, RunKey(id));
    ReadIsCurrent(earlierRun, s, RunKey(id));
    ComposedLookup(s, c, OwnerKey(ref));
    ReadIsCurrent(earlierOwner, s, OwnerKey(ref));
    forall k | Ours(k) && k != RunKey(id) && k != OwnerKey(ref) ensures Lookup(t, k) == Lookup(s, k) { ComposedLookup(s, c, k); }
    hide Commit, Compose, Sound, Advances, WritesElsewhere, DistinctPuts;
  }

  lemma UnownedFinishMoves(earlier: World, s: World, id: string, status: RunStatus, c: Command<Doc>, others: seq<Put<Doc>>)
    requires Sound(s) && Advances(earlier, s) && WritesElsewhere(others) && Terminal(status)
    requires var seen := Lookup(earlier, RunKey(id));
             && seen.Some? && RunDecodes(seen.value, id) && !Terminal(seen.value.payload.run.status)
             && seen.value.payload.run.owner.None?
             && c.puts == [Put(RunKey(id), seen.value.revision, RunDoc(seen.value.payload.run.(status := status)))] + others
    requires Commit(s, Compose(c)).1.Fresh?
    ensures Moves(s, Commit(s, Compose(c)).0, id, status)
  {
    var t := Commit(s, Compose(c)).0;
    assert c.puts[0].key == RunKey(id);
    OneOfOurs(c.puts[0], others);
    ComposedLookup(s, c, RunKey(id));
    ReadIsCurrent(earlier, s, RunKey(id));
    forall k | Ours(k) && k != RunKey(id) ensures Lookup(t, k) == Lookup(s, k) { ComposedLookup(s, c, k); }
    hide Commit, Compose, Sound, Advances, WritesElsewhere;
  }

  lemma ElsewhereKeepsGuarded(s: World, op: Op<Doc>)
    requires Sound(s) && Guarded(s) && ForeignOp(op)
    ensures Guarded(Step(s, op))
  {
    var t := Step(s, op);
    if op.CommitOp? {
      CommitUnlessFresh(s, op.tx);
      if Commit(s, op.tx).1.Fresh? {
        FreshIsAdmissible(s, op.tx);
        hide Admissible, Guarded, Commit, Applied;
        forall k | Ours(k) ensures Lookup(t, k) == Lookup(s, k) {
          CommitRevision(s, op.tx, k);
          NotMutated(op.tx, k);
          LookupApplied(s, op.tx, t, k);
        }
        GuardedElsewhere(s, t);
      }
    } else {
      hide Guarded;
      GuardedElsewhere(s, t);
    }
  }

  lemma NextKeepsGuarded(digest: CommandKey -> string, history: seq<World>, a: Action)
    requires history != [] && Ordered(history) && Guarded(Latest(history))
    ensures Guarded(Next(digest, history, a))
  {
    var s := Latest(history);
    var submitted := Submitted(digest, history, a);
    hide Guarded, Advances, Sound;
    if submitted.None? {
      if a.Elsewhere? && ForeignOp(a.op) { ElsewhereKeepsGuarded(s, a.op); }
    } else {
      var c := submitted.value;
      CommitUnlessFresh(s, Compose(c));
      if Commit(s, Compose(c)).1.Fresh? {
        hide Commit, Compose;
        match a {
          case Start(request, seenOwner, seenReceipt) => StartKeepsGuarded(digest, history, request, seenOwner, seenReceipt);
          case Proceed(runId, seenRun, next, command) =>
            ProceedMoves(history[seenRun], s, runId, next, c, command.puts);
            MoveKeepsGuarded(s, Commit(s, Compose(c)).0, runId, next);
          case Finish(runId, seenRun, seenOwner, status, command) =>
            FinishKeepsGuarded(digest, history, runId, seenRun, seenOwner, status, command);
        }
      }
    }
  }

  lemma FinishKeepsGuarded(
    digest: CommandKey -> string, history: seq<World>, runId: string, seenRun: nat, seenOwner: nat, status: RunStatus, command: Command<Doc>)
    requires history != [] && Ordered(history) && Guarded(Latest(history))
    requires var c := Submitted(digest, history, Finish(runId, seenRun, seenOwner, status, command));
             c.Some? && Commit(Latest(history), Compose(c.value)).1.Fresh?
    ensures var c := Submitted(digest, history, Finish(runId, seenRun, seenOwner, status, command));
            Guarded(Commit(Latest(history), Compose(c.value)).0)
  {
    var s := Latest(history);
    var c := Submitted(digest, history, Finish(runId, seenRun, seenOwner, status, command)).value;
    hide Guarded, Advances, Sound, Commit, Compose, WritesElsewhere;
    if RecordAt(history, seenRun, RunKey(runId)).value.payload.run.owner.None? {
      UnownedFinishMoves(history[seenRun], s, runId, status, c, command.puts);
    } else {
      FinishMoves(history[seenRun], history[seenOwner], s, runId, status, c, command.puts);
    }
    hide Submitted, Moves;
    MoveKeepsGuarded(s, Commit(s, Compose(c)).0, runId, status);
  }

  lemma StartKeepsGuarded(digest: CommandKey -> string, history: seq<World>, request: StartRequest, seenOwner: nat, seenReceipt: nat)
    requires history != [] && Ordered(history) && Guarded(Latest(history))
    requires var c := Submitted(digest, history, Start(request, seenOwner, seenReceipt));
             c.Some? && Commit(Latest(history), Compose(c.value)).1.Fresh?
    ensures var c := Submitted(digest, history, Start(request, seenOwner, seenReceipt));
            Guarded(Commit(Latest(history), Compose(c.value)).0)
  {
    var s := Latest(history);
    hide Guarded, Advances, Sound, Commit, Compose;
    if request.owner.None? {
      UnownedStartKeepsGuarded(digest, s, request);
    } else {
      var ref := request.owner.value;
      var earlier := if seenOwner < |history| then history[seenOwner] else Empty();
      EmptyAdvances(s);
      OwnedStartAdmits(digest, earlier, s, request);
      var acquired := Acquire(Lookup(earlier, OwnerKey(ref)), ref, request.runId, request.policy);
      var c := StartCommand(digest, request, acquired);
      AdmitKeepsGuarded(s, Commit(s, Compose(c)).0, c.outcome.run, acquired.value.0, acquired.value.1,
                        digest(CommandKey(request.scope, request.commandId)), c.puts[3].payload.receipt);
    }
  }

  lemma EmptyAdvances(s: World)
    ensures Advances(Empty(), s)
  {
  }

  /** Whatever controllers do, however stale their reads and however they interleave,
      every state they reach keeps the invariant. */
  lemma {:induction false} PlayKeepsGuarded(digest: CommandKey -> string, actions: seq<Action>)
    ensures Ordered(Play(digest, actions)) && Guarded(Latest(Play(digest, actions)))
  {
    var history := Play(digest, actions);
    hide Guarded, Advances, Sound;
    if actions == [] {
      EmptyIsGuarded();
      AdvancesIsReflexive(Empty<Doc>());
    } else {
      var before, a := Play(digest, actions[..|actions| - 1]), actions[|actions| - 1];
      PlayKeepsGuarded(digest, actions[..|actions| - 1]);
      NextKeepsGuarded(digest, before, a);
      NextIsAStep(digest, before, a);
    }
  }

  lemma NextIsAStep(digest: CommandKey -> string, history: seq<World>, a: Action)
    requires history != [] && Ordered(history)
    ensures Ordered(history + [Next(digest, history, a)])
  {
    var s := Latest(history);
    hide Step, Ordered;
    var c := Submitted(digest, history, a);
    if c.Some? {
      OrderedGrows(history, CommitOp(Compose(c.value)));
    } else if a.Elsewhere? && ForeignOp(a.op) {
      OrderedGrows(history, a.op);
    } else {
      OrderedGrows(history, ClaimOp({}, Lease("", "", 0), 0));
      IdleStep(s);
    }
  }

  // ------------------------------------------------------------- main results

  ghost function Reached(digest: CommandKey -> string, actions: seq<Action>): World {
    Latest(Play(digest, actions))
  }

  predicate OpenUnder(s: World, id: string, ref: string) {
    var r := Lookup(s, RunKey(id));
    r.Some? && RunDecodes(r.value, id) && r.value.payload.run.owner == Some(ref) && !Terminal(r.value.payload.run.status)
  }

  predicate OwnerActive(s: World, ref: string) {
    var o := Lookup(s, OwnerKey(ref));
    o.Some? && o.value.payload.OwnerDoc? && Active(o.value.payload.owner)
  }

  /** At most one run of an owner is open. */
  lemma SingleActiveRun(digest: CommandKey -> string, actions: seq<Action>, ref: string, a: string, b: string)
    requires OpenUnder(Reached(digest, actions), a, ref) && OpenUnder(Reached(digest, actions), b, ref)
    ensures a == b
  {
    var s := Reached(digest, actions);
    PlayKeepsGuarded(digest, actions);
    assert RunHeld(s, a) && RunHeld(s, b);
    hide Guarded, Reached;
  }

  /** The owner record decodes; it is active exactly while some run of it is open,
      and then it names that run and its generation. */
  lemma OwnerRecordIsTruthful(digest: CommandKey -> string, actions: seq<Action>, ref: string)
    requires Lookup(Reached(digest, actions), OwnerKey(ref)).Some?
    ensures var s := Reached(digest, actions);
            var r := Lookup(s, OwnerKey(ref)).value;
            && OwnerDecodes(r, ref)
            && r.revision == (if Active(r.payload.owner) then 2 * r.payload.owner.generation - 1 else 2 * r.payload.owner.generation)
            && (Active(r.payload.owner) <==> OpenUnder(s, r.payload.owner.runId, ref))
            && forall id :: OpenUnder(s, id, ref) ==>
                 Active(r.payload.owner) && r.payload.owner.runId == id
                 && Lookup(s, RunKey(id)).value.payload.run.generation == r.payload.owner.generation
  {
    var s := Reached(digest, actions);
    PlayKeepsGuarded(digest, actions);
    assert OwnerHolds(s, ref);
    forall id | OpenUnder(s, id, ref)
      ensures var o := Lookup(s, OwnerKey(ref)).value.payload.owner;
              Active(o) && o.runId == id && Lookup(s, RunKey(id)).value.payload.run.generation == o.generation
    {
      assert RunHeld(s, id);
    }
    hide Guarded, Reached, Lookup;
  }

  /** A new command never displaces an active owner, whatever it read before. */
  lemma ActiveOwnerIsNotDisplaced(digest: CommandKey -> string, actions: seq<Action>, request: StartRequest, seenOwner: nat, seenReceipt: nat)
    requires request.owner.Some? && OwnerActive(Reached(digest, actions), request.owner.value)
    ensures var c := Submitted(digest, Play(digest, actions), Start(request, seenOwner, seenReceipt));
            c.Some? ==> !Commit(Reached(digest, actions), Compose(c.value)).1.Fresh?
  {
    var history, s := Play(digest, actions), Reached(digest, actions);
    PlayKeepsGuarded(digest, actions);
    var c := Submitted(digest, history, Start(request, seenOwner, seenReceipt));
    hide Guarded, Advances, Sound, Commit, Compose;
    if c.Some? && Commit(s, Compose(c.value)).1.Fresh? {
      var earlier := if seenOwner < |history| then history[seenOwner] else Empty();
      EmptyAdvances(s);
      OwnedStartAdmits(digest, earlier, s, request);
    }
  }

  /** A new owned command that read the owner record last succeeds exactly if its run
      identity and command are new and the owner is not active. */
  lemma StartSucceedsExactly(digest: CommandKey -> string, actions: seq<Action>, request: StartRequest)
    requires request.owner.Some?
    requires CommandKey(request.scope, request.commandId) !in Reached(digest, actions).commands
    requires Lookup(Reached(digest, actions), ReceiptKey(digest, CommandKey(request.scope, request.commandId))).None?
    ensures var c := Submitted(digest, Play(digest, actions), Start(request, |actions|, |actions|));
            c.Some? && (Commit(Reached(digest, actions), Compose(c.value)).1.Fresh? <==> CanStart(Reached(digest, actions), request))
  {
    hide *;
    ReachedIsLatest(digest, actions);
    PlayKeepsGuarded(digest, actions);
    StartFromLatest(digest, Play(digest, actions), request, |actions|);
  }

  lemma ReachedIsLatest(digest: CommandKey -> string, actions: seq<Action>)
    ensures |Play(digest, actions)| == |actions| + 1 && Reached(digest, actions) == Latest(Play(digest, actions))
  {
  }

  /** The run identity is new and the owner is free. */
  predicate CanStart(s: World, request: StartRequest)
    requires request.owner.Some?
  {
    && Lookup(s, RunKey(request.runId)).None? && Lookup(s, Key("run-snapshot", request.runId)).None?
    && !OwnerActive(s, request.owner.value)
  }

  lemma StartFromLatest(digest: CommandKey -> string, history: seq<World>, request: StartRequest, last: nat)
    requires |history| == last + 1 && Ordered(history) && Guarded(Latest(history)) && request.owner.Some?
    requires CommandKey(request.scope, request.commandId) !in Latest(history).commands
    requires Lookup(Latest(history), ReceiptKey(digest, CommandKey(request.scope, request.commandId))).None?
    ensures var c := Submitted(digest, history, Start(request, last, last));
            c.Some? && (Commit(Latest(history), Compose(c.value)).1.Fresh? <==> CanStart(Latest(history), request))
  {
    var s, ref := Latest(history), request.owner.value;
    AcquireFromCurrent(s, ref, request.runId, request.policy);
    var acquired := Acquire(Lookup(s, OwnerKey(ref)), ref, request.runId, request.policy);
    var c := StartCommand(digest, request, acquired);
    SubmittedFromCurrent(digest, history, request, last);
    StartPutsDistinct(digest, request, acquired);
    assert CommandKey(c.scope, c.id) !in s.commands;
    assert Sound(s);
    hide *;
    SoundIsGapFree(s);
    ComposedAdmissible(s, c);
    StartCurrent(digest, s, request, acquired.value);
    FreshExactly(s, c);
  }

  lemma SoundIsGapFree(s: World)
    requires Sound(s)
    ensures GapFree(s)
  {
  }

  lemma AcquireFromCurrent(s: World, ref: string, runId: string, policy: string)
    requires Guarded(s)
    ensures var o := Lookup(s, OwnerKey(ref));
            var acquired := Acquire(o, ref, runId, policy);
            && acquired.Some? && acquired.value.0.ref == ref
            && (o.Some? ==> o.value.payload.OwnerDoc?)
            && acquired.value.1 == (if o.None? || OwnerActive(s, ref) then 0 else o.value.revision)
  {
    assert OwnerHolds(s, ref);
    hide Guarded, Lookup;
  }

  lemma SubmittedFromCurrent(digest: CommandKey -> string, history: seq<World>, request: StartRequest, last: nat)
    requires last < |history| && request.owner.Some?
    requires Lookup(history[last], ReceiptKey(digest, CommandKey(request.scope, request.commandId))).None?
    requires Acquire(Lookup(history[last], OwnerKey(request.owner.value)), request.owner.value, request.runId, request.policy).Some?
    ensures Submitted(digest, history, Start(request, last, last)) ==
            Some(StartCommand(digest, request,
                   Acquire(Lookup(history[last], OwnerKey(request.owner.value)), request.owner.value, request.runId, request.policy)))
  {
    hide Acquire, StartCommand, Lookup;
  }

  lemma FreshExactly(s: World, c: Command<Doc>)
    requires CommandKey(c.scope, c.id) !in s.commands
    ensures Commit(s, Compose(c)).1.Fresh? <==> Admissible(s, Compose(c))
  {
    hide Admissible;
  }

  lemma AbsentExactly(s: World, k: Key)
    requires Sound(s)
    ensures RevisionOf(s, k) == 0 <==> Lookup(s, k).None?
  {
    assert RecordFits(s, k);
  }

  lemma StartCurrent(digest: CommandKey -> string, s: World, request: StartRequest, acquired: (Owner, nat))
    requires Sound(s) && request.owner.Some? && acquired.0.ref == request.owner.value
    requires Lookup(s, ReceiptKey(digest, CommandKey(request.scope, request.commandId))).None?
    requires var o := Lookup(s, OwnerKey(request.owner.value));
             acquired.1 == (if o.None? || OwnerActive(s, request.owner.value) then 0 else o.value.revision)
    requires var o := Lookup(s, OwnerKey(request.owner.value)); o.Some? ==> o.value.payload.OwnerDoc?
    ensures var c := StartCommand(digest, request, Some(acquired));
            (Current(s, c.puts) && IntentsAccepted(s, c.intents, c.at)) <==>
            CanStart(s, request)
  {
    var c := StartCommand(digest, request, Some(acquired));
    var ref := request.owner.value;
    AbsentExactly(s, RunKey(request.runId));
    AbsentExactly(s, Key("run-snapshot", request.runId));
    AbsentExactly(s, OwnerKey(ref));
    AbsentExactly(s, ReceiptKey(digest, CommandKey(request.scope, request.commandId)));
    assert IntentsAccepted(s, c.intents, c.at);
    CurrentFour(s, c.puts);
    assert c.puts[2].key == OwnerKey(ref) && c.puts[2].expected == acquired.1;
    hide Sound, Lookup, Current;
  }

  lemma CurrentFour(s: World, puts: seq<Put<Doc>>)
    requires |puts| == 4
    ensures Current(s, puts) <==>
            && RevisionOf(s, puts[0].key) == puts[0].expected && RevisionOf(s, puts[1].key) == puts[1].expected
            && RevisionOf(s, puts[2].key) == puts[2].expected && RevisionOf(s, puts[3].key) == puts[3].expected
  {
    hide RevisionOf;
  }

  /** A receipt never changes and never goes away. */
  lemma ReceiptIsPermanent(digest: CommandKey -> string, actions: seq<Action>, more: seq<Action>, id: string)
    requires Lookup(Reached(digest, actions), Key(RECEIPT, id)).Some?
    ensures Lookup(Reached(digest, actions + more), Key(RECEIPT, id)) == Lookup(Reached(digest, actions), Key(RECEIPT, id))
  {
    var s, t := Reached(digest, actions), Reached(digest, actions + more);
    PlayKeepsGuarded(digest, actions);
    PlayKeepsGuarded(digest, actions + more);
    assert ReceiptHolds(s, id) && ReceiptHolds(t, id);
    PlayExtends(digest, actions, more);
    assert Advances(s, t);
    assert RecordAdvances(s, t, Key(RECEIPT, id));
    hide Guarded, Ordered, Advances, Play;
  }

  datatype Answer = Replayed(run: Run) | IdentityConflict | Corrupt

  /** What invoke answers from the receipt of a command, where there is one. */
  function AnswerFrom(s: World, digest: CommandKey -> string, request: StartRequest): Option<Answer> {
    var r := Lookup(s, ReceiptKey(digest, CommandKey(request.scope, request.commandId)));
    if r.None? then None
    else if !r.value.payload.ReceiptDoc? || r.value.payload.receipt.command != CommandKey(request.scope, request.commandId) then
      Some(Corrupt)
    else if r.value.payload.receipt.identity != request.identity then Some(Answer.IdentityConflict)
    else Some(Answer.Replayed(r.value.payload.receipt.run))
  }

  /** An accepted owned command leaves a receipt for good: whatever happens later, its
      repetition is answered with the run it started, and the same command with
      another request is an identity conflict. */
  lemma AcceptedStartIsAnswered(
      digest: CommandKey -> string, actions: seq<Action>, request: StartRequest, seenOwner: nat, seenReceipt: nat,
      more: seq<Action>, again: StartRequest)
    requires request.owner.Some? && again.scope == request.scope && again.commandId == request.commandId
    requires var c := Submitted(digest, Play(digest, actions), Start(request, seenOwner, seenReceipt));
             c.Some? && Commit(Reached(digest, actions), Compose(c.value)).1.Fresh?
    ensures var s := Reached(digest, actions + [Start(request, seenOwner, seenReceipt)] + more);
            var answer := AnswerFrom(s, digest, again);
            && answer.Some?
            && (again.identity != request.identity ==> answer.value.IdentityConflict?)
            && (again.identity == request.identity ==>
                  && answer.value.Replayed? && answer.value.run.id == request.runId && answer.value.run.owner == request.owner
                  && var run := Lookup(s, RunKey(request.runId));
                     run.Some? && RunDecodes(run.value, request.runId) && SameAdmission(run.value.payload.run, answer.value.run))
  {
    hide *;
    var a := Start(request, seenOwner, seenReceipt);
    var id := digest(CommandKey(request.scope, request.commandId));
    var s := Reached(digest, actions + [a] + more);
    PlayKeepsGuarded(digest, actions + [a] + more);
    ReachedIsLatest(digest, actions + [a] + more);
    ReceiptIsLeft(digest, actions, request, seenOwner, seenReceipt);
    ReceiptIsPermanent(digest, actions + [a], more, id);
    AnsweredFrom(s, digest, request, again);
  }

  lemma ReceiptIsLeft(digest: CommandKey -> string, actions: seq<Action>, request: StartRequest, seenOwner: nat, seenReceipt: nat)
    requires request.owner.Some?
    requires var c := Submitted(digest, Play(digest, actions), Start(request, seenOwner, seenReceipt));
             c.Some? && Commit(Reached(digest, actions), Compose(c.value)).1.Fresh?
    ensures var t := Reached(digest, actions + [Start(request, seenOwner, seenReceipt)]);
            var r := Lookup(t, Key(RECEIPT, digest(CommandKey(request.scope, request.commandId))));
            r.Some? && LeavesReceipt(r, request)
  {
    hide *;
    var history, s := Play(digest, actions), Reached(digest, actions);
    PlayKeepsGuarded(digest, actions);
    ReachedIsLatest(digest, actions);
    StartPlayed(digest, actions, request, seenOwner, seenReceipt);
    StartReads(digest, history, request, seenOwner, seenReceipt);
    var earlier := if seenOwner < |history| then history[seenOwner] else Empty();
    EarlierAdvances(history, seenOwner);
    OwnedStartAdmits(digest, earlier, s, request);
    StartLeaves(digest, earlier, s, request);
  }

  predicate LeavesReceipt(r: Option<Record<Doc>>, request: StartRequest) {
    && r.Some? && r.value.payload.ReceiptDoc?
    && var receipt := r.value.payload.receipt;
       && receipt.command == CommandKey(request.scope, request.commandId) && receipt.identity == request.identity
       && receipt.run.id == request.runId && receipt.run.owner == request.owner
  }

  lemma StartPlayed(digest: CommandKey -> string, actions: seq<Action>, request: StartRequest, seenOwner: nat, seenReceipt: nat)
    requires Submitted(digest, Play(digest, actions), Start(request, seenOwner, seenReceipt)).Some?
    ensures var a := Start(request, seenOwner, seenReceipt);
            Reached(digest, actions + [a]) ==
              Commit(Reached(digest, actions), Compose(Submitted(digest, Play(digest, actions), a).value)).0
  {
    hide Submitted, Commit, Compose;
    var a := Start(request, seenOwner, seenReceipt);
    assert (actions + [a])[..|actions|] == actions;
  }

  lemma StartReads(digest: CommandKey -> string, history: seq<World>, request: StartRequest, seenOwner: nat, seenReceipt: nat)
    requires request.owner.Some? && Submitted(digest, history, Start(request, seenOwner, seenReceipt)).Some?
    ensures var earlier := if seenOwner < |history| then history[seenOwner] else Empty();
            var acquired := Acquire(Lookup(earlier, OwnerKey(request.owner.value)), request.owner.value, request.runId, request.policy);
            acquired.Some?
            && Submitted(digest, history, Start(request, seenOwner, seenReceipt)) == Some(StartCommand(digest, request, acquired))
  {
    hide Acquire, StartCommand;
  }

  lemma EarlierAdvances(history: seq<World>, seen: nat)
    requires history != [] && Ordered(history)
    ensures Advances(if seen < |history| then history[seen] else Empty(), Latest(history)) && Sound(Latest(history))
  {
    EmptyAdvances(Latest(history));
    hide Advances, Sound;
  }

  lemma StartLeaves(digest: CommandKey -> string, earlier: World, s: World, request: StartRequest)
    requires request.owner.Some?
    requires var acquired := Acquire(Lookup(earlier, OwnerKey(request.owner.value)), request.owner.value, request.runId, request.policy);
             && acquired.Some?
             && var c := StartCommand(digest, request, acquired);
                Admits(s, Commit(s, Compose(c)).0, c.outcome.run, acquired.value.0, acquired.value.1,
                       digest(CommandKey(request.scope, request.commandId)), c.puts[3].payload.receipt)
    ensures var acquired := Acquire(Lookup(earlier, OwnerKey(request.owner.value)), request.owner.value, request.runId, request.policy);
            var t := Commit(s, Compose(StartCommand(digest, request, acquired))).0;
            var r := Lookup(t, Key(RECEIPT, digest(CommandKey(request.scope, request.commandId))));
            r.Some? && LeavesReceipt(r, request)
  {
    hide Acquire, Commit, Compose, Lookup, Free, Active;
  }

  lemma AnsweredFrom(s: World, digest: CommandKey -> string, request: StartRequest, again: StartRequest)
    requires Guarded(s) && again.scope == request.scope && again.commandId == request.commandId
    requires LeavesReceipt(Lookup(s, Key(RECEIPT, digest(CommandKey(request.scope, request.commandId)))), request)
    ensures var answer := AnswerFrom(s, digest, again);
            && answer.Some?
            && (again.identity != request.identity ==> answer.value.IdentityConflict?)
            && (again.identity == request.identity ==>
                  && answer.value.Replayed? && answer.value.run.id == request.runId && answer.value.run.owner == request.owner
                  && var run := Lookup(s, RunKey(request.runId));
                     run.Some? && RunDecodes(run.value, request.runId) && SameAdmission(run.value.payload.run, answer.value.run))
  {
    assert ReceiptHolds(s, digest(CommandKey(request.scope, request.commandId)));
    hide Guarded, Lookup;
  }

  lemma {:induction false} PlayExtends(digest: CommandKey -> string, actions: seq<Action>, more: seq<Action>)
    ensures |Play(digest, actions)| <= |Play(digest, actions + more)|
    ensures Play(digest, actions) == Play(digest, actions + more)[..|actions| + 1]
  {
    hide Next;
    if more == [] {
      assert actions + more == actions;
    } else {
      var front := more[..|more| - 1];
      PlayExtends(digest, actions, front);
      assert (actions + more)[..|actions + more| - 1] == actions + front;
    }
  }
}
