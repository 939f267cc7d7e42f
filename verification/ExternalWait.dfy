/** External wait resolution: concurrent callers that read stale receipts and index
    records and try to consume one occurrence of a wait. The checks of the run, the
    snapshot and the invocation, and what node resumption computes, are the other
    aggregates a commit writes. */
module ExternalWait {
  import opened Prelude
  import opened Store
  import opened Protocol

  datatype Occurrence = Occurrence(runId: string, invocationId: string, generation: nat)

  datatype Status = Succeeded | Failed | Canceled

  /** The fields of a payload, with their canonical texts. */
  type Fields = map<string, string>

  /** The request as far as its identity goes. A payload without fields is not the
      same as none; the body of a failure is opaque. */
  datatype Request = Request(
    occurrence: Occurrence, subject: string, condition: string, status: Status,
    payload: Option<Fields>, artifact: Option<string>, failure: Option<string>, observedAt: int, commandId: string)

  /** validateExternalWaitRequestEvidence. */
  predicate Evident(r: Request) {
    match r.status
    case Succeeded => r.payload.Some? && r.failure.None?
    case Failed => r.payload.None? && r.artifact.None? && r.failure.Some?
    case Canceled => r.payload.None? && r.artifact.None? && r.failure.None?
  }

  datatype Receipt = Receipt(scope: Scope, request: Request, payloadDigest: string, identity: string, effectWait: bool)

  datatype Consumption = Consumption(scope: Scope, occurrence: Occurrence, commandId: string, identity: string)

  datatype Doc = ReceiptDoc(receipt: Receipt) | ConsumptionDoc(consumption: Consumption) | OtherDoc(text: string)

  type World = State<Doc>

  /** The digests that make keys and identities, and the command scope of a run. */
  datatype Digests = Digests(
    command: CommandKey -> string, occurrence: Occurrence -> string, request: Request -> string, payload: Fields -> string,
    scope: string -> Scope)

  function PayloadDigest(d: Digests, r: Request): string {
    if r.payload.Some? then d.payload(r.payload.value) else ""
  }

  ghost predicate Injective(d: Digests) {
    && (forall a, b :: d.command(a) == d.command(b) ==> a == b)
    && (forall a, b :: d.occurrence(a) == d.occurrence(b) ==> a == b)
    && (forall a, b :: d.request(a) == d.request(b) ==> a == b)
  }

  const RESOLUTION := "external-wait-resolution"
  const OCCURRENCE := "external-wait-occurrence"

  function ReceiptKey(d: Digests, scope: Scope, commandId: string): Key {
    Key(RESOLUTION, d.command(CommandKey(scope, commandId)))
  }

  function OccurrenceKey(d: Digests, o: Occurrence): Key {
    Key(OCCURRENCE, d.occurrence(o))
  }

  predicate Ours(k: Key) {
    k.kind in {RESOLUTION, OCCURRENCE}
  }

  // ------------------------------------------------------------------ encoding

  /** What is stored of a receipt: its encoding omits a payload that has no fields. */
  function Stored(r: Receipt): Receipt {
    if r.request.payload == Some(map[]) then r.(request := r.request.(payload := None)) else r
  }

  /** The receipt of an accepted request, as it is stored. */
  function ReceiptOf(d: Digests, r: Request): Receipt {
    Stored(Receipt(d.scope(r.occurrence.runId), r, PayloadDigest(d, r), d.request(r), false))
  }

  function ConsumptionOf(d: Digests, r: Request): Consumption {
    Consumption(d.scope(r.occurrence.runId), r.occurrence, r.commandId, d.request(r))
  }

  /** The guard of the branch that goes wrong: a success whose payload has no fields. */
  predicate EmptySuccess(r: Request) {
    r.status == Succeeded && r.payload == Some(map[])
  }

  /** The accepted request behind a stored one: a success never came without payload. */
  function Accepted(stored: Request): Request {
    if stored.status == Succeeded && stored.payload.None? then stored.(payload := Some(map[])) else stored
  }

  lemma AcceptedIsStored(d: Digests, r: Request)
    requires Evident(r)
    ensures Accepted(ReceiptOf(d, r).request) == r
  {
  }

  // ------------------------------------------------------------------- reading

  /** getExternalWaitReceipt: revision one, and a receipt whose evidence and digests check out. */
  predicate ReceiptDecodes(d: Digests, r: Record<Doc>, scope: Scope) {
    && r.revision == 1 && r.payload.ReceiptDoc? && r.payload.receipt.scope == scope && !r.payload.receipt.effectWait
    && Evident(r.payload.receipt.request) && r.payload.receipt.identity == d.request(r.payload.receipt.request)
    && r.payload.receipt.payloadDigest == PayloadDigest(d, r.payload.receipt.request)
  }

  predicate ConsumptionDecodes(r: Record<Doc>) {
    r.revision == 1 && r.payload.ConsumptionDoc?
  }

  datatype Answer = Absent | Corrupt | OtherRequest | Replay | Consumed

  function Read(history: seq<World>, i: nat, k: Key): Option<Record<Doc>> {
    if i < |history| then Lookup(history[i], k) else None
  }

  /** The receipt of the request's command, read at `i`, and the occurrence it must
      have consumed, read at `j`. */
  function ConsultReceipt(d: Digests, history: seq<World>, request: Request, i: nat, j: nat): Answer {
    var scope := d.scope(request.occurrence.runId);
    var found := Read(history, i, ReceiptKey(d, scope, request.commandId));
    if found.None? then Absent
    else if !ReceiptDecodes(d, found.value, scope) then Corrupt
    else
      var receipt := found.value.payload.receipt;
      if receipt.identity != d.request(request) then OtherRequest
      else
        // verifyExternalWaitOccurrence
        var index := Read(history, j, OccurrenceKey(d, receipt.request.occurrence));
        if index.None? || !ConsumptionDecodes(index.value) then Corrupt
        else
          var c := index.value.payload.consumption;
          if c.occurrence == receipt.request.occurrence && c.commandId == receipt.request.commandId
             && c.scope == receipt.scope && c.identity == receipt.identity
          then Replay else Corrupt
  }

  /** The index record of the occurrence, read at `i`, and the receipt behind it, read at `j`. */
  function ConsultOccurrence(d: Digests, history: seq<World>, request: Request, i: nat, j: nat): Answer {
    var found := Read(history, i, OccurrenceKey(d, request.occurrence));
    if found.None? then Absent
    else if !ConsumptionDecodes(found.value) then Corrupt
    else
      // verifyExternalWaitConsumption
      var c := found.value.payload.consumption;
      var receipt := Read(history, j, ReceiptKey(d, c.scope, c.commandId));
      if receipt.None? || !ReceiptDecodes(d, receipt.value, c.scope) then Corrupt
      else if receipt.value.payload.receipt.request.occurrence == c.occurrence && receipt.value.payload.receipt.identity == c.identity
      then Consumed else Corrupt
  }

  // ------------------------------------------------------------------- writing

  /** One caller: it consulted receipt and occurrence at these times, found neither,
      and commits with `others`, what it changes of run, invocation and snapshot. */
  datatype Action =
    | Resolve(request: Request, seenReceipt: nat, seenOccurrence: nat, others: seq<Put<Doc>>, intents: seq<IntentSeed>, outcome: Doc, at: int)
    | Elsewhere(op: Op<Doc>)

  ghost predicate WritesElsewhere(puts: seq<Put<Doc>>) {
    DistinctPuts(puts) && forall i :: 0 <= i < |puts| ==> !Ours(puts[i].key)
  }

  function ResolveCommand(d: Digests, a: Action): Command<Doc>
    requires a.Resolve?
  {
    var scope, identity := d.scope(a.request.occurrence.runId), d.request(a.request);
    Command(scope, a.request.commandId, identity,
            [Put(ReceiptKey(d, scope, a.request.commandId), 0, ReceiptDoc(ReceiptOf(d, a.request))),
             Put(OccurrenceKey(d, a.request.occurrence), 0,
                 ConsumptionDoc(ConsumptionOf(d, a.request)))] + a.others,
            a.intents, a.outcome, a.at)
  }

  ghost predicate Submits(d: Digests, history: seq<World>, a: Action) {
    && a.Resolve? && Evident(a.request) && WritesElsewhere(a.others)
    && Read(history, a.seenReceipt, ReceiptKey(d, d.scope(a.request.occurrence.runId), a.request.commandId)).None?
    && Read(history, a.seenOccurrence, OccurrenceKey(d, a.request.occurrence)).None?
  }

  ghost predicate ForeignOp(op: Op<Doc>) {
    op.CommitOp? ==> forall m :: m in op.tx.mutations ==> !Ours(m.record.key)
  }

  ghost function Next(d: Digests, history: seq<World>, a: Action): World
    requires history != []
  {
    if Submits(d, history, a) then Step(Latest(history), CommitOp(Compose(ResolveCommand(d, a))))
    else if a.Elsewhere? && ForeignOp(a.op) then Step(Latest(history), a.op)
    else Latest(history)
  }

  ghost function Play(d: Digests, actions: seq<Action>): (history: seq<World>)
    ensures |history| == |actions| + 1
  {
    if actions == [] then [Empty<Doc>()]
    else
      var before := Play(d, actions[..|actions| - 1]);
      before + [Next(d, before, actions[|actions| - 1])]
  }

  // ------------------------------------------------------------- the invariant

  /** A receipt is that of an accepted request, under its own key, and the occurrence names it. */
  predicate ReceiptBacked(d: Digests, s: World, id: string) {
    var r := Lookup(s, Key(RESOLUTION, id));
    r.Some? ==>
      && r.value.revision == 1 && r.value.payload.ReceiptDoc?
      && var request := Accepted(r.value.payload.receipt.request);
         && Evident(request) && r.value.payload.receipt == ReceiptOf(d, request)
         && id == d.command(CommandKey(d.scope(request.occurrence.runId), request.commandId))
         && var c := Lookup(s, OccurrenceKey(d, request.occurrence));
            c.Some? && c.value.revision == 1 && c.value.payload == ConsumptionDoc(ConsumptionOf(d, request))
  }

  /** An occurrence record lies under its own key, and names the receipt that consumed it. */
  predicate OccurrenceBacked(d: Digests, s: World, id: string) {
    var c := Lookup(s, Key(OCCURRENCE, id));
    c.Some? ==>
      && c.value.revision == 1 && c.value.payload.ConsumptionDoc?
      && var consumption := c.value.payload.consumption;
         && id == d.occurrence(consumption.occurrence)
         && var r := Lookup(s, ReceiptKey(d, consumption.scope, consumption.commandId));
            && r.Some? && r.value.payload.ReceiptDoc?
            && consumption == ConsumptionOf(d, Accepted(r.value.payload.receipt.request))
  }

  ghost predicate Paired(d: Digests, s: World) {
    (forall id :: ReceiptBacked(d, s, id)) && (forall id :: OccurrenceBacked(d, s, id))
  }

  lemma PairedElsewhere(d: Digests, s: World, t: World)
    requires Paired(d, s) && forall k :: Ours(k) ==> Lookup(t, k) == Lookup(s, k)
    ensures Paired(d, t)
  {
    hide Lookup;
    forall id ensures ReceiptBacked(d, t, id) { assert ReceiptBacked(d, s, id); }
    forall id ensures OccurrenceBacked(d, t, id) { assert OccurrenceBacked(d, s, id); }
  }

  /** A fresh resolution adds one receipt and one index record, where there were none. */
  ghost predicate Resolves(d: Digests, s: World, t: World, request: Request) {
    var receiptKey, occurrenceKey := ReceiptKey(d, d.scope(request.occurrence.runId), request.commandId), OccurrenceKey(d, request.occurrence);
    && Lookup(s, receiptKey).None? && Lookup(s, occurrenceKey).None?
    && Lookup(t, receiptKey) == Some(Record(receiptKey, 1, ReceiptDoc(ReceiptOf(d, request))))
    && Lookup(t, occurrenceKey) == Some(Record(occurrenceKey, 1, ConsumptionDoc(ConsumptionOf(d, request))))
    && forall k :: Ours(k) && k != receiptKey && k != occurrenceKey ==> Lookup(t, k) == Lookup(s, k)
  }

  lemma ResolveKeepsPaired(d: Digests, s: World, t: World, request: Request)
    requires Injective(d) && Paired(d, s) && Resolves(d, s, t, request) && Evident(request)
    ensures Paired(d, t)
  {
    AcceptedIsStored(d, request);
    hide ReceiptOf, Evident, Accepted;
    forall id ensures ReceiptBacked(d, t, id) {
      assert ReceiptBacked(d, s, id);
      hide Lookup, Paired;
    }
    forall id ensures OccurrenceBacked(d, t, id) {
      assert OccurrenceBacked(d, s, id);
      hide Lookup, Paired;
    }
  }

  lemma FreshResolves(d: Digests, s: World, a: Action)
    requires Sound(s) && a.Resolve? && WritesElsewhere(a.others)
    requires Commit(s, Compose(ResolveCommand(d, a))).1.Fresh?
    ensures Resolves(d, s, Commit(s, Compose(ResolveCommand(d, a))).0, a.request)
  {
    var c := ResolveCommand(d, a);
    var t := Commit(s, Compose(c)).0;
    ResolvePuts(d, a);
    ComposedLookup(s, c, c.puts[0].key);
    ComposedLookup(s, c, c.puts[1].key);
    AbsentAtZero(s, c.puts[0].key);
    AbsentAtZero(s, c.puts[1].key);
    hide Commit, Compose, Sound, Lookup, WritesElsewhere;
    forall k | Ours(k) && k != c.puts[0].key && k != c.puts[1].key ensures Lookup(t, k) == Lookup(s, k) { ComposedLookup(s, c, k); }
  }

  lemma ResolvePuts(d: Digests, a: Action)
    requires a.Resolve? && WritesElsewhere(a.others)
    ensures var puts := ResolveCommand(d, a).puts;
            DistinctPuts(puts) && forall i :: 1 < i < |puts| ==> !Ours(puts[i].key)
  {
  }

  lemma ElsewhereLeaves(s: World, op: Op<Doc>)
    requires Sound(s) && ForeignOp(op)
    ensures forall k :: Ours(k) ==> Lookup(Step(s, op), k) == Lookup(s, k)
  {
    var t := Step(s, op);
    if op.CommitOp? {
      CommitUnlessFresh(s, op.tx);
      if Commit(s, op.tx).1.Fresh? {
        FreshIsAdmissible(s, op.tx);
        hide Admissible, Commit, Applied;
        forall k | Ours(k) ensures Lookup(t, k) == Lookup(s, k) {
          NotMutated(op.tx, k);
          LookupApplied(s, op.tx, t, k);
        }
      }
    }
  }

  lemma NextKeepsPaired(d: Digests, history: seq<World>, a: Action)
    requires Injective(d) && history != [] && Ordered(history) && Paired(d, Latest(history))
    ensures Paired(d, Next(d, history, a)) && Ordered(history + [Next(d, history, a)])
  {
    var s := Latest(history);
    hide Paired, Ordered, Injective, Commit;
    assert Sound(s) by { LatestIsSound(history); }
    if Submits(d, history, a) {
      var tx := Compose(ResolveCommand(d, a));
      OrderedGrows(history, CommitOp(tx));
      CommitUnlessFresh(s, tx);
      if Commit(s, tx).1.Fresh? {
        FreshResolves(d, s, a);
        ResolveKeepsPaired(d, s, Commit(s, tx).0, a.request);
      }
    } else if a.Elsewhere? && ForeignOp(a.op) {
      OrderedGrows(history, a.op);
      ElsewhereLeaves(s, a.op);
      PairedElsewhere(d, s, Step(s, a.op));
    } else {
      OrderedGrows(history, ClaimOp({}, Lease("", "", 0), 0));
      IdleStep(s);
    }
  }

  lemma EmptyIsPaired(d: Digests)
    ensures Paired(d, Empty<Doc>()) && Ordered([Empty<Doc>()])
  {
    forall id ensures EventFits(Empty<Doc>(), id) {}
    AdvancesIsReflexive(Empty<Doc>());
  }

  ghost predicate AllPaired(d: Digests, history: seq<World>) {
    forall i :: 0 <= i < |history| ==> Paired(d, history[i])
  }

  lemma {:induction false} PlayKeepsPaired(d: Digests, actions: seq<Action>)
    requires Injective(d)
    ensures Ordered(Play(d, actions)) && AllPaired(d, Play(d, actions))
  {
    hide Paired, Ordered, Injective, Next;
    if actions == [] {
      EmptyIsPaired(d);
    } else {
      var before, a := Play(d, actions[..|actions| - 1]), actions[|actions| - 1];
      PlayKeepsPaired(d, actions[..|actions| - 1]);
      NextKeepsPaired(d, before, a);
    }
  }

  // --------------------------------------------------------------- main results

  /** What was found once is found unchanged later. */
  lemma FoundStays(d: Digests, s: World, t: World, k: Key)
    requires Ours(k) && Paired(d, s) && Paired(d, t) && Advances(s, t) && Lookup(s, k).Some?
    ensures Lookup(t, k) == Lookup(s, k)
  {
    assert RecordAdvances(s, t, k);
    assert ReceiptBacked(d, s, k.id) && ReceiptBacked(d, t, k.id);
    assert OccurrenceBacked(d, s, k.id) && OccurrenceBacked(d, t, k.id);
    hide Paired, Advances;
  }

  /** Whether the n-th action of a run freshly resolved its occurrence. */
  ghost predicate ResolvedAt(d: Digests, actions: seq<Action>, n: nat)
    requires n < |actions|
  {
    var history := Play(d, actions[..n]);
    Submits(d, history, actions[n]) && Commit(Latest(history), Compose(ResolveCommand(d, actions[n]))).1.Fresh?
  }

  /** An occurrence is resolved by at most one command, and a command resolves at most one occurrence. */
  lemma ResolvedOnce(d: Digests, actions: seq<Action>, m: nat, n: nat)
    requires Injective(d) && m < n < |actions| && ResolvedAt(d, actions, m) && ResolvedAt(d, actions, n)
    ensures actions[m].request.occurrence != actions[n].request.occurrence
    ensures actions[m].request.commandId == actions[n].request.commandId ==>
              d.scope(actions[m].request.occurrence.runId) != d.scope(actions[n].request.occurrence.runId)
  {
    var a, b := actions[m], actions[n];
    var before, after, later := Play(d, actions[..m]), Play(d, actions[..m + 1]), Play(d, actions[..n]);
    PlayKeepsPaired(d, actions[..m]);
    PlayKeepsPaired(d, actions[..m + 1]);
    PlayKeepsPaired(d, actions[..n]);
    PlayPrefix(d, actions[..n], m + 1);
    assert actions[..n][..m + 1] == actions[..m + 1];
    assert actions[..m + 1][..m] == actions[..m] && actions[..m + 1][m] == a;
    assert Latest(after) == Next(d, before, a);
    assert Sound(Latest(before)) && Sound(Latest(later)) && Advances(Latest(after), Latest(later));
    assert Paired(d, Latest(after)) && Paired(d, Latest(later));
    assert Next(d, before, a) == Commit(Latest(before), Compose(ResolveCommand(d, a))).0;
    hide Play, Ordered, AllPaired, Paired, Advances, Sound, Commit, Compose, ResolveCommand;
    FreshResolves(d, Latest(before), a);
    FreshResolves(d, Latest(later), b);
    FoundStays(d, Latest(after), Latest(later), OccurrenceKey(d, a.request.occurrence));
    FoundStays(d, Latest(after), Latest(later), ReceiptKey(d, d.scope(a.request.occurrence.runId), a.request.commandId));
  }

  lemma {:induction false} PlayPrefix(d: Digests, actions: seq<Action>, n: nat)
    requires n <= |actions|
    ensures Play(d, actions[..n]) == Play(d, actions)[..n + 1]
  {
    hide Next;
    if n == |actions| {
      assert actions[..n] == actions;
    } else {
      PlayPrefix(d, actions[..|actions| - 1], n);
      assert actions[..|actions| - 1][..n] == actions[..n];
    }
  }

  /** The state a fresh resolution left in the history. */
  lemma PlayedSoFar(d: Digests, actions: seq<Action>, n: nat)
    requires Injective(d) && n < |actions| && ResolvedAt(d, actions, n)
    ensures actions[n].Resolve? && Evident(actions[n].request)
    ensures Resolves(d, Play(d, actions)[n], Play(d, actions)[n + 1], actions[n].request)
  {
    hide *;
    PlayedStep(d, actions, n);
    PlayKeepsPaired(d, actions[..n]);
    LatestIsSound(Play(d, actions[..n]));
    FreshStep(d, Play(d, actions[..n]), actions[n]);
  }

  lemma PlayedStep(d: Digests, actions: seq<Action>, n: nat)
    requires n < |actions|
    ensures var h, before := Play(d, actions), Play(d, actions[..n]);
            before != [] && h[n] == Latest(before) && h[n + 1] == Next(d, before, actions[n])
    ensures ResolvedAt(d, actions, n) ==>
              Submits(d, Play(d, actions[..n]), actions[n])
              && Commit(Latest(Play(d, actions[..n])), Compose(ResolveCommand(d, actions[n]))).1.Fresh?
  {
    hide Next, Commit, Compose, Submits;
    PlayPrefix(d, actions, n);
    PlayPrefix(d, actions, n + 1);
    assert actions[..n + 1][..n] == actions[..n] && actions[..n + 1][n] == actions[n];
  }

  lemma FreshStep(d: Digests, before: seq<World>, a: Action)
    requires before != [] && Sound(Latest(before)) && Submits(d, before, a)
    requires Commit(Latest(before), Compose(ResolveCommand(d, a))).1.Fresh?
    ensures a.Resolve? && Evident(a.request) && Resolves(d, Latest(before), Next(d, before, a), a.request)
  {
    hide Commit, Compose, Sound, Resolves;
    FreshResolves(d, Latest(before), a);
  }

  lemma PlayedLater(d: Digests, actions: seq<Action>, i: nat, j: nat)
    requires Injective(d) && i <= j <= |actions|
    ensures var h := Play(d, actions); Paired(d, h[i]) && Paired(d, h[j]) && Advances(h[i], h[j])
  {
    PlayKeepsPaired(d, actions);
    hide Play, Paired, Advances;
  }

  // -------------------------------------------------- what the readers are told

  /** A stored receipt decodes exactly if the accepted request did not succeed without fields. */
  lemma DecodesExactly(d: Digests, r: Record<Doc>, request: Request)
    requires r.revision == 1 && r.payload == ReceiptDoc(ReceiptOf(d, request)) && Evident(request)
    ensures ReceiptDecodes(d, r, d.scope(request.occurrence.runId)) <==> !EmptySuccess(request)
    ensures !EmptySuccess(request) ==> r.payload.receipt.request == request
    ensures r.payload.receipt.identity == d.request(request) && r.payload.receipt.scope == d.scope(request.occurrence.runId)
  {
  }

  predicate HasReceipt(d: Digests, s: World, request: Request) {
    var r := Lookup(s, ReceiptKey(d, d.scope(request.occurrence.runId), request.commandId));
    r.Some? && r.value.revision == 1 && r.value.payload == ReceiptDoc(ReceiptOf(d, request))
  }

  predicate HasConsumption(d: Digests, s: World, request: Request) {
    var c := Lookup(s, OccurrenceKey(d, request.occurrence));
    c.Some? && c.value.revision == 1 && c.value.payload == ConsumptionDoc(ConsumptionOf(d, request))
  }

  /** Both records of an accepted request, as they were left. */
  predicate Holds(d: Digests, s: World, request: Request) {
    HasReceipt(d, s, request) && HasConsumption(d, s, request)
  }

  lemma ResolvesHolds(d: Digests, before: World, s: World, request: Request)
    requires Resolves(d, before, s, request)
    ensures Holds(d, s, request)
  {
    hide Lookup, ReceiptOf;
  }

  lemma HoldsLater(d: Digests, s: World, t: World, request: Request)
    requires Holds(d, s, request) && Paired(d, s) && Paired(d, t) && Advances(s, t)
    ensures Holds(d, t, request)
  {
    hide Paired, Advances, Lookup, ReceiptOf;
    FoundStays(d, s, t, ReceiptKey(d, d.scope(request.occurrence.runId), request.commandId));
    FoundStays(d, s, t, OccurrenceKey(d, request.occurrence));
  }

  lemma ReceiptAnswer(d: Digests, h: seq<World>, request: Request, accepted: Request, i: nat, j: nat)
    requires Injective(d) && i < |h| && j < |h| && Evident(accepted) && Holds(d, h[i], accepted) && Holds(d, h[j], accepted)
    requires request.commandId == accepted.commandId && d.scope(accepted.occurrence.runId) == d.scope(request.occurrence.runId)
    ensures ConsultReceipt(d, h, request, i, j) ==
            if EmptySuccess(accepted) then Corrupt else if request == accepted then Replay else OtherRequest
  {
    DecodesExactly(d, Lookup(h[i], ReceiptKey(d, d.scope(request.occurrence.runId), request.commandId)).value, accepted);
    hide ReceiptDecodes, Lookup, ReceiptOf, EmptySuccess;
  }

  lemma OccurrenceAnswer(d: Digests, h: seq<World>, request: Request, accepted: Request, i: nat, j: nat)
    requires i < |h| && j < |h| && Evident(accepted) && Holds(d, h[i], accepted) && Holds(d, h[j], accepted)
    requires accepted.occurrence == request.occurrence
    ensures ConsultOccurrence(d, h, request, i, j) == if EmptySuccess(accepted) then Corrupt else Consumed
  {
    DecodesExactly(d, Lookup(h[j], ReceiptKey(d, d.scope(accepted.occurrence.runId), accepted.commandId)).value, accepted);
    hide ReceiptDecodes, Lookup, ReceiptOf, EmptySuccess;
  }

  /** After a command resolved an occurrence, its repetition is answered as a replay,
      any other request under it as an identity conflict, and every command on the
      occurrence as consumed, exactly if it did not succeed with an empty payload. If
      it did, both readers report corruption for ever. */
  lemma RepetitionReplaysExactly(d: Digests, actions: seq<Action>, n: nat, request: Request, i: nat, j: nat)
    requires Injective(d) && n < |actions| && ResolvedAt(d, actions, n) && n < i <= j <= |actions|
    ensures var accepted := actions[n].request;
            && (request.commandId == accepted.commandId && d.scope(request.occurrence.runId) == d.scope(accepted.occurrence.runId) ==>
                  ConsultReceipt(d, Play(d, actions), request, i, j) ==
                    if EmptySuccess(accepted) then Corrupt else if request == accepted then Replay else OtherRequest)
            && (request.occurrence == accepted.occurrence ==>
                  ConsultOccurrence(d, Play(d, actions), request, i, j) == if EmptySuccess(accepted) then Corrupt else Consumed)
  {
    hide *;
    PlayedSoFar(d, actions, n);
    var accepted, h := actions[n].request, Play(d, actions);
    PlayedLater(d, actions, n + 1, i);
    PlayedLater(d, actions, n + 1, j);
    ResolvesHolds(d, h[n], h[n + 1], accepted);
    HoldsLater(d, h[n + 1], h[i], accepted);
    HoldsLater(d, h[n + 1], h[j], accepted);
    if request.commandId == accepted.commandId && d.scope(request.occurrence.runId) == d.scope(accepted.occurrence.runId) {
      ReceiptAnswer(d, h, request, accepted, i, j);
    }
    if request.occurrence == accepted.occurrence { OccurrenceAnswer(d, h, request, accepted, i, j); }
  }

  // ---------------------------------------------------------- over a whole history

  /** Some accepted request succeeded with an empty payload. */
  ghost predicate AcceptedEmpty(d: Digests, actions: seq<Action>) {
    exists n :: 0 <= n < |actions| && ResolvedAt(d, actions, n) && EmptySuccess(actions[n].request)
  }

  predicate ReadsCorrupt(d: Digests, h: seq<World>, request: Request, i: nat, j: nat) {
    ConsultReceipt(d, h, request, i, j) == Corrupt || ConsultOccurrence(d, h, request, i, j) == Corrupt
  }

  /** Some reader, at some two times, reports corruption. */
  ghost predicate EverCorrupt(d: Digests, actions: seq<Action>) {
    exists request, i: nat, j: nat :: i <= j <= |actions| && ReadsCorrupt(d, Play(d, actions), request, i, j)
  }

  /** A record that is found stems from the request that was accepted. */
  ghost predicate Accounted(d: Digests, actions: seq<Action>, request: Request) {
    exists n :: 0 <= n < |actions| && ResolvedAt(d, actions, n) && actions[n].request == request
  }

  lemma AccountedLater(d: Digests, actions: seq<Action>, m: nat, request: Request)
    requires m <= |actions| && Accounted(d, actions[..m], request)
    ensures Accounted(d, actions, request)
  {
    hide Play, Commit;
    var n :| 0 <= n < m && ResolvedAt(d, actions[..m], n) && actions[..m][n].request == request;
    assert actions[..m][..n] == actions[..n];
    assert ResolvedAt(d, actions, n);
  }

  lemma {:induction false} ReceiptsAreAccounted(d: Digests, actions: seq<Action>, id: string)
    requires Injective(d)
    ensures var r := Lookup(Latest(Play(d, actions)), Key(RESOLUTION, id));
            r.Some? ==> r.value.payload.ReceiptDoc? && Accounted(d, actions, Accepted(r.value.payload.receipt.request))
  {
    hide *;
    if actions == [] {
      NothingYet(d, Key(RESOLUTION, id));
    } else {
      var m := |actions| - 1;
      KindOfReceipt(id);
      ReceiptsAreAccounted(d, actions[..m], id);
      PlayedStep(d, actions, m);
      LatestPlayed(d, actions);
      PlayKeepsPaired(d, actions[..m]);
      LatestIsSound(Play(d, actions[..m]));
      var s, t := Latest(Play(d, actions[..m])), Latest(Play(d, actions));
      if ResolvedAt(d, actions, m) {
        FreshStep(d, Play(d, actions[..m]), actions[m]);
        LastIsAccounted(d, actions);
        ReceiptIsNew(d, s, t, actions[m].request, id);
      } else {
        ResolvedIs(d, actions, m);
        OtherwiseStays(d, Play(d, actions[..m]), actions[m], Key(RESOLUTION, id));
      }
      var r := Lookup(s, Key(RESOLUTION, id));
      if r.Some? { AccountedLater(d, actions, m, Accepted(r.value.payload.receipt.request)); }
    }
  }

  lemma NothingYet(d: Digests, k: Key)
    ensures Lookup(Latest(Play(d, [])), k).None?
  {
  }

  lemma LatestPlayed(d: Digests, actions: seq<Action>)
    ensures |Play(d, actions)| == |actions| + 1 && Latest(Play(d, actions)) == Play(d, actions)[|actions|]
  {
  }

  lemma LastIsAccounted(d: Digests, actions: seq<Action>)
    requires actions != [] && ResolvedAt(d, actions, |actions| - 1)
    ensures Accounted(d, actions, actions[|actions| - 1].request)
  {
    hide ResolvedAt;
  }

  lemma KindOfReceipt(id: string)
    ensures Ours(Key(RESOLUTION, id))
  {
  }

  lemma ReceiptIsNew(d: Digests, s: World, t: World, request: Request, id: string)
    requires Resolves(d, s, t, request) && Evident(request)
    ensures var r := Lookup(t, Key(RESOLUTION, id));
            r == Lookup(s, Key(RESOLUTION, id)) || (r.Some? && r.value.payload.ReceiptDoc? && Accepted(r.value.payload.receipt.request) == request)
  {
    AcceptedIsStored(d, request);
    hide Lookup, ReceiptOf, Accepted;
  }

  lemma ResolvedIs(d: Digests, actions: seq<Action>, n: nat)
    requires n < |actions|
    ensures var before := Play(d, actions[..n]);
            ResolvedAt(d, actions, n) <==>
              Submits(d, before, actions[n]) && Commit(Latest(before), Compose(ResolveCommand(d, actions[n]))).1.Fresh?
  {
    hide Submits, Commit, Compose, Play;
  }

  /** A step that resolves nothing leaves our records alone. */
  lemma OtherwiseStays(d: Digests, history: seq<World>, a: Action, k: Key)
    requires history != [] && Sound(Latest(history)) && Ours(k)
    requires !(Submits(d, history, a) && Commit(Latest(history), Compose(ResolveCommand(d, a))).1.Fresh?)
    ensures Lookup(Next(d, history, a), k) == Lookup(Latest(history), k)
  {
    var s := Latest(history);
    hide Commit, Compose, Lookup, Sound, Submits;
    if Submits(d, history, a) {
      CommitUnlessFresh(s, Compose(ResolveCommand(d, a)));
    } else if a.Elsewhere? && ForeignOp(a.op) {
      ElsewhereLeaves(s, a.op);
    }
  }

  /** No reader ever reports corruption exactly if no request with an empty payload was
      accepted as a success. */
  lemma NeverCorruptExactly(d: Digests, actions: seq<Action>)
    requires Injective(d)
    ensures EverCorrupt(d, actions) <==> AcceptedEmpty(d, actions)
  {
    hide *;
    if AcceptedEmpty(d, actions) {
      var n, request := EmptyAt(d, actions);
      RepetitionReplaysExactly(d, actions, n, request, n + 1, n + 1);
      CorruptionFound(d, actions, request, n + 1);
    }
    if EverCorrupt(d, actions) {
      var request, i, j := CorruptRead(d, actions);
      CorruptionIsAccounted(d, actions, request, i, j);
    }
  }

  lemma EmptyAt(d: Digests, actions: seq<Action>) returns (n: nat, request: Request)
    requires AcceptedEmpty(d, actions)
    ensures n < |actions| && ResolvedAt(d, actions, n) && actions[n].Resolve?
    ensures request == actions[n].request && EmptySuccess(request)
  {
    hide Play, Commit;
    n :| n < |actions| && ResolvedAt(d, actions, n) && EmptySuccess(actions[n].request);
    request := actions[n].request;
  }

  lemma CorruptionFound(d: Digests, actions: seq<Action>, request: Request, i: nat)
    requires i <= |actions| && ConsultReceipt(d, Play(d, actions), request, i, i) == Corrupt
    ensures EverCorrupt(d, actions)
  {
    hide Play, ConsultReceipt, ConsultOccurrence;
    assert ReadsCorrupt(d, Play(d, actions), request, i, i);
  }

  lemma CorruptRead(d: Digests, actions: seq<Action>) returns (request: Request, i: nat, j: nat)
    requires EverCorrupt(d, actions)
    ensures i <= j <= |actions| && ReadsCorrupt(d, Play(d, actions), request, i, j)
  {
    hide Play, ReadsCorrupt;
    request, i, j :| i <= j <= |actions| && ReadsCorrupt(d, Play(d, actions), request, i, j);
  }

  lemma CorruptionIsAccounted(d: Digests, actions: seq<Action>, request: Request, i: nat, j: nat)
    requires Injective(d) && i <= j <= |actions| && ReadsCorrupt(d, Play(d, actions), request, i, j)
    ensures AcceptedEmpty(d, actions)
  {
    hide *;
    var h := Play(d, actions);
    PlayedLater(d, actions, i, j);
    ReadsWhat(d, h, request, i, j);
    var accepted: Request;
    if ConsultReceipt(d, h, request, i, j) == Corrupt {
      accepted := BehindReceipt(d, h[i], request);
      HoldsLater(d, h[i], h[j], accepted);
      ReceiptAnswer(d, h, request, accepted, i, j);
    } else {
      accepted := BehindOccurrence(d, h[i], request);
      HoldsLater(d, h[i], h[j], accepted);
      OccurrenceAnswer(d, h, request, accepted, i, j);
    }
    HeldIsAccounted(d, actions, i, accepted);
    EmptyIsAccounted(d, actions, accepted);
  }

  /** Corruption is reported only of a record that is there. */
  lemma ReadsWhat(d: Digests, h: seq<World>, request: Request, i: nat, j: nat)
    requires i < |h| && ReadsCorrupt(d, h, request, i, j)
    ensures ConsultReceipt(d, h, request, i, j) == Corrupt || ConsultOccurrence(d, h, request, i, j) == Corrupt
    ensures ConsultReceipt(d, h, request, i, j) == Corrupt ==>
              Lookup(h[i], ReceiptKey(d, d.scope(request.occurrence.runId), request.commandId)).Some?
    ensures ConsultOccurrence(d, h, request, i, j) == Corrupt ==> Lookup(h[i], OccurrenceKey(d, request.occurrence)).Some?
  {
    hide ReceiptDecodes, Lookup;
  }

  lemma BehindReceipt(d: Digests, s: World, request: Request) returns (accepted: Request)
    requires Injective(d) && Paired(d, s)
    requires Lookup(s, ReceiptKey(d, d.scope(request.occurrence.runId), request.commandId)).Some?
    ensures Evident(accepted) && Holds(d, s, accepted)
    ensures request.commandId == accepted.commandId && d.scope(accepted.occurrence.runId) == d.scope(request.occurrence.runId)
  {
    var k := ReceiptKey(d, d.scope(request.occurrence.runId), request.commandId);
    assert ReceiptBacked(d, s, k.id);
    hide Paired, Lookup, ReceiptOf, Accepted;
    accepted := Accepted(Lookup(s, k).value.payload.receipt.request);
  }

  lemma BehindOccurrence(d: Digests, s: World, request: Request) returns (accepted: Request)
    requires Injective(d) && Paired(d, s) && Lookup(s, OccurrenceKey(d, request.occurrence)).Some?
    ensures Evident(accepted) && Holds(d, s, accepted) && accepted.occurrence == request.occurrence
  {
    var k := OccurrenceKey(d, request.occurrence);
    assert OccurrenceBacked(d, s, k.id);
    var c := Lookup(s, k).value.payload.consumption;
    var receiptKey := ReceiptKey(d, c.scope, c.commandId);
    assert ReceiptBacked(d, s, receiptKey.id);
    hide Paired, Lookup, ReceiptOf, Accepted;
    accepted := Accepted(Lookup(s, receiptKey).value.payload.receipt.request);
  }

  lemma HeldIsAccounted(d: Digests, actions: seq<Action>, i: nat, accepted: Request)
    requires Injective(d) && i <= |actions| && Evident(accepted) && Holds(d, Play(d, actions)[i], accepted)
    ensures Accounted(d, actions, accepted)
  {
    hide *;
    var id := d.command(CommandKey(d.scope(accepted.occurrence.runId), accepted.commandId));
    PlayPrefix(d, actions, i);
    LatestPlayed(d, actions[..i]);
    ReceiptsAreAccounted(d, actions[..i], id);
    HeldReceipt(d, Latest(Play(d, actions[..i])), accepted);
    AccountedLater(d, actions, i, accepted);
  }

  lemma HeldReceipt(d: Digests, s: World, accepted: Request)
    requires Evident(accepted) && Holds(d, s, accepted)
    ensures var r := Lookup(s, Key(RESOLUTION, d.command(CommandKey(d.scope(accepted.occurrence.runId), accepted.commandId))));
            r.Some? && r.value.payload.ReceiptDoc? && Accepted(r.value.payload.receipt.request) == accepted
  {
    AcceptedIsStored(d, accepted);
    hide Lookup, ReceiptOf, Accepted;
  }

  lemma EmptyIsAccounted(d: Digests, actions: seq<Action>, accepted: Request)
    requires Accounted(d, actions, accepted) && EmptySuccess(accepted)
    ensures AcceptedEmpty(d, actions)
  {
    hide ResolvedAt;
  }

  /** The smallest such history: the first command succeeds with an empty payload. Its
      repetition and every other command on its occurrence are told of corruption. */
  lemma EmptyPayloadIsCorrupt(d: Digests)
    ensures var request := Request(Occurrence("run", "node", 1), "subject", "condition", Succeeded, Some(map[]), None, None, 0, "command");
            var actions := [Resolve(request, 0, 0, [], [], OtherDoc(""), 0)];
            && ResolvedAt(d, actions, 0)
            && ConsultReceipt(d, Play(d, actions), request, 1, 1) == Corrupt
            && ConsultOccurrence(d, Play(d, actions), request.(commandId := "another"), 1, 1) == Corrupt
  {
    var request := Request(Occurrence("run", "node", 1), "subject", "condition", Succeeded, Some(map[]), None, None, 0, "command");
    assert Evident(request) && EmptySuccess(request);
    hide *;
    var a := Resolve(request, 0, 0, [], [], OtherDoc(""), 0);
    var h := Play(d, [a]);
    FirstCommand(d, a);
    FreshStep(d, Play(d, []), a);
    ResolvesHolds(d, h[0], h[1], request);
    StoredEmpty(d, h, request);
  }

  lemma StoredEmpty(d: Digests, h: seq<World>, request: Request)
    requires |h| == 2 && Holds(d, h[1], request) && EmptySuccess(request)
    ensures ConsultReceipt(d, h, request, 1, 1) == Corrupt
    ensures ConsultOccurrence(d, h, request.(commandId := "another"), 1, 1) == Corrupt
  {
    hide Lookup;
  }

  lemma FirstCommand(d: Digests, a: Action)
    requires a.Resolve? && Evident(a.request) && a.seenReceipt == a.seenOccurrence == 0
    requires a.others == [] && a.intents == []
    ensures Sound(Latest(Play(d, []))) && Submits(d, Play(d, []), a) && ResolvedAt(d, [a], 0)
    ensures Commit(Latest(Play(d, [])), Compose(ResolveCommand(d, a))).1.Fresh?
    ensures Play(d, [a])[0] == Latest(Play(d, [])) && Play(d, [a])[1] == Next(d, Play(d, []), a) && |Play(d, [a])| == 2
  {
    var s := Empty<Doc>();
    assert [a][..0] == [];
    EmptyIsPaired(d);
    FirstIsFresh(d, a);
    hide Commit, Compose, ResolveCommand, Sound, Next;
  }

  lemma FirstIsFresh(d: Digests, a: Action)
    requires a.Resolve? && a.others == [] && a.intents == []
    ensures Commit(Empty<Doc>(), Compose(ResolveCommand(d, a))).1.Fresh?
  {
    var s, c := Empty<Doc>(), ResolveCommand(d, a);
    EmptyIsPaired(d);
    ResolvePuts(d, a);
    ComposedAdmissible(s, c);
    hide Admissible, Compose;
  }
}
