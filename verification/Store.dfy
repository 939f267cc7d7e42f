/** The durable store as a value: aggregates under revision compare-and-swap, one
    event per revision, a command ledger, and leased intents. `P` is the payload
    of aggregates and command outcomes. Stable event identities are the tuples
    they are derived from; the result of a purely syntactic check (identifier,
    digest, timestamp) is the field `wellFormed` of the thing checked. */
module Store {
  import opened Prelude

  datatype Key = Key(kind: string, id: string)

  datatype EventId = EventId(key: Key, revision: nat)

  datatype Record<+P> = Record(key: Key, revision: nat, payload: P)

  datatype Event = Event(id: EventId, key: Key, revision: nat, commandId: string, body: string, wellFormed: bool)

  datatype Scope = Scope(operation: string, namespaceId: string, resourceType: string, resourceId: string, authority: string)

  datatype CommandKey = CommandKey(scope: Scope, commandId: string)

  datatype CommandRecord<+P> = CommandRecord(identity: string, outcome: P)

  datatype IntentKind = Outbox | Reconcile | Cleanup | WaitResolution | ChildResolution

  /** StableIntentID as a tuple. */
  datatype IntentId = IntentId(kind: IntentKind, aggregateId: string, revision: nat)

  datatype IntentStatus = Pending | Leased | Completed | Dead

  datatype Lease = Lease(owner: string, token: string, expiresAt: int)

  datatype IntentRecord = IntentRecord(
    status: IntentStatus, availableAt: int, attempts: nat, lease: Option<Lease>,
    failure: Option<string>, completedAt: Option<int>, revision: nat)

  datatype IntentSeed = IntentSeed(id: IntentId, availableAt: Option<int>, wellFormed: bool)

  datatype Expected = Expected(key: Key, revision: nat)

  datatype Mutation<+P> = Mutation(record: Record<P>, wellFormed: bool)

  datatype Transaction<+P> = Transaction(
    scope: Scope, commandId: string, identity: string, wellFormed: bool,
    expected: seq<Expected>, mutations: seq<Mutation<P>>, events: seq<Event>, intents: seq<IntentSeed>,
    outcome: P, outcomeWellFormed: bool, at: Option<int>)

  datatype State<+P> = State(
    aggregates: map<Key, Record<P>>,
    events: map<EventId, Event>,
    commands: map<CommandKey, CommandRecord<P>>,
    intents: map<IntentId, IntentRecord>,
    inbox: map<(string, string), string>)

  datatype Error = Malformed | RevisionConflict | IdentityConflict | NotFound | LeaseConflict | Io | Poisoned

  function Empty<P>(): State<P> {
    State(map[], map[], map[], map[], map[])
  }

  function RevisionOf<P>(s: State<P>, key: Key): nat {
    if key in s.aggregates then s.aggregates[key].revision else 0
  }

  function CommandOf<P>(tx: Transaction<P>): CommandKey {
    CommandKey(tx.scope, tx.commandId)
  }

  // ------------------------------------------------------------- transactions

  ghost predicate DistinctExpected(es: seq<Expected>) {
    forall i, j :: 0 <= i < j < |es| ==> es[i].key != es[j].key
  }

  ghost predicate DistinctMutations<P>(ms: seq<Mutation<P>>) {
    forall i, j :: 0 <= i < j < |ms| ==> ms[i].record.key != ms[j].record.key
  }

  ghost predicate DistinctEvents(es: seq<Event>) {
    forall i, j :: 0 <= i < j < |es| ==> es[i].key != es[j].key
  }

  ghost predicate DistinctIntents(seeds: seq<IntentSeed>) {
    forall i, j :: 0 <= i < j < |seeds| ==> seeds[i].id != seeds[j].id
  }

  ghost function ExpectedKeys(es: seq<Expected>): set<Key> {
    set i | 0 <= i < |es| :: es[i].key
  }

  ghost function MutationKeys<P>(ms: seq<Mutation<P>>): set<Key> {
    set i | 0 <= i < |ms| :: ms[i].record.key
  }

  ghost function EventKeys(es: seq<Event>): set<Key> {
    set i | 0 <= i < |es| :: es[i].key
  }

  /** A mutation compares and swaps exactly the revision its transaction expects. */
  ghost predicate Swaps<P>(s: State<P>, expected: seq<Expected>, m: Mutation<P>) {
    && m.record.revision == RevisionOf(s, m.record.key) + 1
    && Expected(m.record.key, m.record.revision - 1) in expected
  }

  ghost predicate Announces<P>(tx: Transaction<P>, e: Event) {
    && e.wellFormed && e.id == EventId(e.key, e.revision) && e.commandId == tx.commandId
    && exists m :: m in tx.mutations && m.record.key == e.key && m.record.revision == e.revision
  }

  predicate SeedAccepted(seed: IntentSeed, at: int) {
    seed.wellFormed && (seed.availableAt.Some? ==> seed.availableAt.value >= at)
  }

  /** When a new command may change the state: every expected aggregate is
      swapped once and announced by one event, and every intent is new. The
      condition on known events is the source's; GapFree makes it idle. */
  ghost predicate Admissible<P(!new)>(s: State<P>, tx: Transaction<P>) {
    && tx.at.Some? && tx.outcomeWellFormed
    && DistinctExpected(tx.expected)
    && MutationsAccepted(s, tx.expected, tx.mutations)
    && ExpectedKeys(tx.expected) == MutationKeys(tx.mutations)
    && EventsAccepted(s, tx)
    && EventKeys(tx.events) == MutationKeys(tx.mutations)
    && IntentsAccepted(s, tx.intents, tx.at.value)
  }

  ghost predicate MutationsAccepted<P>(s: State<P>, expected: seq<Expected>, ms: seq<Mutation<P>>) {
    DistinctMutations(ms) && forall m :: m in ms ==> m.wellFormed && Swaps(s, expected, m)
  }

  ghost predicate EventAccepted<P>(s: State<P>, tx: Transaction<P>, e: Event) {
    Announces(tx, e) && (e.id in s.events ==> s.events[e.id].body == e.body)
  }

  ghost predicate EventsAccepted<P>(s: State<P>, tx: Transaction<P>) {
    DistinctEvents(tx.events) && forall e :: e in tx.events ==> EventAccepted(s, tx, e)
  }

  ghost predicate IntentsAccepted<P>(s: State<P>, seeds: seq<IntentSeed>, at: int) {
    DistinctIntents(seeds) && forall seed :: seed in seeds ==> SeedAccepted(seed, at) && seed.id !in s.intents
  }

  function PutRecords<P>(m: map<Key, Record<P>>, ms: seq<Mutation<P>>): map<Key, Record<P>> {
    if ms == [] then m
    else
      var last := ms[|ms| - 1].record;
      PutRecords(m, ms[..|ms| - 1])[last.key := last]
  }

  function PutEvents(m: map<EventId, Event>, es: seq<Event>): map<EventId, Event> {
    if es == [] then m
    else
      var last := es[|es| - 1];
      PutEvents(m, es[..|es| - 1])[last.id := last]
  }

  function NewIntent(seed: IntentSeed, at: int): IntentRecord {
    IntentRecord(Pending, if seed.availableAt.Some? then seed.availableAt.value else at, 0, None, None, None, 1)
  }

  function PutIntents(m: map<IntentId, IntentRecord>, seeds: seq<IntentSeed>, at: int): map<IntentId, IntentRecord> {
    if seeds == [] then m
    else
      var last := seeds[|seeds| - 1];
      PutIntents(m, seeds[..|seeds| - 1], at)[last.id := NewIntent(last, at)]
  }

  /** The state after an admissible transaction, before its command is recorded. */
  function Applied<P>(s: State<P>, tx: Transaction<P>): State<P>
    requires tx.at.Some?
  {
    s.(aggregates := PutRecords(s.aggregates, tx.mutations),
       events := PutEvents(s.events, tx.events),
       intents := PutIntents(s.intents, tx.intents, tx.at.value))
  }

  datatype CommitOutcome<+P> = Fresh(outcome: P) | Replayed(outcome: P) | Refused

  /** Commit: a recorded command is replayed or refused, a new one is applied
      entirely and recorded with its outcome, or refused without a trace. */
  ghost function Commit<P(!new)>(s: State<P>, tx: Transaction<P>): (State<P>, CommitOutcome<P>) {
    var command := CommandOf(tx);
    if !tx.wellFormed then (s, Refused)
    else if command in s.commands then
      if s.commands[command].identity == tx.identity then (s, Replayed(s.commands[command].outcome)) else (s, Refused)
    else if !Admissible(s, tx) then (s, Refused)
    else
      (Applied(s, tx).(commands := s.commands[command := CommandRecord(tx.identity, tx.outcome)]), Fresh(tx.outcome))
  }

  // -------------------------------------------------------- leases on intents

  predicate Eligible(r: IntentRecord, now: int) {
    || (r.status == Pending && r.availableAt <= now)
    || (r.status == Leased && r.lease.Some? && r.lease.value.expiresAt <= now)
  }

  function Claimed(r: IntentRecord, lease: Lease): IntentRecord {
    r.(status := Leased, attempts := r.attempts + 1, lease := Some(lease), revision := r.revision + 1)
  }

  function ClaimAll(intents: map<IntentId, IntentRecord>, ids: set<IntentId>, lease: Lease): map<IntentId, IntentRecord> {
    map id | id in intents :: if id in ids then Claimed(intents[id], lease) else intents[id]
  }

  datatype Fence = Fence(id: IntentId, revision: nat, owner: string, token: string, at: int)

  datatype Fold = Complete | Fail(failure: string) | Retry(failure: string, availableAt: int)

  /** Only the holder of the current, unexpired lease may settle an intent. */
  predicate FenceHolds(r: IntentRecord, fence: Fence) {
    && r.status == Leased && r.revision == fence.revision
    && r.lease.Some? && r.lease.value.owner == fence.owner && r.lease.value.token == fence.token
    && fence.at < r.lease.value.expiresAt
  }

  predicate FoldAccepted(fold: Fold, at: int) {
    fold.Retry? ==> fold.availableAt > at
  }

  function Settled(r: IntentRecord, fold: Fold, at: int): IntentRecord {
    var folded := match fold
      case Complete => r.(status := Completed, completedAt := Some(at), failure := None)
      case Fail(failure) => r.(status := Dead, completedAt := Some(at), failure := Some(failure))
      case Retry(failure, availableAt) => r.(status := Pending, availableAt := availableAt, failure := Some(failure));
    folded.(lease := None, revision := r.revision + 1)
  }

  // ------------------------------------------------------- operations and runs

  datatype Op<+P> =
    | CommitOp(tx: Transaction<P>)
    | ClaimOp(ids: set<IntentId>, lease: Lease, now: int)
    | FoldOp(fence: Fence, fold: Fold)
    | InboxOp(source: string, message: string, digest: string)

  predicate Claimable<P>(s: State<P>, ids: set<IntentId>, now: int) {
    forall id :: id in ids ==> id in s.intents && Eligible(s.intents[id], now)
  }

  ghost function Step<P(!new)>(s: State<P>, op: Op<P>): State<P> {
    match op
    case CommitOp(tx) => Commit(s, tx).0
    case ClaimOp(ids, lease, now) =>
      if lease.expiresAt > now && Claimable(s, ids, now)
      then s.(intents := ClaimAll(s.intents, ids, lease)) else s
    case FoldOp(fence, fold) =>
      if fence.id in s.intents && FenceHolds(s.intents[fence.id], fence) && FoldAccepted(fold, fence.at)
      then s.(intents := s.intents[fence.id := Settled(s.intents[fence.id], fold, fence.at)]) else s
    case InboxOp(source, message, digest) =>
      if (source, message) in s.inbox then s else s.(inbox := s.inbox[(source, message) := digest])
  }

  ghost function Run<P(!new)>(s: State<P>, ops: seq<Op<P>>): State<P> {
    if ops == [] then s else Step(Run(s, ops[..|ops| - 1]), ops[|ops| - 1])
  }

  // --------------------------------------------------------------- invariants

  predicate RecordFits<P>(s: State<P>, k: Key) {
    k in s.aggregates ==> s.aggregates[k].key == k && s.aggregates[k].revision > 0
  }

  /** Event `id` is logged exactly when its aggregate reached that revision. */
  predicate EventFits<P>(s: State<P>, id: EventId) {
    && (id in s.events <==> 1 <= id.revision <= RevisionOf(s, id.key))
    && (id in s.events ==> Describes(s.events[id], id))
  }

  predicate Describes(e: Event, id: EventId) {
    e.wellFormed && e.id == id && e.key == id.key && e.revision == id.revision
  }

  /** An aggregate at revision r has exactly the events 1..r, and no other event exists. */
  ghost predicate GapFree<P>(s: State<P>) {
    (forall k :: RecordFits(s, k)) && (forall id :: EventFits(s, id))
  }

  /** validateIntentRecord. */
  predicate IntentValid(r: IntentRecord) {
    && r.attempts <= r.revision && r.revision > 0
    && match r.status
       case Pending => r.lease.None? && r.completedAt.None?
       case Leased => r.lease.Some? && r.completedAt.None?
       case Completed => r.lease.None? && r.completedAt.Some? && r.failure.None?
       case Dead => r.lease.None? && r.completedAt.Some? && r.failure.Some?
  }

  ghost predicate IntentsValid<P>(s: State<P>) {
    forall id :: id in s.intents ==> IntentValid(s.intents[id])
  }

  ghost predicate Sound<P>(s: State<P>) {
    GapFree(s) && IntentsValid(s)
  }

  lemma {:induction false} PutRecordsLookup<P>(m: map<Key, Record<P>>, ms: seq<Mutation<P>>, k: Key)
    requires DistinctMutations(ms)
    ensures k in PutRecords(m, ms) <==> k in m || k in MutationKeys(ms)
    ensures k !in MutationKeys(ms) && k in m ==> PutRecords(m, ms)[k] == m[k]
    ensures forall i :: 0 <= i < |ms| && ms[i].record.key == k ==> PutRecords(m, ms)[k] == ms[i].record
  {
    if ms != [] {
      var front := ms[..|ms| - 1];
      PutRecordsLookup(m, front, k);
      assert MutationKeys(ms) == MutationKeys(front) + {ms[|ms| - 1].record.key};
    }
  }

  lemma {:induction false} PutEventsLookup(m: map<EventId, Event>, es: seq<Event>, id: EventId)
    requires DistinctEvents(es) && forall e :: e in es ==> e.id == EventId(e.key, e.revision)
    ensures id in PutEvents(m, es) <==> id in m || exists e :: e in es && e.id == id
    ensures (forall e :: e in es ==> e.id != id) && id in m ==> PutEvents(m, es)[id] == m[id]
    ensures forall e :: e in es && e.id == id ==> PutEvents(m, es)[id] == e
  {
    if es != [] {
      var front, last := es[..|es| - 1], es[|es| - 1];
      PutEventsLookup(m, front, id);
      assert es == front + [last];
    }
  }

  lemma {:induction false} PutIntentsLookup(m: map<IntentId, IntentRecord>, seeds: seq<IntentSeed>, at: int, id: IntentId)
    ensures id in PutIntents(m, seeds, at) <==> id in m || exists seed :: seed in seeds && seed.id == id
    ensures (forall seed :: seed in seeds ==> seed.id != id) && id in m ==> PutIntents(m, seeds, at)[id] == m[id]
    ensures (exists seed :: seed in seeds && seed.id == id) ==>
              exists seed :: seed in seeds && seed.id == id && PutIntents(m, seeds, at)[id] == NewIntent(seed, at)
  {
    if seeds != [] {
      var front, last := seeds[..|seeds| - 1], seeds[|seeds| - 1];
      PutIntentsLookup(m, front, at, id);
      assert seeds == front + [last];
    }
  }

  lemma AdmissibleIsDistinct<P(!new)>(s: State<P>, tx: Transaction<P>)
    requires Admissible(s, tx)
    ensures DistinctEvents(tx.events) && DistinctMutations(tx.mutations) && tx.at.Some?
    ensures EventKeys(tx.events) == MutationKeys(tx.mutations)
  {
  }

  /** An admissible transaction raises exactly the revisions of the aggregates it mutates, each by one. */
  lemma CommitRevision<P(!new)>(s: State<P>, tx: Transaction<P>, k: Key)
    requires Admissible(s, tx)
    ensures RevisionOf(Applied(s, tx), k) == RevisionOf(s, k) + (if k in MutationKeys(tx.mutations) then 1 else 0)
    ensures RecordFits(s, k) ==> RecordFits(Applied(s, tx), k)
    ensures k !in MutationKeys(tx.mutations) ==>
              (k in Applied(s, tx).aggregates <==> k in s.aggregates)
              && (k in s.aggregates ==> Applied(s, tx).aggregates[k] == s.aggregates[k])
  {
    PutRecordsLookup(s.aggregates, tx.mutations, k);
    if k in MutationKeys(tx.mutations) {
      var i :| 0 <= i < |tx.mutations| && tx.mutations[i].record.key == k;
      assert tx.mutations[i] in tx.mutations;
    }
  }

  lemma EventRevision<P(!new)>(s: State<P>, tx: Transaction<P>, e: Event)
    requires Admissible(s, tx) && e in tx.events
    ensures e.key in MutationKeys(tx.mutations) && Describes(e, EventId(e.key, RevisionOf(s, e.key) + 1))
    ensures e.id == EventId(e.key, e.revision)
  {
    assert EventAccepted(s, tx, e) && Announces(tx, e);
    var m :| m in tx.mutations && m.record.key == e.key && m.record.revision == e.revision;
  }

  /** One event identity after a commit: the announced revisions are added, nothing else changes. */
  lemma CommitEvent<P(!new)>(s: State<P>, tx: Transaction<P>, id: EventId)
    requires Admissible(s, tx)
    ensures id in Applied(s, tx).events <==>
            id in s.events || (id.key in MutationKeys(tx.mutations) && id.revision == RevisionOf(s, id.key) + 1)
    ensures id in Applied(s, tx).events ==>
            || Describes(Applied(s, tx).events[id], id)
            || (id in s.events && Applied(s, tx).events[id] == s.events[id])
    ensures id in s.events && id.revision <= RevisionOf(s, id.key) ==> Applied(s, tx).events[id] == s.events[id]
  {
    AdmissibleIsDistinct(s, tx);
    hide Admissible;
    forall e | e in tx.events
      ensures e.key in MutationKeys(tx.mutations) && Describes(e, EventId(e.key, RevisionOf(s, e.key) + 1))
      ensures e.id == EventId(e.key, e.revision)
    {
      EventRevision(s, tx, e);
    }
    PutEventsLookup(s.events, tx.events, id);
    if id.key in MutationKeys(tx.mutations) && id.revision == RevisionOf(s, id.key) + 1 {
      assert id.key in EventKeys(tx.events);
      var i :| 0 <= i < |tx.events| && tx.events[i].key == id.key;
      assert tx.events[i] in tx.events;
    }
  }

  lemma CommitKeepsEventFits<P(!new)>(s: State<P>, tx: Transaction<P>, id: EventId)
    requires Admissible(s, tx) && EventFits(s, id)
    ensures EventFits(Applied(s, tx), id)
  {
    AdmissibleIsDistinct(s, tx);
    CommitRevision(s, tx, id.key);
    CommitEvent(s, tx, id);
    hide Admissible, Applied, MutationKeys, RevisionOf;
  }

  lemma CommitKeepsGapFree<P(!new)>(s: State<P>, tx: Transaction<P>)
    requires GapFree(s) && Admissible(s, tx)
    ensures GapFree(Applied(s, tx))
  {
    AdmissibleIsDistinct(s, tx);
    hide Admissible, Applied, RecordFits, EventFits, RevisionOf;
    forall k ensures RecordFits(Applied(s, tx), k) { CommitRevision(s, tx, k); }
    forall id ensures EventFits(Applied(s, tx), id) { CommitKeepsEventFits(s, tx, id); }
  }

  /** In every gap-free state the transaction's events are new, so the check of
      known events never refuses anything. */
  lemma EventsAreFresh<P(!new)>(s: State<P>, tx: Transaction<P>, e: Event)
    requires GapFree(s) && e.id == EventId(e.key, e.revision)
    requires exists m :: m in tx.mutations && m.record.key == e.key && m.record.revision == e.revision && Swaps(s, tx.expected, m)
    ensures e.id !in s.events
  {
    assert EventFits(s, e.id);
  }

  lemma CommitKeepsIntents<P(!new)>(s: State<P>, tx: Transaction<P>)
    requires IntentsValid(s) && Admissible(s, tx)
    ensures IntentsValid(Applied(s, tx))
    ensures forall id :: id in s.intents ==> id in Applied(s, tx).intents && Applied(s, tx).intents[id] == s.intents[id]
  {
    var t := Applied(s, tx);
    forall id
      ensures id in s.intents ==> id in t.intents && t.intents[id] == s.intents[id]
      ensures id in t.intents ==> IntentValid(t.intents[id])
    {
      PutIntentsLookup(s.intents, tx.intents, tx.at.value, id);
    }
  }

  lemma ClaimKeepsIntents<P>(s: State<P>, ids: set<IntentId>, lease: Lease, now: int)
    requires IntentsValid(s) && Claimable(s, ids, now)
    ensures IntentsValid(s.(intents := ClaimAll(s.intents, ids, lease)))
    ensures forall id :: id in s.intents ==>
              id in ClaimAll(s.intents, ids, lease) && IntentAdvances(s.intents[id], ClaimAll(s.intents, ids, lease)[id])
  {
  }

  lemma FoldKeepsIntents<P>(s: State<P>, fence: Fence, fold: Fold)
    requires IntentsValid(s) && fence.id in s.intents && FenceHolds(s.intents[fence.id], fence)
    ensures IntentsValid(s.(intents := s.intents[fence.id := Settled(s.intents[fence.id], fold, fence.at)]))
    ensures IntentAdvances(s.intents[fence.id], Settled(s.intents[fence.id], fold, fence.at))
  {
  }

  /** Only commits touch aggregates and events. */
  lemma GapFreeIgnoresIntents<P>(s: State<P>, t: State<P>)
    requires GapFree(s) && t.aggregates == s.aggregates && t.events == s.events
    ensures GapFree(t)
  {
    forall k ensures RecordFits(t, k) { assert RecordFits(s, k); }
    forall id ensures EventFits(t, id) { assert EventFits(s, id); }
  }

  lemma StepKeepsSound<P(!new)>(s: State<P>, op: Op<P>)
    requires Sound(s)
    ensures Sound(Step(s, op))
  {
    hide Admissible, GapFree, IntentsValid, Applied, ClaimAll, Settled, FenceHolds, Claimable, FoldAccepted;
    match op {
      case CommitOp(tx) =>
        if Commit(s, tx).1.Fresh? {
          AdmissibleIsDistinct(s, tx);
          CommitKeepsGapFree(s, tx);
          CommitKeepsIntents(s, tx);
          GapFreeIgnoresIntents(Applied(s, tx), Step(s, op));
          IntentsValidIn(Applied(s, tx), Step(s, op));
        }
      case ClaimOp(ids, lease, now) =>
        if Claimable(s, ids, now) { ClaimKeepsIntents(s, ids, lease, now); }
        GapFreeIgnoresIntents(s, Step(s, op));
      case FoldOp(fence, fold) =>
        if fence.id in s.intents && FenceHolds(s.intents[fence.id], fence) { FoldKeepsIntents(s, fence, fold); }
        GapFreeIgnoresIntents(s, Step(s, op));
      case InboxOp(source, message, digest) =>
        GapFreeIgnoresIntents(s, Step(s, op));
        IntentsValidIn(s, Step(s, op));
    }
  }

  lemma IntentsValidIn<P>(s: State<P>, t: State<P>)
    requires IntentsValid(s) && t.intents == s.intents
    ensures IntentsValid(t)
  {
  }

  /** The log has no gap and every intent is well formed after any operations. */
  lemma {:induction false} RunKeepsSound<P(!new)>(s: State<P>, ops: seq<Op<P>>)
    requires Sound(s)
    ensures Sound(Run(s, ops))
  {
    if ops != [] {
      RunKeepsSound(s, ops[..|ops| - 1]);
      StepKeepsSound(Run(s, ops[..|ops| - 1]), ops[|ops| - 1]);
    }
  }

  // ------------------------------------------------------ what steps preserve

  /** An aggregate is never removed, and its record changes only with its revision. */
  predicate RecordAdvances<P(==)>(s: State<P>, t: State<P>, k: Key) {
    k in s.aggregates ==>
      k in t.aggregates && (t.aggregates[k] == s.aggregates[k] || s.aggregates[k].revision < t.aggregates[k].revision)
  }

  /** An intent record changes only with its revision, and not at all once settled for good. */
  predicate IntentAdvances(before: IntentRecord, after: IntentRecord) {
    before == after || (before.revision < after.revision && before.status != Completed && before.status != Dead)
  }

  predicate IntentKept<P>(s: State<P>, t: State<P>, id: IntentId) {
    id in s.intents ==> id in t.intents && IntentAdvances(s.intents[id], t.intents[id])
  }

  predicate CommandKept<P(==)>(s: State<P>, t: State<P>, c: CommandKey) {
    c in s.commands ==> c in t.commands && t.commands[c] == s.commands[c]
  }

  predicate EventKept<P>(s: State<P>, t: State<P>, id: EventId) {
    id in s.events ==> id in t.events && t.events[id] == s.events[id]
  }

  /** How far a state may differ from an earlier one. */
  ghost predicate Advances<P>(s: State<P>, t: State<P>) {
    && (forall k :: RecordAdvances(s, t, k))
    && (forall c :: CommandKept(s, t, c))
    && (forall id :: EventKept(s, t, id))
    && (forall id :: IntentKept(s, t, id))
  }

  lemma CommitKeepsEvent<P(!new)>(s: State<P>, tx: Transaction<P>, id: EventId)
    requires GapFree(s) && Admissible(s, tx)
    ensures EventKept(s, Applied(s, tx), id)
  {
    assert EventFits(s, id);
    hide Admissible, GapFree, Applied;
    CommitEvent(s, tx, id);
  }

  lemma CommitRecordAdvances<P(!new)>(s: State<P>, tx: Transaction<P>, k: Key)
    requires Admissible(s, tx)
    ensures RecordAdvances(s, Applied(s, tx), k)
  {
    AdmissibleIsDistinct(s, tx);
    CommitRevision(s, tx, k);
    hide Admissible, Applied, MutationKeys;
  }

  lemma CommitAdvances<P(!new)>(s: State<P>, tx: Transaction<P>)
    requires Sound(s) && Commit(s, tx).1.Fresh?
    ensures Advances(s, Commit(s, tx).0)
  {
    var t, u := Applied(s, tx), Commit(s, tx).0;
    assert CommandOf(tx) !in s.commands;
    CommitKeepsIntents(s, tx);
    AdmissibleIsDistinct(s, tx);
    hide Admissible, GapFree;
    assert u.aggregates == t.aggregates && u.events == t.events && u.intents == t.intents;
    assert forall c :: CommandKept(s, u, c);
    hide Applied, CommandKept;
    forall k ensures RecordAdvances(s, u, k) { CommitRecordAdvances(s, tx, k); }
    forall id ensures EventKept(s, u, id) { CommitKeepsEvent(s, tx, id); }
  }

  lemma StepAdvances<P(!new)>(s: State<P>, op: Op<P>)
    requires Sound(s)
    ensures Advances(s, Step(s, op))
  {
    hide Admissible, GapFree, Commit;
    match op {
      case CommitOp(tx) =>
        CommitUnlessFresh(s, tx);
        if Commit(s, tx).1.Fresh? { CommitAdvances(s, tx); }
      case ClaimOp(ids, lease, now) => if Claimable(s, ids, now) { ClaimKeepsIntents(s, ids, lease, now); }
      case FoldOp(fence, fold) =>
        if fence.id in s.intents && FenceHolds(s.intents[fence.id], fence) { FoldKeepsIntents(s, fence, fold); }
      case InboxOp(source, message, digest) =>
    }
  }

  /** Whatever a commit answers, the state changes only when its outcome is fresh. */
  lemma CommitUnlessFresh<P(!new)>(s: State<P>, tx: Transaction<P>)
    ensures !Commit(s, tx).1.Fresh? ==> Commit(s, tx).0 == s
  {
  }

  lemma AdvancesIsTransitive<P>(a: State<P>, b: State<P>, c: State<P>)
    requires Advances(a, b) && Advances(b, c)
    ensures Advances(a, c)
  {
    forall k ensures RecordAdvances(a, c, k) { assert RecordAdvances(a, b, k) && RecordAdvances(b, c, k); }
    forall k ensures CommandKept(a, c, k) { assert CommandKept(a, b, k) && CommandKept(b, c, k); }
    forall id ensures EventKept(a, c, id) { assert EventKept(a, b, id) && EventKept(b, c, id); }
    forall id ensures IntentKept(a, c, id) { assert IntentKept(a, b, id) && IntentKept(b, c, id); }
  }

  lemma {:induction false} RunAdvances<P(!new)>(s: State<P>, ops: seq<Op<P>>)
    requires Sound(s)
    ensures Advances(s, Run(s, ops))
  {
    if ops != [] {
      var front := ops[..|ops| - 1];
      RunAdvances(s, front);
      RunKeepsSound(s, front);
      StepAdvances(Run(s, front), ops[|ops| - 1]);
      AdvancesIsTransitive(s, Run(s, front), Run(s, ops));
    }
  }

  /** A command that was recorded changes nothing ever again: whatever happens in
      between, submitting it returns its first outcome, or is refused if its
      identity differs. */
  lemma RecordedCommandReplays<P(!new)>(s: State<P>, ops: seq<Op<P>>, first: Transaction<P>, again: Transaction<P>)
    requires Sound(s) && Commit(s, first).1.Fresh?
    requires again.wellFormed && CommandOf(again) == CommandOf(first)
    ensures var later := Run(Commit(s, first).0, ops);
            Commit(later, again) ==
              (later, if again.identity == first.identity then Replayed(first.outcome) else Refused)
  {
    var t := Commit(s, first).0;
    assert CommandOf(first) in t.commands && t.commands[CommandOf(first)] == CommandRecord(first.identity, first.outcome);
    assert t == Step(s, CommitOp(first));
    StepKeepsSound(s, CommitOp(first));
    RunAdvances(t, ops);
    assert CommandKept(t, Run(t, ops), CommandOf(first));
    hide Run, Admissible, Sound, Advances;
  }

  /** An intent that was completed or given up is never leased or settled again. */
  lemma SettledIntentIsFinal<P(!new)>(s: State<P>, ops: seq<Op<P>>, id: IntentId)
    requires Sound(s) && id in s.intents && s.intents[id].status in {Completed, Dead}
    ensures id in Run(s, ops).intents && Run(s, ops).intents[id] == s.intents[id]
  {
    RunAdvances(s, ops);
    assert IntentKept(s, Run(s, ops), id);
  }

  /** A worker whose lease was claimed settles the intent only while nobody else
      claimed or settled it since: its revision is still the claimed one. */
  lemma LeaseIsExclusive<P(!new)>(s: State<P>, ops: seq<Op<P>>, id: IntentId, fence: Fence)
    requires Sound(s) && id in s.intents && fence.id == id && FenceHolds(s.intents[id], fence)
    requires id in Run(s, ops).intents && FenceHolds(Run(s, ops).intents[id], fence)
    ensures Run(s, ops).intents[id] == s.intents[id]
    ensures !Eligible(s.intents[id], fence.at)
  {
    RunAdvances(s, ops);
    assert IntentKept(s, Run(s, ops), id);
  }
}
