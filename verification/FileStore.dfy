/** The file store object: a published state, the journal file behind it, and the
    poison flag that a failed write leaves. Every operation is proved against the
    value model of the store, and every failed write against crash recovery. */
module FileStore {
  import opened Prelude
  import opened Journal
  import opened Order
  import opened Store
  import opened Transactions
  import Recovery = JournalRecovery

  /** validateState: what recovery demands of a decoded state. */
  ghost predicate StateValid<P>(s: State<P>) {
    && (forall k :: k in s.aggregates ==> s.aggregates[k].key == k && s.aggregates[k].revision > 0)
    && (forall id :: id in s.events ==> s.events[id].id == id && s.events[id].wellFormed)
    && (forall id :: id in s.intents ==> s.intents[id].revision > 0 && IntentValid(s.intents[id]))
  }

  /** Recovery never rejects a state the operations can reach. */
  lemma SoundStatesAreValid<P>(s: State<P>)
    requires Sound(s)
    ensures StateValid(s)
  {
    forall k | k in s.aggregates ensures s.aggregates[k].key == k && s.aggregates[k].revision > 0 {
      assert RecordFits(s, k);
    }
    forall id | id in s.events ensures s.events[id].id == id && s.events[id].wellFormed { assert EventFits(s, id); }
  }

  ghost predicate Faithful<P(!new)>(c: Codec<State<P>>) {
    ValidCodec(c) && (forall s :: StateValid(s) ==> c.valid(s)) && c.empty == Empty()
  }

  lemma EmptyIsSound<P>()
    ensures Sound(Empty<P>())
  {
    forall id ensures EventFits(Empty<P>(), id) {}
  }

  /** What the disk does with one append: everything, or an error after `cut` bytes. */
  datatype Fault = Clean | Interrupted(cut: nat)

  /** Opening `file` succeeds and finds one of the two states. */
  ghost predicate RecoversTo<P(!new)>(c: Codec<State<P>>, file: bytes, s: State<P>, t: State<P>) {
    var d := Recovery.Open(c, file);
    d.Some? && Recovery.Committed(c, d.value) && (d.value.state == s || d.value.state == t)
  }

  lemma InterruptedAppendRecovers<P(!new)>(c: Codec<State<P>>, d: Recovery.Disk<State<P>>, next: State<P>, cut: nat)
    requires Faithful(c) && Recovery.Committed(c, d) && Sound(next)
    requires |c.marshal(next)| <= MAX_FRAME_BYTES
    ensures RecoversTo(c, Recovery.CrashedFile(c, d, next, cut), d.state, next)
  {
    SoundStatesAreValid(next);
    Recovery.OpenAfterCrash(c, d, next, cut);
  }

  lemma AppendCommits<P(!new)>(c: Codec<State<P>>, d: Recovery.Disk<State<P>>, next: State<P>)
    requires Faithful(c) && Recovery.Committed(c, d) && Sound(next)
    requires |c.marshal(next)| <= MAX_FRAME_BYTES
    ensures Recovery.Committed(c, Recovery.Append(c, d, next))
  {
    SoundStatesAreValid(next);
    Recovery.AppendKeepsCommitted(c, d, next);
  }

  datatype ClaimRequest = ClaimRequest(lease: Lease, now: int, limit: nat, kinds: set<IntentKind>, wellFormed: bool)

  datatype Candidate = Candidate(availableAt: int, id: IntentId)

  predicate Requested(r: IntentRecord, id: IntentId, request: ClaimRequest) {
    (request.kinds == {} || id.kind in request.kinds) && Eligible(r, request.now)
  }

  class DurableStore<P(!new)> {
    const codec: Codec<State<P>>
    /** How the textual identities of intents compare. */
    const idLess: (IntentId, IntentId) -> bool
    var file: bytes
    var state: State<P>
    var frameCount: nat
    var poisoned: bool
    /** The state whose append failed and poisoned the store. */
    ghost var pending: State<P>

    ghost function Image(): Recovery.Disk<State<P>>
      reads this
    {
      Recovery.Disk(file, state, frameCount)
    }

    ghost predicate Valid()
      reads this
    {
      && Faithful(codec) && StrictOrder(idLess)
      && Sound(state) && Sound(pending)
      && (if poisoned then RecoversTo(codec, file, state, pending) else Recovery.Committed(codec, Image()))
    }

    constructor (c: Codec<State<P>>, less: (IntentId, IntentId) -> bool, image: Recovery.Disk<State<P>>)
      ensures codec == c && idLess == less && Image() == image && !poisoned && pending == image.state
    {
      codec, idLess := c, less;
      file, state, frameCount, poisoned := image.file, image.state, image.frames, false;
      pending := image.state;
    }

    /** Opening recovers the last committed state, cuts a torn tail off, and
        compacts a journal of several frames. */
    static method Open(c: Codec<State<P>>, less: (IntentId, IntentId) -> bool, bytesOnDisk: bytes)
      returns (r: Option<DurableStore<P>>)
      requires Faithful(c) && StrictOrder(less)
      ensures r.Some? <==> Recovery.Open(c, bytesOnDisk).Some?
      ensures r.Some? ==> fresh(r.value) && !r.value.poisoned && r.value.codec == c && r.value.idLess == less
      ensures r.Some? ==> r.value.Image() == Recovery.Open(c, bytesOnDisk).value
      ensures r.Some? && Recovery.Committed(c, r.value.Image()) && Sound(r.value.state) ==> r.value.Valid()
    {
      hide Load, Recovery.FrameOf;
      var loaded := LoadFile(c, bytesOnDisk);
      match loaded {
        case Corrupt => return None;
        case Loaded(latest, offset, frames, torn) =>
          if bytesOnDisk != [] && frames == 0 && !Recovery.PartialMagic(bytesOnDisk) { return None; }
          var image := Recovery.Disk(bytesOnDisk, latest, frames);
          if torn && offset <= |bytesOnDisk| { image := Recovery.Disk(bytesOnDisk[..offset], latest, frames); }
          if frames > 1 { image := Recovery.Disk(Recovery.FrameOf(c, latest), latest, 1); }
          var recovered := new DurableStore<P>(c, less, image);
          return Some(recovered);
      }
    }

    /** A process that dies, or is poisoned, loses at most the append in flight. */
    method Restart() returns (r: DurableStore<P>)
      requires Valid()
      ensures fresh(r) && r.Valid() && !r.poisoned && r.codec == codec
      ensures r.state == state || (poisoned && r.state == pending)
    {
      if !poisoned { Recovery.ReopenKeepsState(codec, Image()); }
      hide Faithful, Sound, Recovery.Committed, Recovery.Open;
      var recovered := Open(codec, idLess, file);
      r := recovered.value;
    }

    /** append, and the publication of the state that follows it in every caller. */
    method Publish(next: State<P>, fault: Fault) returns (ok: bool)
      requires Valid() && !poisoned && Sound(next)
      modifies this
      ensures Valid()
      ensures ok <==> fault.Clean? && |codec.marshal(next)| <= MAX_FRAME_BYTES
      ensures ok ==> Image() == Recovery.Append(codec, old(Image()), next) && state == next && !poisoned
      ensures !ok ==> state == old(state)
      ensures !ok && !poisoned ==> Image() == old(Image())
      ensures !ok && poisoned ==> pending == next
    {
      hide Faithful, StrictOrder, Sound, RecoversTo, Recovery.FrameOf, Recovery.Committed, Recovery.Open;
      var frame := Recovery.FrameOf(codec, next);
      if |codec.marshal(next)| > MAX_FRAME_BYTES { return false; }
      match fault {
        case Clean =>
          AppendCommits(codec, Image(), next);
          if Recovery.ShouldCompact(|file|, |frame|, frameCount) {
            file, frameCount := frame, 1;
          } else {
            file, frameCount := file + frame, frameCount + 1;
          }
          state := next;
          return true;
        case Interrupted(cut) =>
          InterruptedAppendRecovers(codec, Image(), next, cut);
          if cut >= |frame| {
            file := if Recovery.ShouldCompact(|file|, |frame|, frameCount) then frame else file + frame;
          } else if !Recovery.ShouldCompact(|file|, |frame|, frameCount) {
            file := file + frame[..cut];
          }
          pending, poisoned := next, true;
          return false;
      }
    }

    method Commit(tx: Transaction<P>, fault: Fault) returns (r: Result<CommitOutcome<P>, Error>)
      requires Valid()
      modifies this
      ensures Valid()
      ensures old(poisoned) ==> r == Err(Poisoned)
      ensures r.Ok? ==> !poisoned && (state, r.value) == Store.Commit(old(state), tx) && !r.value.Refused?
      ensures r.Err? ==> state == old(state)
      ensures r.Err? && r.error != Io ==> Image() == old(Image()) && poisoned == old(poisoned)
      ensures r == Err(Io) ==> (Store.Commit(old(state), tx).1.Fresh? && (poisoned ==> pending == Store.Commit(old(state), tx).0))
      ensures !old(poisoned) && Store.Commit(old(state), tx).1.Refused? ==> r.Err? && !poisoned
      ensures r == Err(RevisionConflict) ==> exists m :: m in tx.mutations && !Swaps(old(state), tx.expected, m)
    {
      hide Sound, Faithful, Recovery.Committed, RecoversTo, Recovery.Append, Admissible, Swaps;
      if poisoned { return Err(Poisoned); }
      if !tx.wellFormed { return Err(Malformed); }
      var command := CommandOf(tx);
      if command in state.commands {
        var prior := state.commands[command];
        if prior.identity != tx.identity { return Err(IdentityConflict); }
        return Ok(Replayed(prior.outcome));
      }
      if tx.at.None? || !tx.outcomeWellFormed {
        UndatedIsInadmissible(state, tx);
        return Err(Malformed);
      }
      var next := ApplyTransaction(state, tx);
      if next.Err? { return Err(next.error); }
      var recorded := next.value.(commands := next.value.commands[command := CommandRecord(tx.identity, tx.outcome)]);
      assert recorded == Step(state, CommitOp(tx));
      StepKeepsSound(state, CommitOp(tx));
      var ok := Publish(recorded, fault);
      if !ok { return Err(Io); }
      return Ok(Fresh(tx.outcome));
    }

    /** The next `limit` events of an aggregate, in order and without a gap. */
    method EventsAfter(key: Key, revision: nat, limit: nat) returns (r: seq<Event>)
      requires Valid() && limit > 0
      ensures |r| == if revision >= RevisionOf(state, key) then 0
                     else if RevisionOf(state, key) - revision < limit then RevisionOf(state, key) - revision else limit
      ensures forall i :: 0 <= i < |r| ==>
                EventId(key, revision + 1 + i) in state.events && r[i] == state.events[EventId(key, revision + 1 + i)]
    {
      hide Faithful, GapFree, IntentsValid, Recovery.Committed, RecoversTo;
      var later := RevisionsAfter(state, key, revision);
      var sorted := SortBy(later, (x: nat, y: nat) => x < y);
      forall n: nat ensures n in sorted <==> revision < n <= RevisionOf(state, key) {
        assert n in Items(sorted) <==> n in later;
      }
      ContiguousWhenSorted(sorted, revision, RevisionOf(state, key));
      forall i | 0 <= i < |sorted| ensures EventId(key, sorted[i]) in state.events { assert sorted[i] in later; }
      if |sorted| > limit { sorted := sorted[..limit]; }
      r := [];
      for i := 0 to |sorted|
        invariant |r| == i
        invariant forall j :: 0 <= j < |sorted| ==> EventId(key, sorted[j]) in state.events
        invariant forall j :: 0 <= j < i ==> r[j] == state.events[EventId(key, revision + 1 + j)]
      {
        r := r + [state.events[EventId(key, sorted[i])]];
      }
    }

    /** Leases the first `limit` eligible intents, ordered by availability and identity. */
    method ClaimIntents(request: ClaimRequest, fault: Fault) returns (r: Result<seq<IntentId>, Error>)
      requires Valid()
      modifies this
      ensures Valid()
      ensures old(poisoned) ==> r == Err(Poisoned)
      ensures r.Ok? ==> request.wellFormed && request.limit > 0
      ensures r.Ok? ==> !poisoned && state == Step(old(state), ClaimOp(Items(r.value), request.lease, request.now))
      ensures r.Ok? ==> FirstEligible(old(state), request, idLess, r.value)
      ensures r.Err? ==> state == old(state)
      ensures r.Err? && r.error != Io ==> Image() == old(Image()) && poisoned == old(poisoned)
    {
      if poisoned { return Err(Poisoned); }
      if !request.wellFormed || request.lease.expiresAt <= request.now || request.limit == 0 { return Err(Malformed); }
      var candidates := Candidates(state, request);
      var less := CandidateLess(idLess);
      CandidateOrder(idLess);
      var sorted := SortBy(candidates, less);
      FirstCandidates(state, request, idLess, candidates, sorted);
      if |sorted| > request.limit { sorted := sorted[..request.limit]; }
      var ids := seq(|sorted|, i requires 0 <= i < |sorted| => sorted[i].id);
      hide FirstEligible, Sound, Faithful, Recovery.Committed, RecoversTo, Recovery.Append, CandidateLess, StrictOrder;
      if |sorted| == 0 {
        assert ClaimAll(state.intents, Items(ids), request.lease) == state.intents;
        return Ok(ids);
      }
      var intents := LeaseEach(state.intents, ids, request.lease);
      var next := state.(intents := intents);
      ClaimableIds(state, request, ids);
      assert next == Step(state, ClaimOp(Items(ids), request.lease, request.now));
      StepKeepsSound(state, ClaimOp(Items(ids), request.lease, request.now));
      var ok := Publish(next, fault);
      if !ok { return Err(Io); }
      return Ok(ids);
    }

    /** CompleteIntent and FailIntent: only the holder of the current lease settles an intent. */
    method FoldIntent(fence: Fence, fold: Fold, fault: Fault) returns (r: Result<IntentRecord, Error>)
      requires Valid()
      modifies this
      ensures Valid()
      ensures old(poisoned) ==> r.Err? && state == old(state)
      ensures r.Ok? ==> !poisoned && state == Step(old(state), FoldOp(fence, fold))
      ensures r.Ok? ==> FoldAccepted(fold, fence.at) && fence.id in old(state).intents && FenceHolds(old(state).intents[fence.id], fence)
      ensures r.Ok? ==> fence.id in state.intents && r.value == state.intents[fence.id]
      ensures r == Err(LeaseConflict) ==> fence.id in old(state).intents && !FenceHolds(old(state).intents[fence.id], fence)
      ensures r == Err(NotFound) ==> fence.id !in old(state).intents
      ensures r.Err? ==> state == old(state)
      ensures r.Err? && r.error != Io ==> Image() == old(Image()) && poisoned == old(poisoned)
    {
      hide Sound, Faithful, Recovery.Committed, RecoversTo, Recovery.Append;
      if !FoldAccepted(fold, fence.at) { return Err(Malformed); }
      if poisoned { return Err(Poisoned); }
      if fence.id !in state.intents { return Err(NotFound); }
      var record := state.intents[fence.id];
      if !FenceHolds(record, fence) { return Err(LeaseConflict); }
      var settled := Settled(record, fold, fence.at);
      var next := state.(intents := state.intents[fence.id := settled]);
      assert next == Step(state, FoldOp(fence, fold));
      StepKeepsSound(state, FoldOp(fence, fold));
      var ok := Publish(next, fault);
      if !ok { return Err(Io); }
      return Ok(settled);
    }

    /** An inbox message is recorded once; its repetition must carry the same digest. */
    method RecordInbox(source: string, message: string, digest: string, wellFormed: bool, fault: Fault)
      returns (r: Result<bool, Error>)
      requires Valid()
      modifies this
      ensures Valid()
      ensures old(poisoned) ==> r == Err(Poisoned)
      ensures r.Ok? ==> !poisoned && state == Step(old(state), InboxOp(source, message, digest))
      ensures r.Ok? ==> (source, message) in state.inbox && state.inbox[(source, message)] == digest
      ensures r.Ok? ==> (r.value <==> (source, message) in old(state).inbox)
      ensures r == Err(IdentityConflict) ==> (source, message) in old(state).inbox && old(state).inbox[(source, message)] != digest
      ensures r.Err? ==> state == old(state)
      ensures r.Err? && r.error != Io ==> Image() == old(Image()) && poisoned == old(poisoned)
    {
      hide Sound, Faithful, Recovery.Committed, RecoversTo, Recovery.Append;
      if poisoned { return Err(Poisoned); }
      if !wellFormed { return Err(Malformed); }
      if (source, message) in state.inbox {
        return if state.inbox[(source, message)] != digest then Err(IdentityConflict) else Ok(true);
      }
      var next := state.(inbox := state.inbox[(source, message) := digest]);
      assert next == Step(state, InboxOp(source, message, digest));
      StepKeepsSound(state, InboxOp(source, message, digest));
      var ok := Publish(next, fault);
      if !ok { return Err(Io); }
      return Ok(false);
    }
  }

  lemma UndatedIsInadmissible<P(!new)>(s: State<P>, tx: Transaction<P>)
    requires tx.at.None? || !tx.outcomeWellFormed
    ensures !Admissible(s, tx)
  {
  }

  /** The revisions above `revision` among the logged events of one aggregate. */
  method RevisionsAfter<P>(s: State<P>, key: Key, revision: nat) returns (later: set<nat>)
    requires Sound(s)
    ensures forall n: nat :: n in later <==> revision < n <= RevisionOf(s, key)
    ensures forall n :: n in later ==> EventId(key, n) in s.events
  {
    later := {};
    var ids := s.events.Keys;
    while ids != {}
      invariant ids <= s.events.Keys
      invariant forall n :: n in later <==> n > revision && EventId(key, n) in s.events.Keys - ids
      decreases ids
    {
      var id :| id in ids;
      var event := s.events[id];
      assert EventFits(s, id);
      if event.key == key && event.revision > revision { later := later + {event.revision}; }
      ids := ids - {id};
    }
    forall n: nat ensures n in later <==> revision < n <= RevisionOf(s, key) {
      assert EventFits(s, EventId(key, n));
    }
  }

  lemma SomeElement<T(!new)>(s: seq<T>)
    ensures s == [] || exists x :: x in s
  {
    if s != [] { assert s[0] in s; }
  }

  lemma {:induction false} ContiguousWhenSorted(s: seq<nat>, low: nat, high: nat)
    requires Ascending(s, (x: nat, y: nat) => x < y)
    requires forall n: nat :: n in s <==> low < n <= high
    ensures |s| == if low >= high then 0 else high - low
    ensures forall i :: 0 <= i < |s| ==> s[i] == low + 1 + i
    decreases high
  {
    if low >= high {
      SomeElement(s);
    } else {
      assert high in s;
      var front, last := s[..|s| - 1], s[|s| - 1];
      assert last == high by {
        assert high in s;
        var j :| 0 <= j < |s| && s[j] == high;
        assert last in s;
      }
      forall n: nat ensures n in front <==> low < n <= high - 1 {
        if n in s && n != last {
          var j :| 0 <= j < |s| && s[j] == n;
          assert front[j] == n;
        }
        if n in front {
          var j :| 0 <= j < |front| && front[j] == n;
          assert s[j] < last;
        }
      }
      ContiguousWhenSorted(front, low, high - 1);
    }
  }

  // ------------------------------------------------------------------- claims

  function CandidateLess(idLess: (IntentId, IntentId) -> bool): (Candidate, Candidate) -> bool {
    (x: Candidate, y: Candidate) =>
      x.availableAt < y.availableAt || (x.availableAt == y.availableAt && idLess(x.id, y.id))
  }

  lemma CandidateOrder(idLess: (IntentId, IntentId) -> bool)
    requires StrictOrder(idLess)
    ensures StrictOrder(CandidateLess(idLess))
  {
    var less := CandidateLess(idLess);
    forall x ensures !less(x, x) { assert !idLess(x.id, x.id); }
    forall x, y ensures x == y || less(x, y) || less(y, x) {
      assert x.id == y.id || idLess(x.id, y.id) || idLess(y.id, x.id);
    }
    forall x, y, z | less(x, y) && less(y, z) ensures less(x, z) {
      if idLess(x.id, y.id) && idLess(y.id, z.id) { assert idLess(x.id, z.id); }
    }
  }

  method Candidates<P>(s: State<P>, request: ClaimRequest) returns (r: set<Candidate>)
    ensures forall c :: c in r <==> c.id in s.intents && Requested(s.intents[c.id], c.id, request)
                                    && c.availableAt == s.intents[c.id].availableAt
  {
    r := {};
    var ids := s.intents.Keys;
    while ids != {}
      invariant ids <= s.intents.Keys
      invariant forall c :: c in r <==> c.id in s.intents.Keys - ids && Requested(s.intents[c.id], c.id, request)
                                        && c.availableAt == s.intents[c.id].availableAt
      decreases ids
    {
      var id :| id in ids;
      var record := s.intents[id];
      if Requested(record, id, request) { r := r + {Candidate(record.availableAt, id)}; }
      ids := ids - {id};
    }
  }

  predicate ClaimBefore<P>(s: State<P>, idLess: (IntentId, IntentId) -> bool, a: IntentId, b: IntentId)
    requires a in s.intents && b in s.intents
  {
    var x, y := s.intents[a].availableAt, s.intents[b].availableAt;
    x < y || (x == y && idLess(a, b))
  }

  /** `ids` are the first eligible intents: none comes before them, and one is
      left out only when the limit is reached. */
  ghost predicate FirstEligible<P>(s: State<P>, request: ClaimRequest, idLess: (IntentId, IntentId) -> bool, ids: seq<IntentId>) {
    && |ids| <= request.limit
    && (forall i :: 0 <= i < |ids| ==> ids[i] in s.intents && Requested(s.intents[ids[i]], ids[i], request))
    && (forall i, j :: 0 <= i < j < |ids| ==> ClaimBefore(s, idLess, ids[i], ids[j]))
    && (forall id :: id in s.intents && Requested(s.intents[id], id, request) && id !in ids ==>
          |ids| == request.limit && forall i :: 0 <= i < |ids| ==> ClaimBefore(s, idLess, ids[i], id))
  }

  function IdsOf(cs: seq<Candidate>): seq<IntentId> {
    seq(|cs|, i requires 0 <= i < |cs| => cs[i].id)
  }

  lemma FirstCandidates<P>(s: State<P>, request: ClaimRequest, idLess: (IntentId, IntentId) -> bool,
                           candidates: set<Candidate>, sorted: seq<Candidate>)
    requires forall c :: c in candidates <==> c.id in s.intents && Requested(s.intents[c.id], c.id, request)
                                              && c.availableAt == s.intents[c.id].availableAt
    requires Ascending(sorted, CandidateLess(idLess)) && Items(sorted) == candidates
    ensures FirstEligible(s, request, idLess, IdsOf(if |sorted| > request.limit then sorted[..request.limit] else sorted))
  {
    var taken := if |sorted| > request.limit then sorted[..request.limit] else sorted;
    var ids := IdsOf(taken);
    forall i | 0 <= i < |sorted|
      ensures sorted[i].id in s.intents && Requested(s.intents[sorted[i].id], sorted[i].id, request)
      ensures sorted[i].availableAt == s.intents[sorted[i].id].availableAt
    {
      assert sorted[i] in Items(sorted);
    }
    forall i | 0 <= i < |taken| ensures taken[i].id in ids && taken[i] == sorted[i] { assert ids[i] == taken[i].id; }
    forall id | id in s.intents && Requested(s.intents[id], id, request) && id !in ids
      ensures |ids| == request.limit && forall i :: 0 <= i < |ids| ==> ClaimBefore(s, idLess, ids[i], id)
    {
      var c := Candidate(s.intents[id].availableAt, id);
      assert c in Items(sorted);
      var j :| 0 <= j < |sorted| && sorted[j] == c;
    }
  }

  lemma ClaimableIds<P>(s: State<P>, request: ClaimRequest, ids: seq<IntentId>)
    requires forall i :: 0 <= i < |ids| ==> ids[i] in s.intents && Requested(s.intents[ids[i]], ids[i], request)
    ensures Claimable(s, Items(ids), request.now)
  {
  }

  method LeaseEach(intents: map<IntentId, IntentRecord>, ids: seq<IntentId>, lease: Lease)
    returns (r: map<IntentId, IntentRecord>)
    requires forall i :: 0 <= i < |ids| ==> ids[i] in intents
    requires forall i, j :: 0 <= i < j < |ids| ==> ids[i] != ids[j]
    ensures r == ClaimAll(intents, Items(ids), lease)
  {
    r := intents;
    for i := 0 to |ids|
      invariant r.Keys == intents.Keys
      invariant forall id :: id in r ==> r[id] == if id in ids[..i] then Claimed(intents[id], lease) else intents[id]
    {
      var record := r[ids[i]];
      assert ids[i] !in ids[..i];
      r := r[ids[i] := record.(status := Leased, attempts := record.attempts + 1, lease := Some(lease), revision := record.revision + 1)];
      assert ids[..i + 1] == ids[..i] + [ids[i]];
    }
    assert ids[..|ids|] == ids;
  }
}
