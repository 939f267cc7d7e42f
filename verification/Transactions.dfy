/** applyTransaction as the store runs it: four validation loops, each filling an
    index of what it accepted, then three loops that install the transaction. */
module Transactions {
  import opened Prelude
  import opened Store

  /** `index` holds exactly the expected revisions. */
  ghost predicate Holds(index: map<Key, nat>, expected: seq<Expected>) {
    forall k, revision :: (k in index && index[k] == revision) <==> Expected(k, revision) in expected
  }

  /** What the index says of the expectations read so far. */
  ghost predicate IndexedTo(index: map<Key, nat>, expected: seq<Expected>, i: nat)
    requires i <= |expected|
  {
    && index.Keys == ExpectedKeys(expected[..i]) && DistinctExpected(expected[..i])
    && forall j :: 0 <= j < i ==> expected[j].key in index && index[expected[j].key] == expected[j].revision
  }

  lemma IndexGrows(index: map<Key, nat>, expected: seq<Expected>, i: nat)
    requires i < |expected| && IndexedTo(index, expected, i) && expected[i].key !in index
    ensures IndexedTo(index[expected[i].key := expected[i].revision], expected, i + 1)
  {
    var front, more := expected[..i], expected[..i + 1];
    assert more == front + [expected[i]];
    assert ExpectedKeys(more) == ExpectedKeys(front) + {expected[i].key} by {
      assert more[i].key == expected[i].key;
      assert forall j :: 0 <= j < i ==> more[j] == front[j];
    }
    assert forall j :: 0 <= j < i ==> front[j].key in ExpectedKeys(front);
  }

  lemma IndexRepeats(index: map<Key, nat>, expected: seq<Expected>, i: nat)
    requires i < |expected| && IndexedTo(index, expected, i) && expected[i].key in index
    ensures !DistinctExpected(expected)
  {
    var j :| 0 <= j < |expected[..i]| && expected[..i][j].key == expected[i].key;
    assert expected[j].key == expected[i].key;
  }

  lemma IndexHolds(index: map<Key, nat>, expected: seq<Expected>)
    requires IndexedTo(index, expected, |expected|)
    ensures Holds(index, expected) && index.Keys == ExpectedKeys(expected) && DistinctExpected(expected)
  {
    assert expected[..|expected|] == expected;
    forall k, revision ensures (k in index && index[k] == revision) <==> Expected(k, revision) in expected {
      if k in index {
        var j :| 0 <= j < |expected| && expected[j].key == k;
        assert expected[j] == Expected(k, index[k]);
      }
    }
  }

  method IndexExpected(expected: seq<Expected>) returns (r: Result<map<Key, nat>, Error>)
    ensures r.Ok? <==> DistinctExpected(expected)
    ensures r.Ok? ==> r.value.Keys == ExpectedKeys(expected)
    ensures r.Ok? ==> Holds(r.value, expected)
    ensures r.Err? ==> r.error == Malformed
  {
    var index: map<Key, nat> := map[];
    assert IndexedTo(index, expected, 0);
    hide IndexedTo, DistinctExpected, Holds, ExpectedKeys;
    for i := 0 to |expected|
      invariant IndexedTo(index, expected, i)
    {
      var item := expected[i];
      if item.key in index {
        IndexRepeats(index, expected, i);
        return Err(Malformed);
      }
      IndexGrows(index, expected, i);
      index := index[item.key := item.revision];
    }
    IndexHolds(index, expected);
    r := Ok(index);
  }

  /** The mutations accepted so far, by key. */
  ghost predicate Indexes<P>(index: map<Key, Record<P>>, ms: seq<Mutation<P>>) {
    && index.Keys == MutationKeys(ms) && DistinctMutations(ms)
    && forall m :: m in ms ==> m.record.key in index && index[m.record.key] == m.record
  }

  lemma IndexesExtends<P>(index: map<Key, Record<P>>, ms: seq<Mutation<P>>, m: Mutation<P>)
    requires Indexes(index, ms) && m.record.key !in index
    ensures Indexes(index[m.record.key := m.record], ms + [m])
  {
    var all := ms + [m];
    assert MutationKeys(all) == MutationKeys(ms) + {m.record.key} by {
      assert all[|ms|].record.key == m.record.key;
      assert forall j :: 0 <= j < |ms| ==> all[j] == ms[j];
    }
    assert forall j :: 0 <= j < |ms| ==> ms[j] in ms;
  }

  lemma SwapsExactly<P>(s: State<P>, expected: seq<Expected>, index: map<Key, nat>, m: Mutation<P>)
    requires Holds(index, expected)
    ensures var key := m.record.key;
            Swaps(s, expected, m) <==>
              key in index && m.record.revision == index[key] + 1 && index[key] == RevisionOf(s, key)
  {
    var key := m.record.key;
    if key in index { assert Expected(key, index[key]) in expected; }
  }

  lemma RepeatedMutation<P>(s: State<P>, expected: seq<Expected>, index: map<Key, Record<P>>, ms: seq<Mutation<P>>, i: nat)
    requires i < |ms| && Indexes(index, ms[..i]) && ms[i].record.key in index
    ensures !MutationsAccepted(s, expected, ms)
  {
    var j :| 0 <= j < |ms[..i]| && ms[..i][j].record.key == ms[i].record.key;
    assert ms[j].record.key == ms[i].record.key;
    hide Swaps;
  }

  lemma BadMutation<P>(s: State<P>, expected: seq<Expected>, ms: seq<Mutation<P>>, i: nat)
    requires i < |ms| && (!ms[i].wellFormed || !Swaps(s, expected, ms[i]))
    ensures !MutationsAccepted(s, expected, ms) && ms[i] in ms
  {
    hide Swaps;
  }

  lemma GoodMutations<P>(s: State<P>, expected: seq<Expected>, index: map<Key, Record<P>>, ms: seq<Mutation<P>>)
    requires Indexes(index, ms) && forall m :: m in ms ==> m.wellFormed && Swaps(s, expected, m)
    ensures MutationsAccepted(s, expected, ms)
  {
    hide Swaps;
  }

  method CheckMutations<P(!new)>(s: State<P>, expected: seq<Expected>, index: map<Key, nat>, ms: seq<Mutation<P>>)
    returns (r: Result<map<Key, Record<P>>, Error>)
    requires Holds(index, expected)
    ensures r.Ok? <==> MutationsAccepted(s, expected, ms)
    ensures r.Ok? ==> Indexes(r.value, ms)
    ensures r.Err? ==> r.error == Malformed || r.error == RevisionConflict
    ensures r == Err(RevisionConflict) ==> exists m :: m in ms && !Swaps(s, expected, m)
  {
    var mutations: map<Key, Record<P>> := map[];
    assert ms[..0] == [] && Indexes(mutations, ms[..0]);
    hide Indexes, Swaps, MutationsAccepted, Holds;
    for i := 0 to |ms|
      invariant Indexes(mutations, ms[..i])
      invariant forall m :: m in ms[..i] ==> m.wellFormed && Swaps(s, expected, m)
    {
      var m := ms[i];
      var key := m.record.key;
      SwapsExactly(s, expected, index, m);
      if key !in index || m.record.revision != index[key] + 1 {
        BadMutation(s, expected, ms, i);
        return Err(RevisionConflict);
      }
      if key in mutations {
        RepeatedMutation(s, expected, mutations, ms, i);
        return Err(Malformed);
      }
      var current := if key in s.aggregates then s.aggregates[key].revision else 0;
      if current != index[key] {
        BadMutation(s, expected, ms, i);
        return Err(RevisionConflict);
      }
      if !m.wellFormed {
        BadMutation(s, expected, ms, i);
        return Err(Malformed);
      }
      IndexesExtends(mutations, ms[..i], m);
      assert ms[..i + 1] == ms[..i] + [m];
      mutations := mutations[key := m.record];
    }
    assert ms[..|ms|] == ms;
    GoodMutations(s, expected, mutations, ms);
    r := Ok(mutations);
  }

  method CheckEvents<P(!new)>(s: State<P>, tx: Transaction<P>, mutations: map<Key, Record<P>>)
    returns (r: Result<set<Key>, Error>)
    requires Indexes(mutations, tx.mutations)
    ensures r.Ok? <==> EventsAccepted(s, tx)
    ensures r.Ok? ==> r.value == EventKeys(tx.events) && r.value <= mutations.Keys
    ensures r.Err? ==> r.error == Malformed || r.error == IdentityConflict
    ensures r == Err(IdentityConflict) ==> exists e :: e in tx.events && e.id in s.events
  {
    var es := tx.events;
    var announced: set<Key> := {};
    for i := 0 to |es|
      invariant announced == EventKeys(es[..i]) && announced <= mutations.Keys
      invariant DistinctEvents(es[..i])
      invariant forall e :: e in es[..i] ==> EventAccepted(s, tx, e)
    {
      var e := es[i];
      assert e in tx.events;
      if !e.wellFormed || e.id != EventId(e.key, e.revision) || e.commandId != tx.commandId { return Err(Malformed); }
      if e.key !in mutations || mutations[e.key].revision != e.revision {
        assert forall m :: m in tx.mutations && m.record.key == e.key ==> m.record.revision != e.revision;
        return Err(Malformed);
      }
      if e.key in announced {
        var j :| 0 <= j < |es[..i]| && es[..i][j].key == e.key;
        assert es[j].key == es[i].key;
        return Err(Malformed);
      }
      if e.id in s.events && s.events[e.id].body != e.body { return Err(IdentityConflict); }
      AnnouncedByIndex(tx, mutations, e);
      announced := announced + {e.key};
      assert es[..i + 1] == es[..i] + [e];
      EventKeysExtends(es[..i], e);
    }
    assert es[..|es|] == es;
    r := Ok(announced);
  }

  lemma AnnouncedByIndex<P>(tx: Transaction<P>, mutations: map<Key, Record<P>>, e: Event)
    requires Indexes(mutations, tx.mutations) && e.key in mutations && mutations[e.key].revision == e.revision
    requires e.wellFormed && e.id == EventId(e.key, e.revision) && e.commandId == tx.commandId
    ensures Announces(tx, e)
  {
    var j :| 0 <= j < |tx.mutations| && tx.mutations[j].record.key == e.key;
    assert tx.mutations[j] in tx.mutations;
  }

  lemma EventKeysExtends(es: seq<Event>, e: Event)
    ensures EventKeys(es + [e]) == EventKeys(es) + {e.key}
  {
    var all := es + [e];
    assert all[|es|].key == e.key;
    assert forall j :: 0 <= j < |es| ==> all[j] == es[j];
  }

  method CheckIntents<P(!new)>(s: State<P>, seeds: seq<IntentSeed>, at: int) returns (r: Option<Error>)
    ensures r.None? <==> IntentsAccepted(s, seeds, at)
    ensures r.Some? ==> r.value == Malformed || r.value == IdentityConflict
    ensures r == Some(IdentityConflict) ==> exists seed :: seed in seeds && seed.id in s.intents
  {
    var known: set<IntentId> := {};
    for i := 0 to |seeds|
      invariant DistinctIntents(seeds[..i])
      invariant forall id :: id in known <==> exists j :: 0 <= j < i && seeds[j].id == id
      invariant forall seed :: seed in seeds[..i] ==> SeedAccepted(seed, at) && seed.id !in s.intents
    {
      var seed := seeds[i];
      if !SeedAccepted(seed, at) { return Some(Malformed); }
      if seed.id in known { return Some(Malformed); }
      known := known + {seed.id};
      if seed.id in s.intents { return Some(IdentityConflict); }
      assert seeds[..i + 1] == seeds[..i] + [seed];
    }
    assert seeds[..|seeds|] == seeds;
    r := None;
  }

  /** Writing the accepted mutations in any order installs the same records. */
  method InstallRecords<P(!new)>(aggregates: map<Key, Record<P>>, mutations: map<Key, Record<P>>, ghost ms: seq<Mutation<P>>)
    returns (r: map<Key, Record<P>>)
    requires Indexes(mutations, ms)
    ensures r == PutRecords(aggregates, ms)
  {
    r := aggregates;
    var keys := mutations.Keys;
    while keys != {}
      invariant keys <= mutations.Keys
      invariant forall k :: k in r <==> k in aggregates || k in mutations.Keys - keys
      invariant forall k :: k in r ==> r[k] == if k in mutations.Keys - keys then mutations[k] else aggregates[k]
      decreases keys
    {
      var key :| key in keys;
      r := r[key := mutations[key]];
      keys := keys - {key};
    }
    var goal := PutRecords(aggregates, ms);
    forall k
      ensures k in r <==> k in goal
      ensures k in r ==> r[k] == goal[k]
    {
      PutRecordsLookup(aggregates, ms, k);
      if k in mutations {
        var j :| 0 <= j < |ms| && ms[j].record.key == k;
        assert ms[j] in ms;
      }
    }
    assert r == goal;
  }

  method InstallEvents(events: map<EventId, Event>, es: seq<Event>) returns (r: map<EventId, Event>)
    ensures r == PutEvents(events, es)
  {
    r := events;
    for i := 0 to |es|
      invariant r == PutEvents(events, es[..i])
    {
      r := r[es[i].id := es[i]];
      assert es[..i + 1][..i] == es[..i];
    }
    assert es[..|es|] == es;
  }

  method InstallIntents(intents: map<IntentId, IntentRecord>, seeds: seq<IntentSeed>, at: int)
    returns (r: map<IntentId, IntentRecord>)
    ensures r == PutIntents(intents, seeds, at)
  {
    r := intents;
    for i := 0 to |seeds|
      invariant r == PutIntents(intents, seeds[..i], at)
    {
      var available := at;
      if seeds[i].availableAt.Some? { available := seeds[i].availableAt.value; }
      r := r[seeds[i].id := IntentRecord(Pending, available, 0, None, None, None, 1)];
      assert seeds[..i + 1][..i] == seeds[..i];
    }
    assert seeds[..|seeds|] == seeds;
  }

  /** Accepts exactly the admissible transactions, and then installs all of it. */
  method ApplyTransaction<P(!new)>(s: State<P>, tx: Transaction<P>) returns (r: Result<State<P>, Error>)
    requires tx.at.Some? && tx.outcomeWellFormed
    ensures r.Ok? <==> Admissible(s, tx)
    ensures r.Ok? ==> r.value == Applied(s, tx)
    ensures r.Err? ==> r.error in {Malformed, RevisionConflict, IdentityConflict}
    ensures r == Err(RevisionConflict) ==> exists m :: m in tx.mutations && !Swaps(s, tx.expected, m)
    ensures r == Err(IdentityConflict) ==>
              (exists e :: e in tx.events && e.id in s.events) || exists seed :: seed in tx.intents && seed.id in s.intents
  {
    hide DistinctExpected, MutationsAccepted, EventsAccepted, IntentsAccepted, ExpectedKeys, MutationKeys, EventKeys, Indexes, Swaps;
    var expected := IndexExpected(tx.expected);
    if expected.Err? { return Err(expected.error); }
    var mutations := CheckMutations(s, tx.expected, expected.value, tx.mutations);
    if mutations.Err? { return Err(mutations.error); }
    MutationsAreExpected(s, tx.expected, tx.mutations);
    IndexKeys(mutations.value, tx.mutations);
    SubsetOfSameSize(mutations.value.Keys, expected.value.Keys);
    if |expected.value| != |mutations.value| { return Err(Malformed); }
    var announced := CheckEvents(s, tx, mutations.value);
    if announced.Err? { return Err(announced.error); }
    SubsetOfSameSize(announced.value, mutations.value.Keys);
    if |announced.value| != |mutations.value| { return Err(Malformed); }
    var problem := CheckIntents(s, tx.intents, tx.at.value);
    if problem.Some? { return Err(problem.value); }
    var aggregates := InstallRecords(s.aggregates, mutations.value, tx.mutations);
    var events := InstallEvents(s.events, tx.events);
    var intents := InstallIntents(s.intents, tx.intents, tx.at.value);
    r := Ok(s.(aggregates := aggregates, events := events, intents := intents));
  }

  lemma IndexKeys<P>(index: map<Key, Record<P>>, ms: seq<Mutation<P>>)
    requires Indexes(index, ms)
    ensures index.Keys == MutationKeys(ms)
  {
  }

  lemma MutationsAreExpected<P>(s: State<P>, expected: seq<Expected>, ms: seq<Mutation<P>>)
    requires MutationsAccepted(s, expected, ms)
    ensures MutationKeys(ms) <= ExpectedKeys(expected)
  {
    forall i | 0 <= i < |ms| ensures ms[i].record.key in ExpectedKeys(expected) {
      assert ms[i] in ms && Swaps(s, expected, ms[i]);
      var j :| 0 <= j < |expected| && expected[j] == Expected(ms[i].record.key, ms[i].record.revision - 1);
    }
  }
}
