/** How controllers use the store: they read aggregates one at a time, possibly long
    before they act, and then issue one commit that compares and swaps every
    aggregate they write and announces each with one event. */
module Protocol {
  import opened Prelude
  import opened Store

  /** An aggregate to write, with the revision it was read at (0 to create it). */
  datatype Put<+P> = Put(key: Key, expected: nat, payload: P)

  datatype Command<+P> = Command(
    scope: Scope, id: string, identity: string, puts: seq<Put<P>>, intents: seq<IntentSeed>, outcome: P, at: int)

  function Compose<P>(c: Command<P>): Transaction<P> {
    Transaction(
      c.scope, c.id, c.identity, true,
      seq(|c.puts|, i requires 0 <= i < |c.puts| => Expected(c.puts[i].key, c.puts[i].expected)),
      seq(|c.puts|, i requires 0 <= i < |c.puts| => Mutation(Record(c.puts[i].key, c.puts[i].expected + 1, c.puts[i].payload), true)),
      seq(|c.puts|, i requires 0 <= i < |c.puts| =>
        Event(EventId(c.puts[i].key, c.puts[i].expected + 1), c.puts[i].key, c.puts[i].expected + 1, c.id, "", true)),
      c.intents, c.outcome, true, Some(c.at))
  }

  ghost predicate DistinctPuts<P>(puts: seq<Put<P>>) {
    forall i, j :: 0 <= i < j < |puts| ==> puts[i].key != puts[j].key
  }

  ghost predicate Current<P>(s: State<P>, puts: seq<Put<P>>) {
    forall i :: 0 <= i < |puts| ==> RevisionOf(s, puts[i].key) == puts[i].expected
  }

  function Lookup<P>(s: State<P>, k: Key): Option<Record<P>> {
    if k in s.aggregates then Some(s.aggregates[k]) else None
  }

  lemma ComposedKeys<P>(c: Command<P>)
    ensures ExpectedKeys(Compose(c).expected) == MutationKeys(Compose(c).mutations) == EventKeys(Compose(c).events)
    ensures forall k :: k in MutationKeys(Compose(c).mutations) <==> exists i :: 0 <= i < |c.puts| && c.puts[i].key == k
  {
    var tx := Compose(c);
    forall k
      ensures k in ExpectedKeys(tx.expected) <==> exists i :: 0 <= i < |c.puts| && c.puts[i].key == k
      ensures k in MutationKeys(tx.mutations) <==> exists i :: 0 <= i < |c.puts| && c.puts[i].key == k
      ensures k in EventKeys(tx.events) <==> exists i :: 0 <= i < |c.puts| && c.puts[i].key == k
    {
      if i: int :| 0 <= i < |c.puts| && c.puts[i].key == k {
        assert tx.expected[i].key == k && tx.mutations[i].record.key == k && tx.events[i].key == k;
      }
    }
  }

  lemma ComposedSwaps<P>(s: State<P>, c: Command<P>, i: nat)
    requires i < |c.puts| && DistinctPuts(c.puts)
    ensures Swaps(s, Compose(c).expected, Compose(c).mutations[i]) <==> RevisionOf(s, c.puts[i].key) == c.puts[i].expected
  {
    assert Compose(c).expected[i] in Compose(c).expected;
  }

  lemma ComposedEvent<P>(s: State<P>, c: Command<P>, i: nat)
    requires i < |c.puts| && GapFree(s) && RevisionOf(s, c.puts[i].key) == c.puts[i].expected
    ensures EventAccepted(s, Compose(c), Compose(c).events[i])
  {
    var e := Compose(c).events[i];
    assert Compose(c).mutations[i] in Compose(c).mutations;
    assert EventFits(s, e.id);
  }

  /** A composed command is admissible exactly when everything it wrote was read up to date. */
  lemma ComposedAdmissible<P(!new)>(s: State<P>, c: Command<P>)
    requires GapFree(s) && DistinctPuts(c.puts)
    ensures Admissible(s, Compose(c)) <==> Current(s, c.puts) && IntentsAccepted(s, c.intents, c.at)
  {
    var tx := Compose(c);
    ComposedKeys(c);
    forall i | 0 <= i < |c.puts|
      ensures Swaps(s, tx.expected, tx.mutations[i]) <==> RevisionOf(s, c.puts[i].key) == c.puts[i].expected
    {
      ComposedSwaps(s, c, i);
    }
    assert DistinctExpected(tx.expected) && DistinctMutations(tx.mutations) && DistinctEvents(tx.events);
    if Admissible(s, tx) {
      forall i | 0 <= i < |c.puts| ensures RevisionOf(s, c.puts[i].key) == c.puts[i].expected {
        assert tx.mutations[i] in tx.mutations;
      }
    }
    if Current(s, c.puts) {
      forall e | e in tx.events ensures EventAccepted(s, tx, e) {
        var i :| 0 <= i < |tx.events| && tx.events[i] == e;
        ComposedEvent(s, c, i);
      }
    }
    hide Swaps, EventAccepted, ExpectedKeys, MutationKeys, EventKeys, GapFree;
  }

  /** What a fresh commit leaves: the aggregates it wrote, and every other one as it was. */
  lemma ComposedLookup<P(!new)>(s: State<P>, c: Command<P>, k: Key)
    requires Sound(s) && DistinctPuts(c.puts) && Commit(s, Compose(c)).1.Fresh?
    ensures forall i :: 0 <= i < |c.puts| && c.puts[i].key == k ==>
              RevisionOf(s, k) == c.puts[i].expected
              && Lookup(Commit(s, Compose(c)).0, k) == Some(Record(k, c.puts[i].expected + 1, c.puts[i].payload))
    ensures (forall i :: 0 <= i < |c.puts| ==> c.puts[i].key != k) ==> Lookup(Commit(s, Compose(c)).0, k) == Lookup(s, k)
  {
    var tx := Compose(c);
    FreshIsAdmissible(s, tx);
    AdmissibleIsDistinct(s, tx);
    ComposedAdmissible(s, c);
    ComposedKeys(c);
    hide Admissible, Commit;
    PutRecordsLookup(s.aggregates, tx.mutations, k);
    hide MutationKeys, PutRecords, DistinctMutations;
    forall i | 0 <= i < |c.puts| && c.puts[i].key == k
      ensures Lookup(Applied(s, tx), k) == Some(Record(k, c.puts[i].expected + 1, c.puts[i].payload))
    {
      assert tx.mutations[i].record.key == k;
    }
  }

  lemma FreshIsAdmissible<P(!new)>(s: State<P>, tx: Transaction<P>)
    requires Commit(s, tx).1.Fresh?
    ensures Admissible(s, tx) && Commit(s, tx).0.aggregates == Applied(s, tx).aggregates
    ensures Commit(s, tx).0.intents == Applied(s, tx).intents
  {
    hide Admissible;
  }

  /** A stale read whose revision is still current was not stale. */
  lemma ReadIsCurrent<P>(earlier: State<P>, now: State<P>, k: Key)
    requires Advances(earlier, now) && k in earlier.aggregates && RevisionOf(now, k) == earlier.aggregates[k].revision
    ensures Lookup(now, k) == Lookup(earlier, k)
  {
    assert RecordAdvances(earlier, now, k);
  }

  lemma AdvancesIsReflexive<P(!new)>(s: State<P>)
    ensures Advances(s, s)
  {
  }

  // ---------------------------------------------------------------- histories

  /** Every state so far, each one a commit or another store operation after the last. */
  ghost predicate Ordered<P(!new)>(history: seq<State<P>>) {
    && (forall i :: 0 <= i < |history| ==> Sound(history[i]))
    && (forall i, j :: 0 <= i <= j < |history| ==> Advances(history[i], history[j]))
  }

  function Latest<P>(history: seq<State<P>>): State<P>
    requires history != []
  {
    history[|history| - 1]
  }

  lemma OrderedGrows<P(!new)>(history: seq<State<P>>, op: Op<P>)
    requires history != [] && Ordered(history)
    ensures Ordered(history + [Step(Latest(history), op)])
  {
    var s, t := Latest(history), Step(Latest(history), op);
    StepKeepsSound(s, op);
    StepAdvances(s, op);
    AdvancesIsReflexive(t);
    hide Step, Sound, Advances;
    var longer := history + [t];
    forall i, j | 0 <= i <= j < |longer| ensures Advances(longer[i], longer[j]) {
      if j == |history| && i < j { AdvancesIsTransitive(history[i], s, t); }
    }
  }

  // ------------------------------------------------------ what a step leaves alone

  lemma AbsentAtZero<P>(s: State<P>, k: Key)
    requires Sound(s) && RevisionOf(s, k) == 0
    ensures Lookup(s, k).None?
  {
    assert RecordFits(s, k);
  }

  lemma NotMutated<P>(tx: Transaction<P>, k: Key)
    requires forall m :: m in tx.mutations ==> m.record.key != k
    ensures k !in MutationKeys(tx.mutations)
  {
    forall i | 0 <= i < |tx.mutations| ensures tx.mutations[i].record.key != k { assert tx.mutations[i] in tx.mutations; }
  }

  lemma LookupApplied<P(!new)>(s: State<P>, tx: Transaction<P>, t: State<P>, k: Key)
    requires Admissible(s, tx) && k !in MutationKeys(tx.mutations) && t.aggregates == Applied(s, tx).aggregates
    ensures Lookup(t, k) == Lookup(s, k)
  {
    CommitRevision(s, tx, k);
    hide Admissible, Applied;
  }

  lemma LatestIsSound<P(!new)>(history: seq<State<P>>)
    requires history != [] && Ordered(history)
    ensures Sound(Latest(history))
  {
  }

  lemma IdleStep<P(!new)>(s: State<P>)
    ensures Step(s, ClaimOp({}, Lease("", "", 0), 0)) == s
  {
  }
}
