/** The store across crashes: operations, each of which may be cut short while its
    frame is written, followed by reopening the file. */
module Durability {
  import opened Prelude
  import opened Journal
  import opened Store
  import opened FileStore
  import Recovery = JournalRecovery

  datatype Attempt<+P> = Attempt(op: Op<P>, fault: Fault)

  type Disk<P> = Recovery.Disk<State<P>>

  ghost predicate TooLarge<P>(c: Codec<State<P>>, next: State<P>) {
    |c.marshal(next)| > MAX_FRAME_BYTES
  }

  /** One attempt: an operation without effect writes nothing, a clean one appends,
      and after an interrupted one the process reopens whatever is on disk. */
  ghost function Attempted<P(!new)>(c: Codec<State<P>>, d: Disk<P>, a: Attempt<P>): Option<Disk<P>> {
    var next := Step(d.state, a.op);
    if next == d.state || TooLarge(c, next) then Some(d)
    else
      match a.fault
      case Clean => Some(Recovery.Append(c, d, next))
      case Interrupted(cut) => Recovery.Open(c, Recovery.CrashedFile(c, d, next, cut))
  }

  ghost function Lived<P(!new)>(c: Codec<State<P>>, attempts: seq<Attempt<P>>): Option<Disk<P>> {
    if attempts == [] then Recovery.Open(c, [])
    else
      var d := Lived(c, attempts[..|attempts| - 1]);
      if d.None? then None else Attempted(c, d.value, attempts[|attempts| - 1])
  }

  /** Whether the effect of an attempt outlives it: its frame was written in full. */
  ghost predicate Survives<P(!new)>(c: Codec<State<P>>, s: State<P>, a: Attempt<P>) {
    var next := Step(s, a.op);
    !TooLarge(c, next) && (a.fault.Interrupted? ==> a.fault.cut >= |Recovery.FrameOf(c, next)|)
  }

  /** The operations of a history that survive, applied to nothing but each other. */
  ghost function Surviving<P(!new)>(c: Codec<State<P>>, attempts: seq<Attempt<P>>): seq<Op<P>> {
    if attempts == [] then []
    else
      var front, last := Surviving(c, attempts[..|attempts| - 1]), attempts[|attempts| - 1];
      if Survives(c, Run(Empty(), front), last) then front + [last.op] else front
  }

  lemma AttemptKeeps<P(!new)>(c: Codec<State<P>>, d: Disk<P>, a: Attempt<P>)
    requires Faithful(c) && Recovery.Committed(c, d) && Sound(d.state)
    ensures var r := Attempted(c, d, a);
            r.Some? && Recovery.Committed(c, r.value)
            && r.value.state == (if Survives(c, d.state, a) then Step(d.state, a.op) else d.state)
  {
    var next := Step(d.state, a.op);
    StepKeepsSound(d.state, a.op);
    SoundStatesAreValid(next);
    hide Step, Sound, StateValid, Recovery.Committed, Recovery.Open, Recovery.FrameOf, Recovery.CrashedFile;
    if next != d.state && !TooLarge(c, next) {
      match a.fault {
        case Clean => Recovery.AppendKeepsCommitted(c, d, next);
        case Interrupted(cut) => Recovery.OpenAfterCrash(c, d, next, cut);
      }
    }
  }

  /** Whatever was interrupted, the store reopens, and its state is exactly that of
      a run of the surviving operations. */
  lemma {:induction false} LivedIsARun<P(!new)>(c: Codec<State<P>>, attempts: seq<Attempt<P>>)
    requires Faithful(c)
    ensures var d := Lived(c, attempts);
            d.Some? && Recovery.Committed(c, d.value) && d.value.state == Run(Empty(), Surviving(c, attempts))
            && Sound(d.value.state)
  {
    EmptyIsSound<P>();
    hide Recovery.Committed, Recovery.Open;
    if attempts == [] {
      Recovery.HistoryIsAtomic(c, []);
    } else {
      var front, last := attempts[..|attempts| - 1], attempts[|attempts| - 1];
      LivedIsARun(c, front);
      var d, ops := Lived(c, front).value, Surviving(c, front);
      AttemptKeeps(c, d, last);
      StepKeepsSound(d.state, last.op);
      assert (ops + [last.op])[..|ops|] == ops;
    }
  }

  lemma {:induction false} SurvivingGrows<P(!new)>(c: Codec<State<P>>, attempts: seq<Attempt<P>>, more: seq<Attempt<P>>)
    returns (ops: seq<Op<P>>)
    ensures Surviving(c, attempts + more) == Surviving(c, attempts) + ops
  {
    hide Run, Survives;
    if more == [] {
      assert attempts + more == attempts;
      ops := [];
    } else {
      var front, last := more[..|more| - 1], more[|more| - 1];
      ops := SurvivingGrows(c, attempts, front);
      assert (attempts + more)[..|attempts + more| - 1] == attempts + front;
      if Survives(c, Run(Empty(), Surviving(c, attempts + front)), last) { ops := ops + [last.op]; }
    }
  }

  lemma {:induction false} RunComposes<P(!new)>(s: State<P>, a: seq<Op<P>>, b: seq<Op<P>>)
    ensures Run(s, a + b) == Run(Run(s, a), b)
  {
    if b == [] {
      assert a + b == a;
    } else {
      RunComposes(s, a, b[..|b| - 1]);
      assert (a + b)[..|a + b| - 1] == a + b[..|b| - 1];
    }
  }

  /** A command acknowledged once is never lost and never applied again: after any
      later operations and crashes, submitting it replays its first outcome. */
  lemma AcknowledgedCommandSurvives<P(!new)>(
    c: Codec<State<P>>, before: seq<Attempt<P>>, first: Transaction<P>, later: seq<Attempt<P>>, again: Transaction<P>)
    requires Faithful(c)
    requires var s := Run(Empty(), Surviving(c, before));
             Commit(s, first).1.Fresh? && Survives(c, s, Attempt(CommitOp(first), Clean))
    requires again.wellFormed && CommandOf(again) == CommandOf(first) && again.identity == first.identity
    ensures var d := Lived(c, before + [Attempt(CommitOp(first), Clean)] + later);
            d.Some? && Commit(d.value.state, again) == (d.value.state, Replayed(first.outcome))
  {
    var a := Attempt(CommitOp(first), Clean);
    var s := Run(Empty(), Surviving(c, before));
    LivedIsARun(c, before);
    LivedIsARun(c, before + [a] + later);
    assert (before + [a])[..|before|] == before;
    var ops := SurvivingGrows(c, before + [a], later);
    hide Admissible, Commit, Survives, Recovery.Committed, Lived, Sound;
    assert Surviving(c, before + [a]) == Surviving(c, before) + [CommitOp(first)];
    RunComposes(Empty(), Surviving(c, before) + [CommitOp(first)], ops);
    RunComposes(Empty(), Surviving(c, before), [CommitOp(first)]);
    RunOne(s, CommitOp(first));
    RecordedCommandReplays(s, ops, first, again);
  }

  lemma RunOne<P(!new)>(s: State<P>, op: Op<P>)
    ensures Run(s, [op]) == Step(s, op)
  {
    assert [op][..0] == [];
  }
}
