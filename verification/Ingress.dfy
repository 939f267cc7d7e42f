/** The admission of a run as one caller sees it: a few attempts against a store that
    other controllers use meanwhile. */
module Ingress {
  import opened Prelude
  import opened Store
  import opened Protocol
  import opened ActiveOwner

  /** What other controllers make of the store before its k-th use by this one. */
  type Others = (nat, World) -> World

  /** Commit, as the store offers it. */
  type Committer = (World, Command<Doc>) -> (World, CommitOutcome<Doc>)

  ghost predicate Sane(s: World) {
    Sound(s) && Guarded(s)
  }

  ghost predicate Interferes(others: Others) {
    forall k, s :: Sane(s) ==> Sane(others(k, s)) && Advances(s, others(k, s))
  }

  ghost predicate Quiet(others: Others) {
    forall k, s :: others(k, s) == s
  }

  ghost predicate Commits(commit: Committer) {
    forall s, c :: commit(s, c) == Commit(s, Compose(c))
  }

  /** What controllers do in any interleaving is such an interference. */
  lemma ControllersInterfere(digest: CommandKey -> string, actions: seq<Action>, more: seq<Action>)
    ensures Sane(Reached(digest, actions)) && Sane(Reached(digest, actions + more))
    ensures Advances(Reached(digest, actions), Reached(digest, actions + more))
  {
    PlayKeepsGuarded(digest, actions);
    PlayKeepsGuarded(digest, actions + more);
    PlayExtends(digest, actions, more);
    hide Guarded, Advances, Play;
  }

  datatype Failure =
    | StaleRevision
    | OtherIdentity
    | OwnerMissing
    | OwnerBusy(owner: Owner)
    | Unreadable

  datatype Invoked = Started(outcome: Doc) | Repeated(outcome: Doc) | Denied(failure: Failure)

  const MAX_ATTEMPTS: nat := 4

  function KeyOf(request: StartRequest): CommandKey {
    CommandKey(request.scope, request.commandId)
  }

  function ReceiptFor(s: World, digest: CommandKey -> string, request: StartRequest): Option<Record<Doc>> {
    if request.owner.None? then None else Lookup(s, ReceiptKey(digest, KeyOf(request)))
  }

  /** getRunAdmissionReceipt, and what is answered from it. */
  function FromReceipt(r: Record<Doc>, request: StartRequest): Invoked {
    if !r.payload.ReceiptDoc? || r.payload.receipt.command != KeyOf(request) then Denied(Unreadable)
    else if r.payload.receipt.identity != request.identity then Denied(OtherIdentity)
    else Repeated(RunDoc(r.payload.receipt.run))
  }

  /** The command is on record with this outcome. */
  predicate Recorded(s: World, digest: CommandKey -> string, request: StartRequest, outcome: Doc) {
    || (KeyOf(request) in s.commands && s.commands[KeyOf(request)] == CommandRecord(request.identity, outcome))
    || var r := ReceiptFor(s, digest, request);
       r.Some? && FromReceipt(r.value, request) == Repeated(outcome)
  }

  /** The command is on record for another request. */
  predicate Differs(s: World, digest: CommandKey -> string, request: StartRequest) {
    || (KeyOf(request) in s.commands && s.commands[KeyOf(request)].identity != request.identity)
    || var r := ReceiptFor(s, digest, request);
       r.Some? && FromReceipt(r.value, request) == Denied(OtherIdentity)
  }

  /** The run is there, the command is on record, and so is its receipt. */
  predicate Admitted(s: World, digest: CommandKey -> string, request: StartRequest, run: Run) {
    && run.id == request.runId && run.owner == request.owner && run.status == RunStatus.Accepted
    && KeyOf(request) in s.commands && s.commands[KeyOf(request)] == CommandRecord(request.identity, RunDoc(run))
    && Lookup(s, RunKey(run.id)) == Some(Record(RunKey(run.id), 1, RunDoc(run)))
    && (request.owner.Some? ==>
          var r := ReceiptFor(s, digest, request);
          r.Some? && FromReceipt(r.value, request) == Repeated(RunDoc(run)))
  }

  /** The command that starts the run, for some reading of the owner. */
  ghost predicate IsStart(c: Command<Doc>, digest: CommandKey -> string, request: StartRequest) {
    exists acquired :: c == StartCommand(digest, request, acquired)
  }

  /** Why an admission was denied, in the state it was denied in. `tried` and
      `last` are the state and the command of the last attempt. */
  ghost predicate Explained(
    f: Failure, s: World, digest: CommandKey -> string, request: StartRequest, tried: World, last: Command<Doc>, attempts: nat)
  {
    match f
    case StaleRevision =>
      && IsStart(last, digest, request)
      && Commit(tried, Compose(last)).1.Refused? && KeyOf(request) !in tried.commands && Advances(tried, s)
      && (request.owner.None? || attempts == MAX_ATTEMPTS || Lookup(s, RunKey(request.runId)).Some?)
    case OtherIdentity => Differs(s, digest, request)
    case OwnerMissing => request.owner.Some? && Lookup(s, OwnerKey(request.owner.value)).None?
    case OwnerBusy(owner) =>
      && request.owner.Some? && Active(owner)
      && var o := Lookup(s, OwnerKey(request.owner.value)); o.Some? && o.value.payload == OwnerDoc(owner)
    case Unreadable =>
      // Another command has the same digest.
      var r := ReceiptFor(s, digest, request);
      r.Some? && FromReceipt(r.value, request) == Denied(Unreadable)
  }

  /** What is true of any answer. */
  ghost predicate Answers(
    a: Invoked, s: World, digest: CommandKey -> string, request: StartRequest, tried: World, last: Command<Doc>, attempts: nat)
  {
    match a
    case Started(outcome) => outcome.RunDoc? && Admitted(s, digest, request, outcome.run)
    case Repeated(outcome) => Recorded(s, digest, request, outcome)
    case Denied(f) => Explained(f, s, digest, request, tried, last, attempts)
  }

  /** A command that the store has not seen, nor anything it would leave behind. */
  predicate Unseen(s: World, digest: CommandKey -> string, request: StartRequest) {
    KeyOf(request) !in s.commands && ReceiptFor(s, digest, request).None?
  }

  /** invoke, from the first look at the receipt on: at most one commit is fresh, and
      the answer is its outcome, the outcome on record, or the failure of the last attempt. */
  method Invoke(commit: Committer, others: Others, digest: CommandKey -> string, request: StartRequest, start: World)
    returns (answer: Invoked, world: World, begun: nat, attempts: nat, ghost tried: World, ghost last: Command<Doc>)
    requires Commits(commit) && Interferes(others) && Sane(start)
    ensures Sane(world) && Advances(start, world) && attempts <= MAX_ATTEMPTS
    ensures begun == if answer.Started? then 1 else 0
    ensures Answers(answer, world, digest, request, tried, last, attempts)
    ensures var r := ReceiptFor(start, digest, request); r.Some? ==> answer == FromReceipt(r.value, request) && attempts == 0
    ensures request.owner.Some? && Quiet(others) && Unseen(start, digest, request) ==>
              (answer.Started? <==> CanStart(start, request))
  {
    hide Sane, Sound, Guarded, Advances, Interferes, Quiet, Commits, Commit, Compose, Lookup, Acquire, StartCommand, OwnerDecodes;
    hide IsStart, Answers, Explained, Refuses, Admitted, Recorded, ReceiptFor, FromReceipt, CanStart;
    world, begun, attempts := others(0, start), 0, 0;
    tried, last := world, StartCommand(digest, request, None);
    Interfered(others, 0, start, digest, request);
    Unowned(start, digest, request);
    if request.owner.Some? {
      var receipt := Lookup(world, ReceiptKey(digest, KeyOf(request)));
      ReceiptIs(world, digest, request);
      if receipt.Some? {
        answer := FromReceipt(receipt.value, request);
        ReceiptAnswers(answer, world, digest, request, tried, last, attempts);
        return;
      }
    }
    var refusal := StaleRevision;
    while attempts < MAX_ATTEMPTS
      invariant attempts <= MAX_ATTEMPTS && begun == 0
      invariant Sane(world) && Advances(start, world)
      invariant Quiet(others) ==> world == start
      invariant attempts > 0 ==> Refuses(refusal, world, digest, request, tried, last)
      invariant attempts > 0 && request.owner.Some? && Quiet(others) && Unseen(start, digest, request) ==> !CanStart(start, request)
      invariant ReceiptFor(start, digest, request).None?
    {
      ghost var before := world;
      attempts := attempts + 1;
      var settled;
      var more;
      settled, refusal, world, more, tried, last := Attempt(commit, others, attempts, digest, request, world);
      begun := begun + more;
      Transitive(start, before, world);
      if settled.Some? {
        answer := settled.value;
        return;
      }
    }
    answer := Denied(refusal);
    DeniedAnswers(refusal, world, digest, request, tried, last);
  }

  /** A refused attempt that may be followed by another. */
  ghost predicate Refuses(f: Failure, s: World, digest: CommandKey -> string, request: StartRequest, tried: World, last: Command<Doc>) {
    request.owner.Some? && f in {StaleRevision, OtherIdentity} && Explained(f, s, digest, request, tried, last, MAX_ATTEMPTS)
  }

  /** One attempt. */
  method Attempt(commit: Committer, others: Others, attempt: nat, digest: CommandKey -> string, request: StartRequest, start: World)
    returns (answer: Option<Invoked>, refusal: Failure, world: World, begun: nat, ghost tried: World, ghost last: Command<Doc>)
    requires Commits(commit) && Interferes(others) && Sane(start)
    ensures Sane(world) && Advances(start, world)
    ensures begun == if answer.Some? && answer.value.Started? then 1 else 0
    ensures answer.Some? ==> Answers(answer.value, world, digest, request, tried, last, attempt)
    ensures answer.None? ==> Refuses(refusal, world, digest, request, tried, last) && (Quiet(others) ==> world == start)
    ensures request.owner.Some? && Quiet(others) && Unseen(start, digest, request) ==>
              (answer.Some? && answer.value.Started? <==> CanStart(start, request))
  {
    hide Sane, Sound, Guarded, Advances, Interferes, Quiet, Commits, Commit, Compose, Lookup, Acquire, StartCommand, OwnerDecodes;
    hide IsStart, Answers, Explained, Refuses, Admitted, Recorded, ReceiptFor, FromReceipt, CanStart;
    var clock := 5 * attempt;
    world, refusal := others(clock, start), StaleRevision;
    Interfered(others, clock, start, digest, request);
    var acquired: Option<(Owner, nat)> := None;
    ghost var seen := world;
    if request.owner.Some? {
      acquired := Acquire(Lookup(world, OwnerKey(request.owner.value)), request.owner.value, request.runId, request.policy);
      AcquireDecodes(world, request);
    }
    world := others(clock + 1, world);
    Interfered(others, clock + 1, seen, digest, request);
    Transitive(start, seen, world);
    var command := StartCommand(digest, request, acquired);
    tried, last := world, command;
    StoreCommits(commit, world, command);
    CommandIs(digest, request, acquired);
    Settles(digest, seen, world, request, acquired);
    QuietStart(digest, world, request, acquired);
    var reply := commit(world, command);
    world, begun := reply.0, if reply.1.Fresh? then 1 else 0;
    Transitive(start, tried, world);
    match reply.1 {
      case Fresh(outcome) =>
        StartedAnswers(outcome, world, digest, request, tried, last, attempt);
        return Some(Started(outcome)), refusal, world, begun, tried, last;
      case Replayed(outcome) =>
        RepeatedAnswers(outcome, world, digest, request, tried, last, attempt);
        return Some(Repeated(outcome)), refusal, world, begun, tried, last;
      case Refused =>
    }
    refusal := if KeyOf(request) in world.commands then OtherIdentity else StaleRevision;
    RefusalIs(refusal, tried, digest, request, last);
    if request.owner.None? {
      RefusalStands(refusal, tried, world, digest, request, last, attempt);
      return Some(Denied(refusal)), refusal, world, begun, tried, last;
    }
    world := others(clock + 2, world);
    Interfered(others, clock + 2, tried, digest, request);
    Transitive(start, tried, world);
    var receipt := Lookup(world, ReceiptKey(digest, KeyOf(request)));
    ReceiptIs(world, digest, request);
    if receipt.Some? {
      answer := Some(FromReceipt(receipt.value, request));
      ReceiptAnswers(answer.value, world, digest, request, tried, last, attempt);
      return;
    }
    ghost var between := world;
    world := others(clock + 3, world);
    Interfered(others, clock + 3, between, digest, request);
    Transitive(start, between, world);
    Transitive(tried, between, world);
    var run := Lookup(world, RunKey(request.runId));
    if run.Some? {
      RefusalStands(refusal, tried, world, digest, request, last, attempt);
      return Some(Denied(refusal)), refusal, world, begun, tried, last;
    }
    between := world;
    world := others(clock + 4, world);
    Interfered(others, clock + 4, between, digest, request);
    Transitive(start, between, world);
    Transitive(tried, between, world);
    var owner := Lookup(world, OwnerKey(request.owner.value));
    OwnerReads(world, request);
    if owner.None? {
      answer := Some(Denied(OwnerMissing));
    } else if !OwnerDecodes(owner.value, request.owner.value) {
      answer := Some(Denied(Unreadable));
    } else if Active(owner.value.payload.owner) {
      answer := Some(Denied(OwnerBusy(owner.value.payload.owner)));
    } else {
      answer := None;
      RefusalStands(refusal, tried, world, digest, request, last, MAX_ATTEMPTS);
      RefusesAgain(refusal, world, digest, request, tried, last);
    }
    if answer.Some? { OwnerAnswers(answer.value.failure, world, digest, request, tried, last, attempt); }
  }

  // ---------------------------------------------------------------------- lemmas

  lemma Transitive(a: World, b: World, c: World)
    requires Advances(a, b) && Advances(b, c)
    ensures Advances(a, c)
  {
    AdvancesIsTransitive(a, b, c);
  }

  lemma StoreCommits(commit: Committer, s: World, c: Command<Doc>)
    requires Commits(commit)
    ensures commit(s, c) == Commit(s, Compose(c))
  {
    hide Commit, Compose;
  }

  /** A receipt that is there stays as it is. */
  lemma Interfered(others: Others, k: nat, s: World, digest: CommandKey -> string, request: StartRequest)
    requires Interferes(others) && Sane(s)
    ensures Sane(others(k, s)) && Advances(s, others(k, s)) && (Quiet(others) ==> others(k, s) == s)
    ensures ReceiptFor(s, digest, request).Some? ==> ReceiptFor(others(k, s), digest, request) == ReceiptFor(s, digest, request)
  {
    hide Sound, Guarded, Advances;
    var t := others(k, s);
    ReceiptStays(s, t, digest, request);
  }

  lemma ReceiptStays(s: World, t: World, digest: CommandKey -> string, request: StartRequest)
    requires Guarded(s) && Guarded(t) && Advances(s, t)
    ensures ReceiptFor(s, digest, request).Some? ==> ReceiptFor(t, digest, request) == ReceiptFor(s, digest, request)
  {
    var k := ReceiptKey(digest, KeyOf(request));
    assert ReceiptHolds(s, k.id) && ReceiptHolds(t, k.id) && RecordAdvances(s, t, k);
    hide Guarded, Advances;
  }

  lemma ReceiptIs(s: World, digest: CommandKey -> string, request: StartRequest)
    requires request.owner.Some?
    ensures ReceiptFor(s, digest, request) == Lookup(s, ReceiptKey(digest, KeyOf(request)))
  {
  }

  lemma Unowned(s: World, digest: CommandKey -> string, request: StartRequest)
    ensures request.owner.None? ==> ReceiptFor(s, digest, request).None?
  {
  }

  lemma StartedAnswers(
      outcome: Doc, s: World, digest: CommandKey -> string, request: StartRequest, tried: World, last: Command<Doc>, attempts: nat)
    requires outcome.RunDoc? && Admitted(s, digest, request, outcome.run)
    ensures Answers(Started(outcome), s, digest, request, tried, last, attempts)
  {
    hide Admitted;
  }

  lemma RepeatedAnswers(
      outcome: Doc, s: World, digest: CommandKey -> string, request: StartRequest, tried: World, last: Command<Doc>, attempts: nat)
    requires Recorded(s, digest, request, outcome)
    ensures Answers(Repeated(outcome), s, digest, request, tried, last, attempts)
  {
    hide Recorded;
  }

  lemma RefusesAgain(f: Failure, s: World, digest: CommandKey -> string, request: StartRequest, tried: World, last: Command<Doc>)
    requires request.owner.Some? && f in {StaleRevision, OtherIdentity}
    requires Explained(f, s, digest, request, tried, last, MAX_ATTEMPTS)
    ensures Refuses(f, s, digest, request, tried, last)
  {
    hide Explained;
  }

  lemma DeniedAnswers(f: Failure, s: World, digest: CommandKey -> string, request: StartRequest, tried: World, last: Command<Doc>)
    requires Refuses(f, s, digest, request, tried, last)
    ensures Answers(Denied(f), s, digest, request, tried, last, MAX_ATTEMPTS)
  {
    hide Explained;
  }

  /** The answer from a receipt, whatever it is. */
  lemma ReceiptAnswers(
      a: Invoked, s: World, digest: CommandKey -> string, request: StartRequest, tried: World, last: Command<Doc>, attempts: nat)
    requires ReceiptFor(s, digest, request).Some? && a == FromReceipt(ReceiptFor(s, digest, request).value, request)
    ensures Answers(a, s, digest, request, tried, last, attempts) && !a.Started?
  {
    hide ReceiptFor, Commit, Compose, Advances, Admitted;
  }

  lemma AcquireDecodes(s: World, request: StartRequest)
    requires Sane(s) && request.owner.Some?
    ensures Acquire(Lookup(s, OwnerKey(request.owner.value)), request.owner.value, request.runId, request.policy).Some?
  {
    hide Guarded, Sound, Lookup, Acquire;
    AcquireFromCurrent(s, request.owner.value, request.runId, request.policy);
  }

  lemma OwnerReads(s: World, request: StartRequest)
    requires Sane(s) && request.owner.Some?
    ensures var o := Lookup(s, OwnerKey(request.owner.value));
            o.Some? ==> OwnerDecodes(o.value, request.owner.value) && o.value.payload.OwnerDoc?
  {
    assert OwnerHolds(s, request.owner.value);
    hide Guarded, Sound, Lookup;
  }

  lemma OwnerAnswers(
      f: Failure, s: World, digest: CommandKey -> string, request: StartRequest, tried: World, last: Command<Doc>, attempts: nat)
    requires request.owner.Some?
    requires var o := Lookup(s, OwnerKey(request.owner.value));
             if o.None? then f == OwnerMissing
             else OwnerDecodes(o.value, request.owner.value) && Active(o.value.payload.owner) && f == OwnerBusy(o.value.payload.owner)
    ensures Answers(Denied(f), s, digest, request, tried, last, attempts)
  {
    hide Lookup, Commit, Compose, Advances;
  }

  /** What a commit of a start does to the store, and what its reply says. */
  lemma Settles(digest: CommandKey -> string, seen: World, s: World, request: StartRequest, acquired: Option<(Owner, nat)>)
    requires Sane(s) && Advances(seen, s)
    requires if request.owner.None? then acquired == None
             else acquired.Some? && acquired == Acquire(Lookup(seen, OwnerKey(request.owner.value)), request.owner.value, request.runId, request.policy)
    ensures var c := StartCommand(digest, request, acquired);
            var (t, reply) := Commit(s, Compose(c));
            && Sane(t) && Advances(s, t)
            && (reply.Fresh? ==> reply.outcome.RunDoc? && Admitted(t, digest, request, reply.outcome.run))
            && (reply.Replayed? ==> Recorded(t, digest, request, reply.outcome))
            && (reply.Refused? ==> t == s)
  {
    hide *;
    var c := StartCommand(digest, request, acquired);
    CommandIs(digest, request, acquired);
    CommitIs(s, c);
    SaneIs(s);
    StepKeepsSound(s, CommitOp(Compose(c)));
    StepAdvances(s, CommitOp(Compose(c)));
    CommitUnlessFresh(s, Compose(c));
    if Commit(s, Compose(c)).1.Fresh? {
      FreshLeaves(digest, seen, s, request, acquired);
    } else if Commit(s, Compose(c)).1.Replayed? {
      ReplayIsRecorded(s, digest, request, c);
    }
    SaneOf(Commit(s, Compose(c)).0);
  }

  lemma SaneIs(s: World)
    requires Sane(s)
    ensures Sound(s) && Guarded(s)
  {
  }

  lemma SaneOf(s: World)
    requires Sound(s) && Guarded(s)
    ensures Sane(s)
  {
  }

  lemma CommandIs(digest: CommandKey -> string, request: StartRequest, acquired: Option<(Owner, nat)>)
    ensures IsStart(StartCommand(digest, request, acquired), digest, request)
    ensures var c := StartCommand(digest, request, acquired);
            && CommandKey(c.scope, c.id) == KeyOf(request) && c.identity == request.identity && c.outcome.RunDoc?
            && c.outcome.run.id == request.runId && c.outcome.run.owner == request.owner && c.outcome.run.status == RunStatus.Accepted
            && |c.puts| >= 2 && c.puts[0].key == RunKey(request.runId) && c.puts[0].expected == 0 && c.puts[0].payload == c.outcome
  {
  }

  lemma OwnedCommandIs(digest: CommandKey -> string, request: StartRequest, acquired: (Owner, nat))
    ensures var c := StartCommand(digest, request, Some(acquired));
            |c.puts| == 4 && c.puts[3].payload.ReceiptDoc?
  {
  }

  lemma CommitIs(s: World, c: Command<Doc>)
    ensures Step(s, CommitOp(Compose(c))) == Commit(s, Compose(c)).0
    ensures var (t, reply) := Commit(s, Compose(c));
            reply.Fresh? ==>
              reply.outcome == c.outcome && CommandKey(c.scope, c.id) in t.commands
              && t.commands[CommandKey(c.scope, c.id)] == CommandRecord(c.identity, c.outcome)
  {
    hide Admissible, Applied;
  }

  lemma ReplayIsRecorded(s: World, digest: CommandKey -> string, request: StartRequest, c: Command<Doc>)
    requires CommandKey(c.scope, c.id) == KeyOf(request) && c.identity == request.identity && Commit(s, Compose(c)).1.Replayed?
    ensures Recorded(s, digest, request, Commit(s, Compose(c)).1.outcome)
  {
    hide Admissible, Applied;
  }

  lemma FreshLeaves(digest: CommandKey -> string, seen: World, s: World, request: StartRequest, acquired: Option<(Owner, nat)>)
    requires Sound(s) && Guarded(s) && Advances(seen, s)
    requires if request.owner.None? then acquired == None
             else acquired.Some? && acquired == Acquire(Lookup(seen, OwnerKey(request.owner.value)), request.owner.value, request.runId, request.policy)
    requires Commit(s, Compose(StartCommand(digest, request, acquired))).1.Fresh?
    ensures var c := StartCommand(digest, request, acquired);
            var t := Commit(s, Compose(c)).0;
            Guarded(t) && c.outcome.RunDoc? && Admitted(t, digest, request, c.outcome.run)
  {
    hide *;
    var c := StartCommand(digest, request, acquired);
    var t := Commit(s, Compose(c)).0;
    CommandIs(digest, request, acquired);
    CommitIs(s, c);
    if request.owner.Some? {
      OwnedCommandIs(digest, request, acquired.value);
      OwnedStartAdmits(digest, seen, s, request);
      AdmitKeepsGuarded(s, t, c.outcome.run, acquired.value.0, acquired.value.1,
                        digest(CommandKey(request.scope, request.commandId)), c.puts[3].payload.receipt);
      OwnedIsAdmitted(digest, s, t, request, acquired.value);
    } else {
      UnownedStartKeepsGuarded(digest, s, request);
      StartPutsDistinct(digest, request, acquired);
      ComposedLookup(s, c, c.puts[0].key);
      UnownedIsAdmitted(digest, t, request);
    }
  }

  lemma OwnedIsAdmitted(digest: CommandKey -> string, s: World, t: World, request: StartRequest, acquired: (Owner, nat))
    requires request.owner.Some?
    requires var c := StartCommand(digest, request, Some(acquired));
             && Admits(s, t, c.outcome.run, acquired.0, acquired.1, digest(CommandKey(request.scope, request.commandId)), c.puts[3].payload.receipt)
             && KeyOf(request) in t.commands && t.commands[KeyOf(request)] == CommandRecord(c.identity, c.outcome)
    ensures Admitted(t, digest, request, StartCommand(digest, request, Some(acquired)).outcome.run)
  {
    hide Lookup, Free, Active;
  }

  lemma UnownedIsAdmitted(digest: CommandKey -> string, t: World, request: StartRequest)
    requires request.owner.None?
    requires var c := StartCommand(digest, request, None);
             && Lookup(t, c.puts[0].key) == Some(Record(c.puts[0].key, c.puts[0].expected + 1, c.puts[0].payload))
             && KeyOf(request) in t.commands && t.commands[KeyOf(request)] == CommandRecord(c.identity, c.outcome)
    ensures Admitted(t, digest, request, StartCommand(digest, request, None).outcome.run)
  {
    hide Lookup;
  }

  /** Against a store that stands still, a start succeeds exactly if it can. */
  lemma QuietStart(digest: CommandKey -> string, s: World, request: StartRequest, acquired: Option<(Owner, nat)>)
    requires Sane(s)
    ensures request.owner.Some? && Unseen(s, digest, request)
            && acquired == Acquire(Lookup(s, OwnerKey(request.owner.value)), request.owner.value, request.runId, request.policy) ==>
              (Commit(s, Compose(StartCommand(digest, request, acquired))).1.Fresh? <==> CanStart(s, request))
  {
    hide *;
    SaneIs(s);
    if request.owner.Some? && Unseen(s, digest, request) {
      UnseenIs(s, digest, request);
      AloneIsOrdered(s);
      AcquireDecodes(s, request);
      StartFromLatest(digest, [s], request, 0);
      SubmittedFromCurrent(digest, [s], request, 0);
    }
  }

  lemma UnseenIs(s: World, digest: CommandKey -> string, request: StartRequest)
    requires request.owner.Some? && Unseen(s, digest, request)
    ensures CommandKey(request.scope, request.commandId) !in s.commands
    ensures Lookup(s, ReceiptKey(digest, CommandKey(request.scope, request.commandId))).None?
  {
  }

  lemma AloneIsOrdered(s: World)
    requires Sound(s)
    ensures Ordered([s]) && Latest([s]) == s && [s][0] == s
  {
    AdvancesIsReflexive(s);
    hide Advances, Sound;
  }

  lemma RefusalIs(f: Failure, tried: World, digest: CommandKey -> string, request: StartRequest, last: Command<Doc>)
    requires CommandKey(last.scope, last.id) == KeyOf(request) && last.identity == request.identity
    requires Commit(tried, Compose(last)).1.Refused?
    requires f == if KeyOf(request) in tried.commands then OtherIdentity else StaleRevision
    ensures KeyOf(request) in tried.commands ==> tried.commands[KeyOf(request)].identity != request.identity
  {
  }

  lemma RefusalStands(
      f: Failure, tried: World, s: World, digest: CommandKey -> string, request: StartRequest, last: Command<Doc>, attempts: nat)
    requires Commit(tried, Compose(last)).1.Refused? && Advances(tried, s)
    requires f == if KeyOf(request) in tried.commands then OtherIdentity else StaleRevision
    requires KeyOf(request) in tried.commands ==> tried.commands[KeyOf(request)].identity != request.identity
    requires request.owner.None? || attempts == MAX_ATTEMPTS || Lookup(s, RunKey(request.runId)).Some?
    requires IsStart(last, digest, request)
    ensures f in {StaleRevision, OtherIdentity} && Explained(f, s, digest, request, tried, last, attempts)
    ensures Answers(Denied(f), s, digest, request, tried, last, attempts)
  {
    assert CommandKept(tried, s, KeyOf(request));
    hide Commit, Compose, Advances, Lookup, IsStart;
  }
}
