/** One run as the controller drives it: every action is one commit, decided on the
    state it changes. Node executors, resumers, providers, child runs and the clock
    are the arguments of actions; times are in milliseconds. An invocation, an effect
    and a child run are named by what their stable identities are derived from. */
module RunLoop {
  import opened Prelude
  import R = RunLifecycle
  import I = Invocation
  import E = Effect
  import Routing
  import Workflow
  import Backoff

  /** What the definition and the registry pin for a node: the run of the action it
      calls, whether its descriptor is pure and deterministic, its retry policy. */
  datatype Pin = Pin(child: Option<string>, deterministic: bool, compensatable: bool, policy: Backoff.Policy)

  datatype Occurrence = Occurrence(node: string, generation: nat, subject: string, effect: bool)

  datatype Call = Call(node: string, child: string)

  datatype RetryWait = RetryWait(node: string, ordinal: nat, availableAt: int)

  /** The durable snapshot: routing progress and three optional wait projections. */
  datatype Snapshot = Snapshot(
    routing: Routing.Snapshot<string>, waiting: Option<Occurrence>, call: Option<Call>, retry: Option<RetryWait>)

  datatype EffectId = EffectId(node: string, key: string)

  datatype IntentId =
    | Cleanup(runRevision: nat)
    | ChildResolution(child: string, generation: nat)
    | WaitResolution(effect: EffectId, effectRevision: nat)

  datatype State = State(
    pins: map<string, Pin>, run: R.Run, snap: Snapshot, ledgers: map<string, I.Ledger>, effects: map<EffectId, E.World>,
    intents: set<IntentId>, completed: set<IntentId>)

  datatype Ending = Success(output: string, route: string, ports: seq<string>) | Broken(failure: I.Failure)

  datatype Proposal = Proposal(policy: E.Policy, deadline: int)

  /** What a worker reports: an end, a wait (for an effect it proposes, or for an
      outside event), or that it invoked the child run. */
  datatype Report = Ends(ending: Ending) | Waits(subject: string, proposal: Option<Proposal>) | CallsChild

  datatype Action =
    | StartRun(at: int)
    | ResumeRetry(at: int)
    | ActivateNode(at: int)
    | SkipNode(at: int)
    | ClaimNode(owner: string, token: string, leaseExpiresAt: int, at: int)
    | ExpireNode(at: int)
    | ReportNode(token: string, report: Report, at: int)
    | FailDirectly(failure: I.Failure, at: int)
    | SucceedRun(result: string, closed: bool, at: int)
    | ResolveEffect(effect: EffectId, ending: Ending, at: int)
    | ResolveExternal(node: string, generation: nat, subject: string, ending: Ending, at: int)
    | ResolveChild(child: string, ending: Ending, at: int)
    | RequestTermination(revision: nat, kind: R.Kind, primary: Option<I.Failure>, commandId: string, at: int)
    | CancelNode(node: string, at: int)
    | StepEffect(effect: EffectId, command: E.Command)
    | CompleteIntent(intent: IntentId)
    | FinishRun(cleanup: seq<I.Failure>, closed: bool, at: int)

  // ------------------------------------------------------------------- reading

  predicate AtNode(s: State) {
    s.snap.routing.next < |s.snap.routing.order|
  }

  function Current(s: State): string
    requires AtNode(s)
  {
    s.snap.routing.order[s.snap.routing.next]
  }

  function Disposition(s: State): Routing.Disposition
    requires AtNode(s)
  {
    Routing.Join(s.snap.routing.order, s.snap.routing.edges, s.snap.routing.outcomes, Current(s))
  }

  function PolicyOf(s: State, node: string): Backoff.Policy {
    if node in s.pins then s.pins[node].policy else Backoff.Policy(1, 0, 0)
  }

  function MaxAttempts(s: State, node: string): nat {
    PolicyOf(s, node).maxAttempts as nat
  }

  function ChildOf(s: State, node: string): Option<string> {
    if node in s.pins then s.pins[node].child else None
  }

  predicate Replayable(s: State, node: string) {
    ChildOf(s, node).Some? || (node in s.pins && s.pins[node].deterministic)
  }

  /** The delay before another attempt after the k-th failed, if there may be one. */
  function RetryAfter(p: Backoff.Policy, k: nat): (r: Option<nat>)
    ensures r.Some? ==> 0 < k < p.maxAttempts as nat
  {
    if 0 < k < p.maxAttempts as nat && p.initialBackoffMillis != 0 then Some(Backoff.Delay(p, k)) else None
  }

  function ActiveAttempt(l: I.Ledger): Option<I.Attempt> {
    if l.head.active.None? then None
    else
      var i := I.Find(l.attempts, l.head.active.value);
      if i == |l.attempts| then None else Some(l.attempts[i])
  }

  /** The part of validateRunSnapshot about routing: outcomes are an exact prefix of the order. */
  predicate ExactPrefix(r: Routing.Snapshot<string>) {
    && r.next <= |r.order| && |r.outcomes| == r.next
    && (forall i :: 0 <= i < |r.order| ==> (r.order[i] in r.outcomes <==> i < r.next))
    && (forall n :: n in r.outputs ==> n in r.outcomes && r.outcomes[n].status == Routing.Succeeded)
  }

  function Count(snap: Snapshot): nat {
    (if snap.waiting.Some? then 1 else 0) + (if snap.call.Some? then 1 else 0) + (if snap.retry.Some? then 1 else 0)
  }

  /** validateSnapshotRunState. */
  predicate RunStateAgrees(s: State) {
    match s.run.status
    case Waiting => Count(s.snap) == 1
    case Stopping => true
    case _ => Count(s.snap) == 0
  }

  /** validateSnapshotWaitingOccurrence. */
  predicate WaitingAgrees(s: State) {
    s.snap.waiting.Some? ==>
      var o := s.snap.waiting.value;
      && AtNode(s) && o.node == Current(s) && o.node in s.ledgers && o.generation > 0
      && var l := s.ledgers[o.node];
         && l.head.status == I.Waiting && l.head.waitGeneration == o.generation && l.head.waitRef == o.subject
         && ActiveAttempt(l).Some? && ActiveAttempt(l).value.status == I.AttemptWaiting
  }

  /** validateSnapshotActionCall. */
  predicate CallAgrees(s: State) {
    s.snap.call.Some? ==>
      var c := s.snap.call.value;
      && AtNode(s) && c.node == Current(s) && c.node in s.ledgers
      && s.ledgers[c.node].head.status == I.Waiting && s.ledgers[c.node].head.waitRef == c.child
  }

  /** validateSnapshotRetryWait. */
  predicate RetryAgrees(s: State) {
    s.snap.retry.Some? ==>
      var w := s.snap.retry.value;
      && AtNode(s) && w.node == Current(s) && w.node in s.ledgers && w.ordinal > 0
      && var h := s.ledgers[w.node].head;
         h.status == I.RetryWait && h.executions == w.ordinal && h.nextAt == Some(w.availableAt)
  }

  /** GetSnapshot succeeds. The controller reads the snapshot so before every action;
      while the run is not stopping that read never fails (SnapshotAgrees). */
  predicate Readable(s: State) {
    ExactPrefix(s.snap.routing) && Count(s.snap) <= 1 && RunStateAgrees(s) && WaitingAgrees(s) && CallAgrees(s) && RetryAgrees(s)
  }

  // ------------------------------------------------------------ parts of commits

  function Put(s: State, node: string, l: I.Ledger): State {
    s.(ledgers := s.ledgers[node := l])
  }

  function MoveRun(s: State, to: R.Status, at: int): Option<State> {
    var run := R.Transition(s.run, R.Plain(s.run, to, at));
    if run.None? then None else Some(s.(run := run.value))
  }

  /** A store refuses an intent identity it already knows. */
  function Emit(s: State, id: IntentId): Option<State> {
    if id in s.intents then None else Some(s.(intents := s.intents + {id}))
  }

  /** The run begins to stop, and its cleanup intent goes out in the same commit. */
  function StopRun(s: State, t: R.Termination, at: int): Option<State> {
    var run := R.Transition(s.run, R.Stop(s.run, t, at));
    if run.None? then None else Emit(s.(run := run.value), Cleanup(run.value.revision))
  }

  function FailRun(s: State, f: I.Failure, at: int): Option<State> {
    StopRun(s, R.Termination(R.FailedKind, s.run.revision, Some(f), f.code, f.wellFormed), at)
  }

  /** The current node ends: its outcome is recorded and every projection cleared; an
      unhandled failure stops the run. A resumed run starts running again. */
  function Conclude(s: State, l: I.Ledger, ending: Ending, at: int, resumed: bool): Option<State>
    requires AtNode(s)
  {
    var node := Current(s);
    match ending
    case Success(output, route, ports) =>
      var recorded := Routing.RecordSucceeded(s.snap.routing, node, output, route, ports);
      if recorded.None? then None
      else
        var next := Put(s, node, l).(snap := Snapshot(recorded.value, None, None, None));
        if resumed then MoveRun(next, R.Running, at) else Some(next)
    case Broken(failure) =>
      var recorded := Routing.RecordFailed(s.snap.routing, node);
      if recorded.None? then None
      else
        var next := Put(s, node, l).(snap := Snapshot(recorded.value.0, None, None, None));
        if !recorded.value.1 then FailRun(next, failure, at)
        else if resumed then MoveRun(next, R.Running, at) else Some(next)
  }

  // ------------------------------------------------------------------- actions

  /** Drive acts on a running run. */
  predicate Driving(s: State) {
    s.run.status == R.Running
  }

  function DoStart(s: State, at: int): Option<State> {
    if s.run.status !in {R.Accepted, R.Queued} then None else MoveRun(s, R.Running, at)
  }

  /** resumeRetryWait: the invocation keeps waiting to be claimed. */
  function DoResumeRetry(s: State, at: int): Option<State> {
    if s.run.status != R.Waiting || s.snap.retry.None? || at < s.snap.retry.value.availableAt then None
    else MoveRun(s.(snap := s.snap.(retry := None)), R.Running, at)
  }

  function DoActivate(s: State, at: int): Option<State> {
    if !Driving(s) || !AtNode(s) || Disposition(s) == Routing.Blocked || Current(s) in s.ledgers then None
    else
      var node := Current(s);
      Some(Put(s, node, I.Activate(node, node in s.pins && s.pins[node].compensatable, at)))
  }

  function DoSkip(s: State, at: int): Option<State> {
    if !Driving(s) || !AtNode(s) || Disposition(s) != Routing.Skip || Current(s) !in s.ledgers then None
    else
      var l := s.ledgers[Current(s)];
      if l.head.status != I.Ready then None
      else
        var next := I.Apply(l, I.ResolveUnleased(l.head.revision, I.Skipped, None, at));
        var recorded := Routing.RecordSkipped(s.snap.routing, Current(s));
        if next.None? || recorded.None? then None
        else Some(Put(s, Current(s), next.value).(snap := s.snap.(routing := recorded.value)))
  }

  function DoClaim(s: State, owner: string, token: string, leaseExpiresAt: int, at: int): Option<State> {
    if !Driving(s) || !AtNode(s) || Disposition(s) != Routing.Ready || Current(s) !in s.ledgers then None
    else
      var l := s.ledgers[Current(s)];
      if l.head.status !in {I.Ready, I.RetryWait} then None
      else
        var next := I.Apply(l, I.Claim(l.head.revision, owner, token, leaseExpiresAt, at));
        if next.None? then None else Some(Put(s, Current(s), next.value))
  }

  const LEASE_EXPIRED := I.Failure("worker.lease-expired", false, true)

  /** A lost worker: the node is replayed if that is harmless and attempts are left, and fails otherwise. */
  function DoExpire(s: State, at: int): Option<State> {
    if !Driving(s) || !AtNode(s) || Disposition(s) != Routing.Ready || Current(s) !in s.ledgers then None
    else
      var node, l := Current(s), s.ledgers[Current(s)];
      var a := ActiveAttempt(l);
      if l.head.status != I.Running || a.None? || (a.value.leaseExpiresAt.Some? && at < a.value.leaseExpiresAt.value) then None
      else
        var retry := l.head.executions < MaxAttempts(s, node) && Replayable(s, node);
        var next := I.Apply(l, I.Expire(l.head.revision, a.value.id, a.value.revision, retry, LEASE_EXPIRED, at));
        if next.None? then None
        else if retry then Some(Put(s, node, next.value))
        else Conclude(s, next.value, Broken(LEASE_EXPIRED), at, false)
  }

  function FenceOf(l: I.Ledger, a: I.Attempt, token: string, at: int): I.Fence {
    I.Fence(l.head.revision, a.id, a.revision, token, at)
  }

  /** scheduleClaimedRetry. */
  function ScheduleRetry(s: State, l: I.Ledger, a: I.Attempt, token: string, f: I.Failure, delay: nat, at: int): Option<State>
    requires AtNode(s)
  {
    var next := I.Apply(l, I.Transition(FenceOf(l, a, token, at), I.RetryWait, I.AttemptFailed, None, Some(f), Some(at + delay), "", 0));
    if next.None? then None
    else
      MoveRun(Put(s, Current(s), next.value).(snap := s.snap.(retry := Some(RetryWait(Current(s), a.ordinal, at + delay)))), R.Waiting, at)
  }

  /** failClaimedWithFailure. */
  function FailClaimed(s: State, l: I.Ledger, a: I.Attempt, token: string, f: I.Failure, at: int): Option<State>
    requires AtNode(s)
  {
    var delay := RetryAfter(PolicyOf(s, Current(s)), a.ordinal);
    if f.transient && delay.Some? then ScheduleRetry(s, l, a, token, f, delay.value, at)
    else
      var next := I.Apply(l, I.Transition(FenceOf(l, a, token, at), I.Failed, I.AttemptFailed, None, Some(f), None, "", 0));
      if next.None? then None else Conclude(s, next.value, Broken(f), at, false)
  }

  /** A waiting result: the effect it proposes is prepared in the same commit. */
  function Suspend(s: State, l: I.Ledger, a: I.Attempt, token: string, subject: string, p: Option<Proposal>, at: int): Option<State>
    requires AtNode(s)
  {
    var node := Current(s);
    var next := I.Apply(l, I.Transition(FenceOf(l, a, token, at), I.Waiting, I.AttemptWaiting, None, None, None, subject, a.ordinal));
    if next.None? then None
    else
      var waiting := Put(s, node, next.value).(snap := s.snap.(waiting := Some(Occurrence(node, a.ordinal, subject, p.Some?))));
      if p.None? then MoveRun(waiting, R.Waiting, at)
      else
        var id, effect := EffectId(node, subject), E.Prepare(subject, p.value.policy, p.value.deadline, at);
        if effect.None? || id in s.effects then None
        else MoveRun(waiting.(effects := s.effects[id := E.World(effect.value, map[], map[])]), R.Waiting, at)
  }

  /** The last commit of executeClaimedActionCall. */
  function AwaitChild(s: State, l: I.Ledger, a: I.Attempt, token: string, child: string, at: int): Option<State>
    requires AtNode(s)
  {
    var node := Current(s);
    var next := I.Apply(l, I.Transition(FenceOf(l, a, token, at), I.Waiting, I.AttemptWaiting, None, None, None, child, 1));
    if next.None? then None
    else
      var waiting := MoveRun(Put(s, node, next.value).(snap := s.snap.(waiting := None, call := Some(Call(node, child)))), R.Waiting, at);
      if waiting.None? then None else Emit(waiting.value, ChildResolution(child, 1))
  }

  /** The report of the worker that holds the claim. Its commit names the ledger and
      the snapshot it read, so both are still as they were; the run may have begun to stop. */
  function DoReport(s: State, token: string, report: Report, at: int): Option<State> {
    if !AtNode(s) || Current(s) !in s.ledgers then None
    else
      var l := s.ledgers[Current(s)];
      var a := ActiveAttempt(l);
      if l.head.status != I.Running || a.None? then None
      else
        match report
        case Ends(Broken(f)) => FailClaimed(s, l, a.value, token, f, at)
        case Ends(Success(output, route, ports)) =>
          if ChildOf(s, Current(s)).Some? then None
          else
            var next := I.Apply(l, I.Transition(
              FenceOf(l, a.value, token, at), I.Succeeded, I.AttemptSucceeded, Some(output), None, None, "", 0));
            if next.None? then None else Conclude(s, next.value, Success(output, route, ports), at, false)
        case Waits(subject, p) => if ChildOf(s, Current(s)).Some? then None else Suspend(s, l, a.value, token, subject, p, at)
        case CallsChild =>
          if ChildOf(s, Current(s)).None? then None else AwaitChild(s, l, a.value, token, ChildOf(s, Current(s)).value, at)
  }

  /** beginFailure: node inputs or the workflow result could not be resolved, or required cleanup failed. */
  function DoFailDirectly(s: State, f: I.Failure, at: int): Option<State> {
    if !Driving(s) || (AtNode(s) && Disposition(s) != Routing.Ready) then None else FailRun(s, f, at)
  }

  function DoSucceed(s: State, result: string, closed: bool, at: int): Option<State> {
    if !Driving(s) || AtNode(s) then None
    else
      var run := R.Transition(s.run, R.Command(s.run.revision, R.Succeeded, None, result, [], closed, s.run.revision, at));
      if run.None? then None else Some(s.(run := run.value))
  }

  /** The common end of the three wait resolutions, for the wait that the invocation owns. */
  function ResolveWith(s: State, node: string, subject: string, generation: nat, ending: Ending, at: int): Option<State> {
    if !AtNode(s) || node != Current(s) || node !in s.ledgers then None
    else
      var l := s.ledgers[node];
      var a := ActiveAttempt(l);
      if a.None? || l.head.status != I.Waiting || l.head.waitRef != subject || l.head.waitGeneration != generation then None
      else
        var next := I.Apply(l, I.ResolveWait(
          l.head.revision, a.value.id, a.value.revision, subject, generation,
          if ending.Success? then I.Succeeded else I.Failed, if ending.Success? then Some(ending.output) else None,
          if ending.Success? then None else Some(ending.failure), at));
        if next.None? then None else Conclude(s, next.value, ending, at, true)
  }

  function EffectFailure(r: E.Record): I.Failure {
    if r.failure.None? then I.Failure("effect.resolution", false, true)
    else I.Failure(r.failure.value.code, r.failure.value.class_ == E.Transient, r.failure.value.wellFormed)
  }

  /** ResolveEffectWait: an applied effect is folded by the node, any other end fails it. */
  function DoResolveEffect(s: State, id: EffectId, ending: Ending, at: int): Option<State> {
    if id !in s.effects || !E.Terminal(s.effects[id].record.state) || s.run.status != R.Waiting || s.snap.waiting.None? then None
    else
      var o, r := s.snap.waiting.value, s.effects[id].record;
      if !o.effect || o.subject != id.key || o.node != id.node then None
      else ResolveWith(s, o.node, o.subject, o.generation, if r.state == E.Applied then ending else Broken(EffectFailure(r)), at)
  }

  /** resolveExternalWait. */
  function DoResolveExternal(s: State, node: string, generation: nat, subject: string, ending: Ending, at: int): Option<State> {
    if s.run.status != R.Waiting || s.snap.call.Some? || s.snap.waiting.None? then None
    else
      var o := s.snap.waiting.value;
      if o.effect || o.subject != subject || o.node != node || o.generation != generation then None
      else ResolveWith(s, node, subject, generation, ending, at)
  }

  /** ResolveActionCall, for a child run that has ended. */
  function DoResolveChild(s: State, child: string, ending: Ending, at: int): Option<State> {
    if s.run.status != R.Waiting || s.snap.call.None? || s.snap.call.value.child != child then None
    else ResolveWith(s, s.snap.call.value.node, child, 1, ending, at)
  }

  /** requestRunTermination commits nothing but the run. */
  function DoRequestTermination(s: State, a: Action): Option<State>
    requires a.RequestTermination?
  {
    if s.run.termination.Some? || R.Terminal(s.run.status) || a.revision != s.run.revision || !R.RequiresStopping(a.kind) then None
    else StopRun(s, R.Termination(a.kind, a.revision, a.primary, a.commandId, true), a.at)
  }

  /** One step of cancelOpenInvocations; of the projections only `waiting` is cleared. */
  function DoCancel(s: State, node: string, at: int): Option<State> {
    if s.run.status != R.Stopping || node !in s.ledgers then None
    else
      var l := s.ledgers[node];
      var next := I.Apply(l, I.Cancel(l.head.revision, at));
      if next.None? then None
      else
        var owned := s.snap.waiting.Some? && s.snap.waiting.value.node == node;
        Some(Put(s, node, next.value).(snap := s.snap.(waiting := if owned then None else s.snap.waiting)))
  }

  /** Effect commands; a terminal observation announces the resolution of the wait (waitResolutionSeeds). */
  function DoStepEffect(s: State, id: EffectId, c: E.Command): Option<State> {
    if id !in s.effects || (c.CancelPrepared? && s.run.status != R.Stopping) then None
    else
      var next := E.Step(s.effects[id], c);
      if next.None? then None
      else
        var t := s.(effects := s.effects[id := next.value]);
        if c.Observe? && E.Terminal(next.value.record.state) then Emit(t, WaitResolution(id, next.value.record.revision)) else Some(t)
  }

  /** requiredTerminationIntentIDs. */
  predicate Announceable(r: E.Record) {
    E.Terminal(r.state) && r.state != E.Canceled
  }

  function Required(s: State): set<IntentId> {
    {Cleanup(s.run.revision)}
    + (if s.snap.call.Some? then {ChildResolution(s.snap.call.value.child, 1)} else {})
    + (set id | id in s.effects && Announceable(s.effects[id].record) :: WaitResolution(id, s.effects[id].record.terminalRevision))
  }

  predicate Drained(s: State) {
    (forall n :: n in s.ledgers ==> I.Terminal(s.ledgers[n].head.status))
    && (forall id :: id in s.effects ==> s.effects[id].record.state != E.Prepared)
  }

  /** The last commit of finalizeStoppingRun, after its cancellations. */
  function DoFinish(s: State, cleanup: seq<I.Failure>, closed: bool, at: int): Option<State> {
    if s.run.status != R.Stopping || s.run.termination.None? || !Drained(s) || !Readable(s) || s.snap.waiting.Some?
       || !(Required(s) <= s.completed) || R.TerminalStatus(s.run.termination.value.kind).None? then None
    else
      var to := R.TerminalStatus(s.run.termination.value.kind).value;
      var run := R.Transition(s.run, R.Command(s.run.revision, to, None, "", cleanup, closed, s.run.revision, at));
      if run.None? then None else Some(s.(run := run.value))
  }

  /** One commit; None when the controller reports an error or has nothing to do. */
  function Apply(s: State, a: Action): Option<State> {
    match a
    case StartRun(at) => DoStart(s, at)
    case ResumeRetry(at) => DoResumeRetry(s, at)
    case ActivateNode(at) => DoActivate(s, at)
    case SkipNode(at) => DoSkip(s, at)
    case ClaimNode(owner, token, leaseExpiresAt, at) => DoClaim(s, owner, token, leaseExpiresAt, at)
    case ExpireNode(at) => DoExpire(s, at)
    case ReportNode(token, report, at) => DoReport(s, token, report, at)
    case FailDirectly(failure, at) => DoFailDirectly(s, failure, at)
    case SucceedRun(result, closed, at) => DoSucceed(s, result, closed, at)
    case ResolveEffect(effect, ending, at) => DoResolveEffect(s, effect, ending, at)
    case ResolveExternal(node, generation, subject, ending, at) => DoResolveExternal(s, node, generation, subject, ending, at)
    case ResolveChild(child, ending, at) => DoResolveChild(s, child, ending, at)
    case RequestTermination(_, _, _, _, _) => DoRequestTermination(s, a)
    case CancelNode(node, at) => DoCancel(s, node, at)
    case StepEffect(effect, command) => DoStepEffect(s, effect, command)
    case CompleteIntent(intent) => if intent in s.intents then Some(s.(completed := s.completed + {intent})) else None
    case FinishRun(cleanup, closed, at) => DoFinish(s, cleanup, closed, at)
  }

  function Play(s: State, actions: seq<Action>): State {
    if actions == [] then s
    else
      var before := Play(s, actions[..|actions| - 1]);
      var after := Apply(before, actions[|actions| - 1]);
      if after.Some? then after.value else before
  }

  /** An admitted run, before anything was driven. */
  function Begin(pins: map<string, Pin>, order: seq<string>, edges: seq<Workflow.Edge>, at: int): State {
    State(pins, R.Admit("run", at), Snapshot(Routing.Start(order, edges), None, None, None), map[], map[], {}, {})
  }
}
