/** Ownership of long-lived runtimes: bindings fenced by generation and token, and
    the provider that refuses stale fences. Identity checks are left out; a lease
    token stands for its hash and an observation for its digest. */
module RuntimeBinding {
  import opened Prelude

  datatype Ownership = Owned | Attached | Shared

  datatype State = Preparing | Active | Stopping | Released | Lost

  predicate Terminal(s: State) {
    s in {Released, Lost}
  }

  datatype Observed = Unknown | Starting | Running | StoppingState | Stopped | FailedState | LostState

  datatype Health = HealthUnknown | Healthy | Degraded | Unhealthy | HealthLost

  datatype Failure = Failure(code: string, wellFormed: bool)

  /** What ObservationDigest commits to. */
  datatype Observation = Observation(
    bindingId: string, generation: nat, token: nat, external: string, state: Observed, health: Health, failure: Option<Failure>)

  datatype Binding = Binding(
    id: string, ownership: Ownership, cleanup: bool, state: State, external: string, observed: Observed, health: Health,
    observation: Option<Observation>, observedAt: Option<int>, failure: Option<Failure>,
    generation: nat, token: nat, leaseOwner: string, leaseToken: string, leaseExpiresAt: Option<int>,
    createdAt: int, activatedAt: Option<int>, releaseStartedAt: Option<int>, finishedAt: Option<int>, updatedAt: int, revision: nat)

  /** ValidateBinding. */
  predicate Valid(b: Binding) {
    && (b.ownership == Owned <==> b.cleanup)
    && b.generation > 0 && b.token > 0 && b.revision > 0 && b.createdAt <= b.updatedAt
    && (if Terminal(b.state) then b.finishedAt.Some? && b.leaseOwner == "" && b.leaseToken == "" && b.leaseExpiresAt.None?
        else
          b.leaseOwner != "" && b.leaseToken != "" && b.leaseExpiresAt.Some? && b.updatedAt < b.leaseExpiresAt.value && b.finishedAt.None?)
    && (b.state == Active ==> b.activatedAt.Some? && b.external != "" && b.observed == Running)
    && (b.state == Stopping ==> b.ownership == Owned && b.releaseStartedAt.Some?)
    && (b.state == Released && b.ownership == Owned ==> b.observed == Stopped)
    && (b.state == Lost ==> b.observed == LostState && b.health == HealthLost && b.failure.Some?)
    && (b.observation.Some? <==> b.observedAt.Some?) && (b.observedAt.Some? ==> b.observedAt.value <= b.updatedAt)
    && (b.failure.Some? ==> b.failure.value.wellFormed && b.observed in {FailedState, LostState})
  }

  function Checked(b: Binding): Option<Binding> {
    if Valid(b) then Some(b) else None
  }

  datatype Fence = Fence(revision: nat, generation: nat, token: nat, owner: string, leaseToken: string, at: int)

  /** validateFence. */
  predicate Holds(b: Binding, f: Fence) {
    && f.revision == b.revision && f.generation == b.generation && f.token == b.token
    && f.owner == b.leaseOwner && f.leaseToken == b.leaseToken && b.updatedAt <= f.at
    && b.leaseExpiresAt.Some? && f.at < b.leaseExpiresAt.value
  }

  datatype Command =
    | Observe(fence: Fence, external: string, observed: Observed, health: Health, observation: Observation, failure: Option<Failure>)
    | Heartbeat(fence: Fence, leaseExpiresAt: int)
    | Takeover(revision: nat, generation: nat, token: nat, owner: string, leaseToken: string, leaseExpiresAt: int, at: int)
    | BeginRelease(fence: Fence)
    | FinishRelease(fence: Fence)

  function Prepare(id: string, ownership: Ownership, token: nat, owner: string, leaseToken: string, leaseExpiresAt: int, at: int): Option<Binding> {
    if token == 0 || owner == "" || leaseToken == "" || leaseExpiresAt <= at then None
    else
      Checked(Binding(id, ownership, ownership == Owned, Preparing, "", Unknown, HealthUnknown, None, None, None,
                      1, token, owner, leaseToken, Some(leaseExpiresAt), at, None, None, None, at, 1))
  }

  function ClearLease(b: Binding): Binding {
    b.(leaseOwner := "", leaseToken := "", leaseExpiresAt := None)
  }

  function ObserveBinding(b: Binding, c: Command): Option<Binding>
    requires c.Observe?
  {
    if !Holds(b, c.fence) || Terminal(b.state)
       || (c.external == "" && c.observed !in {Unknown, LostState})
       || c.observation != Observation(b.id, b.generation, b.token, c.external, c.observed, c.health, c.failure)
       || (c.observed in {FailedState, LostState}) != c.failure.Some?
       || (c.failure.Some? && !c.failure.value.wellFormed) then None
    else
      var at := c.fence.at;
      var seen := b.(external := c.external, observed := c.observed, health := c.health, observation := Some(c.observation),
                     observedAt := Some(at), failure := c.failure, updatedAt := at, revision := b.revision + 1);
      Checked(
        if c.observed == LostState then ClearLease(seen.(state := Lost, health := HealthLost, finishedAt := Some(at)))
        else if b.state == Preparing && c.observed == Running then seen.(state := Active, activatedAt := Some(at))
        else seen)
  }

  /** Heartbeat, which skips the final check. */
  function HeartbeatBinding(b: Binding, c: Command): Option<Binding>
    requires c.Heartbeat?
  {
    if !Holds(b, c.fence) || b.leaseExpiresAt.None? || c.leaseExpiresAt <= b.leaseExpiresAt.value then None
    else Some(b.(leaseExpiresAt := Some(c.leaseExpiresAt), updatedAt := c.fence.at, revision := b.revision + 1))
  }

  /** Takeover, which skips the final check. */
  function TakeoverBinding(b: Binding, c: Command): Option<Binding>
    requires c.Takeover?
  {
    if c.revision != b.revision || Terminal(b.state) || (b.leaseExpiresAt.Some? && c.at < b.leaseExpiresAt.value)
       || c.generation != b.generation + 1 || c.token <= b.token || c.leaseExpiresAt <= c.at || c.owner == "" || c.leaseToken == "" then None
    else
      Some(b.(generation := c.generation, token := c.token, leaseOwner := c.owner, leaseToken := c.leaseToken,
              leaseExpiresAt := Some(c.leaseExpiresAt), observed := Unknown, health := HealthUnknown, observation := None,
              observedAt := None, failure := None, state := if b.state == Active then Preparing else b.state,
              updatedAt := c.at, revision := b.revision + 1))
  }

  function BeginReleaseBinding(b: Binding, c: Command): Option<Binding>
    requires c.BeginRelease?
  {
    if !Holds(b, c.fence) || b.state !in {Active, Preparing} then None
    else
      var at := c.fence.at;
      var begun := b.(updatedAt := at, revision := b.revision + 1, releaseStartedAt := Some(at));
      Checked(if b.ownership == Owned then begun.(state := Stopping) else ClearLease(begun.(state := Released, finishedAt := Some(at))))
  }

  function FinishReleaseBinding(b: Binding, c: Command): Option<Binding>
    requires c.FinishRelease?
  {
    if !Holds(b, c.fence) || b.state != Stopping || b.ownership != Owned || b.observed != Stopped then None
    else Checked(ClearLease(b.(state := Released, updatedAt := c.fence.at, revision := b.revision + 1, finishedAt := Some(c.fence.at))))
  }

  function Step(b: Binding, c: Command): Option<Binding> {
    if !Valid(b) then None
    else
      match c
      case Observe(_, _, _, _, _, _) => ObserveBinding(b, c)
      case Heartbeat(_, _) => HeartbeatBinding(b, c)
      case Takeover(_, _, _, _, _, _, _) => TakeoverBinding(b, c)
      case BeginRelease(_) => BeginReleaseBinding(b, c)
      case FinishRelease(_) => FinishReleaseBinding(b, c)
  }

  function Run(b: Binding, commands: seq<Command>): Binding {
    if commands == [] then b
    else
      var before := Run(b, commands[..|commands| - 1]);
      var after := Step(before, commands[|commands| - 1]);
      if after.Some? then after.value else before
  }

  // ----------------------------------------------------------------- invariant

  /** What is known of the runtime was observed under the current generation and token. */
  predicate ObservedNow(b: Binding) {
    && (b.observed != Unknown ==> b.observation.Some?)
    && (b.observation.Some? ==>
          && b.observation.value.bindingId == b.id && b.observation.value.generation == b.generation && b.observation.value.token == b.token
          && b.observation.value.state == b.observed && b.observation.value.external == b.external)
  }

  predicate Kept(b: Binding) {
    Valid(b) && ObservedNow(b)
  }

  lemma HeartbeatKeepsValid(b: Binding, c: Command)
    requires Valid(b) && c.Heartbeat? && HeartbeatBinding(b, c).Some?
    ensures Valid(HeartbeatBinding(b, c).value)
  {
  }

  lemma TakeoverKeepsValid(b: Binding, c: Command)
    requires Valid(b) && c.Takeover? && TakeoverBinding(b, c).Some?
    ensures Valid(TakeoverBinding(b, c).value)
  {
  }

  lemma StepKeeps(b: Binding, c: Command)
    requires Kept(b) && Step(b, c).Some?
    ensures Kept(Step(b, c).value)
  {
    if c.Heartbeat? { HeartbeatKeepsValid(b, c); }
    if c.Takeover? { TakeoverKeepsValid(b, c); }
    hide Valid;
  }

  lemma {:induction false} RunKeeps(b: Binding, commands: seq<Command>)
    requires Kept(b)
    ensures Kept(Run(b, commands))
  {
    if commands != [] {
      RunKeeps(b, commands[..|commands| - 1]);
      var before, c := Run(b, commands[..|commands| - 1]), commands[|commands| - 1];
      hide Kept, Step;
      if Step(before, c).Some? { StepKeeps(before, c); }
    }
  }

  /** Fences only move forward: a step keeps generation and token, or raises both. */
  predicate FenceAdvances(before: Binding, after: Binding) {
    && before.id == after.id && before.ownership == after.ownership
    && ((before.generation == after.generation && before.token == after.token)
        || (before.generation < after.generation && before.token < after.token))
  }

  lemma StepAdvances(b: Binding, c: Command)
    requires Step(b, c).Some?
    ensures FenceAdvances(b, Step(b, c).value) && Step(b, c).value.revision == b.revision + 1
    ensures c.Takeover? <==> Step(b, c).value.generation != b.generation
  {
    hide Valid;
  }

  lemma {:induction false} RunAdvances(b: Binding, commands: seq<Command>)
    ensures FenceAdvances(b, Run(b, commands)) && b.revision <= Run(b, commands).revision
  {
    if commands != [] {
      RunAdvances(b, commands[..|commands| - 1]);
      var before, c := Run(b, commands[..|commands| - 1]), commands[|commands| - 1];
      hide Step;
      if Step(before, c).Some? { StepAdvances(before, c); }
    }
  }

  // --------------------------------------------------------------- main results

  /** An owned binding is released only on a stopped observation of the runtime made
      under the generation and token it is released with. */
  lemma ReleaseNeedsAStoppedObservation(b: Binding, commands: seq<Command>)
    requires Kept(b) && b.ownership == Owned && Run(b, commands).state == Released
    ensures var after := Run(b, commands);
            && after.observation.Some? && after.observation.value.state == Stopped && after.observation.value.bindingId == b.id
            && after.observation.value.generation == after.generation && after.observation.value.token == after.token
  {
    RunKeeps(b, commands);
    RunAdvances(b, commands);
  }

  /** Whoever was taken over can do nothing more: a fence of an earlier generation is
      refused by every later binding. */
  lemma SupersededFenceIsRefused(b: Binding, takeover: Command, commands: seq<Command>, f: Fence)
    requires Kept(b) && takeover.Takeover? && Step(b, takeover).Some? && f.generation <= b.generation
    ensures !Holds(Run(Step(b, takeover).value, commands), f)
  {
    StepAdvances(b, takeover);
    RunAdvances(Step(b, takeover).value, commands);
    hide Step, Run;
  }

  /** A takeover happens only after the lease ran out, and forgets what was observed. */
  lemma TakeoverWaitsAndForgets(b: Binding, c: Command)
    requires Kept(b) && c.Takeover? && Step(b, c).Some?
    ensures b.leaseExpiresAt.Some? && b.leaseExpiresAt.value <= c.at
    ensures Step(b, c).value.observation.None? && Step(b, c).value.observed == Unknown && Step(b, c).value.state in {Preparing, Stopping}
  {
  }

  // ------------------------------------------------------------------ providers

  /** A generation fence as a provider sees it. */
  datatype Ticket = Ticket(bindingId: string, generation: nat, token: nat)

  predicate TicketValid(t: Ticket) {
    t.bindingId != "" && t.generation > 0 && t.token > 0
  }

  predicate Stale(high: Ticket, t: Ticket) {
    || t.generation < high.generation
    || (t.generation == high.generation && t.token != high.token)
    || (t.generation > high.generation && t.token <= high.token)
  }

  predicate Admits(fences: map<string, Ticket>, t: Ticket) {
    TicketValid(t) && (t.bindingId in fences ==> !Stale(fences[t.bindingId], t))
  }

  /** The high-water marks after a ticket was presented. */
  function Raised(fences: map<string, Ticket>, t: Ticket): map<string, Ticket> {
    if Admits(fences, t) && (t.bindingId !in fences || t.generation > fences[t.bindingId].generation)
    then fences[t.bindingId := t] else fences
  }

  class Provider {
    var fences: map<string, Ticket>

    ghost predicate Valid()
      reads this
    {
      forall id :: id in fences ==> fences[id].bindingId == id && TicketValid(fences[id])
    }

    constructor ()
      ensures Valid() && fences == map[]
    {
      fences := map[];
    }

    method AcceptFence(incoming: Ticket) returns (ok: bool)
      requires Valid()
      modifies this
      ensures Valid()
      ensures ok <==> Admits(old(fences), incoming)
      ensures fences == Raised(old(fences), incoming)
    {
      if !TicketValid(incoming) { return false; }
      if incoming.bindingId in fences {
        var current := fences[incoming.bindingId];
        if incoming.generation < current.generation
           || (incoming.generation == current.generation && incoming.token != current.token)
           || (incoming.generation > current.generation && incoming.token <= current.token) {
          return false;
        }
      }
      if incoming.bindingId !in fences || incoming.generation > fences[incoming.bindingId].generation {
        fences := fences[incoming.bindingId := incoming];
      }
      return true;
    }
  }

  function Presented(fences: map<string, Ticket>, tickets: seq<Ticket>): map<string, Ticket> {
    if tickets == [] then fences else Raised(Presented(fences, tickets[..|tickets| - 1]), tickets[|tickets| - 1])
  }

  lemma {:induction false} MarksRise(fences: map<string, Ticket>, tickets: seq<Ticket>, id: string)
    requires id in fences
    ensures id in Presented(fences, tickets)
    ensures var high := Presented(fences, tickets)[id];
            high == fences[id] || (fences[id].generation < high.generation && fences[id].token < high.token)
  {
    if tickets != [] { MarksRise(fences, tickets[..|tickets| - 1], id); }
  }

  /** Once a provider accepted a generation of a binding it accepts no older one, and
      that generation only with the same token, whatever else is presented in between. */
  lemma NoOlderGenerationIsAccepted(fences: map<string, Ticket>, accepted: Ticket, tickets: seq<Ticket>, later: Ticket)
    requires Admits(fences, accepted) && later.bindingId == accepted.bindingId
    requires Admits(Presented(Raised(fences, accepted), tickets), later)
    ensures accepted.generation <= later.generation
    ensures accepted.generation == later.generation ==> accepted.token == later.token
  {
    MarksRise(Raised(fences, accepted), tickets, accepted.bindingId);
  }

  /** A binding's successive fences never collide at a provider: the fence a later
      binding holds is accepted by every provider that has only seen earlier ones. */
  lemma CurrentFenceIsAccepted(b: Binding, commands: seq<Command>, fences: map<string, Ticket>)
    requires Kept(b) && b.id != ""
    requires b.id in fences ==> fences[b.id] == Ticket(b.id, b.generation, b.token)
    ensures var after := Run(b, commands); Admits(fences, Ticket(after.id, after.generation, after.token))
  {
    RunKeeps(b, commands);
    RunAdvances(b, commands);
  }
}
