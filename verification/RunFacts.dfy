/** What the reducers of the ledger do to the parts that the run loop looks at. */
module RunFacts {
  import opened Prelude
  import I = Invocation
  import opened RunLoop

  /** The attempt in flight is the newest, and it waits when its invocation does. */
  predicate InStep(l: I.Ledger) {
    && (l.head.active.Some? ==> l.head.active.value == I.AttemptId(I.Execution, l.head.executions))
    && (l.head.status == I.Waiting ==> ActiveAttempt(l).Some? && ActiveAttempt(l).value.status == I.AttemptWaiting)
  }

  predicate LedgerKept(l: I.Ledger) {
    I.Kept(l) && InStep(l)
  }

  lemma FindUpdated(attempts: seq<I.Attempt>, i: nat, a: I.Attempt, id: I.AttemptId)
    requires i < |attempts| && a.id == attempts[i].id
    ensures I.Find(attempts[i := a], id) == I.Find(attempts, id)
  {
    if attempts[0].id != id && i > 0 {
      FindUpdated(attempts[1..], i - 1, a, id);
      assert attempts[i := a][1..] == attempts[1..][i - 1 := a];
    } else if attempts[0].id != id {
      assert attempts[i := a][1..] == attempts[1..];
    }
  }

  lemma ActivateIsKept(frozen: string, compensatable: bool, at: int)
    ensures LedgerKept(I.Activate(frozen, compensatable, at))
  {
  }

  lemma ClaimFacts(l: I.Ledger, c: I.Command)
    requires LedgerKept(l) && c.Claim? && I.Apply(l, c).Some?
    ensures var m := I.Apply(l, c).value;
            && LedgerKept(m) && m.head.status == I.Running && m.head.executions == l.head.executions + 1
            && l.head.status in {I.Ready, I.RetryWait}
  {
    I.ApplyKeeps(l, c);
    hide I.Kept, I.Valid;
  }

  lemma TransitionFacts(l: I.Ledger, c: I.Command)
    requires LedgerKept(l) && c.Transition? && I.Apply(l, c).Some?
    ensures var m := I.Apply(l, c).value;
            && LedgerKept(m) && m.head.status == c.to && m.head.executions == l.head.executions
            && (c.to == I.Waiting ==> m.head.waitRef == c.waitRef && m.head.waitGeneration == c.waitGeneration && c.waitGeneration > 0)
            && (c.to == I.RetryWait ==> m.head.nextAt == c.retryAt)
  {
    hide I.Apply, I.Kept, I.Fenced, I.Find, InStep;
    I.ApplyKeeps(l, c);
    TransitionShape(l, c);
    FencedIsActive(l, c.fence);
    AttemptMoves(l, I.Apply(l, c).value, c);
  }

  /** The head and the one attempt that a transition writes. */
  predicate Shaped(l: I.Ledger, m: I.Ledger, c: I.Command)
    requires c.Transition?
  {
    var i := I.Fenced(l, c.fence);
    && i.Some? && l.attempts[i.value].phase == I.Execution
    && |m.attempts| == |l.attempts| && m.attempts == l.attempts[i.value := m.attempts[i.value]]
    && m.attempts[i.value].id == c.fence.id && m.attempts[i.value].status == c.attemptTo
    && m.head.status == c.to && m.head.executions == l.head.executions
    && (m.head.active.Some? ==> m.head.active == l.head.active) && (c.to == I.Waiting ==> m.head.active == l.head.active)
    && (c.to == I.Waiting ==> m.head.waitRef == c.waitRef && m.head.waitGeneration == c.waitGeneration
                              && c.waitGeneration > 0 && c.attemptTo == I.AttemptWaiting)
    && (c.to == I.RetryWait ==> m.head.nextAt == c.retryAt)
  }

  lemma TransitionShape(l: I.Ledger, c: I.Command)
    requires c.Transition? && I.Apply(l, c).Some?
    ensures Shaped(l, I.Apply(l, c).value, c)
  {
    hide I.Valid, I.Fenced, I.AttemptStep, I.InvocationStep;
  }

  lemma AttemptMoves(l: I.Ledger, m: I.Ledger, c: I.Command)
    requires LedgerKept(l) && I.Kept(m) && c.Transition? && Shaped(l, m, c)
    requires var i := I.Fenced(l, c.fence).value;
             i == I.Find(l.attempts, c.fence.id) && (l.attempts[i].phase == I.Execution ==> l.head.active == Some(c.fence.id))
    ensures LedgerKept(m)
  {
    hide I.Kept, I.Fenced;
    var i := I.Fenced(l, c.fence).value;
    FindUpdated(l.attempts, i, m.attempts[i], c.fence.id);
    hide I.Find;
  }

  lemma FencedIsActive(l: I.Ledger, f: I.Fence)
    requires I.Fenced(l, f).Some?
    ensures var i := I.Fenced(l, f).value;
            i == I.Find(l.attempts, f.id) && (l.attempts[i].phase == I.Execution ==> l.head.active == Some(f.id))
  {
  }

  lemma ResolveFacts(l: I.Ledger, c: I.Command)
    requires LedgerKept(l) && c.ResolveWait? && I.Apply(l, c).Some?
    ensures var m := I.Apply(l, c).value;
            LedgerKept(m) && m.head.status == c.to && m.head.executions == l.head.executions
  {
    I.ApplyKeeps(l, c);
    hide I.Kept, I.Valid, I.Find;
  }

  lemma ExpireFacts(l: I.Ledger, c: I.Command)
    requires LedgerKept(l) && c.Expire? && I.Apply(l, c).Some?
    ensures var m := I.Apply(l, c).value;
            LedgerKept(m) && m.head.status == (if c.retry then I.Ready else I.Failed) && m.head.executions == l.head.executions
  {
    I.ApplyKeeps(l, c);
    hide I.Kept, I.Valid, I.Find;
  }

  lemma UnleasedFacts(l: I.Ledger, c: I.Command)
    requires LedgerKept(l) && c.ResolveUnleased? && I.Apply(l, c).Some? && c.to == I.Skipped
    ensures var m := I.Apply(l, c).value;
            LedgerKept(m) && m.head.status == I.Skipped && m.head.executions == l.head.executions
  {
    I.ApplyKeeps(l, c);
    hide I.Kept, I.Valid;
  }

  lemma CancelFacts(l: I.Ledger, c: I.Command)
    requires LedgerKept(l) && c.Cancel? && I.Apply(l, c).Some?
    ensures var m := I.Apply(l, c).value;
            && LedgerKept(m) && m.head.status == I.Canceled && m.head.executions == l.head.executions
            && !I.Terminal(l.head.status)
  {
    I.ApplyKeeps(l, c);
    hide I.Kept, I.Valid, I.Find;
  }

  /** The attempt in flight carries the number of attempts so far. */
  lemma ActiveOrdinal(l: I.Ledger)
    requires LedgerKept(l) && ActiveAttempt(l).Some?
    ensures ActiveAttempt(l).value.ordinal == l.head.executions > 0
  {
    var i := I.Find(l.attempts, l.head.active.value);
    assert I.AttemptValid(l.attempts[i]);
    hide I.Find;
  }
}
