// The event store as the command drives it: one object whose rows are updated in place, each method
// proved against the transition it performs, and the approve-and-run command on top of it.
module EventStore {
  import opened Common
  import opened ConnectedStore
  import opened ApproveAndRun

  class Store {
    var review: ReviewStatus
    var revision: nat
    var status: InvocationStatus
    var evidence: Option<Evidence>
    var grant: Grant
    var bound: bool
    var connected: bool
    var generation: nat
    var frozen: nat
    var claim: Option<nat>
    var quarantined: bool

    ghost function View(): Rows
      reads this
    {
      Rows(review, revision, bound, status, evidence, grant, connected, generation, frozen, claim, quarantined)
    }

    method FindInvocation(requested: ActionRevision) returns (found: Result<InvocationStatus>)
      ensures found == Lookup(View(), requested)
    {
      if requested != ActionRevision(review, revision) || review != ApprovalPending {
        return Refused;
      }
      found := Ok(status);
    }

    method ApproveAndStart(requested: ActionRevision) returns (started: Result<()>)
      modifies this
      ensures View() == Keep(old(View()), Approve(old(View()), requested))
      ensures started.Ok? <==> Approve(old(View()), requested).Ok?
    {
      var invocation := FindInvocation(requested);
      if invocation.Refused? {
        return Refused;
      }
      if invocation.value == Running {
        return Ok(());
      }
      if invocation.value != PendingApproval || grant !in {Undecided, Grant.Approved} || !connected || generation != frozen {
        return Refused;
      }
      status, grant := Running, Consumed;
      started := Ok(());
    }

    method CompleteInvocation(receipt: Receipt) returns (completed: Result<Option<Evidence>>)
      modifies this
      ensures View() == Keep(old(View()), Complete(old(View()), receipt, None))
      ensures completed == if Complete(old(View()), receipt, None).Ok? then Ok(evidence) else Refused
    {
      if !receipt.matches {
        return Refused;
      }
      if status == Succeeded {
        return if evidence == Some(receipt.evidence) then Ok(evidence) else Refused;
      }
      if status != Running || !connected || generation != frozen {
        return Refused;
      }
      if bound {
        if review != ApprovalPending {
          return Refused;
        }
        review, revision := Accepted, Bump(revision);
      }
      claim := None;
      status, evidence := Succeeded, Some(receipt.evidence);
      completed := Ok(evidence);
    }

    method MarkReconciliationRequired() returns (uncertain: Result<InvocationStatus>)
      modifies this
      ensures View() == Keep(old(View()), Freeze(old(View())))
      ensures uncertain == if Freeze(old(View())).Ok? then Ok(status) else Refused
    {
      if status != Running {
        return Refused;
      }
      status, claim := ReconciliationRequired, None;
      uncertain := Ok(status);
    }
  }

  /** What the connector registry answers during one call. */
  datatype Registry = Registry(enabled: bool, supported: bool, accountFound: bool, providerFound: bool)

  /** One caller and no one else. */
  function Alone(rows: Rows): System {
    System(rows, map[], map[], 0, 0, 0, 0)
  }

  /** The rows and the reply are those of one caller's run of the step machine. */
  ghost predicate OneRun(before: Rows, after: Rows, called: bool, reply: Reply) {
    exists t :: Leads(Alone(before), t) && t.rows == after && t.callers == map[0 := Done(called, reply)]
                && t.calls == if called then 1 else 0
  }

  /** What lets a call reach the provider when nothing runs beside it. */
  predicate ReachesProvider(rows: Rows, requested: ActionRevision, registry: Registry) {
    && registry == Registry(true, true, true, true)
    && Invocable(rows, requested)
    && rows.status == PendingApproval
    && rows.grant in {Undecided, Grant.Approved}
    && rows.Ready()
  }

  lemma CallAndRecord(start: System, t: System, requested: ActionRevision, outcome: Outcome) returns (after: System)
    requires Leads(start, t) && t.callers == map[0 := Permitted(requested)]
    ensures Leads(start, after) && after.calls == t.calls + 1
    ensures var (rows, reply) := RecordScope(t.rows, outcome);
      after.rows == rows && after.callers == map[0 := Done(true, reply)]
  {
    var returned := Next(t, CallProvider(0, outcome, true));
    LeadsOn(start, t, CallProvider(0, outcome, true));
    LeadsOn(start, returned, Record(0));
    after := Next(returned, Record(0));
  }

  /** `approve_and_run_connected_work_review_with_state`, uninterrupted; `outcome` is the provider's answer. */
  method ApproveAndRunReview(store: Store, requested: ActionRevision, registry: Registry, outcome: Outcome)
    returns (reply: Reply, called: bool)
    modifies store
    ensures OneRun(old(store.View()), store.View(), called, reply)
    ensures called <==> ReachesProvider(old(store.View()), requested, registry)
    ensures called ==> store.status in {Succeeded, ReconciliationRequired}
    ensures reply.KnownApplied? <==>
      called && outcome.Applied? && outcome.receipt.matches && store.status == Succeeded
    ensures reply.KnownApplied? ==> reply.evidence == store.evidence == Some(outcome.receipt.evidence)
    ensures called && !reply.KnownApplied? ==> store.status == ReconciliationRequired
    ensures !called ==>
      var before := old(store.View());
      store.View() == before
      || (before.status == Running && store.View() == before.(status := ReconciliationRequired, claim := None))
      || (before.status == PendingApproval && reply == NothingSent
          && store.View() == before.(status := Running, grant := Consumed))
  {
    ghost var start := Alone(store.View());
    LeadsToItself(start);
    ghost var t := start;

    LeadsOn(start, t, Enter(0, requested, registry.enabled));
    t := Next(t, Enter(0, requested, registry.enabled));
    if !registry.enabled {
      return NothingSent, false;
    }

    var pending := store.FindInvocation(requested);
    LeadsOn(start, t, Read(0, registry.supported, registry.accountFound));
    t := Next(t, Read(0, registry.supported, registry.accountFound));
    if pending.Refused? {
      return StoreRefused, false;
    }
    if !registry.supported {
      return NothingSent, false;
    }
    if !registry.accountFound {
      return StoreRefused, false;
    }

    if pending.value == Running {
      var uncertain := store.MarkReconciliationRequired();
      LeadsOn(start, t, FreezeRunning(0));
      t := Next(t, FreezeRunning(0));
      return EffectUnknown(uncertain.value), false;
    }

    var running := store.ApproveAndStart(requested);
    LeadsOn(start, t, ApproveStart(0));
    t := Next(t, ApproveStart(0));
    if running.Refused? {
      return StoreRefused, false;
    }
    if !registry.providerFound {
      LeadsOn(start, t, FindNoProvider(0));
      t := Next(t, FindNoProvider(0));
      return NothingSent, false;
    }

    called := true;
    t := CallAndRecord(start, t, requested, outcome);
    reply := RecordOutcome(store, outcome);
  }

  /** The second lock scope: what the store is told once the provider has answered. */
  method RecordOutcome(store: Store, outcome: Outcome) returns (reply: Reply)
    modifies store
    ensures (store.View(), reply) == RecordScope(old(store.View()), outcome)
  {
    if outcome.Applied? {
      var completed := store.CompleteInvocation(outcome.receipt);
      if completed.Ok? {
        return KnownApplied(completed.value);
      }
      if store.status == Succeeded {
        return KnownApplied(store.evidence);
      }
      if store.status != Running {
        return StoreRefused;
      }
    }
    var frozen := store.MarkReconciliationRequired();
    reply := if frozen.Ok? then EffectUnknown(frozen.value) else StoreRefused;
  }
}
