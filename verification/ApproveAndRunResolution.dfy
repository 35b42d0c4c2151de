// How an invocation is resolved: what is final, what one more call or the reconciler can still
// settle, and the two states that no later step can leave.
module ApproveAndRunResolution {
  import opened Common
  import opened ConnectedStore
  import opened ApproveAndRun
  import opened ApproveAndRunSafety

  function Rank(status: InvocationStatus): nat {
    match status
    case PendingApproval => 0
    case Running => 1
    case ReconciliationRequired => 2
    case Succeeded => 3
    case Failed => 3
  }

  lemma RankStep(s: System, e: Event)
    requires Enabled(s, e)
    ensures var r, r' := s.rows, Next(s, e).rows;
      Rank(r.status) <= Rank(r'.status)
      && (Rank(r.status) == 3 ==> r'.status == r.status && r'.evidence == r.evidence)
  {
  }

  /** Success, with its evidence, and failure are final; no status is ever taken back. */
  lemma {:induction false} StatusOnlyAdvances(s: System, run: seq<Event>)
    requires Legal(s, run)
    ensures var r, r' := s.rows, Run(s, run).rows;
      Rank(r.status) <= Rank(r'.status)
      && (Rank(r.status) == 3 ==> r'.status == r.status && r'.evidence == r.evidence)
    decreases |run|
  {
    if run != [] {
      RankStep(s, run[0]);
      StatusOnlyAdvances(Next(s, run[0]), run[1..]);
    }
  }

  /** Once a call has come back from the provider and recorded, the invocation is neither waiting nor running. */
  lemma RecordingLeavesRunning(s: System, run: seq<Event>, c: nat, later: seq<Event>)
    requires Initial(s) && Legal(s, run) && Enabled(Run(s, run), Record(c))
    requires Legal(Next(Run(s, run), Record(c)), later)
    ensures Run(Next(Run(s, run), Record(c)), later).rows.status !in {PendingApproval, Running}
  {
    InvFromStart(s, run);
    InvStep(Run(s, run), Record(c), s.rows.Action());
    StatusOnlyAdvances(Next(Run(s, run), Record(c)), later);
  }

  // ----- A running invocation nobody is working on -----

  ghost predicate OutOfReach(s: System) {
    && s.rows.status == Running
    && s.rows.review != ApprovalPending
    && s.rows.claim == None
    && s.workers == map[]
    && forall c :: c in s.callers ==> s.callers[c].Entered? || s.callers[c].Done?
  }

  lemma {:induction false} OutOfReachRun(s: System, run: seq<Event>)
    requires OutOfReach(s) && Legal(s, run)
    ensures OutOfReach(Run(s, run))
    decreases |run|
  {
    if run != [] {
      OutOfReachRun(Next(s, run[0]), run[1..]);
    }
  }

  /** One further call freezes a running invocation, and does not reach the provider. */
  lemma OneMoreCallFreezes(s: System, t: System, c: nat)
    requires Leads(s, t) && t.rows.status == Running && t.rows.review == ApprovalPending && c !in t.callers
    ensures Leads(s, t.(rows := t.rows.(status := ReconciliationRequired, claim := None),
                        callers := t.callers[c := Done(false, EffectUnknown(ReconciliationRequired))]))
  {
    var t1 := Next(t, Enter(c, t.rows.Action(), true));
    LeadsOn(s, t, Enter(c, t.rows.Action(), true));
    var t2 := Next(t1, Read(c, true, true));
    LeadsOn(s, t1, Read(c, true, true));
    var t3 := Next(t2, FreezeRunning(c));
    LeadsOn(s, t2, FreezeRunning(c));
    assert t3.callers == t.callers[c := Done(false, EffectUnknown(ReconciliationRequired))];
  }

  /** After a crash, a running invocation can still be resolved exactly while its review awaits approval: a
      review that was rejected, or edited, meanwhile leaves it running for good. */
  lemma CrashedRunRecoversExactly(s: System, run: seq<Event>)
    requires Initial(s) && Legal(s, run)
    requires var t := Run(s, run); t.rows.status == Running && t.callers == map[] && t.workers == map[]
    ensures var t := Run(s, run);
      (exists u :: Leads(t, u) && u.rows.status != Running) <==> t.rows.review == ApprovalPending
  {
    var t := Run(s, run);
    InvFromStart(s, run);
    if t.rows.review == ApprovalPending {
      LeadsToItself(t);
      OneMoreCallFreezes(t, t, 0);
    } else {
      forall u | Leads(t, u) ensures u.rows.status == Running {
        var later :| Legal(t, later) && Run(t, later) == u;
        OutOfReachRun(t, later);
      }
    }
  }

  // ----- An uncertain invocation -----

  /** Whether a claim can still succeed, once the account is connected. */
  predicate Settleable(rows: Rows) {
    rows.review == ApprovalPending && !rows.quarantined && rows.generation == rows.frozen
  }

  ghost predicate Unresolvable(s: System) {
    && s.rows.status == ReconciliationRequired && s.rows.frozen <= s.rows.generation
    && (s.rows.quarantined ==> s.rows.claim.None?)
    && !Settleable(s.rows)
  }

  lemma {:induction false} UnresolvableRun(s: System, run: seq<Event>)
    requires Unresolvable(s) && Legal(s, run)
    ensures Unresolvable(Run(s, run))
    decreases |run|
  {
    if run != [] {
      UnresolvableRun(Next(s, run[0]), run[1..]);
    }
  }

  /** The reconciler can record a verdict, and it is the one the remote state supports. */
  lemma ReconcilerSettles(s: System, t: System, w: nat, receipt: Receipt)
    requires Leads(s, t) && t.rows.status == ReconciliationRequired && Settleable(t.rows) && t.rows.bound
    requires t.rows.claim == None && w !in t.workers
    requires receipt.matches && receipt.reconciled
    ensures exists u :: Leads(s, u) && u.callers == t.callers && u.effects == t.effects
                        && u.rows.status == (if t.effects > 0 then Succeeded else Failed)
  {
    var answer := if t.effects > 0 then FoundApplied(receipt) else FoundNothing;
    LeadsOn(s, t, AccountChange(true, false));
    var t1 := Next(t, AccountChange(true, false));
    LeadsOn(s, t1, Claim(w));
    var t2 := Next(t1, Claim(w));
    LeadsOn(s, t2, Ask(w, answer));
    var t3 := Next(t2, Ask(w, answer));
    LeadsOn(s, t3, Settle(w));
  }

  /** An uncertain invocation can still be settled exactly while its review awaits approval, no sweep has set
      it aside, and the account has kept the generation it was prepared for. */
  lemma UncertainSettlesExactly(s: System, run: seq<Event>)
    requires Initial(s) && Legal(s, run) && Run(s, run).rows.status == ReconciliationRequired
    ensures var t := Run(s, run);
      (exists u :: Leads(t, u) && u.rows.status in {Succeeded, Failed}) <==> Settleable(t.rows)
  {
    var t := Run(s, run);
    InvFromStart(s, run);
    if Settleable(t.rows) {
      LeadsToItself(t);
      LeadsOn(t, t, Crash);
      ReconcilerSettles(t, Next(t, Crash), 0, Receipt(true, true, ""));
    } else {
      forall u | Leads(t, u) ensures u.rows.status !in {Succeeded, Failed} {
        var later :| Legal(t, later) && Run(t, later) == u;
        UnresolvableRun(t, later);
      }
    }
  }

  /** One invocation frozen after its provider call, with nobody working on it. */
  lemma OneCallFrozen(s: System) returns (t: System)
    requires Initial(s) && s.rows.connected
    ensures Leads(s, t) && t.callers == map[0 := Done(true, EffectUnknown(ReconciliationRequired))] && t.workers == map[]
    ensures t.effects == 1 && t.rows == s.rows.(status := ReconciliationRequired, grant := Consumed)
  {
    var t1 := OneCallPermitted(s);
    LeadsOn(s, t1, CallProvider(0, Uncertain, true));
    var t2 := Next(t1, CallProvider(0, Uncertain, true));
    LeadsOn(s, t2, Record(0));
    t := Next(t2, Record(0));
  }

  /** A sweep that finds the account out of order sets the invocation aside for good, although its review
      still awaits approval and the account recovers at once. */
  lemma SetAsideForGood(s: System)
    requires Initial(s) && s.rows.connected
    ensures exists t :: (
      && Leads(s, t) && t.rows.status == ReconciliationRequired && t.rows.review == ApprovalPending && t.rows.Ready()
      && forall u :: Leads(t, u) ==> u.rows.status == ReconciliationRequired)
  {
    var t1 := OneCallFrozen(s);
    LeadsOn(s, t1, AccountChange(false, false));
    var t2 := Next(t1, AccountChange(false, false));
    LeadsOn(s, t2, Claim(0));
    var t3 := Next(t2, Claim(0));
    LeadsOn(s, t3, AccountChange(true, false));
    var t := Next(t3, AccountChange(true, false));
    forall u | Leads(t, u) ensures u.rows.status == ReconciliationRequired {
      var later :| Legal(t, later) && Run(t, later) == u;
      UnresolvableRun(t, later);
    }
  }

  /** An account that was disconnected, revoked or reconnected with other credentials never settles the
      uncertain changes of its earlier generation, even before any sweep looks at them. */
  lemma NewGenerationForGood(s: System)
    requires Initial(s) && s.rows.connected
    ensures exists t :: (
      && Leads(s, t) && t.rows.status == ReconciliationRequired && t.rows.review == ApprovalPending
      && t.rows.connected && !t.rows.quarantined
      && forall u :: Leads(t, u) ==> u.rows.status == ReconciliationRequired)
  {
    var t1 := OneCallFrozen(s);
    LeadsOn(s, t1, AccountChange(true, true));
    var t := Next(t1, AccountChange(true, true));
    forall u | Leads(t, u) ensures u.rows.status == ReconciliationRequired {
      var later :| Legal(t, later) && Run(t, later) == u;
      UnresolvableRun(t, later);
    }
  }

  // ----- "Not applied" -----

  ghost predicate FailedQuiet(s: System) {
    && s.rows.status == Failed && s.effects == 0
    && forall c :: c in s.callers ==> !s.callers[c].Permitted?
  }

  lemma {:induction false} FailedQuietRun(s: System, run: seq<Event>)
    requires FailedQuiet(s) && Legal(s, run)
    ensures FailedQuiet(Run(s, run))
    decreases |run|
  {
    if run != [] {
      FailedQuietRun(Next(s, run[0]), run[1..]);
    }
  }

  /** An invocation recorded as not applied stays unapplied in every continuation exactly when the change has
      not been made yet and no call still holds a permission to make it. */
  lemma NotAppliedIsFinalExactly(s: System, run: seq<Event>)
    requires Initial(s) && Legal(s, run) && Run(s, run).rows.status == Failed
    ensures var t := Run(s, run);
      (forall u :: Leads(t, u) ==> u.effects == 0) <==> t.effects == 0 && Holders(t) == {}
  {
    var t := Run(s, run);
    LeadsToItself(t);
    if t.effects == 0 && Holders(t) == {} {
      forall u | Leads(t, u) ensures u.effects == 0 {
        var later :| Legal(t, later) && Run(t, later) == u;
        assert forall c :: c in t.callers && t.callers[c].Permitted? ==> c in Holders(t);
        FailedQuietRun(t, later);
      }
    } else if t.effects == 0 {
      var c :| c in Holders(t);
      LeadsOn(t, t, CallProvider(c, Uncertain, true));
    }
  }

  /** One call, approved and about to reach the provider. */
  lemma OneCallPermitted(s: System) returns (t: System)
    requires Initial(s) && s.rows.connected
    ensures Leads(s, t) && t.callers == map[0 := Permitted(s.rows.Action())] && t.workers == map[]
    ensures t.effects == 0 && t.rows == s.rows.(status := Running, grant := Consumed)
  {
    var exact := s.rows.Action();
    LeadsToItself(s);
    LeadsOn(s, s, Enter(0, exact, true));
    var s1 := Next(s, Enter(0, exact, true));
    LeadsOn(s, s1, Read(0, true, true));
    var s2 := Next(s1, Read(0, true, true));
    LeadsOn(s, s2, ApproveStart(0));
    t := Next(s2, ApproveStart(0));
  }

  /** Frozen by a second call while the first one holds its permission, an invocation is recorded as not
      applied and applied afterwards. */
  lemma FrozenCallAppliesAfterNotApplied(s: System)
    requires Initial(s) && s.rows.connected
    ensures exists u :: Leads(s, u) && u.rows.status == Failed && u.effects == 1
  {
    var t := OneCallPermitted(s);
    OneMoreCallFreezes(s, t, 1);
    var t1 := t.(rows := t.rows.(status := ReconciliationRequired, claim := None),
                 callers := t.callers[1 := Done(false, EffectUnknown(ReconciliationRequired))]);
    ReconcilerSettles(s, t1, 0, Receipt(true, true, ""));
    var t2 :| Leads(s, t2) && t2.callers == t1.callers && t2.effects == 0 && t2.rows.status == Failed;
    LeadsOn(s, t2, CallProvider(0, Uncertain, true));
  }
}
