// What every run of approve-and-run keeps: how often the provider is called, what each call may
// tell its user, and which invocations can still be resolved.
module ApproveAndRunSafety {
  import opened Common
  import opened ConnectedStore
  import opened ApproveAndRun

  /** What the store and one call agree on, `exact` being the revision put up for approval. */
  ghost predicate CallerInv(s: System, exact: ActionRevision, caller: Caller) {
    match caller
    case Entered(_) => true
    case Seen(_, _) => true
    case Permitted(requested) => requested == exact && s.rows.status != PendingApproval
    case Returned(requested, outcome) =>
      requested == exact && s.rows.status != PendingApproval && (outcome.Applied? ==> s.effects > 0)
    case Done(called, reply) =>
      && (called ==> reply != NothingSent && s.rows.status !in {PendingApproval, Running})
      && (reply.KnownApplied? ==>
            called && s.rows.status == Succeeded && s.rows.evidence == reply.evidence)
      && (reply.EffectUnknown? ==>
            reply.status == ReconciliationRequired && s.rows.status !in {PendingApproval, Running})
  }

  ghost predicate StoreInv(s: System, exact: ActionRevision) {
    && (s.rows.status == PendingApproval <==> s.rows.grant != Consumed)
    && (s.rows.review == ApprovalPending ==>
          s.rows.Action() == exact && s.rows.bound && s.rows.status !in {Succeeded, Failed})
    && s.rows.frozen <= s.rows.generation
    && (s.rows.quarantined ==> s.rows.status == ReconciliationRequired && s.rows.claim.None?)
    && (s.rows.status == Succeeded <==> s.rows.evidence.Some?)
    && (s.rows.status == Succeeded ==> s.effects > 0)
    && (s.rows.claim.Some? ==> s.rows.status == ReconciliationRequired)
  }

  ghost predicate CountInv(s: System) {
    && s.calls + |Holders(s)| <= s.permits
    && s.permits == s.joins + (if s.rows.status == PendingApproval then 0 else 1)
    && (s.rows.status == PendingApproval ==> s.joins == 0)
    && s.effects <= s.calls
  }

  ghost predicate Inv(s: System, exact: ActionRevision) {
    && StoreInv(s, exact)
    && CountInv(s)
    && (forall c :: c in s.callers ==> CallerInv(s, exact, s.callers[c]))
    && (forall w :: w in s.workers && s.workers[w].Answered? && s.workers[w].answer.FoundApplied? ==> s.effects > 0)
  }

  lemma HoldersAfter(s: System, t: System, c: nat)
    requires c in t.callers && t.callers == s.callers[c := t.callers[c]]
    ensures t.callers[c].Permitted? ==> Holders(t) == Holders(s) + {c}
    ensures !t.callers[c].Permitted? ==> Holders(t) == Holders(s) - {c}
  {
  }

  /** The caller an event moves, if it moves one. */
  function Mover(e: Event): Option<nat> {
    match e
    case Enter(c, _, _) => Some(c)
    case Read(c, _, _) => Some(c)
    case FreezeRunning(c) => Some(c)
    case ApproveStart(c) => Some(c)
    case FindNoProvider(c) => Some(c)
    case CallProvider(c, _, _) => Some(c)
    case Record(c) => Some(c)
    case _ => None
  }

  lemma OnlyMoverMoves(s: System, e: Event)
    requires Enabled(s, e)
    ensures var t := Next(s, e);
      match Mover(e)
      case Some(c) => c in t.callers && t.callers == s.callers[c := t.callers[c]]
      case None => t.callers == (if e.Crash? then map[] else s.callers) && t.calls == s.calls && t.permits == s.permits
  {
  }

  lemma MoverCounts(s: System, e: Event)
    requires Enabled(s, e) && Mover(e).Some?
    ensures var t, c := Next(s, e), Mover(e).value;
      var before := if c in s.callers && s.callers[c].Permitted? then 1 else 0;
      var after := if t.callers[c].Permitted? then 1 else 0;
      t.calls + after - t.permits <= s.calls + before - s.permits
  {
  }

  lemma HoldersStep(s: System, e: Event)
    requires Enabled(s, e)
    ensures var t := Next(s, e); t.calls + |Holders(t)| - t.permits <= s.calls + |Holders(s)| - s.permits
  {
    var t := Next(s, e);
    OnlyMoverMoves(s, e);
    if Mover(e).Some? {
      MoverCounts(s, e);
      HoldersAfter(s, t, Mover(e).value);
    } else if e.Crash? {
      assert Holders(t) == {};
    } else {
      assert Holders(t) == Holders(s);
    }
  }

  /** Only an approval takes an invocation out of `PendingApproval`, and nothing puts one back. */
  lemma PendingStep(s: System, e: Event)
    requires Enabled(s, e)
    ensures var t := Next(s, e);
      t.permits - t.joins - (if t.rows.status == PendingApproval then 0 else 1)
        == s.permits - s.joins - (if s.rows.status == PendingApproval then 0 else 1)
    ensures var t := Next(s, e); t.rows.status == PendingApproval ==> s.rows.status == PendingApproval && t.joins == s.joins
  {
  }

  lemma StoreStep(s: System, e: Event, exact: ActionRevision)
    requires Inv(s, exact) && Enabled(s, e)
    ensures StoreInv(Next(s, e), exact)
  {
    match e
    case Record(c) => assert CallerInv(s, exact, s.callers[c]);
    case ApproveStart(c) => assert CallerInv(s, exact, s.callers[c]);
    case FreezeRunning(c) => assert CallerInv(s, exact, s.callers[c]);
    case _ =>
  }

  lemma CallersStep(s: System, e: Event, exact: ActionRevision)
    requires Inv(s, exact) && Enabled(s, e)
    ensures forall c :: c in Next(s, e).callers ==> CallerInv(Next(s, e), exact, Next(s, e).callers[c])
  {
  }

  lemma InvStep(s: System, e: Event, exact: ActionRevision)
    requires Inv(s, exact) && Enabled(s, e)
    ensures Inv(Next(s, e), exact)
  {
    StoreStep(s, e, exact);
    CallersStep(s, e, exact);
    HoldersStep(s, e);
    PendingStep(s, e);
  }

  lemma {:induction false} InvRun(s: System, run: seq<Event>, exact: ActionRevision)
    requires Inv(s, exact) && Legal(s, run)
    ensures Inv(Run(s, run), exact)
    decreases |run|
  {
    if run != [] {
      InvStep(s, run[0], exact);
      InvRun(Next(s, run[0]), run[1..], exact);
    }
  }

  lemma InvFromStart(s: System, run: seq<Event>)
    requires Initial(s) && Legal(s, run)
    ensures Inv(Run(s, run), s.rows.Action())
  {
    assert Holders(s) == {};
    InvRun(s, run, s.rows.Action());
  }

  // ----- How often the provider is called -----

  /** An approval that is accepted although the invocation is already running. */
  ghost predicate JoinsRunning(s: System, e: Event)
    requires Enabled(s, e)
  {
    e.ApproveStart? && s.rows.status == Running && Invocable(s.rows, s.callers[e.c].requested)
  }

  ghost predicate NoJoin(s: System, run: seq<Event>)
    requires Legal(s, run)
    decreases |run|
  {
    run == [] || (!JoinsRunning(s, run[0]) && NoJoin(Next(s, run[0]), run[1..]))
  }

  lemma {:induction false} JoinsCount(s: System, run: seq<Event>)
    requires Legal(s, run)
    ensures s.joins <= Run(s, run).joins
    ensures NoJoin(s, run) <==> Run(s, run).joins == s.joins
    decreases |run|
  {
    if run != [] {
      JoinsCount(Next(s, run[0]), run[1..]);
    }
  }

  /** At most one permission to call is ever handed out exactly when no approval joins a running invocation. */
  lemma AtMostOnceExactly(s: System, run: seq<Event>)
    requires Initial(s) && Legal(s, run)
    ensures Run(s, run).permits <= 1 <==> NoJoin(s, run)
    ensures Run(s, run).effects <= Run(s, run).calls <= Run(s, run).permits
  {
    InvFromStart(s, run);
    JoinsCount(s, run);
  }

  /** Every permission handed out can still become a call, so the bound above is tight. */
  lemma {:induction false} EveryPermitCanCall(s: System, t: System)
    requires Leads(s, t)
    ensures exists u :: Leads(s, u) && u.calls == t.calls + |Holders(t)|
    decreases |Holders(t)|
  {
    if Holders(t) != {} {
      var c :| c in Holders(t);
      var e := CallProvider(c, Uncertain, true);
      HoldersAfter(t, Next(t, e), c);
      LeadsOn(s, t, e);
      EveryPermitCanCall(s, Next(t, e));
    }
  }

  /** Two calls that both read the waiting invocation before either approves both reach the provider. */
  lemma TwoOverlappingCallsApplyTwice(s: System)
    requires Initial(s) && s.rows.connected
    ensures exists t :: Leads(s, t) && t.calls == 2 && t.effects == 2
  {
    var exact := s.rows.Action();
    LeadsToItself(s);
    LeadsOn(s, s, Enter(0, exact, true));
    var s1 := Next(s, Enter(0, exact, true));
    LeadsOn(s, s1, Enter(1, exact, true));
    var s2 := Next(s1, Enter(1, exact, true));
    LeadsOn(s, s2, Read(0, true, true));
    var s3 := Next(s2, Read(0, true, true));
    LeadsOn(s, s3, Read(1, true, true));
    var s4 := Next(s3, Read(1, true, true));
    LeadsOn(s, s4, ApproveStart(0));
    var s5 := Next(s4, ApproveStart(0));
    LeadsOn(s, s5, ApproveStart(1));
    var s6 := Next(s5, ApproveStart(1));
    LeadsOn(s, s6, CallProvider(0, Uncertain, true));
    var s7 := Next(s6, CallProvider(0, Uncertain, true));
    LeadsOn(s, s7, CallProvider(1, Uncertain, true));
  }

  ghost predicate Live(caller: Caller) {
    !caller.Done?
  }

  /** No call starts while another one is still under way. */
  ghost predicate Serial(s: System, run: seq<Event>)
    requires Legal(s, run)
    decreases |run|
  {
    run == []
    || ((run[0].Enter? ==> forall c :: c in s.callers ==> !Live(s.callers[c]))
        && Serial(Next(s, run[0]), run[1..]))
  }

  ghost predicate SerialInv(s: System) {
    && (forall c, d :: c in s.callers && d in s.callers && Live(s.callers[c]) && Live(s.callers[d]) ==> c == d)
    && (forall c :: c in s.callers && s.callers[c].Seen? && s.callers[c].status != Running ==> s.rows.status != Running)
  }

  lemma {:induction false} SerialRun(s: System, run: seq<Event>)
    requires SerialInv(s) && Legal(s, run) && Serial(s, run)
    ensures NoJoin(s, run)
    decreases |run|
  {
    if run != [] {
      SerialRun(Next(s, run[0]), run[1..]);
    }
  }

  /** Calls that never overlap, with any crashes between and inside them, reach the provider at most once. */
  lemma SerialCallsApplyAtMostOnce(s: System, run: seq<Event>)
    requires Initial(s) && Legal(s, run) && Serial(s, run)
    ensures Run(s, run).calls <= 1 && Run(s, run).effects <= 1
  {
    SerialRun(s, run);
    AtMostOnceExactly(s, run);
  }

  /** Each call rests on an approval of the revision put up for it, and on the one-shot grant it consumed. */
  lemma EveryCallHeldTheExactRevision(s: System, run: seq<Event>, c: nat, outcome: Outcome, performed: bool)
    requires Initial(s) && Legal(s, run) && Enabled(Run(s, run), CallProvider(c, outcome, performed))
    ensures Run(s, run).callers[c].requested == s.rows.Action()
    ensures Run(s, run).rows.grant == Consumed
  {
    InvFromStart(s, run);
  }

  // ----- What a call may tell its user -----

  lemma KnownAppliedIsTrue(s: System, run: seq<Event>, c: nat)
    requires Initial(s) && Legal(s, run)
    requires var t := Run(s, run); c in t.callers && t.callers[c].Done? && t.callers[c].reply.KnownApplied?
    ensures var t := Run(s, run);
      t.effects > 0 && t.rows.status == Succeeded && t.rows.evidence.Some?
      && t.callers[c].reply.evidence == t.rows.evidence
  {
    InvFromStart(s, run);
  }

  lemma PendingMeansUntouched(s: System, run: seq<Event>)
    requires Initial(s) && Legal(s, run) && Run(s, run).rows.status == PendingApproval
    ensures Run(s, run).calls == 0 && Run(s, run).effects == 0 && Run(s, run).permits == 0
  {
    InvFromStart(s, run);
  }
}
