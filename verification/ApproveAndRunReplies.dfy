// When "nothing was sent or changed" is true: the three places that answer it, and the exact condition for
// each to be true of every history that leads there.
module ApproveAndRunReplies {
  import opened Common
  import opened ConnectedStore
  import opened ApproveAndRun
  import opened ApproveAndRunSafety
  import opened ApproveAndRunResolution

  /** A caller whose first read answers "nothing was sent" when the registry does not support the change. */
  ghost predicate ReadMayAnswer(t: System, c: nat) {
    c in t.callers && t.callers[c].Entered? && Lookup(t.rows, t.callers[c].requested).Ok?
  }

  /** From any state whose review awaits approval a new caller reaches the point of its first read. */
  lemma NewReader(s: System, t: System) returns (u: System, c: nat)
    requires Leads(s, t) && t.rows.review == ApprovalPending
    ensures Leads(s, u) && u.rows == t.rows && u.effects == t.effects && ReadMayAnswer(u, c)
    ensures Enabled(u, Read(c, false, true)) && Next(u, Read(c, false, true)).callers[c] == Done(false, NothingSent)
  {
    c := FreshCaller(t);
    LeadsOn(s, t, Enter(c, t.rows.Action(), true));
    u := Next(t, Enter(c, t.rows.Action(), true));
  }

  /** A provider call was made and recorded nowhere: its caller died, or has not come back yet. */
  lemma AppliedWhileRunning(s: System) returns (t: System)
    requires Initial(s)
    ensures Leads(s, t) && t.rows.status == Running && t.rows.review == ApprovalPending && t.effects == 1
  {
    var s1 := Connected(s);
    var t1 := OneCallPermitted(s1);
    LeadsOn(s1, t1, CallProvider(0, Uncertain, true));
    t := Next(t1, CallProvider(0, Uncertain, true));
    LeadsThrough(s, s1, t);
  }

  lemma AppliedAndFrozen(s: System) returns (t: System)
    requires Initial(s)
    ensures Leads(s, t) && t.rows.status == ReconciliationRequired && t.rows.review == ApprovalPending && t.effects == 1
    ensures t.rows.bound && Settleable(t.rows) && t.rows.claim == None && t.workers == map[]
  {
    var s1 := Connected(s);
    t := OneCallFrozen(s1);
    LeadsThrough(s, s1, t);
  }

  lemma Connected(s: System) returns (s1: System)
    requires Initial(s)
    ensures Initial(s1) && s1.rows.connected && Leads(s, s1)
  {
    s1 := Next(s, AccountChange(true, false));
    LeadsToItself(s);
    LeadsOn(s, s, AccountChange(true, false));
  }

  /** "Nothing was sent" from the first read is true of every history that reaches it with a given status
      exactly when that status is neither running nor uncertain. No crash is needed to make it false. */
  lemma FirstReadTrueExactly(s: System, status: InvocationStatus)
    requires Initial(s)
    ensures (forall t, c :: Leads(s, t) && ReadMayAnswer(t, c) && t.rows.status == status ==> t.effects == 0)
      <==> status !in {Running, ReconciliationRequired}
  {
    if status == Running {
      var t := AppliedWhileRunning(s);
      var u, c := NewReader(s, t);
    } else if status == ReconciliationRequired {
      var t := AppliedAndFrozen(s);
      var u, c := NewReader(s, t);
    } else {
      forall t, c | Leads(s, t) && ReadMayAnswer(t, c) && t.rows.status == status
        ensures t.effects == 0
      {
        var run :| Legal(s, run) && Run(s, run) == t;
        InvFromStart(s, run);
      }
    }
  }

  /** A status the read can answer in besides those is the waiting one. */
  lemma FirstReadSeesOnly(s: System, run: seq<Event>, c: nat)
    requires Initial(s) && Legal(s, run) && ReadMayAnswer(Run(s, run), c)
    ensures Run(s, run).rows.status in {PendingApproval, Running, ReconciliationRequired}
  {
    InvFromStart(s, run);
  }

  // ----- A registry that is switched off -----

  /** A caller can be told "nothing was sent" by a registry that is off. */
  ghost predicate EntryMayAnswer(t: System) {
    exists c, requested :: Enabled(t, Enter(c, requested, false))
  }

  /** With the registry off a call answers at once, in any state; that is true of every history that reaches a
      given status exactly when the status is the waiting one. */
  lemma DisabledEntryTrueExactly(s: System, status: InvocationStatus)
    requires Initial(s)
    ensures (forall t :: Leads(s, t) && EntryMayAnswer(t) && t.rows.status == status ==> t.effects == 0)
      <==> status == PendingApproval
  {
    if status == PendingApproval {
      forall t | Leads(s, t) && t.rows.status == status
        ensures t.effects == 0
      {
        var run :| Legal(s, run) && Run(s, run) == t;
        PendingMeansUntouched(s, run);
      }
    } else {
      var t := AppliedWith(s, status);
      var c := FreshCaller(t);
      assert Enabled(t, Enter(c, t.rows.Action(), false));
    }
  }

  /** Every status but the waiting one is reached by a history that applied the change. */
  lemma AppliedWith(s: System, status: InvocationStatus) returns (t: System)
    requires Initial(s) && status != PendingApproval
    ensures Leads(s, t) && t.rows.status == status && t.effects > 0
  {
    match status
    case Running =>
      t := AppliedWhileRunning(s);
    case ReconciliationRequired =>
      t := AppliedAndFrozen(s);
    case Succeeded =>
      var t1 := AppliedAndFrozen(s);
      ReconcilerSettles(s, t1, 0, Receipt(true, true, ""));
      t :| Leads(s, t) && t.callers == t1.callers && t.effects == t1.effects && t.rows.status == Succeeded;
    case Failed =>
      var s1 := Connected(s);
      FrozenCallAppliesAfterNotApplied(s1);
      t :| Leads(s1, t) && t.rows.status == Failed && t.effects == 1;
      LeadsThrough(s, s1, t);
  }

  ghost predicate AllDisabled(run: seq<Event>) {
    forall i :: 0 <= i < |run| && run[i].Enter? ==> !run[i].enabled
  }

  lemma {:induction false} DisabledRun(s: System, run: seq<Event>)
    requires Legal(s, run) && AllDisabled(run) && forall c :: c in s.callers ==> s.callers[c].Done?
    ensures Run(s, run).calls == s.calls && Run(s, run).effects == s.effects
    decreases |run|
  {
    if run != [] {
      var next := Next(s, run[0]);
      assert run[0].Enter? ==> !run[0].enabled;
      assert forall i :: 0 <= i < |run[1..]| ==> run[1..][i] == run[i + 1];
      DisabledRun(next, run[1..]);
    }
  }

  /** While the registry stays off nothing is ever sent, so the answer is always true. */
  lemma DisabledBuildNeverCalls(s: System, run: seq<Event>)
    requires Initial(s) && Legal(s, run) && AllDisabled(run)
    ensures Run(s, run).calls == 0 && Run(s, run).effects == 0
  {
    DisabledRun(s, run);
  }

  // ----- An approved change without a provider -----

  /** A caller that finds no provider holds the only permission when no approval joined. */
  lemma MissingProviderMeansNoCall(s: System, run: seq<Event>, c: nat)
    requires Initial(s) && Legal(s, run) && NoJoin(s, run) && Enabled(Run(s, run), FindNoProvider(c))
    ensures Run(s, run).calls == 0 && Run(s, run).effects == 0 && Holders(Run(s, run)) == {c}
  {
    var t := Run(s, run);
    InvFromStart(s, run);
    JoinsCount(s, run);
    assert {c} <= Holders(t);
    assert |Holders(t) - {c}| == |Holders(t)| - 1;
  }

  /** Two calls hold permissions, and one has already called the provider. */
  lemma CalledBesideHolder(s: System) returns (t: System)
    requires Initial(s)
    ensures Leads(s, t) && t.effects == 1 && t.calls == 1 && Enabled(t, FindNoProvider(0))
  {
    var s1 := Connected(s);
    var exact := s1.rows.Action();
    LeadsToItself(s1);
    LeadsOn(s1, s1, Enter(0, exact, true));
    var t1 := Next(s1, Enter(0, exact, true));
    LeadsOn(s1, t1, Enter(1, exact, true));
    var t2 := Next(t1, Enter(1, exact, true));
    LeadsOn(s1, t2, Read(0, true, true));
    var t3 := Next(t2, Read(0, true, true));
    LeadsOn(s1, t3, Read(1, true, true));
    var t4 := Next(t3, Read(1, true, true));
    LeadsOn(s1, t4, ApproveStart(0));
    var t5 := Next(t4, ApproveStart(0));
    LeadsOn(s1, t5, ApproveStart(1));
    var t6 := Next(t5, ApproveStart(1));
    LeadsOn(s1, t6, CallProvider(1, Uncertain, true));
    t := Next(t6, CallProvider(1, Uncertain, true));
    LeadsThrough(s, s1, t);
  }

  lemma CalledBesideHolderJoined(s: System, run: seq<Event>)
    requires Initial(s) && Legal(s, run) && Run(s, run).calls == 1 && Enabled(Run(s, run), FindNoProvider(0))
    ensures !NoJoin(s, run)
  {
    if NoJoin(s, run) {
      MissingProviderMeansNoCall(s, run, 0);
    }
  }

  /** "Nothing was sent" after an approval that finds no provider is true of every history with joins, or of
      every one without, exactly for those without: joining a running invocation is what can make it false. */
  lemma MissingProviderTrueExactly(s: System, joined: bool)
    requires Initial(s)
    ensures (forall run, c :: Legal(s, run) && (NoJoin(s, run) <==> !joined) && Enabled(Run(s, run), FindNoProvider(c))
                              ==> Run(s, run).effects == 0)
      <==> !joined
  {
    if joined {
      var t := CalledBesideHolder(s);
      var run :| Legal(s, run) && Run(s, run) == t;
      CalledBesideHolderJoined(s, run);
      assert Legal(s, run) && !NoJoin(s, run) && Enabled(Run(s, run), FindNoProvider(0)) && Run(s, run).effects != 0;
    } else {
      forall run, c | Legal(s, run) && NoJoin(s, run) && Enabled(Run(s, run), FindNoProvider(c))
        ensures Run(s, run).effects == 0
      {
        MissingProviderMeansNoCall(s, run, c);
      }
    }
  }
}
