// How many provider calls are still to come: the exact condition, read off the state a history has reached,
// for no continuation ever to make a second call.
module ApproveAndRunCalls {
  import opened Common
  import opened ConnectedStore
  import opened ApproveAndRun
  import opened ApproveAndRunSafety

  /** The waiting invocation can still be approved: the grant is open, and the account is the one the change was
      prepared for, though it may have to be connected again first. */
  predicate Approvable(rows: Rows) {
    rows.review == ApprovalPending && rows.grant in {Undecided, Grant.Approved} && rows.generation == rows.frozen
  }

  /** A call that holds a permission, or would be given one on top of the running invocation because it read the
      invocation before that started. */
  predicate MayCall(rows: Rows, caller: Caller) {
    || caller.Permitted?
    || (caller.Seen? && caller.status != Running && rows.status == Running && Invocable(rows, caller.requested))
  }

  ghost function Reachers(s: System): set<nat> {
    set c | c in s.callers && MayCall(s.rows, s.callers[c])
  }

  ghost function Potential(s: System): nat {
    s.calls + |Reachers(s)|
  }

  /** Once the invocation has started, no step makes a call one that may reach the provider. */
  lemma MayCallStep(s: System, e: Event, caller: Caller)
    requires Enabled(s, e) && s.rows.status != PendingApproval && MayCall(Next(s, e).rows, caller)
    ensures MayCall(s.rows, caller)
  {
  }

  lemma MoverMayCall(s: System, e: Event)
    requires Enabled(s, e) && s.rows.status != PendingApproval && Mover(e).Some?
    ensures var t, c := Next(s, e), Mover(e).value;
      c in t.callers
      && t.calls + (if MayCall(t.rows, t.callers[c]) then 1 else 0)
         <= s.calls + if c in s.callers && MayCall(s.rows, s.callers[c]) then 1 else 0
  {
  }

  /** One call moved at most; the others may reach the provider only if they could before. */
  ghost predicate OneMoved(s: System, t: System, mover: Option<nat>) {
    match mover
    case Some(c) =>
      && c in t.callers && t.callers == s.callers[c := t.callers[c]]
      && (t.calls + (if MayCall(t.rows, t.callers[c]) then 1 else 0)
          <= s.calls + if c in s.callers && MayCall(s.rows, s.callers[c]) then 1 else 0)
    case None => (t.callers == s.callers || t.callers == map[]) && t.calls == s.calls
  }

  lemma ReachersShrink(s: System, t: System, mover: Option<nat>)
    requires OneMoved(s, t, mover)
    requires forall caller :: MayCall(t.rows, caller) ==> MayCall(s.rows, caller)
    ensures Potential(t) <= Potential(s)
  {
    forall d | d in Reachers(t) && mover != Some(d) ensures d in Reachers(s) {
      assert MayCall(s.rows, s.callers[d]);
    }
    if mover.Some? {
      ShrinksBesides(Reachers(t), Reachers(s), mover.value);
    } else {
      Shrinks(Reachers(t), Reachers(s));
    }
  }

  lemma ShrinksBesides(a: set<nat>, b: set<nat>, c: nat)
    requires forall d :: d in a && d != c ==> d in b
    ensures |a| - (if c in a then 1 else 0) <= |b| - (if c in b then 1 else 0)
  {
    assert a == (a - {c}) + (if c in a then {c} else {});
    assert b == (b - {c}) + (if c in b then {c} else {});
    Shrinks(a - {c}, b - {c});
  }

  lemma PotentialStep(s: System, e: Event)
    requires Enabled(s, e) && s.rows.status != PendingApproval
    ensures Potential(Next(s, e)) <= Potential(s)
  {
    OneMoves(s, e);
    forall caller | MayCall(Next(s, e).rows, caller) ensures MayCall(s.rows, caller) {
      MayCallStep(s, e, caller);
    }
    ReachersShrink(s, Next(s, e), Mover(e));
  }

  lemma OneMoves(s: System, e: Event)
    requires Enabled(s, e) && s.rows.status != PendingApproval
    ensures OneMoved(s, Next(s, e), Mover(e))
  {
    OnlyMoverMoves(s, e);
    if Mover(e).Some? {
      MoverMayCall(s, e);
    }
  }

  lemma {:induction false} Shrinks(a: set<nat>, b: set<nat>)
    requires a <= b
    ensures |a| <= |b|
  {
    assert b == a + (b - a);
  }

  lemma {:induction false} PotentialRun(s: System, run: seq<Event>)
    requires s.rows.status != PendingApproval && Legal(s, run)
    ensures Potential(Run(s, run)) <= Potential(s)
    decreases |run|
  {
    if run != [] {
      PotentialStep(s, run[0]);
      PendingStep(s, run[0]);
      PotentialRun(Next(s, run[0]), run[1..]);
    }
  }

  /** One call that may reach the provider does so, and leaves the others as they are. */
  lemma OneReacherCalls(s: System, t: System, c: nat) returns (u: System)
    requires Leads(s, t) && c in Reachers(t)
    ensures Leads(s, u) && u.calls == t.calls + 1 && Reachers(u) == Reachers(t) - {c}
  {
    var t1 := t;
    if t.callers[c].Seen? {
      LeadsOn(s, t, ApproveStart(c));
      t1 := Next(t, ApproveStart(c));
    }
    LeadsOn(s, t1, CallProvider(c, Uncertain, false));
    u := Next(t1, CallProvider(c, Uncertain, false));
    assert u.rows == t.rows && u.callers == t.callers[c := u.callers[c]];
  }

  lemma {:induction false} PotentialIsReached(s: System, t: System) returns (u: System)
    requires Leads(s, t)
    ensures Leads(s, u) && u.calls == Potential(t)
    decreases |Reachers(t)|
  {
    if Reachers(t) == {} {
      u := t;
    } else {
      var c :| c in Reachers(t);
      var t1 := OneReacherCalls(s, t, c);
      u := PotentialIsReached(s, t1);
    }
  }

  // ----- An invocation that still waits -----

  /** Two new calls read the waiting invocation, and one of them starts it. */
  lemma TwoMayCall(t: System) returns (u: System)
    requires t.rows.status == PendingApproval && Approvable(t.rows)
    ensures Leads(t, u) && Potential(u) >= 2
  {
    var exact := t.rows.Action();
    LeadsToItself(t);
    LeadsOn(t, t, AccountChange(true, false));
    var t1 := Next(t, AccountChange(true, false));
    var c := FreshCaller(t1);
    LeadsOn(t, t1, Enter(c, exact, true));
    var t2 := Next(t1, Enter(c, exact, true));
    var d := FreshCaller(t2);
    LeadsOn(t, t2, Enter(d, exact, true));
    var t3 := Next(t2, Enter(d, exact, true));
    LeadsOn(t, t3, Read(c, true, true));
    var t4 := Next(t3, Read(c, true, true));
    LeadsOn(t, t4, Read(d, true, true));
    var t5 := Next(t4, Read(d, true, true));
    LeadsOn(t, t5, ApproveStart(c));
    u := Next(t5, ApproveStart(c));
    Shrinks({c, d}, Reachers(u));
  }

  /** Refused, revoked or edited before it started. */
  ghost predicate NeverStarts(s: System, exact: ActionRevision) {
    s.rows.status == PendingApproval && !Approvable(s.rows) && Inv(s, exact)
  }

  lemma {:induction false} NeverStartsRun(s: System, run: seq<Event>, exact: ActionRevision)
    requires NeverStarts(s, exact) && Legal(s, run)
    ensures NeverStarts(Run(s, run), exact)
    decreases |run|
  {
    if run != [] {
      InvStep(s, run[0], exact);
      StaysUnapproved(s, run[0], exact);
      NeverStartsRun(Next(s, run[0]), run[1..], exact);
    }
  }

  lemma StaysUnapproved(s: System, e: Event, exact: ActionRevision)
    requires NeverStarts(s, exact) && Enabled(s, e)
    ensures Next(s, e).rows.status == PendingApproval && !Approvable(Next(s, e).rows)
  {
  }

  /** No continuation ever makes a second call exactly when, before the start, the invocation can no longer be
      approved and, after it, at most one call was made or may still reach the provider. */
  lemma AtMostOneCallExactly(s: System, run: seq<Event>)
    requires Initial(s) && Legal(s, run)
    ensures var t := Run(s, run);
      (forall u :: Leads(t, u) ==> u.calls <= 1)
      <==> if t.rows.status == PendingApproval then !Approvable(t.rows) else Potential(t) <= 1
  {
    var t, exact := Run(s, run), s.rows.Action();
    InvFromStart(s, run);
    if t.rows.status == PendingApproval && !Approvable(t.rows) {
      forall u | Leads(t, u) ensures u.calls <= 1 {
        var later :| Legal(t, later) && Run(t, later) == u;
        NeverStartsRun(t, later, exact);
      }
    } else if t.rows.status == PendingApproval {
      var u := TwoMayCall(t);
      var v := PotentialIsReached(t, u);
    } else if Potential(t) <= 1 {
      forall u | Leads(t, u) ensures u.calls <= 1 {
        var later :| Legal(t, later) && Run(t, later) == u;
        PotentialRun(t, later);
      }
    } else {
      LeadsToItself(t);
      var v := PotentialIsReached(t, t);
    }
  }
}
