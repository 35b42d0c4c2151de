// The kernel's own condition for queueing a parent's synthesis, against the desktop's.
module SynthesisGate {
  import opened Common
  import opened ExpertTeam
  import opened ExpertLatest

  function ChildrenOf(records: seq<Record>, parent: nat): (children: seq<Record>)
    ensures forall c :: c in children <==> c in records && ChildOf(c, parent)
  {
    if records == [] then []
    else
      var last := |records| - 1;
      assert records == records[..last] + [records[last]];
      ChildrenOf(records[..last], parent) + if ChildOf(records[last], parent) then [records[last]] else []
  }

  /** The checks of `queue_parent_agent_synthesis` on the children: sorted by start, one kind only, and for a
      contracted team the first highest attempt of each key has passed. */
  predicate KernelChildrenReady(records: seq<Record>, parent: nat) {
    var children := SortByStart(ChildrenOf(records, parent));
    if exists c :: c in children && c.contract.Some? then
      (forall c :: c in children ==> c.contract.Some?) && AllPassed(LatestAttempts(children, parent))
    else children != [] && forall c :: c in children ==> Terminal(c.status)
  }

  predicate Mixed(records: seq<Record>, parent: nat) {
    && (exists c :: c in records && ChildOf(c, parent) && c.contract.Some?)
    && (exists c :: c in records && ChildOf(c, parent) && c.contract.None?)
  }

  lemma TwoPlaces(s: seq<Record>, r: Record) returns (i: nat, j: nat)
    requires multiset(s)[r] >= 2
    ensures i < j < |s| && s[i] == r && s[j] == r
  {
    i :| i < |s| && s[i] == r;
    assert s == s[..i] + [r] + s[i + 1..];
    assert multiset(s[..i])[r] + multiset(s[i + 1..])[r] >= 1;
    if r in s[..i] {
      var k :| 0 <= k < i && s[k] == r;
      i, j := k, i;
    } else {
      var k :| 0 <= k < |s[i + 1..]| && s[i + 1..][k] == r;
      j := i + 1 + k;
    }
  }

  lemma TwoCopies(s: seq<Record>, i: nat, j: nat)
    requires i < j < |s| && s[i] == s[j]
    ensures multiset(s)[s[i]] >= 2
  {
    assert s == s[..j] + s[j..];
    assert s[..j][i] == s[i] && s[j..][0] == s[j];
    assert s[i] in multiset(s[..j]) && s[i] in multiset(s[j..]);
  }

  lemma AttemptsDifferWithin(xs: seq<Record>, ys: seq<Record>, parent: nat)
    requires AttemptsDiffer(xs, parent) && multiset(ys) <= multiset(xs)
    ensures AttemptsDiffer(ys, parent)
  {
    forall i, j | 0 <= i < j < |ys| && Mine(ys[i], parent) && Mine(ys[j], parent) && KeyOf(ys[i]) == KeyOf(ys[j])
      ensures ys[i].contract.value.attempt != ys[j].contract.value.attempt
    {
      if ys[i] == ys[j] {
        TwoCopies(ys, i, j);
        var p, q := TwoPlaces(xs, ys[i]);
      } else {
        assert ys[i] in multiset(ys) && ys[j] in multiset(ys);
        var p :| 0 <= p < |xs| && xs[p] == ys[i];
        var q :| 0 <= q < |xs| && xs[q] == ys[j];
      }
    }
  }

  lemma {:induction false} ChildrenWithin(records: seq<Record>, parent: nat)
    ensures multiset(ChildrenOf(records, parent)) <= multiset(records)
  {
    if records != [] {
      var last := |records| - 1;
      assert records == records[..last] + [records[last]];
      ChildrenWithin(records[..last], parent);
    }
  }

  lemma {:induction false} LatestOfChildren(records: seq<Record>, parent: nat)
    ensures LatestAttempts(ChildrenOf(records, parent), parent) == LatestAttempts(records, parent)
  {
    if records != [] {
      var last := |records| - 1;
      var before := ChildrenOf(records[..last], parent);
      LatestOfChildren(records[..last], parent);
      if ChildOf(records[last], parent) {
        assert (before + [records[last]])[..|before|] == before;
      } else {
        assert ChildrenOf(records, parent) == before;
      }
    }
  }

  lemma SortedChildren(records: seq<Record>, parent: nat)
    requires AttemptsDiffer(records, parent)
    ensures var children := SortByStart(ChildrenOf(records, parent));
      && (forall c :: c in children <==> c in records && ChildOf(c, parent))
      && (forall c :: c in LatestAttempts(children, parent) <==> c in LatestAttempts(records, parent))
  {
    var children := ChildrenOf(records, parent);
    var sorted := SortByStart(children);
    ChildrenWithin(records, parent);
    AttemptsDifferWithin(records, children, parent);
    AttemptsDifferWithin(children, sorted, parent);
    LatestIgnoresOrder(children, sorted, parent);
    LatestOfChildren(records, parent);
    assert forall c :: c in sorted <==> c in multiset(sorted);
    assert forall c :: c in children <==> c in multiset(children);
  }

  lemma SameEmptiness(a: seq<Record>, b: seq<Record>)
    requires forall c :: c in a <==> c in b
    ensures a == [] <==> b == []
  {
    if a != [] {
      assert a[0] in b;
    }
    if b != [] {
      assert b[0] in a;
    }
  }

  predicate AllPassed(latest: seq<Record>) {
    latest != [] && (forall c :: c in latest ==> Terminal(c.status)) && forall c :: c in latest ==> Passed(c)
  }

  lemma SameVerdict(latest: seq<Record>, mine: seq<Record>)
    requires forall c :: c in latest <==> c in mine
    ensures AllPassed(latest) <==> mine != [] && forall c :: c in mine ==> Passed(c)
  {
    SameEmptiness(latest, mine);
  }

  lemma MixedExactly(records: seq<Record>, parent: nat, children: seq<Record>)
    requires forall c :: c in children <==> c in records && ChildOf(c, parent)
    requires exists c :: c in records && ChildOf(c, parent) && c.contract.Some?
    ensures Mixed(records, parent) <==> !(forall c :: c in children ==> c.contract.Some?)
    ensures exists c :: c in children && c.contract.Some?
  {
    var c :| c in records && ChildOf(c, parent) && c.contract.Some?;
    assert c in children;
  }

  lemma AcceptsTeam(records: seq<Record>, parent: nat)
    requires AttemptsDiffer(records, parent)
    requires exists c :: c in records && ChildOf(c, parent) && c.contract.Some?
    ensures KernelChildrenReady(records, parent) <==> CanSynthesize(records, parent) && !Mixed(records, parent)
  {
    var children := SortByStart(ChildrenOf(records, parent));
    SortedChildren(records, parent);
    MixedExactly(records, parent, children);
    SameVerdict(LatestAttempts(children, parent), LatestAttempts(records, parent));
  }

  lemma AcceptsLegacy(records: seq<Record>, parent: nat)
    requires AttemptsDiffer(records, parent)
    requires forall c :: c in records && ChildOf(c, parent) ==> c.contract.None?
    ensures KernelChildrenReady(records, parent) <==> CanSynthesize(records, parent)
  {
    var children := SortByStart(ChildrenOf(records, parent));
    SortedChildren(records, parent);
    if children != [] {
      assert children[0] in children;
    }
  }

  /** With differing attempt numbers the kernel accepts the children exactly when the desktop would queue the
      parent and no legacy child is mixed in. */
  lemma KernelAcceptsExactly(records: seq<Record>, parent: nat)
    requires AttemptsDiffer(records, parent)
    ensures KernelChildrenReady(records, parent) <==> CanSynthesize(records, parent) && !Mixed(records, parent)
  {
    if exists c :: c in records && ChildOf(c, parent) && c.contract.Some? {
      AcceptsTeam(records, parent);
    } else {
      AcceptsLegacy(records, parent);
    }
  }

  // ----- The whole gate -----

  datatype Answer = QueueNow | AlreadyQueued | GateRefused

  function FindRun(records: seq<Record>, id: nat): (found: Option<Record>)
    ensures found.Some? ==> found.value in records && found.value.id == id
    ensures found.None? ==> forall r :: r in records ==> r.id != id
  {
    if records == [] then None
    else if records[0].id == id then Some(records[0])
    else FindRun(records[1..], id)
  }

  predicate Contracted(records: seq<Record>, parent: nat) {
    exists c :: c in records && ChildOf(c, parent) && c.contract.Some?
  }

  /** `queue_parent_agent_synthesis`; `merges` says whether the production and the review of a contracted team
      match each other and the staged file. */
  function QueueSynthesis(records: seq<Record>, parent: nat, merges: bool): Answer {
    var found := FindRun(records, parent);
    if found.None? || found.value.role != ParentRole || !KernelChildrenReady(records, parent) then GateRefused
    else if found.value.status == Queued then AlreadyQueued
    else if found.value.status != Blocked || (Contracted(records, parent) && !merges) then GateRefused
    else QueueNow
  }

  /** What the desktop asks for: a parent that waits for synthesis and whose team may be synthesized. The kernel
      queues it exactly when no legacy child is mixed in and a contracted team's production is reviewed. */
  lemma DesktopRequestQueuesExactly(records: seq<Record>, parent: nat, merges: bool)
    requires AttemptsDiffer(records, parent)
    requires FindRun(records, parent).Some? && WaitsForSynthesis(FindRun(records, parent).value, records)
    ensures QueueSynthesis(records, parent, merges) == QueueNow
      <==> CanSynthesize(records, parent) && !Mixed(records, parent) && (Contracted(records, parent) ==> merges)
    ensures QueueSynthesis(records, parent, merges) != AlreadyQueued
  {
    KernelAcceptsExactly(records, parent);
  }
}
