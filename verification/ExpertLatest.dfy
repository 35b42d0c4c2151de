// Which attempt counts: the fold over the records against its meaning, and the front end against the kernel.
module ExpertLatest {
  import opened Common
  import opened Text
  import opened ExpertTeam

  /** Index `j` holds the first of the highest attempts of its key. */
  ghost predicate FirstMax(records: seq<Record>, parent: nat, j: nat) {
    && j < |records| && Mine(records[j], parent)
    && forall k :: 0 <= k < |records| && Mine(records[k], parent) && KeyOf(records[k]) == KeyOf(records[j]) ==>
         records[k].contract.value.attempt < records[j].contract.value.attempt
         || (records[k].contract.value.attempt == records[j].contract.value.attempt && j <= k)
  }

  /** Where the attempt that counts for `key` stands in the records. */
  ghost function LatestIndex(records: seq<Record>, parent: nat, key: string): (found: Option<nat>)
    ensures found.Some? ==> FirstMax(records, parent, found.value) && KeyOf(records[found.value]) == Lower(key)
    ensures found.None? ==> forall r :: r in records && Mine(r, parent) ==> KeyOf(r) != Lower(key)
  {
    if records == [] then None
    else
      var last := |records| - 1;
      var before := LatestIndex(records[..last], parent, key);
      if !Mine(records[last], parent) || KeyOf(records[last]) != Lower(key) then before
      else if before.Some?
           && records[before.value].contract.value.attempt >= records[last].contract.value.attempt then before
      else Some(last)
  }

  lemma FirstMaxUnique(records: seq<Record>, parent: nat, i: nat, j: nat)
    requires FirstMax(records, parent, i) && FirstMax(records, parent, j) && KeyOf(records[i]) == KeyOf(records[j])
    ensures i == j
  {
  }

  lemma {:induction false} FindAfterPlace(latest: seq<Record>, r: Record, key: string)
    requires r.contract.Some? && forall x :: x in latest ==> x.contract.Some?
    ensures forall x :: x in Place(latest, r) ==> x.contract.Some?
    ensures var before := FindKey(latest, key);
      FindKey(Place(latest, r), key)
        == if KeyOf(r) != Lower(key) then before
           else if before.Some? && before.value.contract.value.attempt >= r.contract.value.attempt then before
           else Some(r)
  {
    PlaceMembers(latest, r);
    if latest != [] {
      FindAfterPlace(latest[1..], r, key);
    }
  }

  /** Looking a key up in the fold finds the first of its highest attempts. */
  lemma {:induction false} FindIsLatest(records: seq<Record>, parent: nat, key: string)
    ensures var at := LatestIndex(records, parent, key);
      FindKey(LatestAttempts(records, parent), key) == if at.Some? then Some(records[at.value]) else None
  {
    if records != [] {
      var last := |records| - 1;
      FindIsLatest(records[..last], parent, key);
      if Mine(records[last], parent) {
        FindAfterPlace(LatestAttempts(records[..last], parent), records[last], key);
      }
    }
  }

  ghost predicate DistinctKeys(latest: seq<Record>)
    requires forall x :: x in latest ==> x.contract.Some?
  {
    forall i, j :: 0 <= i < j < |latest| ==> KeyOf(latest[i]) != KeyOf(latest[j])
  }

  lemma {:induction false} PlaceKeepsDistinct(latest: seq<Record>, r: Record)
    requires r.contract.Some? && (forall x :: x in latest ==> x.contract.Some?) && DistinctKeys(latest)
    ensures (forall x :: x in Place(latest, r) ==> x.contract.Some?) && DistinctKeys(Place(latest, r))
  {
    PlaceMembers(latest, r);
    if latest != [] {
      var rest := latest[1..];
      PlaceKeepsDistinct(rest, r);
      PlaceMembers(rest, r);
      assert forall i :: 0 < i < |latest| ==> KeyOf(latest[i]) != KeyOf(latest[0]);
      if KeyOf(latest[0]) != KeyOf(r) {
        var placed := Place(rest, r);
        forall i | 0 <= i < |placed| ensures KeyOf(placed[i]) != KeyOf(latest[0]) {
          assert placed[i] in placed;
        }
      }
    }
  }

  lemma {:induction false} LatestDistinct(records: seq<Record>, parent: nat)
    ensures DistinctKeys(LatestAttempts(records, parent))
  {
    if records != [] {
      LatestDistinct(records[..|records| - 1], parent);
      if Mine(records[|records| - 1], parent) {
        PlaceKeepsDistinct(LatestAttempts(records[..|records| - 1], parent), records[|records| - 1]);
      }
    }
  }

  lemma {:induction false} FindMember(latest: seq<Record>, x: Record)
    requires (forall y :: y in latest ==> y.contract.Some?) && DistinctKeys(latest) && x.contract.Some?
    ensures x in latest <==> FindKey(latest, x.contract.value.key) == Some(x)
  {
    if latest != [] {
      FindMember(latest[1..], x);
    }
  }

  /** The fold holds exactly one record per key, the first of its highest attempts. */
  lemma LatestExactly(records: seq<Record>, parent: nat)
    ensures DistinctKeys(LatestAttempts(records, parent))
    ensures forall x :: x in LatestAttempts(records, parent) <==> exists j: nat :: FirstMax(records, parent, j) && records[j] == x
  {
    LatestDistinct(records, parent);
    forall x ensures x in LatestAttempts(records, parent) <==> exists j: nat :: FirstMax(records, parent, j) && records[j] == x {
      if x.contract.Some? {
        var key := x.contract.value.key;
        FindMember(LatestAttempts(records, parent), x);
        FindIsLatest(records, parent, key);
        var at := LatestIndex(records, parent, key);
        if j: nat :| FirstMax(records, parent, j) && records[j] == x {
          assert Mine(records[j], parent) && KeyOf(records[j]) == Lower(key);
          FirstMaxUnique(records, parent, j, at.value);
        }
      }
    }
  }

  /** No two attempts of one key carry the same number. */
  ghost predicate AttemptsDiffer(records: seq<Record>, parent: nat) {
    forall i, j :: 0 <= i < j < |records| && Mine(records[i], parent) && Mine(records[j], parent)
      && KeyOf(records[i]) == KeyOf(records[j])
      ==> records[i].contract.value.attempt != records[j].contract.value.attempt
  }

  ghost predicate Highest(records: seq<Record>, parent: nat, x: Record) {
    && x in records && Mine(x, parent)
    && forall y :: y in records && Mine(y, parent) && KeyOf(y) == KeyOf(x)
         ==> y.contract.value.attempt <= x.contract.value.attempt
  }

  lemma LatestIsHighest(records: seq<Record>, parent: nat)
    requires AttemptsDiffer(records, parent)
    ensures forall x :: x in LatestAttempts(records, parent) <==> Highest(records, parent, x)
  {
    LatestExactly(records, parent);
    forall x ensures (exists j: nat :: FirstMax(records, parent, j) && records[j] == x) <==> Highest(records, parent, x) {
      if Highest(records, parent, x) {
        var j :| 0 <= j < |records| && records[j] == x;
        assert FirstMax(records, parent, j);
      }
    }
  }

  /** With differing attempt numbers, the order of the records does not matter. */
  lemma LatestIgnoresOrder(xs: seq<Record>, ys: seq<Record>, parent: nat)
    requires AttemptsDiffer(xs, parent) && AttemptsDiffer(ys, parent) && multiset(xs) == multiset(ys)
    ensures forall x :: x in LatestAttempts(xs, parent) <==> x in LatestAttempts(ys, parent)
  {
    LatestIsHighest(xs, parent);
    LatestIsHighest(ys, parent);
    assert forall x :: x in xs <==> x in multiset(xs);
    assert forall x :: x in ys <==> x in multiset(ys);
  }

  ghost predicate Awaits(d: Record, parent: nat, folded: string) {
    d.contract.Some? && d.contract.value.parent == parent
    && exists k :: k in d.contract.value.dependsOn && Lower(k) == folded
  }

  /** A newer unfinished attempt, anywhere in the list, holds back every dependent and the synthesis. */
  lemma NewerAttemptHoldsBack(before: seq<Record>, after: seq<Record>, newer: Record, parent: nat)
    requires Mine(newer, parent) && !Passed(newer)
    requires forall r :: r in before + after && Mine(r, parent) && KeyOf(r) == KeyOf(newer) ==>
      r.contract.value.attempt < newer.contract.value.attempt
    ensures var records := before + [newer] + after;
      !CanSynthesize(records, parent)
      && forall d :: d in records && Awaits(d, parent, KeyOf(newer)) ==> !IsReady(d, records)
  {
    var records := before + [newer] + after;
    var j := |before|;
    forall k | 0 <= k < |records| && k != j && Mine(records[k], parent) && KeyOf(records[k]) == KeyOf(newer)
      ensures records[k].contract.value.attempt < newer.contract.value.attempt
    {
      assert records[k] in before + after;
    }
    assert records[j] == newer && FirstMax(records, parent, j);
    LatestExactly(records, parent);
    assert newer in LatestAttempts(records, parent);
    forall k: string | Lower(k) == KeyOf(newer) ensures !DependencyPassed(records, parent, k) {
      FindIsLatest(records, parent, k);
      var at := LatestIndex(records, parent, k);
      FirstMaxUnique(records, parent, j, at.value);
    }
  }

  /** The map and its insertion order hold the same records as the list. */
  ghost predicate Mirrors(byKey: map<string, Record>, order: seq<string>, latest: seq<Record>) {
    && (forall k :: k in byKey <==> k in order) && |latest| == |order|
    && forall n :: 0 <= n < |order| ==>
         order[n] in byKey && byKey[order[n]] == latest[n] && latest[n].contract.Some? && KeyOf(latest[n]) == order[n]
  }

  lemma MirrorsNew(byKey: map<string, Record>, order: seq<string>, latest: seq<Record>, r: Record)
    requires Mirrors(byKey, order, latest) && r.contract.Some? && KeyOf(r) !in byKey
    requires forall x :: x in latest ==> x.contract.Some?
    ensures Mirrors(byKey[KeyOf(r) := r], order + [KeyOf(r)], Place(latest, r))
  {
    forall x | x in latest
      ensures KeyOf(x) != KeyOf(r)
    {
      var n :| 0 <= n < |latest| && latest[n] == x;
      assert order[n] in byKey;
    }
    PlaceNew(latest, r);
  }

  lemma MirrorsReplaced(byKey: map<string, Record>, order: seq<string>, latest: seq<Record>, r: Record, n: nat)
    requires Mirrors(byKey, order, latest) && r.contract.Some? && n < |latest| && order[n] == KeyOf(r)
    requires (forall x :: x in latest ==> x.contract.Some?) && DistinctKeys(latest)
    ensures Mirrors(byKey[KeyOf(r) := r], order, latest[n := r])
  {
    forall m | 0 <= m < |order| && m != n
      ensures order[m] != KeyOf(r)
    {
      assert KeyOf(latest[m]) == order[m] && KeyOf(latest[n]) == order[n];
    }
  }

  lemma MirrorsNewer(byKey: map<string, Record>, order: seq<string>, latest: seq<Record>, r: Record)
    requires Mirrors(byKey, order, latest) && r.contract.Some? && KeyOf(r) in byKey
    requires (forall x :: x in latest ==> x.contract.Some?) && DistinctKeys(latest)
    ensures byKey[KeyOf(r)].contract.Some?
    ensures byKey[KeyOf(r)].contract.value.attempt < r.contract.value.attempt ==>
      Mirrors(byKey[KeyOf(r) := r], order, Place(latest, r))
    ensures byKey[KeyOf(r)].contract.value.attempt >= r.contract.value.attempt ==> Place(latest, r) == latest
  {
    var n :| 0 <= n < |order| && order[n] == KeyOf(r);
    assert byKey[KeyOf(r)] == latest[n];
    PlaceAt(latest, r, n);
    MirrorsReplaced(byKey, order, latest, r, n);
  }

  /** The map of the source: a value per key and the keys in insertion order. */
  method CollectLatest(records: seq<Record>, parent: nat) returns (latest: seq<Record>)
    ensures latest == LatestAttempts(records, parent)
  {
    var byKey: map<string, Record> := map[];
    var order: seq<string> := [];
    for i := 0 to |records|
      invariant Mirrors(byKey, order, LatestAttempts(records[..i], parent))
    {
      assert records[..i + 1][..i] == records[..i];
      var r := records[i];
      if Mine(r, parent) {
        var key := KeyOf(r);
        ghost var kept := LatestAttempts(records[..i], parent);
        LatestDistinct(records[..i], parent);
        if key !in byKey {
          MirrorsNew(byKey, order, kept, r);
          order := order + [key];
          byKey := byKey[key := r];
        } else {
          MirrorsNewer(byKey, order, kept, r);
          if byKey[key].contract.value.attempt < r.contract.value.attempt {
            byKey := byKey[key := r];
          }
        }
      }
    }
    assert records[..|records|] == records;
    latest := ValuesInOrder(byKey, order);
  }

  method ValuesInOrder(byKey: map<string, Record>, order: seq<string>) returns (values: seq<Record>)
    requires forall k :: k in order ==> k in byKey
    ensures |values| == |order| && forall n :: 0 <= n < |order| ==> values[n] == byKey[order[n]]
  {
    values := [];
    for n := 0 to |order|
      invariant |values| == n && forall m :: 0 <= m < n ==> values[m] == byKey[order[m]]
    {
      values := values + [byKey[order[n]]];
    }
  }

  lemma {:induction false} PlaceNew(latest: seq<Record>, r: Record)
    requires r.contract.Some? && forall x :: x in latest ==> x.contract.Some? && KeyOf(x) != KeyOf(r)
    ensures Place(latest, r) == latest + [r]
  {
    if latest != [] {
      PlaceNew(latest[1..], r);
    }
  }

  lemma {:induction false} PlaceAt(latest: seq<Record>, r: Record, n: nat)
    requires r.contract.Some? && (forall x :: x in latest ==> x.contract.Some?) && DistinctKeys(latest)
    requires n < |latest| && KeyOf(latest[n]) == KeyOf(r)
    ensures Place(latest, r)
         == if latest[n].contract.value.attempt < r.contract.value.attempt then latest[n := r] else latest
  {
    if n > 0 {
      PlaceAt(latest[1..], r, n - 1);
    }
  }
}
