// How many experts run, and which may run together, in every run of the scheduler; and what a batch
// chosen from one snapshot does not guarantee on its own.
module ExpertSafety {
  import opened Common
  import opened Text
  import opened ExpertTeam
  import opened ExpertLatest

  /** `Claim` is the kernel's claim under the store lock; `Settle` moves a claimed attempt to any status but
      running. `Resume` makes one run again: when a tool of a waiting, blocked or requeued run is authorized or
      completes, or when its worker renews the lease. None of these looks at the rest of the team. */
  datatype Step =
    | Claim(i: nat)
    | Settle(i: nat, status: Status, gates: Option<seq<bool>>)
    | Resume(i: nat)
    | Cancel(i: nat)
    | Retry(i: nat, id: nat, startedAt: int)

  predicate Possible(records: seq<Record>, step: Step) {
    match step
    case Claim(i) => i < |records| && records[i].status == Queued && KernelReady(records[i], records)
    case Settle(i, status, _) =>
      i < |records| && records[i].claimed && !Terminal(records[i].status) && status != Running
    case Resume(i) =>
      && i < |records| && records[i].claimed
      && records[i].status in {Queued, WaitingForPrerequisite, WaitingForConfirmation, Blocked}
    case Cancel(i) => i < |records| && records[i].status == Queued
    case Retry(i, id, _) =>
      && i < |records| && records[i].contract.Some?
      && records[i].status in {Failed, Cancelled}
      && forall r :: r in records ==> r.id != id
  }

  function After(records: seq<Record>, step: Step): seq<Record>
    requires Possible(records, step)
  {
    match step
    case Claim(i) => records[i := records[i].(status := Running, claimed := true)]
    case Settle(i, status, gates) => records[i := records[i].(status := status, gates := gates)]
    case Resume(i) => records[i := records[i].(status := Running)]
    case Cancel(i) => records[i := records[i].(status := Cancelled)]
    case Retry(i, id, startedAt) =>
      var contract := records[i].contract.value;
      records + [records[i].(id := id, status := Queued, startedAt := startedAt, gates := None, claimed := false,
                             contract := Some(contract.(attempt := contract.attempt + 1)))]
  }

  ghost predicate UniqueIds(records: seq<Record>) {
    forall i, j :: 0 <= i < j < |records| ==> records[i].id != records[j].id
  }

  /** Two records of one team that run and cannot share their resources. */
  ghost predicate Clash(left: Record, right: Record) {
    && left.status == Running && right.status == Running
    && left.contract.Some? && right.contract.Some?
    && left.contract.value.team == right.contract.value.team
    && ResourcesConflict(left.contract.value.resources, right.contract.value.resources)
  }

  ghost predicate Exclusive(records: seq<Record>) {
    && UniqueIds(records)
    && (forall team :: RunningCount(records, team) <= MAX_PARALLEL)
    && (forall i, j :: 0 <= i < |records| && 0 <= j < |records| && i != j ==> !Clash(records[i], records[j]))
  }

  function Runs(r: Record, team: nat): nat {
    if InTeam(r, team) && r.status == Running then 1 else 0
  }

  lemma {:induction false} CountAfterUpdate(records: seq<Record>, i: nat, r: Record, team: nat)
    requires i < |records|
    ensures RunningCount(records[i := r], team) == RunningCount(records, team) - Runs(records[i], team) + Runs(r, team)
  {
    var last := |records| - 1;
    if i == last {
      assert records[i := r][..last] == records[..last];
    } else {
      assert records[i := r][..last] == records[..last][i := r];
      CountAfterUpdate(records[..last], i, r, team);
    }
  }

  lemma ConflictSymmetric(left: seq<Resource>, right: seq<Resource>)
    ensures ResourcesConflict(left, right) <==> ResourcesConflict(right, left)
  {
  }

  /** What the kernel asks of a claim besides the dependencies: the team has room and no conflicting run. */
  predicate Fits(record: Record, records: seq<Record>) {
    record.contract.Some? ==>
      RunningCount(records, record.contract.value.team) < MAX_PARALLEL && NoRunningConflict(record, records)
  }

  predicate Admitted(records: seq<Record>, step: Step)
    requires Possible(records, step)
  {
    step.Resume? ==> Fits(records[step.i], records)
  }

  lemma CountsStep(records: seq<Record>, step: Step)
    requires Exclusive(records) && Possible(records, step) && Admitted(records, step)
    ensures forall team :: RunningCount(After(records, step), team) <= MAX_PARALLEL
  {
    var next := After(records, step);
    if step.Retry? {
      assert next[..|records|] == records;
    } else {
      forall team ensures RunningCount(next, team) <= MAX_PARALLEL {
        CountAfterUpdate(records, step.i, next[step.i], team);
      }
    }
  }

  lemma ExclusiveStep(records: seq<Record>, step: Step)
    requires Exclusive(records) && Possible(records, step) && Admitted(records, step)
    ensures Exclusive(After(records, step))
  {
    var next := After(records, step);
    CountsStep(records, step);
    forall i, j | 0 <= i < |next| && 0 <= j < |next| && i != j ensures !Clash(next[i], next[j]) {
      if Clash(next[i], next[j]) {
        assert (step.Claim? || step.Resume?) && (i == step.i || j == step.i);
        ConflictSymmetric(next[i].contract.value.resources, next[j].contract.value.resources);
      }
    }
  }

  /** An attempt that runs again in a full team, or beside a conflicting one, breaks exclusion at once. */
  lemma UnfitBreaks(records: seq<Record>, i: nat)
    requires Exclusive(records) && Possible(records, Resume(i)) && !Fits(records[i], records)
    ensures !Exclusive(After(records, Resume(i)))
  {
    var record, next := records[i], After(records, Resume(i));
    var team := record.contract.value.team;
    if RunningCount(records, team) >= MAX_PARALLEL {
      CountAfterUpdate(records, i, next[i], team);
    } else {
      var c :| c in records && InTeam(c, team) && c.id != record.id && c.status == Running
        && ResourcesConflict(record.contract.value.resources, c.contract.value.resources);
      var j :| 0 <= j < |records| && records[j] == c;
      assert Clash(next[i], next[j]);
    }
  }

  ghost predicate LegalRun(records: seq<Record>, steps: seq<Step>)
    decreases |steps|
  {
    steps == [] || (Possible(records, steps[0]) && LegalRun(After(records, steps[0]), steps[1..]))
  }

  ghost function EndOf(records: seq<Record>, steps: seq<Step>): seq<Record>
    requires LegalRun(records, steps)
    decreases |steps|
  {
    if steps == [] then records else EndOf(After(records, steps[0]), steps[1..])
  }

  ghost predicate AlwaysExclusive(records: seq<Record>, steps: seq<Step>)
    requires LegalRun(records, steps)
    decreases |steps|
  {
    Exclusive(records) && (steps != [] ==> AlwaysExclusive(After(records, steps[0]), steps[1..]))
  }

  ghost predicate AllAdmitted(records: seq<Record>, steps: seq<Step>)
    requires LegalRun(records, steps)
    decreases |steps|
  {
    steps != [] ==> Admitted(records, steps[0]) && AllAdmitted(After(records, steps[0]), steps[1..])
  }

  /** At every moment of a run at most three experts of a team run, and no two of them share a key that one
      writes, exactly when no attempt runs again in a full team or beside a conflicting one. */
  lemma {:induction false} ExclusiveRunExactly(records: seq<Record>, steps: seq<Step>)
    requires Exclusive(records) && LegalRun(records, steps)
    ensures AlwaysExclusive(records, steps) <==> AllAdmitted(records, steps)
    decreases |steps|
  {
    if steps != [] {
      var next := After(records, steps[0]);
      if Admitted(records, steps[0]) {
        ExclusiveStep(records, steps[0]);
        ExclusiveRunExactly(next, steps[1..]);
      } else {
        UnfitBreaks(records, steps[0].i);
        assert !AlwaysExclusive(next, steps[1..]);
      }
    }
  }

  // ----- The front end against the kernel -----

  /** The contracted children of a parent are one team, and their attempt numbers differ. */
  ghost predicate OneTeam(records: seq<Record>, parent: nat, team: nat) {
    && (forall r :: r in records ==> (Mine(r, parent) <==> InTeam(r, team)))
    && AttemptsDiffer(records, parent)
  }

  lemma {:induction false} KernelLatestIsHighest(records: seq<Record>, parent: nat, team: nat, key: string)
    requires forall r :: r in records ==> (Mine(r, parent) <==> InTeam(r, team))
    ensures var found := KernelLatest(records, team, key);
      forall y :: y in records && Mine(y, parent) && KeyOf(y) == Lower(key) ==>
        found.Some? && y.contract.value.attempt <= found.value.contract.value.attempt
  {
    if records != [] {
      KernelLatestIsHighest(records[..|records| - 1], parent, team, key);
    }
  }

  lemma SameLatest(records: seq<Record>, parent: nat, team: nat, key: string)
    requires OneTeam(records, parent, team)
    ensures FindKey(LatestAttempts(records, parent), key) == KernelLatest(records, team, key)
  {
    FindIsLatest(records, parent, key);
    KernelLatestIsHighest(records, parent, team, key);
    var at := LatestIndex(records, parent, key);
    var found := KernelLatest(records, team, key);
    if found.Some? {
      var k :| 0 <= k < |records| && records[k] == found.value;
      assert records[at.value] in records;
      assert k == at.value;
    }
  }

  /** On one team with differing attempt numbers the front end's readiness and the kernel's are the same
      check, up to the parent's unchanged input. */
  lemma FrontEndAgreesWithKernel(records: seq<Record>, record: Record)
    requires record.contract.Some? && record.status == Queued
    requires OneTeam(records, record.contract.value.parent, record.contract.value.team)
    ensures KernelReady(record, records) <==> IsReady(record, records) && ParentCurrent(record, records)
  {
    var contract := record.contract.value;
    forall d | d in contract.dependsOn
      ensures FindKey(LatestAttempts(records, contract.parent), d) == KernelLatest(records, contract.team, d)
    {
      SameLatest(records, contract.parent, contract.team, d);
    }
  }

  /** Two attempts with one number: the front end keeps the first, the kernel the last. */
  lemma EqualAttemptsDisagree()
    ensures exists records, parent, team, key ::
      FindKey(LatestAttempts(records, parent), key) != KernelLatest(records, team, key)
  {
    var contract := Contract(7, 1, 0, "a", 1, [], []);
    var first := Record(2, Subagent, Some(1), Completed, 0, 0, Some(contract), Some([true]), true);
    var second := Record(3, Subagent, Some(1), Failed, 0, 0, Some(contract), None, true);
    var records := [first, second];
    assert records[..1] == [first];
    assert [first][..0] == [];
    assert LatestAttempts(records[..1], 1) == [first];
    assert LatestAttempts(records, 1) == [first];
    assert KernelLatest(records, 7, "a") == Some(second);
    assert FindKey(LatestAttempts(records, 1), "a") == Some(first);
  }

  // ----- One snapshot, several starts -----

  /** Start every record whose id is chosen, without looking again. */
  function StartAll(records: seq<Record>, ids: set<nat>): seq<Record> {
    seq(|records|, i requires 0 <= i < |records| =>
      if records[i].id in ids then records[i].(status := Running) else records[i])
  }

  function Ids(batch: seq<Record>): set<nat> {
    set r | r in batch :: r.id
  }

  lemma {:induction false} CountAfterStart(records: seq<Record>, ids: set<nat>, team: nat)
    requires UniqueIds(records)
    ensures RunningCount(StartAll(records, ids), team) <= RunningCount(records, team) + |ids|
    decreases |records|
  {
    if records != [] {
      var last := |records| - 1;
      assert StartAll(records, ids)[..last] == StartAll(records[..last], ids - {records[last].id});
      CountAfterStart(records[..last], ids - {records[last].id}, team);
    }
  }

  lemma BatchMembers(records: seq<Record>, limit: int)
    ensures var batch := ReadyAttempts(records, limit);
      |batch| <= MAX_PARALLEL
      && forall r :: r in batch ==> r in records && r.role == Subagent && r.status == Queued && IsReady(r, records)
  {
    var sorted := SortByStart(ReadyOnes(records, records));
    forall r | r in sorted ensures r in ReadyOnes(records, records) {
      assert r in multiset(sorted);
    }
  }

  lemma {:induction false} IdsSize(batch: seq<Record>)
    ensures |Ids(batch)| <= |batch|
  {
    if batch != [] {
      IdsSize(batch[1..]);
      assert Ids(batch) == {batch[0].id} + Ids(batch[1..]);
    }
  }

  ghost predicate Startable(records: seq<Record>, id: nat, team: nat) {
    exists r :: r in records && r.id == id && InTeam(r, team) && r.status == Queued
  }

  lemma LastStartable(records: seq<Record>, team: nat)
    requires records != [] && UniqueIds(records) && Startable(records, records[|records| - 1].id, team)
    ensures InTeam(records[|records| - 1], team) && records[|records| - 1].status == Queued
  {
    var last := |records| - 1;
    var r :| r in records && r.id == records[last].id && InTeam(r, team) && r.status == Queued;
    var k :| 0 <= k < |records| && records[k] == r;
    assert k == last;
  }

  lemma {:induction false} CountAfterExactStart(records: seq<Record>, ids: set<nat>, team: nat)
    requires UniqueIds(records)
    requires forall id :: id in ids ==> Startable(records, id, team)
    ensures RunningCount(StartAll(records, ids), team) == RunningCount(records, team) + |ids|
    decreases |records|
  {
    if records == [] {
      assert ids == {};
    } else {
      var last := |records| - 1;
      var rest := ids - {records[last].id};
      assert StartAll(records, ids)[..last] == StartAll(records[..last], rest);
      forall id | id in rest
        ensures Startable(records[..last], id, team)
      {
        assert Startable(records, id, team);
        var r :| r in records && r.id == id && InTeam(r, team) && r.status == Queued;
        assert r in records[..last];
      }
      CountAfterExactStart(records[..last], rest, team);
      if records[last].id in ids {
        LastStartable(records, team);
      }
    }
  }

  /** Each member of a batch fits beside what already runs. Starting the whole batch unchecked leaves at most
      five running in any team the batch touches, and exactly as many more as the batch holds when it is of
      one team. */
  lemma SnapshotBatchBound(records: seq<Record>, limit: int, team: nat)
    requires UniqueIds(records)
    requires exists r :: r in ReadyAttempts(records, limit) && InTeam(r, team)
    ensures RunningCount(StartAll(records, Ids(ReadyAttempts(records, limit))), team) <= 5
    ensures (forall r :: r in ReadyAttempts(records, limit) ==> InTeam(r, team)) ==>
      RunningCount(StartAll(records, Ids(ReadyAttempts(records, limit))), team)
        == RunningCount(records, team) + |Ids(ReadyAttempts(records, limit))|
    ensures forall r :: r in ReadyAttempts(records, limit) && r.contract.Some? ==> NoRunningConflict(r, records)
  {
    var batch := ReadyAttempts(records, limit);
    BatchMembers(records, limit);
    IdsSize(batch);
    CountAfterStart(records, Ids(batch), team);
    if forall r :: r in batch ==> InTeam(r, team) {
      forall id | id in Ids(batch)
        ensures Startable(records, id, team)
      {
        var r :| r in batch && r.id == id;
        assert r in records;
      }
      CountAfterExactStart(records, Ids(batch), team);
    }
  }

  function Writer(id: nat, status: Status, resource: string, key: string): Record {
    Record(id, Subagent, Some(1), status, id, 0, Some(Contract(7, 1, 0, key, 1, [], [Resource(resource, WriteAccess)])), None,
           status == Running)
  }

  const FIRST_WRITER := Writer(2, Queued, "doc", "a")
  const SECOND_WRITER := Writer(3, Queued, "doc", "b")

  lemma WritersReady()
    ensures IsReady(FIRST_WRITER, [FIRST_WRITER, SECOND_WRITER]) && IsReady(SECOND_WRITER, [FIRST_WRITER, SECOND_WRITER])
  {
    var records := [FIRST_WRITER, SECOND_WRITER];
    assert records[..1] == [FIRST_WRITER];
    assert RunningCount(records[..1], 7) == 0;
    assert RunningCount(records, 7) == 0;
  }

  lemma WritersOffered()
    ensures ReadyAttempts([FIRST_WRITER, SECOND_WRITER], 3) == [FIRST_WRITER, SECOND_WRITER]
  {
    var a, b := FIRST_WRITER, SECOND_WRITER;
    var records := [a, b];
    WritersReady();
    assert records[1..] == [b] && [b][1..] == [];
    assert ReadyOnes([b], records) == [b];
    assert ReadyOnes(records, records) == [a, b];
    assert SortByStart([b]) == [b];
    assert SortByStart([a, b]) == [a, b];
  }

  /** Members of one batch need not be compatible with each other: two writers of one key are both offered. */
  lemma BatchMembersCanClash()
    ensures exists records, a, b :: (
      && UniqueIds(records) && a in ReadyAttempts(records, 3) && b in ReadyAttempts(records, 3)
      && a.id != b.id && Clash(a.(status := Running), b.(status := Running)))
  {
    var a, b := FIRST_WRITER, SECOND_WRITER;
    WritersOffered();
    assert a in ReadyAttempts([a, b], 3) && b in ReadyAttempts([a, b], 3);
    assert Resource("doc", WriteAccess) in a.contract.value.resources;
    assert Resource("doc", WriteAccess) in b.contract.value.resources;
    assert Clash(a.(status := Running), b.(status := Running));
  }

  // ----- A waiting attempt that runs again -----

  const TEAM_PARENT := Record(1, ParentRole, None, Blocked, 0, 0, None, None, true)

  lemma {:induction false} NoneRuns(records: seq<Record>)
    requires forall r :: r in records ==> r.status != Running
    ensures forall team :: RunningCount(records, team) == 0
  {
    if records != [] {
      NoneRuns(records[..|records| - 1]);
    }
  }

  lemma ClaimPossible(records: seq<Record>, i: nat)
    requires i < |records| && records[0] == TEAM_PARENT && records[i].status == Queued
    requires records[i].contract.Some? && records[i].contract.value.parent == 1
    requires records[i].contract.value.inputRevision == 0 && records[i].contract.value.dependsOn == []
    requires forall r :: r in records ==> r.status != Running
    ensures Possible(records, Claim(i))
  {
    NoneRuns(records);
    assert ParentCurrent(records[i], records) by {
      assert records[0].id == records[i].contract.value.parent;
    }
  }

  lemma RunFrom(records: seq<Record>, step: Step, steps: seq<Step>)
    requires Possible(records, step) && LegalRun(After(records, step), steps)
    ensures LegalRun(records, [step] + steps) && EndOf(records, [step] + steps) == EndOf(After(records, step), steps)
  {
    assert ([step] + steps)[1..] == steps;
  }

  const WAITING_WRITER := FIRST_WRITER.(status := WaitingForConfirmation, claimed := true)
  const BEFORE_CONFIRMATION := [TEAM_PARENT, WAITING_WRITER, SECOND_WRITER.(status := Running, claimed := true)]

  lemma WaitAndReplace(steps: seq<Step>)
    requires LegalRun(BEFORE_CONFIRMATION, steps)
    ensures var start := [TEAM_PARENT, FIRST_WRITER, SECOND_WRITER];
      exists all :: LegalRun(start, all) && EndOf(start, all) == EndOf(BEFORE_CONFIRMATION, steps)
  {
    var a, b, settle := FIRST_WRITER, SECOND_WRITER, Settle(1, WaitingForConfirmation, None);
    var r0, r1 := [TEAM_PARENT, a, b], [TEAM_PARENT, a.(status := Running, claimed := true), b];
    var r2 := [TEAM_PARENT, WAITING_WRITER, b];
    ClaimPossible(r0, 1);
    ClaimPossible(r2, 2);
    assert After(r0, Claim(1)) == r1 && After(r1, settle) == r2 && After(r2, Claim(2)) == BEFORE_CONFIRMATION;
    RunFrom(r2, Claim(2), steps);
    RunFrom(r1, settle, [Claim(2)] + steps);
    RunFrom(r0, Claim(1), [settle] + ([Claim(2)] + steps));
  }

  /** One writer waits for a confirmation, another writer of the same key is started in its place, and then the
      first one is confirmed: each step is one the kernel accepts, and two writers of the key run. */
  lemma ConfirmedWriterJoins()
    ensures exists records, steps :: Exclusive(records) && LegalRun(records, steps) && !Exclusive(EndOf(records, steps))
  {
    var start := [TEAM_PARENT, FIRST_WRITER, SECOND_WRITER];
    NoneRuns(start);
    assert Exclusive(start);
    assert LegalRun(After(BEFORE_CONFIRMATION, Resume(1)), []);
    RunFrom(BEFORE_CONFIRMATION, Resume(1), []);
    WaitAndReplace([Resume(1)] + []);
    var end := After(BEFORE_CONFIRMATION, Resume(1));
    assert Resource("doc", WriteAccess) in end[1].contract.value.resources;
    assert Resource("doc", WriteAccess) in end[2].contract.value.resources;
    assert Clash(end[1], end[2]);
  }
}
