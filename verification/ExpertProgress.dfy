// A well-formed team always moves and finishes; a dependency cycle never starts.
module ExpertProgress {
  import opened Common
  import opened Text
  import opened ExpertTeam
  import opened ExpertLatest
  import opened ExpertSafety

  /** The contracted children of the parent are the team, and belong to the parent. */
  ghost predicate TeamOf(records: seq<Record>, parent: nat, team: nat) {
    forall r :: r in records ==>
      (Mine(r, parent) <==> InTeam(r, team))
      && (Mine(r, parent) ==> r.contract.value.parent == parent && r.role == Subagent)
  }

  ghost predicate HasExpert(records: seq<Record>, parent: nat, folded: string) {
    exists r :: r in records && Mine(r, parent) && KeyOf(r) == folded
  }

  /** The dependency names an expert of the team of lower rank. */
  ghost predicate DependsBelow(records: seq<Record>, parent: nat, rank: map<string, nat>, r: Record, d: string)
    requires r.contract.Some?
  {
    && HasExpert(records, parent, Lower(d))
    && Lower(d) in rank && KeyOf(r) in rank && rank[Lower(d)] < rank[KeyOf(r)]
  }

  ghost predicate Ranked(records: seq<Record>, parent: nat, rank: map<string, nat>) {
    forall j: nat, d :: FirstMax(records, parent, j) && d in records[j].contract.value.dependsOn ==>
      DependsBelow(records, parent, rank, records[j], d)
  }

  /** Stopped half-way, for a missing prerequisite, a confirmation or a held resource. */
  predicate Waiting(r: Record) {
    r.claimed && r.status in {WaitingForPrerequisite, WaitingForConfirmation, Blocked}
  }

  ghost predicate Healthy(records: seq<Record>, parent: nat) {
    && (exists r :: r in records && Mine(r, parent))
    && forall j: nat :: FirstMax(records, parent, j) ==>
         records[j].status in {Queued, Running} || Waiting(records[j]) || Passed(records[j])
  }

  ghost predicate GoodTeam(records: seq<Record>, parent: nat, team: nat, rank: map<string, nat>) {
    TeamOf(records, parent, team) && Ranked(records, parent, rank) && Healthy(records, parent)
  }

  lemma {:induction false} NoneRunning(records: seq<Record>, team: nat)
    requires RunningCount(records, team) == 0
    ensures forall r :: r in records ==> Runs(r, team) == 0
  {
    if records != [] {
      var last := |records| - 1;
      NoneRunning(records[..last], team);
      assert records == records[..last] + [records[last]];
    }
  }

  ghost predicate SomeWaits(records: seq<Record>, parent: nat) {
    exists r :: r in records && Mine(r, parent) && Waiting(r)
  }

  ghost predicate SomeMayStart(records: seq<Record>, parent: nat) {
    exists r :: r in records && Mine(r, parent) && r.role == Subagent && r.status == Queued && IsReady(r, records)
  }

  /** Following unfinished dependencies downwards ends at an attempt that waits or may start. */
  lemma {:induction false} SomeReady(records: seq<Record>, parent: nat, team: nat, rank: map<string, nat>, j: nat)
    requires GoodTeam(records, parent, team, rank) && RunningCount(records, team) == 0
    requires FirstMax(records, parent, j) && !Passed(records[j])
    ensures SomeWaits(records, parent) || SomeMayStart(records, parent)
    decreases if KeyOf(records[j]) in rank then rank[KeyOf(records[j])] else 0
  {
    NoneRunning(records, team);
    var r := records[j];
    assert r in records;
    if Waiting(r) {
      assert SomeWaits(records, parent);
    } else if d :| d in r.contract.value.dependsOn && !DependencyPassed(records, parent, d) {
      FindIsLatest(records, parent, d);
      assert DependsBelow(records, parent, rank, r, d);
      SomeReady(records, parent, team, rank, LatestIndex(records, parent, d).value);
    } else {
      assert IsReady(r, records);
    }
  }

  lemma SynthesisMissesOne(records: seq<Record>, parent: nat) returns (j: nat)
    requires (exists r :: r in records && Mine(r, parent)) && !CanSynthesize(records, parent)
    ensures FirstMax(records, parent, j) && !Passed(records[j])
  {
    LatestExactly(records, parent);
    var some :| some in records && Mine(some, parent);
    var at := LatestIndex(records, parent, some.contract.value.key);
    assert FirstMax(records, parent, at.value) && records[at.value] in LatestAttempts(records, parent);
    var r :| r in LatestAttempts(records, parent) && !Passed(r);
    j :| FirstMax(records, parent, j) && records[j] == r;
  }

  lemma OfferedWhenReady(records: seq<Record>, r: Record)
    requires r in records && r.role == Subagent && r.status == Queued && IsReady(r, records)
    ensures ReadyAttempts(records, 3) != []
  {
    assert r in ReadyOnes(records, records);
    assert r in multiset(SortByStart(ReadyOnes(records, records)));
  }

  /** The team can synthesize, or one of its attempts runs, waits half-way, or may start; and then a batch is
      offered. */
  lemma Progress(records: seq<Record>, parent: nat, team: nat, rank: map<string, nat>)
    requires GoodTeam(records, parent, team, rank)
    ensures CanSynthesize(records, parent) || RunningCount(records, team) > 0 || SomeWaits(records, parent)
            || (SomeMayStart(records, parent) && ReadyAttempts(records, 3) != [])
  {
    if !CanSynthesize(records, parent) && RunningCount(records, team) == 0 && !SomeWaits(records, parent) {
      var j := SynthesisMissesOne(records, parent);
      SomeReady(records, parent, team, rank, j);
      var r :| r in records && Mine(r, parent) && r.role == Subagent && r.status == Queued && IsReady(r, records);
      OfferedWhenReady(records, r);
    }
  }

  // ----- Every started attempt passes -----

  /** A started attempt may wait and go on any number of times before it passes. */
  datatype Advance = Start(i: nat) | Wait(i: nat, status: Status) | GoOn(i: nat) | Pass(i: nat, gates: seq<bool>)

  predicate CanAdvance(records: seq<Record>, step: Advance) {
    match step
    case Start(i) =>
      i < |records| && records[i].role == Subagent && records[i].status == Queued && IsReady(records[i], records)
    case Wait(i, status) =>
      && i < |records| && records[i].status == Running && records[i].claimed
      && status in {WaitingForPrerequisite, WaitingForConfirmation, Blocked}
    case GoOn(i) => i < |records| && Waiting(records[i])
    case Pass(i, gates) =>
      i < |records| && records[i].status == Running && gates != [] && forall g :: g in gates ==> g
  }

  function Advanced(records: seq<Record>, step: Advance): seq<Record>
    requires CanAdvance(records, step)
  {
    match step
    case Start(i) => records[i := records[i].(status := Running, claimed := true)]
    case Wait(i, status) => records[i := records[i].(status := status)]
    case GoOn(i) => records[i := records[i].(status := Running)]
    case Pass(i, gates) => records[i := records[i].(status := Completed, gates := Some(gates))]
  }

  ghost predicate LegalAdvances(records: seq<Record>, steps: seq<Advance>)
    decreases |steps|
  {
    steps == [] || (CanAdvance(records, steps[0]) && LegalAdvances(Advanced(records, steps[0]), steps[1..]))
  }

  ghost function AdvancedAll(records: seq<Record>, steps: seq<Advance>): seq<Record>
    requires LegalAdvances(records, steps)
    decreases |steps|
  {
    if steps == [] then records else AdvancedAll(Advanced(records, steps[0]), steps[1..])
  }

  /** Starts and passes still to come; going half-way and on again changes nothing. */
  function Left(r: Record): nat {
    if r.status == Queued then 2 else if r.status == Running || Waiting(r) then 1 else 0
  }

  function Remaining(records: seq<Record>): nat {
    if records == [] then 0 else Remaining(records[..|records| - 1]) + Left(records[|records| - 1])
  }

  function Work(step: Advance): nat {
    if step.Start? || step.Pass? then 1 else 0
  }

  function WorkDone(steps: seq<Advance>): nat {
    if steps == [] then 0 else Work(steps[0]) + WorkDone(steps[1..])
  }

  lemma {:induction false} RemainingUpdate(records: seq<Record>, i: nat, r: Record)
    requires i < |records|
    ensures Remaining(records[i := r]) == Remaining(records) - Left(records[i]) + Left(r)
  {
    var last := |records| - 1;
    if i == last {
      assert records[i := r][..last] == records[..last];
    } else {
      assert records[i := r][..last] == records[..last][i := r];
      RemainingUpdate(records[..last], i, r);
    }
  }

  lemma HasExpertShape(xs: seq<Record>, ys: seq<Record>, parent: nat, folded: string)
    requires |xs| == |ys|
    requires forall i :: 0 <= i < |xs| ==> xs[i].parent == ys[i].parent && xs[i].contract == ys[i].contract
    requires HasExpert(xs, parent, folded)
    ensures HasExpert(ys, parent, folded)
  {
    var r :| r in xs && Mine(r, parent) && KeyOf(r) == folded;
    var i :| 0 <= i < |xs| && xs[i] == r;
    assert ys[i] in ys && KeyOf(ys[i]) == folded;
  }

  lemma TeamAdvance(records: seq<Record>, step: Advance, parent: nat, team: nat)
    requires TeamOf(records, parent, team) && CanAdvance(records, step)
    ensures TeamOf(Advanced(records, step), parent, team)
  {
    var was := records[step.i];
    assert was in records;
    forall r | r in Advanced(records, step)
      ensures r in records || (r.parent == was.parent && r.role == was.role && r.contract == was.contract)
    {
    }
  }

  lemma FirstMaxShape(xs: seq<Record>, ys: seq<Record>, parent: nat, j: nat)
    requires |xs| == |ys|
    requires forall i :: 0 <= i < |xs| ==> xs[i].parent == ys[i].parent && xs[i].contract == ys[i].contract
    requires FirstMax(xs, parent, j)
    ensures FirstMax(ys, parent, j)
  {
    forall k | 0 <= k < |ys| && Mine(ys[k], parent) && KeyOf(ys[k]) == KeyOf(ys[j])
      ensures ys[k].contract.value.attempt < ys[j].contract.value.attempt
        || (ys[k].contract.value.attempt == ys[j].contract.value.attempt && j <= k)
    {
      assert Mine(xs[k], parent) && KeyOf(xs[k]) == KeyOf(xs[j]);
    }
  }

  lemma RankedAdvance(records: seq<Record>, step: Advance, parent: nat, rank: map<string, nat>)
    requires Ranked(records, parent, rank) && CanAdvance(records, step)
    ensures Ranked(Advanced(records, step), parent, rank)
  {
    var next := Advanced(records, step);
    forall j: nat, d | FirstMax(next, parent, j) && d in next[j].contract.value.dependsOn
      ensures DependsBelow(next, parent, rank, next[j], d)
    {
      FirstMaxShape(next, records, parent, j);
      assert next[j].contract == records[j].contract;
      assert DependsBelow(records, parent, rank, records[j], d);
      HasExpertShape(records, next, parent, Lower(d));
    }
  }

  lemma HealthyAdvance(records: seq<Record>, step: Advance, parent: nat)
    requires Healthy(records, parent) && CanAdvance(records, step)
    ensures Healthy(Advanced(records, step), parent)
  {
    var next := Advanced(records, step);
    forall j: nat | FirstMax(next, parent, j) ensures next[j].status in {Queued, Running} || Waiting(next[j]) || Passed(next[j]) {
      FirstMaxShape(next, records, parent, j);
    }
    var some :| some in records && Mine(some, parent);
    var k :| 0 <= k < |records| && records[k] == some;
    assert next[k] in next && Mine(next[k], parent);
  }

  lemma GoodAdvance(records: seq<Record>, step: Advance, parent: nat, team: nat, rank: map<string, nat>)
    requires GoodTeam(records, parent, team, rank) && CanAdvance(records, step)
    ensures GoodTeam(Advanced(records, step), parent, team, rank)
    ensures Remaining(Advanced(records, step)) == Remaining(records) - Work(step)
  {
    RemainingUpdate(records, step.i, Advanced(records, step)[step.i]);
    TeamAdvance(records, step, parent, team);
    RankedAdvance(records, step, parent, rank);
    HealthyAdvance(records, step, parent);
  }

  /** No attempt of the team can start, go on or pass. */
  ghost predicate Still(records: seq<Record>, parent: nat) {
    forall step: Advance :: !step.Wait? && CanAdvance(records, step) ==> !Mine(records[step.i], parent)
  }

  /** If every started attempt passes its gates in the end, the remaining work falls by one with each start and
      each pass, whatever waits in between, and a run that can only wait has made the team ready to synthesize. */
  lemma {:induction false} TeamFinishes(records: seq<Record>, steps: seq<Advance>, parent: nat, team: nat, rank: map<string, nat>)
    requires GoodTeam(records, parent, team, rank) && LegalAdvances(records, steps)
    ensures var end := AdvancedAll(records, steps);
      && WorkDone(steps) + Remaining(end) == Remaining(records)
      && GoodTeam(end, parent, team, rank)
      && (Still(end, parent) ==> CanSynthesize(end, parent))
    decreases |steps|
  {
    if steps != [] {
      GoodAdvance(records, steps[0], parent, team, rank);
      TeamFinishes(Advanced(records, steps[0]), steps[1..], parent, team, rank);
    } else if Still(records, parent) {
      FullStop(records, parent, team, rank);
    }
  }

  lemma FullStop(records: seq<Record>, parent: nat, team: nat, rank: map<string, nat>)
    requires GoodTeam(records, parent, team, rank) && Still(records, parent)
    ensures CanSynthesize(records, parent)
  {
    Progress(records, parent, team, rank);
    if RunningCount(records, team) > 0 {
      var i := RunningAt(records, team);
      assert CanAdvance(records, Pass(i, [true])) && records[i] in records;
    }
    if SomeWaits(records, parent) {
      var r :| r in records && Mine(r, parent) && Waiting(r);
      var i :| 0 <= i < |records| && records[i] == r;
      assert CanAdvance(records, GoOn(i));
    }
    if SomeMayStart(records, parent) {
      var r :| r in records && Mine(r, parent) && r.role == Subagent && r.status == Queued && IsReady(r, records);
      var i :| 0 <= i < |records| && records[i] == r;
      assert CanAdvance(records, Start(i));
    }
  }

  lemma {:induction false} RunningAt(records: seq<Record>, team: nat) returns (i: nat)
    requires RunningCount(records, team) > 0
    ensures i < |records| && records[i].status == Running && InTeam(records[i], team)
  {
    var last := |records| - 1;
    if Runs(records[last], team) == 1 {
      i := last;
    } else {
      i := RunningAt(records[..last], team);
    }
  }

  // ----- Cycles -----

  /** Every attempt of the keys waits for a key among them, and none of them was ever claimed or has passed. */
  ghost predicate Deadlocked(records: seq<Record>, parent: nat, team: nat, keys: set<string>) {
    && TeamOf(records, parent, team)
    && forall r :: r in records && Mine(r, parent) && KeyOf(r) in keys ==>
         !r.claimed && r.status != Running && !Passed(r) && exists d :: d in r.contract.value.dependsOn && Lower(d) in keys
  }

  lemma DeadlockedNotReady(records: seq<Record>, parent: nat, team: nat, keys: set<string>)
    requires Deadlocked(records, parent, team, keys)
    ensures forall r :: r in records && Mine(r, parent) && KeyOf(r) in keys ==>
      !IsReady(r, records) && !KernelReady(r, records)
    ensures (exists r :: r in records && Mine(r, parent) && KeyOf(r) in keys) ==> !CanSynthesize(records, parent)
  {
    LatestExactly(records, parent);
    forall r | r in records && Mine(r, parent) && KeyOf(r) in keys
      ensures !IsReady(r, records) && !KernelReady(r, records) && !CanSynthesize(records, parent)
    {
      var d :| d in r.contract.value.dependsOn && Lower(d) in keys;
      var front := FindKey(LatestAttempts(records, parent), d);
      var kernel := KernelLatest(records, team, d);
      assert front.Some? ==> front.value in records && Mine(front.value, parent);
      assert kernel.Some? ==> kernel.value in records && Mine(kernel.value, parent);
      var at := LatestIndex(records, parent, r.contract.value.key);
      assert records[at.value] in LatestAttempts(records, parent) && records[at.value] in records;
    }
  }

  lemma DeadlockedStep(records: seq<Record>, step: Step, parent: nat, team: nat, keys: set<string>)
    requires Deadlocked(records, parent, team, keys) && Possible(records, step)
    ensures Deadlocked(After(records, step), parent, team, keys)
  {
    DeadlockedNotReady(records, parent, team, keys);
    var next := After(records, step);
    var was := records[step.i];
    assert was in records;
    forall r | r in next
      ensures r in records || (r.parent == was.parent && r.role == was.role && r.contract.Some? == was.contract.Some?)
    {
    }
  }

  /** In every run of the scheduler none of the keys ever runs or passes, and the team never synthesizes. */
  lemma {:induction false} CycleNeverRuns(records: seq<Record>, steps: seq<Step>, parent: nat, team: nat, keys: set<string>)
    requires Deadlocked(records, parent, team, keys) && LegalRun(records, steps)
    requires exists r :: r in records && Mine(r, parent) && KeyOf(r) in keys
    ensures var end := EndOf(records, steps);
      && !CanSynthesize(end, parent)
      && forall r :: r in end && Mine(r, parent) && KeyOf(r) in keys ==>
           r.status != Running && !Passed(r) && !IsReady(r, end) && !KernelReady(r, end)
    decreases |steps|
  {
    if steps == [] {
      DeadlockedNotReady(records, parent, team, keys);
    } else {
      DeadlockedStep(records, steps[0], parent, team, keys);
      var next := After(records, steps[0]);
      var r :| r in records && Mine(r, parent) && KeyOf(r) in keys;
      var k :| 0 <= k < |records| && records[k] == r;
      assert next[k] in next && Mine(next[k], parent) && KeyOf(next[k]) == KeyOf(r);
      CycleNeverRuns(next, steps[1..], parent, team, keys);
    }
  }
}
