// The expert-team scheduler of the desktop front end, and the kernel's own readiness check that every
// claim passes again under the store lock.
module ExpertTeam {
  import opened Common
  import opened Text

  datatype Access = ReadAccess | WriteAccess

  datatype Resource = Resource(key: string, access: Access)

  datatype Contract = Contract(
    team: nat, parent: nat, inputRevision: nat, key: string, attempt: nat,
    dependsOn: seq<string>, resources: seq<Resource>)

  datatype Role = ParentRole | Subagent

  datatype Status =
    | Queued | Running | WaitingForPrerequisite | WaitingForConfirmation | Blocked | CancelRequested
    | Completed | Failed | Cancelled

  /** An agent run record; `gates` are the outcomes of the quality gates of its expert result, and `claimed`
      says that a worker has taken the run at least once. */
  datatype Record = Record(
    id: nat, role: Role, parent: Option<nat>, status: Status, startedAt: int, input: nat,
    contract: Option<Contract>, gates: Option<seq<bool>>, claimed: bool)

  const MAX_PARALLEL: nat := 3

  predicate Terminal(status: Status) {
    status in {Completed, Failed, Cancelled}
  }

  /** Completed with at least one quality gate, and every gate passed. */
  predicate Passed(r: Record) {
    r.status == Completed && r.gates.Some? && r.gates.value != [] && forall g :: g in r.gates.value ==> g
  }

  predicate Mine(r: Record, parent: nat) {
    r.parent == Some(parent) && r.contract.Some?
  }

  function KeyOf(r: Record): string
    requires r.contract.Some?
  {
    Lower(r.contract.value.key)
  }

  // ----- Latest attempts -----

  /** The values of a JavaScript map keyed by folded expert key, in insertion order. */
  function Place(latest: seq<Record>, r: Record): seq<Record>
    requires r.contract.Some? && forall x :: x in latest ==> x.contract.Some?
  {
    if latest == [] then [r]
    else if KeyOf(latest[0]) == KeyOf(r) then
      if latest[0].contract.value.attempt < r.contract.value.attempt then [r] + latest[1..] else latest
    else [latest[0]] + Place(latest[1..], r)
  }

  function LatestAttempts(records: seq<Record>, parent: nat): (latest: seq<Record>)
    ensures forall x :: x in latest ==> x in records && Mine(x, parent)
  {
    if records == [] then []
    else
      var last := |records| - 1;
      var before := LatestAttempts(records[..last], parent);
      if Mine(records[last], parent) then
        PlaceMembers(before, records[last]);
        Place(before, records[last])
      else before
  }

  lemma {:induction false} PlaceMembers(latest: seq<Record>, r: Record)
    requires r.contract.Some? && forall x :: x in latest ==> x.contract.Some?
    ensures forall x :: x in Place(latest, r) ==> x in latest || x == r
  {
    if latest != [] {
      PlaceMembers(latest[1..], r);
    }
  }

  function FindKey(latest: seq<Record>, key: string): (found: Option<Record>)
    requires forall x :: x in latest ==> x.contract.Some?
    ensures found.Some? ==> found.value in latest && KeyOf(found.value) == Lower(key)
  {
    if latest == [] then None
    else if KeyOf(latest[0]) == Lower(key) then Some(latest[0])
    else FindKey(latest[1..], key)
  }

  // ----- Readiness in the front end -----

  predicate ResourcesConflict(left: seq<Resource>, right: seq<Resource>) {
    exists l, r :: l in left && r in right && Lower(l.key) == Lower(r.key)
      && (l.access == WriteAccess || r.access == WriteAccess)
  }

  predicate InTeam(r: Record, team: nat) {
    r.contract.Some? && r.contract.value.team == team
  }

  function RunningCount(records: seq<Record>, team: nat): nat {
    if records == [] then 0
    else
      var last := |records| - 1;
      RunningCount(records[..last], team)
        + if InTeam(records[last], team) && records[last].status == Running then 1 else 0
  }

  predicate NoRunningConflict(record: Record, records: seq<Record>)
    requires record.contract.Some?
  {
    forall c :: c in records && InTeam(c, record.contract.value.team) && c.id != record.id && c.status == Running
      ==> !ResourcesConflict(record.contract.value.resources, c.contract.value.resources)
  }

  predicate DependencyPassed(records: seq<Record>, parent: nat, key: string) {
    var found := FindKey(LatestAttempts(records, parent), key);
    found.Some? && Passed(found.value)
  }

  predicate IsReady(record: Record, records: seq<Record>) {
    if record.contract.None? then record.role == Subagent && record.status == Queued
    else
      var contract := record.contract.value;
      && record.status == Queued
      && RunningCount(records, contract.team) < MAX_PARALLEL
      && (forall d :: d in contract.dependsOn ==> DependencyPassed(records, contract.parent, d))
      && NoRunningConflict(record, records)
  }

  function ReadyOnes(all: seq<Record>, records: seq<Record>): (ready: seq<Record>)
    ensures forall r :: r in ready <==> r in all && r.role == Subagent && r.status == Queued && IsReady(r, records)
  {
    if all == [] then []
    else
      var r := all[0];
      (if r.role == Subagent && r.status == Queued && IsReady(r, records) then [r] else [])
        + ReadyOnes(all[1..], records)
  }

  /** One insertion of a stable sort by start time. */
  function InsertByStart(r: Record, sorted: seq<Record>): (result: seq<Record>)
    ensures multiset(result) == multiset(sorted) + multiset{r}
  {
    if sorted == [] then [r]
    else if r.startedAt <= sorted[0].startedAt then [r] + sorted
    else
      assert sorted == [sorted[0]] + sorted[1..];
      [sorted[0]] + InsertByStart(r, sorted[1..])
  }

  function SortByStart(records: seq<Record>): (sorted: seq<Record>)
    ensures multiset(sorted) == multiset(records)
  {
    if records == [] then []
    else
      assert records == [records[0]] + records[1..];
      InsertByStart(records[0], SortByStart(records[1..]))
  }

  function BatchSize(limit: int): nat {
    var capped := if limit < MAX_PARALLEL then limit else MAX_PARALLEL;
    if capped < 0 then 0 else capped
  }

  function ReadyAttempts(records: seq<Record>, limit: int): seq<Record> {
    var sorted := SortByStart(ReadyOnes(records, records));
    if |sorted| <= BatchSize(limit) then sorted else sorted[..BatchSize(limit)]
  }

  // ----- Synthesis -----

  predicate ChildOf(r: Record, parent: nat) {
    r.parent == Some(parent)
  }

  predicate WaitsForSynthesis(parent: Record, records: seq<Record>) {
    && parent.role == ParentRole && parent.status == Blocked
    && (exists c :: c in records && ChildOf(c, parent.id))
    && (forall c :: c in records && ChildOf(c, parent.id) ==> Terminal(c.status))
  }

  function BlockedParents(all: seq<Record>, records: seq<Record>): (parents: seq<Record>)
    ensures forall p :: p in parents <==> p in all && WaitsForSynthesis(p, records)
  {
    if all == [] then []
    else (if WaitsForSynthesis(all[0], records) then [all[0]] else []) + BlockedParents(all[1..], records)
  }

  predicate CanSynthesize(records: seq<Record>, parent: nat) {
    if forall c :: c in records && ChildOf(c, parent) ==> c.contract.None? then
      (exists c :: c in records && ChildOf(c, parent))
      && (forall c :: c in records && ChildOf(c, parent) ==> Terminal(c.status))
    else
      var latest := LatestAttempts(records, parent);
      latest != [] && forall r :: r in latest ==> Passed(r)
  }

  // ----- The kernel's check -----

  /** The kernel keeps the last of equal attempts, and looks through the team instead of the parent. */
  function KernelLatest(records: seq<Record>, team: nat, key: string): (found: Option<Record>)
    ensures found.Some? ==> found.value in records && InTeam(found.value, team) && KeyOf(found.value) == Lower(key)
  {
    if records == [] then None
    else
      var last := records[|records| - 1];
      var before := KernelLatest(records[..|records| - 1], team, key);
      if !InTeam(last, team) || KeyOf(last) != Lower(key) then before
      else if before.Some? && before.value.contract.value.attempt > last.contract.value.attempt then before
      else Some(last)
  }

  predicate ParentCurrent(record: Record, records: seq<Record>)
    requires record.contract.Some?
  {
    exists i :: 0 <= i < |records| && records[i].id == record.contract.value.parent
      && (forall j :: 0 <= j < i ==> records[j].id != record.contract.value.parent)
      && records[i].input == record.contract.value.inputRevision
  }

  /** `expert_attempt_ready`. */
  predicate KernelReady(record: Record, records: seq<Record>) {
    record.contract.None? || (
      var contract := record.contract.value;
      && ParentCurrent(record, records)
      && RunningCount(records, contract.team) < MAX_PARALLEL
      && (forall d :: d in contract.dependsOn ==>
            var found := KernelLatest(records, contract.team, d); found.Some? && Passed(found.value))
      && NoRunningConflict(record, records))
  }
}
