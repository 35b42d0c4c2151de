// Which artifacts are delivered in the end when nothing goes wrong and every rendering is clean.
module ArtifactOutcome {
  import opened Common
  import opened ArtifactFiles
  import opened ArtifactRecords
  import opened ArtifactSweep
  import opened ArtifactSafety
  import opened ArtifactReach
  import opened ArtifactDelivery

  predicate SoundFile(w: World, record: Record, bytes: Bytes) {
    ValidSize(bytes) && w.sound(record.request, bytes)
  }

  /** The revision an artifact is still entitled to can be made, as attempt `k`, and would pass. */
  predicate Mendable(w: World, files: Files, record: Record, path: Path, k: nat) {
    record.ref.Original? && k <= MAX_ARTIFACT_REVISIONS && CanStage(w, files, record.(attempts := k), path)
    && w.sound(record.request, Regenerate(w, record).value)
  }

  /** What decides the outcome from where a record, bound to `path`, stands. */
  predicate Deliverable(w: World, files: Files, record: Record, path: Path) {
    record.phase == Completed || (
      && record.phase != Phase.Failed && Holds(w, files, path, record.hash)
      && match record.phase
         case Generated => SoundFile(w, record, files[path]) || Mendable(w, files, record, path, record.attempts + 1)
         case RevisionRequired => Mendable(w, files, record, path, record.attempts + 1)
         case RevisionPrepared => Mendable(w, files, record, path, record.attempts)
         case _ => true)
  }

  predicate DeliverableRow(w: World, sys: System, id: nat) {
    id in sys.rows && (
      var record := sys.rows[id].record;
      var path := StoragePath(sys, record);
      path.Some? && Deliverable(w, sys.files, record, path.value))
  }

  const CLEAN := SMOOTH.(look := Clean)

  /** The record an undisturbed check leaves, outside a revision. */
  function Checked(w: World, record: Record, bytes: Bytes): Record {
    match record.phase
    case Generated => CheckStructure(w, record, bytes)
    case StructureChecked => CheckVisual(record, Clean)
    case RevisionRequired => RequestRevision(record)
    case _ => record.(phase := if Complete(record).Ok? then Completed else Phase.Failed)
  }

  lemma HandleChecks(w: World, sys: System, entry: Entry)
    requires entry.record.id in sys.rows && sys.rows[entry.record.id] == Row(entry.record, entry.version)
    requires Holds(w, sys.files, entry.path, entry.record.hash)
    requires Recoverable(entry.record.phase) && entry.record.phase != RevisionPrepared
    ensures var after := Handle(w, sys, entry, CLEAN);
      && after.rows[entry.record.id].record == Checked(w, entry.record, sys.files[entry.path])
      && after.files == sys.files && after.bindings == sys.bindings
  {
  }

  lemma StructureOutcome(w: World, files: Files, record: Record, path: Path)
    requires record.phase == Generated && Holds(w, files, path, record.hash)
    ensures Deliverable(w, files, CheckStructure(w, record, files[path]), path) <==> Deliverable(w, files, record, path)
  {
    var checked := CheckStructure(w, record, files[path]);
    SameStaging(w, files, record.(attempts := record.attempts + 1), checked.(attempts := record.attempts + 1), path);
  }

  lemma RequestOutcome(w: World, files: Files, record: Record, path: Path)
    requires record.phase == RevisionRequired && Holds(w, files, path, record.hash)
    ensures Deliverable(w, files, RequestRevision(record), path) <==> Deliverable(w, files, record, path)
  {
    if record.attempts < MAX_ARTIFACT_REVISIONS {
      assert RequestRevision(record).(attempts := record.attempts + 1) == RequestRevision(record);
      SameStaging(w, files, record.(attempts := record.attempts + 1), RequestRevision(record), path);
    }
  }

  lemma CheckedOutcome(w: World, files: Files, record: Record, path: Path)
    requires PhaseOk(record) && Recoverable(record.phase) && record.phase != RevisionPrepared
    requires Holds(w, files, path, record.hash)
    ensures Deliverable(w, files, Checked(w, record, files[path]), path) <==> Deliverable(w, files, record, path)
  {
    if record.phase == RevisionRequired {
      RequestOutcome(w, files, record, path);
    } else if record.phase == Generated {
      StructureOutcome(w, files, record, path);
    }
  }

  lemma SameStaging(w: World, files: Files, a: Record, b: Record, path: Path)
    requires a.id == b.id && a.request == b.request && a.attempts == b.attempts
    ensures CanStage(w, files, a, path) <==> CanStage(w, files, b, path)
  {
  }

  /** A revision that was just put in place is delivered exactly when what was generated is sound. */
  lemma ReplacedOutcome(w: World, after: System, record: Record, job: Job, version: nat)
    requires var ref := Revision(record.id, record.attempts);
      && ref in after.bindings && after.bindings[ref] == Binding(record.request, job.revised, w.hash(job.bytes))
      && record.id in after.rows && after.rows[record.id] == Row(ReplaceRevision(record, ref, w.hash(job.bytes)), version)
      && job.revised in after.files && after.files[job.revised] == job.bytes
    requires ValidSize(job.bytes)
    ensures DeliverableRow(w, after, record.id) <==> w.sound(record.request, job.bytes)
  {
  }

  lemma RevisedOutcome(w: World, sys: System, entry: Entry)
    requires Inv(w, sys) && Fresh(w, sys, entry) && entry.record.phase == RevisionPrepared
    requires Holds(w, sys.files, entry.path, entry.record.hash)
    requires entry.record.ref.Original? && CanStage(w, sys.files, entry.record, entry.path)
    ensures DeliverableRow(w, Handle(w, sys, entry, CLEAN), entry.record.id)
      <==> w.sound(entry.record.request, Regenerate(w, entry.record).value)
  {
    var bytes := Regenerate(w, entry.record).value;
    var job := RevisionJob(entry.record, entry.path, bytes);
    OriginalIsAuthorized(w, sys, entry);
    assert job.revised == RevisedPath(entry.path, entry.record.attempts);
    StagingIsPrepared(w, sys, entry);
    UndisturbedRevision(w, sys, entry, job, Clean);
    StagedWriteEffect(sys.files, job, Nowhere);
    ReplacedOutcome(w, Handle(w, sys, entry, CLEAN), entry.record, job, entry.version + 1);
  }

  lemma RevisingKeepsOutcome(w: World, sys: System, entry: Entry)
    requires Inv(w, sys) && Fresh(w, sys, entry) && entry.record.phase == RevisionPrepared
    requires Holds(w, sys.files, entry.path, entry.record.hash)
    ensures DeliverableRow(w, Handle(w, sys, entry, CLEAN), entry.record.id)
      <==> Deliverable(w, sys.files, entry.record, entry.path)
  {
    assert entry.record.(attempts := entry.record.attempts) == entry.record;
    assert PhaseOk(entry.record);
    if entry.record.ref.Original? && CanStage(w, sys.files, entry.record, entry.path) {
      RevisedOutcome(w, sys, entry);
    } else {
      RevisionOutcome(w, sys, entry, Clean);
    }
  }

  lemma CheckingKeepsOutcome(w: World, sys: System, entry: Entry)
    requires PhaseOk(entry.record) && StoragePath(sys, entry.record) == Some(entry.path)
    requires entry.record.id in sys.rows && sys.rows[entry.record.id] == Row(entry.record, entry.version)
    requires Holds(w, sys.files, entry.path, entry.record.hash)
    requires Recoverable(entry.record.phase) && entry.record.phase != RevisionPrepared
    ensures DeliverableRow(w, Handle(w, sys, entry, CLEAN), entry.record.id)
      <==> Deliverable(w, sys.files, entry.record, entry.path)
  {
    HandleChecks(w, sys, entry);
    CheckedOutcome(w, sys.files, entry.record, entry.path);
    var after := Handle(w, sys, entry, CLEAN);
    assert StoragePath(after, after.rows[entry.record.id].record) == Some(entry.path);
  }

  lemma ListedKeepsOutcome(w: World, sys: System, entry: Entry)
    requires Inv(w, sys) && Fresh(w, sys, entry) && Recoverable(entry.record.phase)
    ensures DeliverableRow(w, Handle(w, sys, entry, CLEAN), entry.record.id)
      <==> Deliverable(w, sys.files, entry.record, entry.path)
  {
    if !Holds(w, sys.files, entry.path, entry.record.hash) {
      StrayFails(w, sys, entry, Clean);
    } else if entry.record.phase == RevisionPrepared {
      RevisingKeepsOutcome(w, sys, entry);
    } else {
      CheckingKeepsOutcome(w, sys, entry);
    }
  }

  lemma PassKeepsOutcome(w: World, sys: System, id: nat)
    requires Inv(w, sys) && sys.due == [] && id in sys.rows && Recoverable(sys.rows[id].record.phase)
    ensures sys.rows[id].record.id == id
    ensures DeliverableRow(w, Pass(w, sys, id, Clean), id) <==> DeliverableRow(w, sys, id)
  {
    PassIsHandle(w, sys, id, Clean);
    var row := sys.rows[id];
    var entry := Entry(row.record, row.version, StoragePath(sys, row.record).value);
    assert EntryOk(w, sys, entry) by {
      assert RecordOk(w, sys, row.record);
    }
    ListedKeepsOutcome(w, sys, entry);
  }

  lemma SettledOutcome(w: World, sys: System, id: nat)
    requires RowsOk(w, sys) && id in sys.rows && !Recoverable(sys.rows[id].record.phase)
    ensures sys.rows[id].record.phase == if DeliverableRow(w, sys, id) then Completed else Phase.Failed
  {
    assert RecordOk(w, sys, sys.rows[id].record);
  }

  predicate AllClean(looks: seq<Look>) {
    forall i :: 0 <= i < |looks| ==> looks[i] == Clean
  }

  lemma CleanPass(w: World, sys: System, id: nat) returns (next: System)
    requires Inv(w, sys) && sys.due == [] && id in sys.rows && Recoverable(sys.rows[id].record.phase)
    ensures sys.rows[id].record.id == id && next == Pass(w, sys, id, Clean)
    ensures Inv(w, next) && next.due == [] && id in next.rows
    ensures Distance(next.rows[id].record) < Distance(sys.rows[id].record)
    ensures DeliverableRow(w, next, id) <==> DeliverableRow(w, sys, id)
  {
    PassKeepsOutcome(w, sys, id);
    next := JudgedPass(w, sys, id, Clean);
  }

  lemma {:induction false} CleanPassesEnd(w: World, sys: System, id: nat, looks: seq<Look>)
    requires Inv(w, sys) && sys.due == [] && id in sys.rows
    requires AllClean(looks) && |looks| >= Distance(sys.rows[id].record)
    ensures var after := Passes(w, sys, id, looks);
      id in after.rows && after.rows[id].record.phase == if DeliverableRow(w, sys, id) then Completed else Phase.Failed
    decreases |looks|
  {
    DistanceBound(sys.rows[id].record);
    if Recoverable(sys.rows[id].record.phase) {
      var next := CleanPass(w, sys, id);
      assert Passes(w, sys, id, looks) == Passes(w, next, id, looks[1..]);
      CleanPassesEnd(w, next, id, looks[1..]);
    } else {
      SettledOutcome(w, sys, id);
    }
  }

  /** Undisturbed and with clean renderings, an artifact is delivered exactly when its file still has its hash and
      is sound, or it was never revised and its one revision can be generated, staged and is sound; any other is
      given up. */
  lemma {:induction false} DeliveredExactly(w: World, sys: System, id: nat, looks: seq<Look>)
    requires Reachable(w, sys) && sys.due == [] && id in sys.rows
    requires AllClean(looks) && |looks| >= 24
    ensures var after := Passes(w, sys, id, looks);
      id in after.rows && after.rows[id].record.phase == if DeliverableRow(w, sys, id) then Completed else Phase.Failed
  {
    ReachableInv(w, sys);
    DistanceBound(sys.rows[id].record);
    CleanPassesEnd(w, sys, id, looks);
  }

  /** Where an uninterrupted registration of a new request leaves its record: completed exactly for a sound
      file with clean pages, waiting for a look that could not be judged, in need of a revision otherwise. */
  lemma RegistrationEndsExactly(w: World, sys: System, request: nat, id: nat, path: Path, look: Look)
    requires path in sys.files && id !in sys.rows && !HasRequest(sys, request)
    requires Bind(sys, Original(request), Binding(request, path, w.hash(sys.files[path]))).1
    ensures var after := RegisterOffice(w, sys, request, id, path, look, 5);
      && id in after.rows && after.rows[id].record.request == request
      && StoragePath(after, after.rows[id].record) == Some(path)
      && after.rows[id].record.phase ==
         if !SoundFile(w, after.rows[id].record, sys.files[path]) || look == Blemished then RevisionRequired
         else if look == Clean then Completed else StructureChecked
  {
    var bytes := sys.files[path];
    var record := FreshRecord(id, request, w.hash(bytes));
    var bound := Bind(sys, record.ref, Binding(request, path, record.hash)).0;
    InspectionEndsExactly(w, bound.(rows := bound.rows[id := Row(record, 0)]), record, bytes, look);
  }

  lemma InspectionEndsExactly(w: World, sys: System, record: Record, bytes: Bytes, look: Look)
    requires record.id in sys.rows && sys.rows[record.id] == Row(record, 0) && record.hash == w.hash(bytes)
    ensures var after := Inspect(w, sys, record, 0, bytes, look, 4);
      && record.id in after.rows && StoragePath(after, after.rows[record.id].record) == StoragePath(sys, record)
      && after.rows[record.id].record.request == record.request
      && after.rows[record.id].record.phase ==
         if !SoundFile(w, record, bytes) || look == Blemished then RevisionRequired
         else if look == Clean then Completed else StructureChecked
  {
  }

  /** A request that already has a record gets no second one, whether registered or prepared again. */
  lemma RegisteredOnce(w: World, sys: System, request: nat, id: nat, path: Path, hash: Hash, look: Look, cut: nat, stopped: bool)
    requires HasRequest(sys, request)
    ensures PrepareReport(sys, request, id, path, hash, stopped).rows == sys.rows
    ensures path in sys.files ==> RegisterOffice(w, sys, request, id, path, look, cut) == sys
  {
  }
}
