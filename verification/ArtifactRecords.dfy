// Artifact records, the checks that move them, and the tables that store them.
module ArtifactRecords {
  import opened Common
  import opened ArtifactFiles

  const MAX_ARTIFACT_REVISIONS := 3
  const MAX_ARTIFACT_BYTES := 64 * 1024 * 1024

  type Hash = nat

  /** What the model does not look into: the hash, the generator's output for a request's input, and the
      format-specific structure check. */
  datatype World = World(hash: Bytes -> Hash, generate: nat -> Option<Bytes>, sound: (nat, Bytes) -> bool)

  /** `artifact-storage:{request}` and `artifact-storage:{artifact}:revision:{attempt}`. */
  datatype Ref = Original(request: nat) | Revision(artifact: nat, attempt: nat)

  datatype Phase =
    Generated | StructureChecked | VisualChecked | RevisionRequired | RevisionPrepared | ReadyForDelivery | Completed | Failed

  datatype Evidence = Evidence(revision: nat, hash: Hash, passed: bool)

  datatype Record = Record(
    id: nat, request: nat, phase: Phase, revision: nat, hash: Hash, ref: Ref, attempts: nat,
    structure: Option<Evidence>, visual: Option<Evidence>)

  /** What rendering the pages showed. `Misfit` is evidence the check refuses to look at. */
  datatype Look = RenderFailed | Misfit | Blemished | Clean

  function FreshRecord(id: nat, request: nat, hash: Hash): Record {
    Record(id, request, Generated, 0, hash, Original(request), 0, None, None)
  }

  predicate ValidSize(bytes: Bytes) {
    0 < |bytes| <= MAX_ARTIFACT_BYTES
  }

  function Regenerate(w: World, record: Record): Option<Bytes> {
    var made := w.generate(record.request);
    if made.Some? && ValidSize(made.value) then made else None
  }

  function CheckStructure(w: World, record: Record, bytes: Bytes): Record {
    var passed := ValidSize(bytes) && w.hash(bytes) == record.hash && w.sound(record.request, bytes);
    record.(
      structure := Some(Evidence(record.revision, record.hash, passed)),
      phase := if passed then StructureChecked else RevisionRequired)
  }

  function CheckVisual(record: Record, look: Look): Record {
    if record.phase != StructureChecked || look == RenderFailed || look == Misfit then record
    else record.(
        visual := Some(Evidence(record.revision, record.hash, look == Clean)),
        phase := if look == Clean then ReadyForDelivery else RevisionRequired)
  }

  predicate Current(record: Record, evidence: Option<Evidence>) {
    evidence.Some? && evidence.value.passed
    && evidence.value.revision == record.revision && evidence.value.hash == record.hash
  }

  function Complete(record: Record): Result<Record> {
    if Current(record, record.structure) && Current(record, record.visual) then Ok(record.(phase := Completed)) else Refused
  }

  function RequestRevision(record: Record): Record {
    if record.attempts >= MAX_ARTIFACT_REVISIONS then record.(phase := Failed)
    else record.(attempts := record.attempts + 1, phase := RevisionPrepared)
  }

  function ReplaceRevision(record: Record, ref: Ref, hash: Hash): Record {
    record.(ref := ref, revision := record.revision + 1, hash := hash, structure := None, visual := None, phase := Generated)
  }

  predicate Recoverable(phase: Phase) {
    phase != Completed && phase != Failed
  }

  // ----- Tables -----

  datatype Binding = Binding(request: nat, path: Path, hash: Hash)

  datatype Authority = Authority(request: nat, dir: string, stem: string, extension: string)

  datatype Row = Row(record: Record, version: nat)

  datatype Entry = Entry(record: Record, version: nat, path: Path)

  /** The files, the tables, and the records a sweep has listed and not handled yet. */
  datatype System = System(
    files: Files, bindings: map<Ref, Binding>, authorities: map<Ref, Authority>, previews: set<(nat, nat)>,
    rows: map<nat, Row>, due: seq<Entry>)

  /** `artifact_storage_path`. */
  function StoragePath(sys: System, record: Record): Option<Path> {
    if record.ref in sys.bindings && sys.bindings[record.ref].request == record.request
       && sys.bindings[record.ref].hash == record.hash
    then Some(sys.bindings[record.ref].path)
    else None
  }

  /** `update_artifact_record`: compare-and-set on the row's version. */
  function Save(sys: System, record: Record, version: nat, saved: bool): (after: System)
    ensures after == sys.(rows := after.rows)
  {
    if saved && record.id in sys.rows && sys.rows[record.id].version == version
    then sys.(rows := sys.rows[record.id := Row(record, version + 1)])
    else sys
  }

  function NeedsAttention(sys: System, record: Record, version: nat, saved: bool): System {
    Save(sys, record.(phase := Failed), version, saved)
  }

  /** `bind_artifact_storage_path`: a reference is bound once; an original reference also gets the authority
      for its later revisions, which needs a file name with an extension. */
  function Bind(sys: System, ref: Ref, binding: Binding): (result: (System, bool))
    ensures result.0 == sys.(bindings := result.0.bindings, authorities := result.0.authorities)
    ensures result.0.bindings == sys.bindings || result.0.bindings == sys.bindings[ref := binding]
  {
    if ref in sys.bindings && sys.bindings[ref] != binding then (sys, false)
    else
      var bound := sys.(bindings := sys.bindings[ref := binding]);
      var parts := Split(binding.path.name);
      if ref.Revision? then (bound, true)
      else if parts.None? then (bound, false)
      else if ref in sys.authorities then (bound, true)
      else
        var authority := Authority(binding.request, binding.path.dir, parts.value.0, parts.value.1);
        (bound.(authorities := sys.authorities[ref := authority]), true)
  }

  /** `authorize_artifact_revision_path`. */
  predicate Authorized(sys: System, record: Record, proposed: Path) {
    record.ref in sys.authorities && (
      var a := sys.authorities[record.ref];
      && a.request == record.request && 0 < record.attempts <= MAX_ARTIFACT_REVISIONS
      && proposed == Path(a.dir, RevisedName(a.stem, a.extension, record.attempts)))
  }

  function RevisionJob(record: Record, current: Path, bytes: Bytes): (job: Job)
    requires Split(current.name).Some?
    ensures job.revised != job.staging
  {
    var (stem, extension) := Split(current.name).value;
    var name := RevisedName(stem, extension, record.attempts);
    StagingNameIsLonger(name, record.id, record.attempts);
    Job(Path(current.dir, name), Path(current.dir, StagingName(name, record.id, record.attempts)), bytes)
  }

  // ----- Handling one listed record -----

  /** What goes right while one record is handled. A false flag stands for a failing operation, and equally
      for a crash just before it. */
  datatype Luck = Luck(readable: bool, look: Look, authority: bool, stop: Stop, previews: bool, bound: bool, saved: bool)

  const SMOOTH := Luck(true, Clean, true, Nowhere, true, true, true)

  predicate Undisturbed(luck: Luck) {
    luck == SMOOTH.(look := luck.look)
  }

  function Revise(w: World, sys: System, entry: Entry, luck: Luck): (after: System)
    ensures after.due == sys.due
    ensures forall id :: id in sys.rows ==> id in after.rows
  {
    var record := entry.record;
    var made := Regenerate(w, record);
    if made.None? || Split(entry.path.name).None? then NeedsAttention(sys, record, entry.version, luck.saved)
    else
      var job := RevisionJob(record, entry.path, made.value);
      if !luck.authority || !Authorized(sys, record, job.revised) then NeedsAttention(sys, record, entry.version, luck.saved)
      else
        var (files, reply) := StagedWrite(sys.files, job, luck.stop);
        var staged := sys.(files := files);
        match reply
        case Crashed => staged
        case Erred => NeedsAttention(staged, record, entry.version, luck.saved)
        case Written => Rebind(w, staged, entry, job, luck)
  }

  function Rebind(w: World, staged: System, entry: Entry, job: Job, luck: Luck): (after: System)
    ensures after.due == staged.due
    ensures forall id :: id in staged.rows ==> id in after.rows
    ensures forall ref :: ref in after.bindings && ref !in staged.bindings ==> after.bindings[ref].path == job.revised
    ensures after.files == staged.files
  {
    var record := entry.record;
    var ref := Revision(record.id, record.attempts);
    var (bound, ok) := Bind(staged, ref, Binding(record.request, job.revised, w.hash(job.bytes)));
    if !luck.bound || !ok then staged
    else Save(bound, ReplaceRevision(record, ref, w.hash(job.bytes)), entry.version, luck.saved)
  }

  function LookAt(sys: System, entry: Entry, luck: Luck): (after: System)
    ensures after.bindings == sys.bindings
    ensures after.due == sys.due
    ensures forall id :: id in sys.rows ==> id in after.rows
  {
    var checked := CheckVisual(entry.record, luck.look);
    match luck.look
    case RenderFailed => NeedsAttention(sys, entry.record, entry.version, luck.saved)
    case Clean =>
      if !luck.previews then sys
      else Save(sys.(previews := sys.previews + {(entry.record.id, entry.record.revision)}), checked, entry.version, luck.saved)
    case _ => Save(sys, checked, entry.version, luck.saved)
  }

  function Handle(w: World, sys: System, entry: Entry, luck: Luck): (after: System)
    ensures entry.record.phase != RevisionPrepared ==> after.bindings == sys.bindings
    ensures after.due == sys.due
    ensures forall id :: id in sys.rows ==> id in after.rows
  {
    var record := entry.record;
    if !luck.readable || entry.path !in sys.files || w.hash(sys.files[entry.path]) != record.hash then
      NeedsAttention(sys, record, entry.version, luck.saved)
    else
      match record.phase
      case Generated => Save(sys, CheckStructure(w, record, sys.files[entry.path]), entry.version, luck.saved)
      case StructureChecked => LookAt(sys, entry, luck)
      case ReadyForDelivery | VisualChecked =>
        var done := Complete(record);
        if done.Ok? then Save(sys, done.value, entry.version, luck.saved)
        else NeedsAttention(sys, record, entry.version, luck.saved)
      case RevisionRequired => Save(sys, RequestRevision(record), entry.version, luck.saved)
      case RevisionPrepared => Revise(w, sys, entry, luck)
      case _ => sys
  }
}
