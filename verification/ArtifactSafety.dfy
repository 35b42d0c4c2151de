// What every reachable state of the artifact tables and files keeps.
module ArtifactSafety {
  import opened Common
  import opened Text
  import opened ArtifactFiles
  import opened ArtifactRecords
  import opened ArtifactSweep

  // ----- The invariant -----

  ghost predicate BindingOk(w: World, sys: System, ref: Ref)
    requires ref in sys.bindings
  {
    var b := sys.bindings[ref];
    (ref.Original? ==> b.request == ref.request) && (ref.Revision? ==> ref.artifact in sys.rows)
  }

  /** A bound path is no staging name, and no revision's name while it waits for its file. */
  ghost predicate NameOk(sys: System, ref: Ref)
    requires ref in sys.bindings
  {
    !IsStaging(sys.bindings[ref].path.name) && (sys.bindings[ref].path !in sys.files ==> Plain(sys.bindings[ref].path.name))
  }

  ghost predicate NamesOk(sys: System) {
    forall ref :: ref in sys.bindings ==> NameOk(sys, ref)
  }

  ghost predicate AuthorityOk(sys: System, ref: Ref)
    requires ref in sys.authorities
  {
    var a := sys.authorities[ref];
    && ref.Original? && ref in sys.bindings
    && a.request == ref.request && a.dir == sys.bindings[ref].path.dir
    && Split(sys.bindings[ref].path.name) == Some((a.stem, a.extension))
  }

  ghost predicate LineageOk(sys: System, record: Record) {
    match record.ref
    case Original(r) => r == record.request && record.revision == 0 && record.ref in sys.authorities
    case Revision(a, k) => a == record.id && record.revision == 1 && 1 <= k <= record.attempts
  }

  predicate EvidenceFits(record: Record, evidence: Option<Evidence>) {
    evidence.Some? ==> evidence.value.revision == record.revision && evidence.value.hash == record.hash
  }

  ghost predicate PhaseOk(record: Record) {
    && record.attempts <= MAX_ARTIFACT_REVISIONS
    && (record.phase == RevisionPrepared ==> record.attempts >= 1)
    && (record.phase == StructureChecked ==> Current(record, record.structure))
    && (record.phase == ReadyForDelivery || record.phase == Completed ==>
          Current(record, record.structure) && Current(record, record.visual))
    && record.phase != VisualChecked
  }

  /** Some content with this hash is what the request asked for. */
  ghost predicate VouchedFor(w: World, request: nat, hash: Hash) {
    exists bytes :: w.hash(bytes) == hash && ValidSize(bytes) && w.sound(request, bytes)
  }

  ghost predicate RecordOk(w: World, sys: System, record: Record) {
    var path := StoragePath(sys, record);
    && path.Some? && LineageOk(sys, record) && PhaseOk(record)
    && EvidenceFits(record, record.structure) && EvidenceFits(record, record.visual)
    && (Current(record, record.structure) ==> VouchedFor(w, record.request, record.hash))
    && (Current(record, record.visual) ==> (record.id, record.revision) in sys.previews)
    && (path.value !in sys.files ==>
          (record.phase == Generated || record.phase == Phase.Failed) && record.structure.None? && record.visual.None? && record.ref.Original?)
  }

  function RevisedPath(current: Path, attempt: nat): Path
    requires Split(current.name).Some?
  {
    Path(current.dir, RevisedName(Split(current.name).value.0, Split(current.name).value.1, attempt))
  }

  /** A revision that was written and bound, while its row still names the original. */
  ghost predicate PendingOk(w: World, sys: System, id: nat, attempt: nat)
    requires Revision(id, attempt) in sys.bindings && id in sys.rows
  {
    var record := sys.rows[id].record;
    var path := StoragePath(sys, record);
    var made := Regenerate(w, record);
    record.ref.Original? ==>
      && made.Some? && path.Some? && Split(path.value.name).Some?
      && sys.bindings[Revision(id, attempt)]
         == Binding(record.request, RevisedPath(path.value, attempt), w.hash(made.value))
  }

  ghost predicate TablesOk(w: World, sys: System) {
    && (forall ref :: ref in sys.bindings ==> BindingOk(w, sys, ref))
    && (forall ref :: ref in sys.authorities ==> AuthorityOk(sys, ref))
  }

  ghost predicate RowsOk(w: World, sys: System) {
    && (forall id :: id in sys.rows ==> sys.rows[id].record.id == id && RecordOk(w, sys, sys.rows[id].record))
    && (forall id, attempt :: id in sys.rows && Revision(id, attempt) in sys.bindings ==> PendingOk(w, sys, id, attempt))
  }

  /** A listed record may have been overtaken by its row, but never by an equal version. */
  ghost predicate EntryOk(w: World, sys: System, entry: Entry) {
    var record := entry.record;
    && record.id in sys.rows && RecordOk(w, sys, record) && StoragePath(sys, record) == Some(entry.path)
    && sys.rows[record.id].record.request == record.request
    && (sys.rows[record.id].version == entry.version ==> sys.rows[record.id].record == record)
    && sys.rows[record.id].version >= entry.version
  }

  ghost predicate Core(w: World, sys: System) {
    TablesOk(w, sys) && RowsOk(w, sys)
  }

  ghost predicate Inv(w: World, sys: System) {
    Core(w, sys) && NamesOk(sys) && forall i :: 0 <= i < |sys.due| ==> EntryOk(w, sys, sys.due[i])
  }

  // ----- What steps may do to each other's facts -----

  predicate RowGrown(row: Row, after: Row) {
    row == after || (row.version < after.version && row.record.request == after.record.request)
  }

  /** Nothing recorded is forgotten, and no bound file goes away. */
  ghost predicate Grown(sys: System, after: System) {
    && (forall ref :: ref in sys.bindings ==>
          ref in after.bindings && after.bindings[ref] == sys.bindings[ref]
          && (sys.bindings[ref].path in sys.files ==> sys.bindings[ref].path in after.files))
    && (forall ref :: ref in sys.authorities ==> ref in after.authorities)
    && sys.previews <= after.previews
    && (forall id :: id in sys.rows ==> id in after.rows && RowGrown(sys.rows[id], after.rows[id]))
  }

  ghost predicate Keeps(w: World, sys: System, after: System) {
    Core(w, after) && Grown(sys, after)
  }

  lemma KeepsOn(w: World, sys: System, middle: System, after: System)
    requires Keeps(w, sys, middle) && Keeps(w, middle, after)
    ensures Keeps(w, sys, after)
  {
    forall id | id in sys.rows
      ensures id in after.rows && RowGrown(sys.rows[id], after.rows[id])
    {
      assert RowGrown(sys.rows[id], middle.rows[id]) && RowGrown(middle.rows[id], after.rows[id]);
    }
  }

  lemma RecordStaysOk(w: World, sys: System, after: System, record: Record)
    requires RecordOk(w, sys, record) && Grown(sys, after)
    ensures RecordOk(w, after, record) && StoragePath(after, record) == StoragePath(sys, record)
  {
  }

  lemma EntryStaysOk(w: World, sys: System, after: System, entry: Entry)
    requires EntryOk(w, sys, entry) && Grown(sys, after)
    ensures EntryOk(w, after, entry)
  {
    RecordStaysOk(w, sys, after, entry.record);
    assert RowGrown(sys.rows[entry.record.id], after.rows[entry.record.id]);
  }

  /** A row that keeps its original reference keeps what is known of its pending revision. */
  lemma PendingStaysOk(w: World, sys: System, after: System, id: nat, attempt: nat)
    requires Revision(id, attempt) in sys.bindings && id in sys.rows && PendingOk(w, sys, id, attempt)
    requires id in after.rows && RecordOk(w, after, after.rows[id].record) && RecordOk(w, sys, sys.rows[id].record)
    requires after.rows[id].record.ref.Original? ==> after.rows[id].record.ref == sys.rows[id].record.ref
    requires Grown(sys, after)
    ensures PendingOk(w, after, id, attempt)
  {
    assert after.bindings[Revision(id, attempt)] == sys.bindings[Revision(id, attempt)];
    assert after.rows[id].record.ref in sys.bindings ==>
        after.bindings[after.rows[id].record.ref] == sys.bindings[after.rows[id].record.ref];
  }

  /** What a record read at a version may be saved over. */
  ghost predicate Supersedes(sys: System, record: Record, version: nat) {
    record.id in sys.rows && (sys.rows[record.id].version == version ==>
      sys.rows[record.id].record.request == record.request
      && (record.ref.Original? ==> sys.rows[record.id].record.ref == record.ref))
  }

  /** One row put in place, new or newer, with at most previews added. */
  ghost predicate RowPut(w: World, sys: System, after: System, id: nat) {
    && id in after.rows && after == sys.(rows := sys.rows[id := after.rows[id]], previews := after.previews)
    && sys.previews <= after.previews
    && after.rows[id].record.id == id && RecordOk(w, after, after.rows[id].record)
    && (id in sys.rows ==>
          RowGrown(sys.rows[id], after.rows[id])
          && (after.rows[id].record.ref.Original? ==> after.rows[id].record.ref == sys.rows[id].record.ref))
  }

  lemma RowPutTables(w: World, sys: System, after: System, id: nat)
    requires TablesOk(w, sys) && RowPut(w, sys, after, id)
    ensures TablesOk(w, after) && Grown(sys, after)
  {
    forall ref | ref in after.bindings
      ensures BindingOk(w, after, ref)
    {
      assert BindingOk(w, sys, ref);
    }
    forall ref | ref in after.authorities
      ensures AuthorityOk(after, ref)
    {
      assert AuthorityOk(sys, ref);
    }
  }

  lemma RowPutKeeps(w: World, sys: System, after: System, id: nat)
    requires Core(w, sys) && RowPut(w, sys, after, id)
    ensures Keeps(w, sys, after)
  {
    RowPutTables(w, sys, after, id);
    forall other | other in after.rows
      ensures after.rows[other].record.id == other && RecordOk(w, after, after.rows[other].record)
    {
      if other != id {
        RecordStaysOk(w, sys, after, sys.rows[other].record);
      }
    }
    forall other, attempt | other in after.rows && Revision(other, attempt) in after.bindings
      ensures PendingOk(w, after, other, attempt)
    {
      assert BindingOk(w, sys, Revision(other, attempt));
      PendingStaysOk(w, sys, after, other, attempt);
    }
  }

  lemma SavedShape(w: World, sys: System, shown: System, record: Record, version: nat, saved: bool)
    requires record.id in sys.rows && RecordOk(w, sys, sys.rows[record.id].record) && sys.rows[record.id].record.id == record.id
    requires shown == sys.(previews := shown.previews) && sys.previews <= shown.previews
    requires RecordOk(w, shown, record) && Supersedes(sys, record, version)
    ensures RowPut(w, sys, Save(shown, record, version, saved), record.id)
  {
    var after := Save(shown, record, version, saved);
    assert sys.rows[record.id := sys.rows[record.id]] == sys.rows;
    if after.rows != sys.rows {
      assert RecordOk(w, after, record);
    }
  }

  lemma SameRowsStayOk(w: World, sys: System, after: System)
    requires RowsOk(w, sys) && Grown(sys, after) && after.rows == sys.rows
    ensures forall id :: id in after.rows ==> after.rows[id].record.id == id && RecordOk(w, after, after.rows[id].record)
    ensures (forall ref :: ref in after.bindings && ref.Revision? ==> ref in sys.bindings) ==> RowsOk(w, after)
  {
    forall id | id in after.rows
      ensures after.rows[id].record.id == id && RecordOk(w, after, after.rows[id].record)
    {
      RecordStaysOk(w, sys, after, sys.rows[id].record);
    }
    forall id, attempt | id in after.rows && Revision(id, attempt) in sys.bindings
      ensures PendingOk(w, after, id, attempt)
    {
      PendingStaysOk(w, sys, after, id, attempt);
    }
  }

  lemma SavedKeeps(w: World, sys: System, record: Record, version: nat, saved: bool)
    requires Core(w, sys) && RecordOk(w, sys, record) && Supersedes(sys, record, version)
    ensures Keeps(w, sys, Save(sys, record, version, saved))
  {
    SavedShape(w, sys, sys, record, version, saved);
    RowPutKeeps(w, sys, Save(sys, record, version, saved), record.id);
  }

  // ----- One record -----

  lemma CheckedOk(w: World, sys: System, record: Record, bytes: Bytes)
    requires RecordOk(w, sys, record) && StoragePath(sys, record).value in sys.files
    ensures RecordOk(w, sys, CheckStructure(w, record, bytes))
  {
    assert StoragePath(sys, CheckStructure(w, record, bytes)) == StoragePath(sys, record);
  }

  lemma SeenOk(w: World, sys: System, record: Record, look: Look)
    requires RecordOk(w, sys, record) && record.phase == StructureChecked
    requires look == Clean ==> (record.id, record.revision) in sys.previews
    ensures RecordOk(w, sys, CheckVisual(record, look))
  {
    assert StoragePath(sys, CheckVisual(record, look)) == StoragePath(sys, record);
  }

  lemma CompletedOk(w: World, sys: System, record: Record)
    requires RecordOk(w, sys, record) && Complete(record).Ok?
    ensures RecordOk(w, sys, Complete(record).value)
  {
    assert StoragePath(sys, Complete(record).value) == StoragePath(sys, record);
  }

  lemma RequestedOk(w: World, sys: System, record: Record)
    requires RecordOk(w, sys, record) && record.phase == RevisionRequired
    ensures RecordOk(w, sys, RequestRevision(record))
  {
    assert StoragePath(sys, RequestRevision(record)) == StoragePath(sys, record);
  }

  lemma FailedOk(w: World, sys: System, record: Record)
    requires RecordOk(w, sys, record)
    ensures RecordOk(w, sys, record.(phase := Phase.Failed))
  {
    assert StoragePath(sys, record.(phase := Phase.Failed)) == StoragePath(sys, record);
  }

  // ----- Writing and binding a revision -----

  lemma RevisedNameIsNotPlain(name: string, attempt: nat)
    requires Split(name).Some?
    ensures var (stem, extension) := Split(name).value;
      !Plain(RevisedName(stem, extension, attempt)) && !IsStaging(RevisedName(stem, extension, attempt))
  {
    RevisedNameIsNew(name, attempt);
    var (stem, extension) := Split(name).value;
    assert Dotted(stem, "revision-" + Decimal(attempt))[|stem|] == '.';
  }

  /** The revised and staged names of a revision are never a bound path that still awaits its file. */
  lemma WriteKeepsBound(w: World, sys: System, record: Record, current: Path, bytes: Bytes, stop: Stop)
    requires TablesOk(w, sys) && NamesOk(sys) && Split(current.name).Some?
    ensures var job := RevisionJob(record, current, bytes);
      var after := sys.(files := StagedWrite(sys.files, job, stop).0);
      TablesOk(w, after) && Grown(sys, after)
  {
    var job := RevisionJob(record, current, bytes);
    var after := sys.(files := StagedWrite(sys.files, job, stop).0);
    forall ref | ref in after.bindings
      ensures BindingOk(w, after, ref) && (sys.bindings[ref].path in sys.files ==> sys.bindings[ref].path in after.files)
    {
      assert BindingOk(w, sys, ref) && NameOk(sys, ref);
      JobAvoids(sys, ref, record, current, bytes);
      StagedWriteLeaves(sys.files, job, stop, sys.bindings[ref].path);
    }
    forall ref | ref in after.authorities
      ensures AuthorityOk(after, ref)
    {
      assert AuthorityOk(sys, ref);
    }
  }

  lemma JobAvoids(sys: System, ref: Ref, record: Record, current: Path, bytes: Bytes)
    requires ref in sys.bindings && NameOk(sys, ref) && Split(current.name).Some?
    ensures var job, path := RevisionJob(record, current, bytes), sys.bindings[ref].path;
      path != job.staging && (path == job.revised ==> path in sys.files)
  {
    var job := RevisionJob(record, current, bytes);
    RevisedNameIsNotPlain(current.name, record.attempts);
    StagingNameIsStaging(job.revised.name, record.id, record.attempts);
  }

  lemma WriteKeeps(w: World, sys: System, record: Record, current: Path, bytes: Bytes, stop: Stop)
    requires Core(w, sys) && NamesOk(sys) && Split(current.name).Some?
    ensures var after := sys.(files := StagedWrite(sys.files, RevisionJob(record, current, bytes), stop).0);
      Keeps(w, sys, after)
  {
    var after := sys.(files := StagedWrite(sys.files, RevisionJob(record, current, bytes), stop).0);
    WriteKeepsBound(w, sys, record, current, bytes, stop);
    SameRowsStayOk(w, sys, after);
  }

  /** What is known of a revision about to be bound, whether or not an earlier sweep already bound it. */
  lemma RevisionToBind(w: World, sys: System, entry: Entry, bytes: Bytes)
    requires Core(w, sys) && EntryOk(w, sys, entry) && entry.record.ref.Original? && Split(entry.path.name).Some?
    requires Regenerate(w, entry.record) == Some(bytes)
    requires sys.rows[entry.record.id].record.ref.Original?
    ensures var ref := Revision(entry.record.id, entry.record.attempts);
      var job := RevisionJob(entry.record, entry.path, bytes);
      ref in sys.bindings ==> sys.bindings[ref] == Binding(entry.record.request, job.revised, w.hash(bytes))
  {
    var id, attempt := entry.record.id, entry.record.attempts;
    assert RecordOk(w, sys, sys.rows[id].record);
    if Revision(id, attempt) in sys.bindings {
      assert PendingOk(w, sys, id, attempt);
      assert RevisedPath(entry.path, attempt) == RevisionJob(entry.record, entry.path, bytes).revised;
    }
  }

  lemma BoundIsPending(w: World, after: System, entry: Entry, bytes: Bytes)
    requires EntryOk(w, after, entry) && entry.record.ref.Original? && Split(entry.path.name).Some?
    requires Regenerate(w, entry.record) == Some(bytes)
    requires RecordOk(w, after, after.rows[entry.record.id].record) && after.rows[entry.record.id].record.id == entry.record.id
    requires var ref := Revision(entry.record.id, entry.record.attempts);
      var job := RevisionJob(entry.record, entry.path, bytes);
      ref in after.bindings && after.bindings[ref] == Binding(entry.record.request, job.revised, w.hash(bytes))
    ensures PendingOk(w, after, entry.record.id, entry.record.attempts)
  {
    assert RevisedPath(entry.path, entry.record.attempts) == RevisionJob(entry.record, entry.path, bytes).revised;
  }

  /** Binding a written revision of a row that still names its original. */
  lemma BindRevisionKeeps(w: World, sys: System, entry: Entry, bytes: Bytes)
    requires Core(w, sys) && EntryOk(w, sys, entry) && entry.record.ref.Original? && Split(entry.path.name).Some?
    requires Regenerate(w, entry.record) == Some(bytes)
    requires var ref, job := Revision(entry.record.id, entry.record.attempts), RevisionJob(entry.record, entry.path, bytes);
      && job.revised in sys.files && sys.files[job.revised] == bytes
      && (ref in sys.bindings ==> sys.bindings[ref] == Binding(entry.record.request, job.revised, w.hash(bytes)))
    ensures var record, job := entry.record, RevisionJob(entry.record, entry.path, bytes);
      var (after, ok) := Bind(sys, Revision(record.id, record.attempts), Binding(record.request, job.revised, w.hash(bytes)));
      ok && Keeps(w, sys, after) && EntryOk(w, after, entry)
  {
    var record, job := entry.record, RevisionJob(entry.record, entry.path, bytes);
    var ref, binding := Revision(record.id, record.attempts), Binding(record.request, job.revised, w.hash(bytes));
    var after := Bind(sys, ref, binding).0;
    BoundRevisionTables(w, sys, ref, binding);
    EntryStaysOk(w, sys, after, entry);
    SameRowsStayOk(w, sys, after);
    forall id, attempt | id in after.rows && Revision(id, attempt) in after.bindings
      ensures PendingOk(w, after, id, attempt)
    {
      if Revision(id, attempt) == ref {
        BoundIsPending(w, after, entry, bytes);
      } else {
        PendingStaysOk(w, sys, after, id, attempt);
      }
    }
  }

  lemma BoundRevisionTables(w: World, sys: System, ref: Ref, binding: Binding)
    requires TablesOk(w, sys) && ref.Revision? && ref.artifact in sys.rows
    requires ref in sys.bindings ==> sys.bindings[ref] == binding
    ensures TablesOk(w, Bind(sys, ref, binding).0) && Grown(sys, Bind(sys, ref, binding).0)
  {
    var after := Bind(sys, ref, binding).0;
    forall other | other in after.bindings
      ensures BindingOk(w, after, other)
    {
      assert other in sys.bindings ==> BindingOk(w, sys, other);
    }
    forall other | other in after.authorities
      ensures AuthorityOk(after, other)
    {
      assert AuthorityOk(sys, other);
    }
  }

  lemma ReplacedOk(w: World, sys: System, record: Record, hash: Hash)
    requires LineageOk(sys, record) && record.ref.Original? && 1 <= record.attempts <= MAX_ARTIFACT_REVISIONS
    requires var ref := Revision(record.id, record.attempts);
      ref in sys.bindings && sys.bindings[ref].request == record.request && sys.bindings[ref].hash == hash
      && sys.bindings[ref].path in sys.files
    ensures RecordOk(w, sys, ReplaceRevision(record, Revision(record.id, record.attempts), hash))
  {
  }

  lemma NeedsAttentionKeeps(w: World, sys: System, record: Record, version: nat, saved: bool)
    requires Core(w, sys) && RecordOk(w, sys, record) && Supersedes(sys, record, version)
    ensures Keeps(w, sys, NeedsAttention(sys, record, version, saved))
  {
    FailedOk(w, sys, record);
    SavedKeeps(w, sys, record.(phase := Phase.Failed), version, saved);
  }

  lemma ReviseKeeps(w: World, sys: System, entry: Entry, luck: Luck)
    requires Core(w, sys) && NamesOk(sys) && EntryOk(w, sys, entry) && entry.record.phase == RevisionPrepared && entry.path in sys.files
    ensures Keeps(w, sys, Revise(w, sys, entry, luck))
  {
    var made := Regenerate(w, entry.record);
    if made.Some? && Split(entry.path.name).Some? && luck.authority
       && Authorized(sys, entry.record, RevisionJob(entry.record, entry.path, made.value).revised) {
      WriteAndRebindKeeps(w, sys, entry, made.value, luck);
    } else {
      NeedsAttentionKeeps(w, sys, entry.record, entry.version, luck.saved);
    }
  }

  lemma StagedKeeps(w: World, sys: System, staged: System, entry: Entry, bytes: Bytes, stop: Stop)
    requires Core(w, sys) && NamesOk(sys) && EntryOk(w, sys, entry) && entry.path in sys.files
    requires Split(entry.path.name).Some?
    requires staged == sys.(files := StagedWrite(sys.files, RevisionJob(entry.record, entry.path, bytes), stop).0)
    ensures Keeps(w, sys, staged) && EntryOk(w, staged, entry) && entry.path in staged.files
  {
    WriteKeeps(w, sys, entry.record, entry.path, bytes, stop);
    EntryStaysOk(w, sys, staged, entry);
    BoundFileStays(w, sys, staged, entry);
  }

  lemma WriteAndRebindKeeps(w: World, sys: System, entry: Entry, bytes: Bytes, luck: Luck)
    requires Core(w, sys) && NamesOk(sys) && EntryOk(w, sys, entry) && entry.record.phase == RevisionPrepared && entry.path in sys.files
    requires Regenerate(w, entry.record) == Some(bytes) && Split(entry.path.name).Some? && luck.authority
    requires Authorized(sys, entry.record, RevisionJob(entry.record, entry.path, bytes).revised)
    ensures Keeps(w, sys, Revise(w, sys, entry, luck))
  {
    var record, job := entry.record, RevisionJob(entry.record, entry.path, bytes);
    var (files, reply) := StagedWrite(sys.files, job, luck.stop);
    var staged := sys.(files := files);
    StagedKeeps(w, sys, staged, entry, bytes, luck.stop);
    if reply == Erred {
      ErredKeeps(w, sys, staged, entry, luck);
    } else if reply == Written {
      AuthorizedIsOriginal(w, sys, record, job.revised);
      StagedWriteEffect(sys.files, job, luck.stop);
      WrittenKeeps(w, sys, staged, entry, bytes, luck);
    }
  }

  lemma ErredKeeps(w: World, sys: System, staged: System, entry: Entry, luck: Luck)
    requires Keeps(w, sys, staged) && EntryOk(w, staged, entry)
    ensures Keeps(w, sys, NeedsAttention(staged, entry.record, entry.version, luck.saved))
  {
    NeedsAttentionKeeps(w, staged, entry.record, entry.version, luck.saved);
    KeepsOn(w, sys, staged, NeedsAttention(staged, entry.record, entry.version, luck.saved));
  }

  lemma WrittenKeeps(w: World, sys: System, staged: System, entry: Entry, bytes: Bytes, luck: Luck)
    requires Keeps(w, sys, staged) && EntryOk(w, staged, entry)
    requires entry.record.phase == RevisionPrepared && entry.record.ref.Original?
    requires Split(entry.path.name).Some? && Regenerate(w, entry.record) == Some(bytes)
    requires var job := RevisionJob(entry.record, entry.path, bytes);
      job.revised in staged.files && staged.files[job.revised] == bytes
    ensures Keeps(w, sys, Rebind(w, staged, entry, RevisionJob(entry.record, entry.path, bytes), luck))
  {
    RebindKeeps(w, staged, entry, bytes, luck);
    KeepsOn(w, sys, staged, Rebind(w, staged, entry, RevisionJob(entry.record, entry.path, bytes), luck));
  }

  lemma AuthorizedIsOriginal(w: World, sys: System, record: Record, proposed: Path)
    requires TablesOk(w, sys) && Authorized(sys, record, proposed)
    ensures record.ref.Original?
  {
    assert AuthorityOk(sys, record.ref);
  }

  lemma BoundFileStays(w: World, sys: System, after: System, entry: Entry)
    requires EntryOk(w, sys, entry) && Grown(sys, after) && entry.path in sys.files
    ensures entry.path in after.files
  {
    assert sys.bindings[entry.record.ref].path == entry.path;
  }

  lemma RebindKeeps(w: World, staged: System, entry: Entry, bytes: Bytes, luck: Luck)
    requires Core(w, staged) && EntryOk(w, staged, entry) && entry.record.phase == RevisionPrepared && entry.record.ref.Original?
    requires Split(entry.path.name).Some? && Regenerate(w, entry.record) == Some(bytes)
    requires var job := RevisionJob(entry.record, entry.path, bytes);
      job.revised in staged.files && staged.files[job.revised] == bytes
    ensures Keeps(w, staged, Rebind(w, staged, entry, RevisionJob(entry.record, entry.path, bytes), luck))
  {
    var record, job := entry.record, RevisionJob(entry.record, entry.path, bytes);
    var ref, binding := Revision(record.id, record.attempts), Binding(record.request, job.revised, w.hash(bytes));
    if luck.bound && (ref in staged.bindings ==> staged.bindings[ref] == binding) {
      BindRevisionKeeps(w, staged, entry, bytes);
      SaveReplacedKeeps(w, staged, Bind(staged, ref, binding).0, entry, w.hash(bytes), luck.saved);
    }
  }

  lemma SaveReplacedKeeps(w: World, sys: System, bound: System, entry: Entry, hash: Hash, saved: bool)
    requires Keeps(w, sys, bound) && EntryOk(w, bound, entry)
    requires entry.record.phase == RevisionPrepared && entry.record.ref.Original?
    requires var ref := Revision(entry.record.id, entry.record.attempts);
      ref in bound.bindings && bound.bindings[ref].request == entry.record.request && bound.bindings[ref].hash == hash
      && bound.bindings[ref].path in bound.files
    ensures var replaced := ReplaceRevision(entry.record, Revision(entry.record.id, entry.record.attempts), hash);
      Keeps(w, sys, Save(bound, replaced, entry.version, saved))
  {
    var replaced := ReplaceRevision(entry.record, Revision(entry.record.id, entry.record.attempts), hash);
    ReplacedOk(w, bound, entry.record, hash);
    SavedKeeps(w, bound, replaced, entry.version, saved);
    KeepsOn(w, sys, bound, Save(bound, replaced, entry.version, saved));
  }

  lemma CleanShape(w: World, sys: System, entry: Entry, luck: Luck)
    requires Core(w, sys) && EntryOk(w, sys, entry) && entry.record.phase == StructureChecked
    requires luck.look == Clean && luck.previews
    ensures RowPut(w, sys, LookAt(sys, entry, luck), entry.record.id)
  {
    var record := entry.record;
    var shown := sys.(previews := sys.previews + {(record.id, record.revision)});
    SeenOk(w, shown, record, Clean);
    SavedShape(w, sys, shown, CheckVisual(record, Clean), entry.version, luck.saved);
  }

  lemma LookAtKeeps(w: World, sys: System, entry: Entry, luck: Luck)
    requires Core(w, sys) && EntryOk(w, sys, entry) && entry.record.phase == StructureChecked
    ensures Keeps(w, sys, LookAt(sys, entry, luck))
  {
    if luck.look == RenderFailed {
      NeedsAttentionKeeps(w, sys, entry.record, entry.version, luck.saved);
    } else if luck.look != Clean {
      SeenOk(w, sys, entry.record, luck.look);
      SavedKeeps(w, sys, CheckVisual(entry.record, luck.look), entry.version, luck.saved);
    } else if luck.previews {
      CleanShape(w, sys, entry, luck);
      RowPutKeeps(w, sys, LookAt(sys, entry, luck), entry.record.id);
    }
  }

  lemma CompleteKeeps(w: World, sys: System, entry: Entry, luck: Luck)
    requires Core(w, sys) && EntryOk(w, sys, entry) && Complete(entry.record).Ok?
    ensures Keeps(w, sys, Save(sys, Complete(entry.record).value, entry.version, luck.saved))
  {
    CompletedOk(w, sys, entry.record);
    SavedKeeps(w, sys, Complete(entry.record).value, entry.version, luck.saved);
  }

  lemma CheckKeeps(w: World, sys: System, entry: Entry, luck: Luck)
    requires Core(w, sys) && EntryOk(w, sys, entry) && entry.path in sys.files
    ensures Keeps(w, sys, Save(sys, CheckStructure(w, entry.record, sys.files[entry.path]), entry.version, luck.saved))
  {
    CheckedOk(w, sys, entry.record, sys.files[entry.path]);
    SavedKeeps(w, sys, CheckStructure(w, entry.record, sys.files[entry.path]), entry.version, luck.saved);
  }

  lemma RequestKeeps(w: World, sys: System, entry: Entry, luck: Luck)
    requires Core(w, sys) && EntryOk(w, sys, entry) && entry.record.phase == RevisionRequired
    ensures Keeps(w, sys, Save(sys, RequestRevision(entry.record), entry.version, luck.saved))
  {
    RequestedOk(w, sys, entry.record);
    SavedKeeps(w, sys, RequestRevision(entry.record), entry.version, luck.saved);
  }

  /** Handling a listed record keeps the tables, the files and every other row. */
  lemma HandleKeeps(w: World, sys: System, entry: Entry, luck: Luck)
    requires Core(w, sys) && NamesOk(sys) && EntryOk(w, sys, entry)
    ensures Keeps(w, sys, Handle(w, sys, entry, luck))
  {
    var record := entry.record;
    if !luck.readable || entry.path !in sys.files || w.hash(sys.files[entry.path]) != record.hash {
      NeedsAttentionKeeps(w, sys, record, entry.version, luck.saved);
    } else {
      match record.phase {
        case Generated => CheckKeeps(w, sys, entry, luck);
        case StructureChecked => LookAtKeeps(w, sys, entry, luck);
        case RevisionRequired => RequestKeeps(w, sys, entry, luck);
        case RevisionPrepared => ReviseKeeps(w, sys, entry, luck);
        case ReadyForDelivery | VisualChecked =>
          if Complete(record).Ok? {
            CompleteKeeps(w, sys, entry, luck);
          } else {
            NeedsAttentionKeeps(w, sys, record, entry.version, luck.saved);
          }
        case _ =>
      }
    }
  }
}
