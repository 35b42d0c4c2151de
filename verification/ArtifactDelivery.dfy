// What recovery guarantees over all runs: versions, revisions, delivery, interruption and settling.
module ArtifactDelivery {
  import opened Common
  import opened ArtifactFiles
  import opened ArtifactRecords
  import opened ArtifactSweep
  import opened ArtifactSafety
  import opened ArtifactReach

  ghost predicate Reachable(w: World, sys: System) {
    exists files, events :: Legal(w, Empty(files), events) && sys == Run(w, Empty(files), events)
  }

  lemma ReachableInv(w: World, sys: System)
    requires Reachable(w, sys)
    ensures Inv(w, sys)
  {
    var files, events :| Legal(w, Empty(files), events) && sys == Run(w, Empty(files), events);
    InvFromEmpty(w, files, events);
  }

  // ----- Versions -----

  /** Every stored record, failed or not, names a bound path. Where nothing was ever written, the record is a
      report's that is still to be exported, and has passed no check. */
  lemma RecordsAreBound(w: World, sys: System, id: nat)
    requires Reachable(w, sys) && id in sys.rows
    ensures var record := sys.rows[id].record;
      var path := StoragePath(sys, record);
      && record.id == id && path.Some?
      && (path.value !in sys.files ==>
            record.ref == Original(record.request) && record.revision == 0 && record.structure.None? && record.visual.None?
            && (record.phase == Generated || record.phase == Phase.Failed))
  {
    ReachableInv(w, sys);
    assert RecordOk(w, sys, sys.rows[id].record);
  }

  function At(files: Files, path: Path): Option<Bytes> {
    if path in files then Some(files[path]) else None
  }

  /** What was written to the path last, going round the staged write. */
  function LastWrite(events: seq<Event>, path: Path): Option<Bytes>
    decreases |events|
  {
    if events == [] then None
    else
      var later := LastWrite(events[1..], path);
      if later.None? && events[0].Outside? && events[0].path == path then events[0].content else later
  }

  /** The files are as they were, or as one staged write of the record's revision left them. */
  ghost predicate AtMostStaged(w: World, files: Files, after: Files, entry: Entry, stop: Stop) {
    var made := Regenerate(w, entry.record);
    || after == files
    || (made.Some? && Split(entry.path.name).Some?
        && after == StagedWrite(files, RevisionJob(entry.record, entry.path, made.value), stop).0)
  }

  lemma ReviseStages(w: World, sys: System, entry: Entry, luck: Luck)
    ensures AtMostStaged(w, sys.files, Revise(w, sys, entry, luck).files, entry, luck.stop)
  {
  }

  lemma HandleLeavesFiles(w: World, sys: System, entry: Entry, luck: Luck)
    ensures Handle(w, sys, entry, luck).files == sys.files || Handle(w, sys, entry, luck) == Revise(w, sys, entry, luck)
  {
  }

  lemma HandleStages(w: World, sys: System, entry: Entry, luck: Luck)
    ensures AtMostStaged(w, sys.files, Handle(w, sys, entry, luck).files, entry, luck.stop)
  {
    HandleLeavesFiles(w, sys, entry, luck);
    if Handle(w, sys, entry, luck).files != sys.files {
      ReviseStages(w, sys, entry, luck);
    }
  }

  lemma StagingAvoidsBound(w: World, sys: System, after: Files, entry: Entry, stop: Stop, ref: Ref)
    requires AtMostStaged(w, sys.files, after, entry, stop) && ref in sys.bindings && NameOk(sys, ref)
    ensures At(after, sys.bindings[ref].path) == At(sys.files, sys.bindings[ref].path)
  {
    var made := Regenerate(w, entry.record);
    if after != sys.files {
      JobAvoids(sys, ref, entry.record, entry.path, made.value);
      StagedWriteLeaves(sys.files, RevisionJob(entry.record, entry.path, made.value), stop, sys.bindings[ref].path);
    }
  }

  lemma {:induction false} ListingLeavesFiles(sys: System, ids: seq<nat>, found: seq<Entry>)
    requires Listable(sys, ids)
    ensures List(sys, ids, found).files == sys.files
    decreases |ids|
  {
    if ids != [] {
      var row := sys.rows[ids[0]];
      if StoragePath(sys, row.record).Some? {
        ListingLeavesFiles(sys, ids[1..],
          if |found| < SWEEP_LIMIT then found + [Entry(row.record, row.version, StoragePath(sys, row.record).value)] else found);
      } else {
        ListingLeavesFiles(NeedsAttention(sys, row.record, row.version, true), ids[1..], found);
      }
    }
  }

  /** A step of the program's own leaves every bound file as it is. */
  lemma BoundFileStep(w: World, sys: System, event: Event, ref: Ref)
    requires Inv(w, sys) && Enabled(w, sys, event) && ref in sys.bindings
    ensures var path := sys.bindings[ref].path;
      At(Next(w, sys, event).files, path) ==
        if event.Outside? && event.path == path then event.content else At(sys.files, path)
  {
    assert NameOk(sys, ref);
    if event.HandleNext? {
      HandleStages(w, sys.(due := []), sys.due[0], event.luck);
      StagingAvoidsBound(w, sys, Next(w, sys, event).files, sys.due[0], event.luck.stop, ref);
    } else if event.ListDue? {
      ListingLeavesFiles(sys, event.ids, []);
    }
  }

  lemma {:induction false} BoundFileRun(w: World, sys: System, events: seq<Event>, ref: Ref)
    requires Inv(w, sys) && Legal(w, sys, events) && ref in sys.bindings
    ensures var after, path, written := Run(w, sys, events), sys.bindings[ref].path, LastWrite(events, sys.bindings[ref].path);
      && ref in after.bindings && after.bindings[ref] == sys.bindings[ref]
      && At(after.files, path) == if written.Some? then written else At(sys.files, path)
    decreases |events|
  {
    if events != [] {
      var next := Next(w, sys, events[0]);
      BoundFileStep(w, sys, events[0], ref);
      InvStep(w, sys, events[0]);
      BoundFileRun(w, next, events[1..], ref);
      assert IsBoundPath(sys, sys.bindings[ref].path);
    }
  }

  /** Whatever happens next, a bound version keeps its reference and its path, and its file holds what was last
      written there from outside, or what it holds now when nothing is: so it keeps its bytes exactly when no
      such write, or the same bytes again, comes last. */
  lemma VersionsKeepTheirBytes(w: World, sys: System, events: seq<Event>, ref: Ref)
    requires Reachable(w, sys) && Legal(w, sys, events) && ref in sys.bindings
    ensures var after, path, written := Run(w, sys, events), sys.bindings[ref].path, LastWrite(events, sys.bindings[ref].path);
      && ref in after.bindings && after.bindings[ref] == sys.bindings[ref]
      && At(after.files, path) == (if written.Some? then written else At(sys.files, path))
      && (At(after.files, path) == At(sys.files, path) <==> written.None? || written == At(sys.files, path))
  {
    ReachableInv(w, sys);
    BoundFileRun(w, sys, events, ref);
  }

  lemma RevisionHolds(w: World, sys: System, entry: Entry, luck: Luck, ref: Ref)
    requires ref in Revise(w, sys, entry, luck).bindings && ref !in sys.bindings
    ensures var after := Revise(w, sys, entry, luck);
      Holds(w, after.files, after.bindings[ref].path, after.bindings[ref].hash)
  {
    var job := RevisionJob(entry.record, entry.path, Regenerate(w, entry.record).value);
    StagedWriteEffect(sys.files, job, luck.stop);
  }

  lemma HandledVersionHolds(w: World, sys: System, entry: Entry, luck: Luck, ref: Ref)
    requires ref in Handle(w, sys, entry, luck).bindings && ref !in sys.bindings
    ensures var after := Handle(w, sys, entry, luck);
      Holds(w, after.files, after.bindings[ref].path, after.bindings[ref].hash)
  {
    assert entry.record.phase == RevisionPrepared;
    assert Handle(w, sys, entry, luck) == Revise(w, sys, entry, luck);
    RevisionHolds(w, sys, entry, luck, ref);
  }

  lemma RegisteredVersionHolds(w: World, sys: System, request: nat, id: nat, path: Path, look: Look, cut: nat, ref: Ref)
    requires path in sys.files
    requires ref in RegisterOffice(w, sys, request, id, path, look, cut).bindings && ref !in sys.bindings
    ensures var after := RegisterOffice(w, sys, request, id, path, look, cut);
      Holds(w, after.files, after.bindings[ref].path, after.bindings[ref].hash)
  {
  }

  lemma NewVersionHolds(w: World, sys: System, event: Event, ref: Ref)
    requires Inv(w, sys) && Enabled(w, sys, event) && ref in Next(w, sys, event).bindings && ref !in sys.bindings
    ensures var after := Next(w, sys, event);
      Holds(w, after.files, after.bindings[ref].path, after.bindings[ref].hash)
      <==> (event.Prepare? ==> Holds(w, sys.files, event.path, event.hash))
  {
    if event.HandleNext? {
      HandledVersionHolds(w, sys.(due := []), sys.due[0], event.luck, ref);
    } else if event.Register? {
      RegisteredVersionHolds(w, sys, event.request, event.id, event.path, event.look, event.cut, ref);
    } else if event.ListDue? {
      ListKeeps(w, sys, event.ids, []);
    }
  }

  /** A version has its file, with its hash, exactly when the last write from outside since it was bound left
      that content there; if none came since, exactly when it was not a report bound before its export. */
  lemma NoDanglingVersion(w: World, sys: System, event: Event, later: seq<Event>, ref: Ref)
    requires Reachable(w, sys) && Enabled(w, sys, event) && Legal(w, Next(w, sys, event), later)
    requires ref in Next(w, sys, event).bindings && ref !in sys.bindings
    ensures var after, binding := Run(w, Next(w, sys, event), later), Next(w, sys, event).bindings[ref];
      var written := LastWrite(later, binding.path);
      && ref in after.bindings && after.bindings[ref] == binding
      && (Holds(w, after.files, binding.path, binding.hash)
          <==> if written.Some? then w.hash(written.value) == binding.hash
               else event.Prepare? ==> Holds(w, sys.files, event.path, event.hash))
  {
    ReachableInv(w, sys);
    InvStep(w, sys, event);
    NewVersionHolds(w, sys, event, ref);
    BoundFileRun(w, Next(w, sys, event), later, ref);
  }

  // ----- Revisions -----

  /** A listed record whose row has not moved. */
  ghost predicate Fresh(w: World, sys: System, entry: Entry) {
    EntryOk(w, sys, entry) && sys.rows[entry.record.id].version == entry.version
  }

  /** The revision can be generated, and its revised and staged names hold nothing else. */
  predicate CanStage(w: World, files: Files, record: Record, path: Path) {
    var made := Regenerate(w, record);
    made.Some? && Split(path.name).Some? && (
      var job := RevisionJob(record, path, made.value);
      !Torn(files, job) && (job.revised in files ==> files[job.revised] == job.bytes))
  }

  lemma OriginalIsAuthorized(w: World, sys: System, entry: Entry)
    requires Inv(w, sys) && EntryOk(w, sys, entry) && entry.record.phase == RevisionPrepared && entry.record.ref.Original?
    ensures Split(entry.path.name).Some?
    ensures Authorized(sys, entry.record, RevisedPath(entry.path, entry.record.attempts))
  {
    assert AuthorityOk(sys, entry.record.ref);
  }

  /** No run ever stores a second revision. */
  lemma OneRevisionAtMost(w: World, sys: System, id: nat)
    requires Reachable(w, sys) && id in sys.rows
    ensures var record := sys.rows[id].record;
      record.revision <= 1 && (record.revision == 1 <==> record.ref.Revision?) && record.attempts <= MAX_ARTIFACT_REVISIONS
  {
    ReachableInv(w, sys);
    assert RecordOk(w, sys, sys.rows[id].record);
  }

  // ----- Delivery -----

  /** Different contents have different hashes. */
  ghost predicate CollisionFree(w: World) {
    forall a, b :: w.hash(a) == w.hash(b) ==> a == b
  }

  /** A completed artifact's structure, pages and stored previews were checked for the content its hash stands
      for, and its file is sound as long as it still has that hash. */
  lemma DeliveredWasChecked(w: World, sys: System, id: nat)
    requires Reachable(w, sys) && id in sys.rows && sys.rows[id].record.phase == Completed
    ensures var record := sys.rows[id].record;
      var path := StoragePath(sys, record);
      && path.Some? && path.value in sys.files
      && Current(record, record.structure) && Current(record, record.visual)
      && (id, record.revision) in sys.previews
      && VouchedFor(w, record.request, record.hash)
      && (CollisionFree(w) && Holds(w, sys.files, path.value, record.hash) ==> w.sound(record.request, sys.files[path.value]))
  {
    ReachableInv(w, sys);
    var record := sys.rows[id].record;
    assert RecordOk(w, sys, record);
    var bytes :| w.hash(bytes) == record.hash && ValidSize(bytes) && w.sound(record.request, bytes);
    var file := sys.files[StoragePath(sys, record).value];
    assert CollisionFree(w) && w.hash(file) == w.hash(bytes) ==> file == bytes;
  }

  /** Showing deliveries changes a row exactly when a completed artifact's file cannot be read or no longer has
      its hash. */
  lemma ShowingChangesExactly(w: World, sys: System, id: nat, readable: bool)
    requires Reachable(w, sys) && id in sys.rows
    ensures StoragePath(sys, sys.rows[id].record).Some?
    ensures ShowDelivery(w, sys, id, readable) != sys <==>
      sys.rows[id].record.phase == Completed
      && (!readable || !Holds(w, sys.files, StoragePath(sys, sys.rows[id].record).value, sys.rows[id].record.hash))
  {
    ReachableInv(w, sys);
    assert RecordOk(w, sys, sys.rows[id].record);
    if sys.rows[id].record.phase == Completed {
      assert NeedsAttention(sys, sys.rows[id].record, sys.rows[id].version, true).rows[id].version == sys.rows[id].version + 1;
    }
  }

  /** A report that is exported again over a delivered one, and stopped half-way, costs the delivery. */
  lemma StoppedExportFailsDelivery(w: World, sys: System, id: nat, bytes: Bytes, cut: nat)
    requires Reachable(w, sys) && id in sys.rows && sys.rows[id].record.phase == Completed
    requires cut <= |bytes| && w.hash(bytes[..cut]) != sys.rows[id].record.hash
    ensures var path := StoragePath(sys, sys.rows[id].record);
      path.Some? && Enabled(w, sys, Outside(path.value, Some(bytes[..cut])))
      && ShowDelivery(w, Next(w, sys, Outside(path.value, Some(bytes[..cut]))), id, true).rows[id].record.phase == Phase.Failed
  {
    ReachableInv(w, sys);
    assert RecordOk(w, sys, sys.rows[id].record);
    var torn := Next(w, sys, Outside(StoragePath(sys, sys.rows[id].record).value, Some(bytes[..cut])));
    assert torn.rows == sys.rows && StoragePath(torn, sys.rows[id].record) == StoragePath(sys, sys.rows[id].record);
  }

  // ----- Interruption -----

  /** An interrupted write left part of its temporary file behind. */
  predicate LeftTorn(w: World, sys: System, entry: Entry) {
    var made := Regenerate(w, entry.record);
    entry.record.phase == RevisionPrepared && made.Some? && Split(entry.path.name).Some?
    && Torn(sys.files, RevisionJob(entry.record, entry.path, made.value))
  }

  predicate SameStore(a: System, b: System) {
    a.rows == b.rows && a.files == b.files && a.bindings == b.bindings && a.authorities == b.authorities
  }

  /** Handling the record again, undisturbed, ends where it would have ended from `sys`, unless what stopped
      tore the temporary file: then the artifact fails. */
  ghost predicate Resumes(w: World, sys: System, stopped: System, entry: Entry, look: Look) {
    var again := Handle(w, stopped, entry, SMOOTH.(look := look));
    && (!LeftTorn(w, stopped, entry) ==> SameStore(again, Handle(w, sys, entry, SMOOTH.(look := look))))
    && (LeftTorn(w, stopped, entry) ==> entry.record.id in again.rows && again.rows[entry.record.id].record.phase == Phase.Failed)
  }

  ghost predicate Prepared(w: World, sys: System, entry: Entry, job: Job) {
    var record := entry.record;
    var ref := Revision(record.id, record.attempts);
    && record.phase == RevisionPrepared && record.id in sys.rows && sys.rows[record.id] == Row(record, entry.version)
    && Holds(w, sys.files, entry.path, record.hash)
    && Split(entry.path.name).Some? && Regenerate(w, record) == Some(job.bytes)
    && job == RevisionJob(record, entry.path, job.bytes) && Authorized(sys, record, job.revised)
    && (ref in sys.bindings ==> sys.bindings[ref] == Binding(record.request, job.revised, w.hash(job.bytes)))
  }

  lemma UndisturbedRevision(w: World, sys: System, entry: Entry, job: Job, look: Look)
    requires Prepared(w, sys, entry, job)
    ensures var record := entry.record;
      var ref := Revision(record.id, record.attempts);
      var (files, reply) := StagedWrite(sys.files, job, Nowhere);
      Handle(w, sys, entry, SMOOTH.(look := look)) ==
        if reply == Written
        then sys.(files := files,
                  bindings := sys.bindings[ref := Binding(record.request, job.revised, w.hash(job.bytes))],
                  rows := sys.rows[record.id := Row(ReplaceRevision(record, ref, w.hash(job.bytes)), entry.version + 1)])
        else sys.(rows := sys.rows[record.id := Row(record.(phase := Phase.Failed), entry.version + 1)])
  {
    StagedWriteEffect(sys.files, job, Nowhere);
  }

  lemma StoppedRevision(w: World, sys: System, entry: Entry, job: Job, luck: Luck)
    requires Prepared(w, sys, entry, job) && Handle(w, sys, entry, luck).rows == sys.rows
    ensures var stopped := Handle(w, sys, entry, luck);
      var ref := Revision(entry.record.id, entry.record.attempts);
      var (files, reply) := StagedWrite(sys.files, job, luck.stop);
      || stopped == sys
      || stopped == sys.(files := files)
      || (reply == Written && stopped == sys.(
            files := files, bindings := sys.bindings[ref := Binding(entry.record.request, job.revised, w.hash(job.bytes))]))
  {
  }

  /** Staging the same job again after a stop gives the files that one uninterrupted call gives. */
  lemma StagingResumes(files: Files, job: Job, stop: Stop)
    requires job.revised != job.staging
    ensures var stopped := StagedWrite(files, job, stop).0;
      && (!Torn(stopped, job) ==> StagedWrite(stopped, job, Nowhere) == StagedWrite(files, job, Nowhere))
      && (Torn(stopped, job) ==> StagedWrite(stopped, job, Nowhere) == (stopped, Erred))
  {
    var stopped := StagedWrite(files, job, stop).0;
    if job.revised !in files && !Torn(stopped, job) && stopped != files {
      assert stopped == files[job.staging := job.bytes] || job.revised in stopped;
      assert files[job.staging := job.bytes][job.staging := job.bytes] == files[job.staging := job.bytes];
    }
  }

  lemma StopKeepsPrepared(w: World, sys: System, stopped: System, entry: Entry, job: Job, stop: Stop)
    requires Prepared(w, sys, entry, job)
    requires entry.path != job.staging && (entry.path == job.revised ==> entry.path in sys.files)
    requires stopped.rows == sys.rows && stopped.authorities == sys.authorities
    requires stopped.files == StagedWrite(sys.files, job, stop).0
    requires var ref := Revision(entry.record.id, entry.record.attempts);
      stopped.bindings == sys.bindings
      || stopped.bindings == sys.bindings[ref := Binding(entry.record.request, job.revised, w.hash(job.bytes))]
    ensures Prepared(w, stopped, entry, job)
  {
    StagedWriteLeaves(sys.files, job, stop, entry.path);
  }

  lemma PreparedResumes(w: World, sys: System, stopped: System, entry: Entry, job: Job, stop: Stop, look: Look)
    requires Prepared(w, sys, entry, job) && Prepared(w, stopped, entry, job) && job.revised != job.staging
    requires stopped.rows == sys.rows && stopped.authorities == sys.authorities
    requires stopped.files == StagedWrite(sys.files, job, stop).0
    requires var ref := Revision(entry.record.id, entry.record.attempts);
      stopped.bindings == sys.bindings
      || (StagedWrite(sys.files, job, stop).1 == Written
          && stopped.bindings == sys.bindings[ref := Binding(entry.record.request, job.revised, w.hash(job.bytes))])
    ensures Resumes(w, sys, stopped, entry, look)
  {
    StagingResumes(sys.files, job, stop);
    UndisturbedRevision(w, sys, entry, job, look);
    UndisturbedRevision(w, stopped, entry, job, look);
    StagedWriteEffect(sys.files, job, stop);
  }

  lemma NothingStaged(w: World, sys: System, entry: Entry, job: Job, look: Look)
    requires Prepared(w, sys, entry, job)
    ensures Resumes(w, sys, sys, entry, look)
  {
    UndisturbedRevision(w, sys, entry, job, look);
  }

  lemma InterruptedRevision(w: World, sys: System, entry: Entry, job: Job, luck: Luck, look: Look)
    requires Prepared(w, sys, entry, job) && job.revised != job.staging
    requires entry.path != job.staging && (entry.path == job.revised ==> entry.path in sys.files)
    requires Handle(w, sys, entry, luck).rows == sys.rows
    ensures Resumes(w, sys, Handle(w, sys, entry, luck), entry, look)
  {
    var stopped := Handle(w, sys, entry, luck);
    StoppedRevision(w, sys, entry, job, luck);
    if stopped == sys {
      NothingStaged(w, sys, entry, job, look);
    } else {
      StopKeepsPrepared(w, sys, stopped, entry, job, luck.stop);
      PreparedResumes(w, sys, stopped, entry, job, luck.stop, look);
    }
  }

  predicate WillStage(w: World, sys: System, entry: Entry) {
    var made := Regenerate(w, entry.record);
    entry.record.phase == RevisionPrepared && made.Some? && Split(entry.path.name).Some?
    && Authorized(sys, entry.record, RevisionJob(entry.record, entry.path, made.value).revised)
  }

  /** Without a write to make, a stop leaves at most previews behind. */
  lemma StopWithoutWrite(w: World, sys: System, entry: Entry, luck: Luck)
    requires entry.record.id in sys.rows && sys.rows[entry.record.id] == Row(entry.record, entry.version)
    requires !WillStage(w, sys, entry) && Handle(w, sys, entry, luck).rows == sys.rows
    ensures var stopped := Handle(w, sys, entry, luck);
      stopped == sys || (entry.record.phase == StructureChecked
                         && stopped == sys.(previews := sys.previews + {(entry.record.id, entry.record.revision)}))
  {
  }

  lemma ResumesWithoutWrite(w: World, sys: System, stopped: System, entry: Entry, look: Look)
    requires entry.record.id in sys.rows && sys.rows[entry.record.id] == Row(entry.record, entry.version)
    requires Holds(w, sys.files, entry.path, entry.record.hash)
    requires !WillStage(w, sys, entry)
    requires stopped == sys || (entry.record.phase == StructureChecked
                                && stopped == sys.(previews := sys.previews + {(entry.record.id, entry.record.revision)}))
    ensures Resumes(w, sys, stopped, entry, look)
  {
  }

  lemma StagingIsPrepared(w: World, sys: System, entry: Entry)
    requires Inv(w, sys) && Fresh(w, sys, entry) && WillStage(w, sys, entry)
    requires Holds(w, sys.files, entry.path, entry.record.hash)
    ensures var job := RevisionJob(entry.record, entry.path, Regenerate(w, entry.record).value);
      && Prepared(w, sys, entry, job) && job.revised != job.staging
      && entry.path != job.staging && (entry.path == job.revised ==> entry.path in sys.files)
  {
    var made := Regenerate(w, entry.record).value;
    assert BindingOk(w, sys, entry.record.ref) && NameOk(sys, entry.record.ref);
    JobAvoids(sys, entry.record.ref, entry.record, entry.path, made);
    AuthorizedIsOriginal(w, sys, entry.record, RevisionJob(entry.record, entry.path, made).revised);
    RevisionToBind(w, sys, entry, made);
  }

  /** A record whose file is gone or different fails, now or on the next pass. */
  lemma StrayResumes(w: World, sys: System, entry: Entry, luck: Luck, look: Look)
    requires Fresh(w, sys, entry) && !Holds(w, sys.files, entry.path, entry.record.hash)
    requires Handle(w, sys, entry, luck).rows == sys.rows
    ensures Resumes(w, sys, Handle(w, sys, entry, luck), entry, look)
  {
  }

  lemma HandlingResumes(w: World, sys: System, entry: Entry, luck: Luck, look: Look)
    requires Inv(w, sys) && Fresh(w, sys, entry) && Handle(w, sys, entry, luck).rows == sys.rows
    ensures Resumes(w, sys, Handle(w, sys, entry, luck), entry, look)
  {
    if !Holds(w, sys.files, entry.path, entry.record.hash) {
      StrayResumes(w, sys, entry, luck, look);
    } else if WillStage(w, sys, entry) {
      StagingIsPrepared(w, sys, entry);
      InterruptedRevision(w, sys, entry, RevisionJob(entry.record, entry.path, Regenerate(w, entry.record).value), luck, look);
    } else {
      StopWithoutWrite(w, sys, entry, luck);
      ResumesWithoutWrite(w, sys, Handle(w, sys, entry, luck), entry, look);
    }
  }

  // ----- Revisions that go through -----

  lemma RevisionOutcome(w: World, sys: System, entry: Entry, look: Look)
    requires Inv(w, sys) && Fresh(w, sys, entry) && entry.record.phase == RevisionPrepared
    requires Holds(w, sys.files, entry.path, entry.record.hash)
    ensures var after := Handle(w, sys, entry, SMOOTH.(look := look)).rows[entry.record.id].record;
      && (after.phase == Generated <==> entry.record.ref.Original? && CanStage(w, sys.files, entry.record, entry.path))
      && (after.phase == Generated ==> after.revision == 1 && after.ref == Revision(entry.record.id, entry.record.attempts))
      && (after.phase != Generated ==> after.phase == Phase.Failed)
  {
    var made := Regenerate(w, entry.record);
    if WillStage(w, sys, entry) {
      var job := RevisionJob(entry.record, entry.path, made.value);
      StagingIsPrepared(w, sys, entry);
      UndisturbedRevision(w, sys, entry, job, look);
      AuthorizedIsOriginal(w, sys, entry.record, job.revised);
      StagedWriteEffect(sys.files, job, Nowhere);
      assert RecordOk(w, sys, entry.record);
    } else {
      UnstagedFails(w, sys, entry, look);
      if entry.record.ref.Original? {
        OriginalIsAuthorized(w, sys, entry);
      }
    }
  }

  lemma UnstagedFails(w: World, sys: System, entry: Entry, look: Look)
    requires entry.record.id in sys.rows && sys.rows[entry.record.id] == Row(entry.record, entry.version)
    requires Holds(w, sys.files, entry.path, entry.record.hash)
    requires entry.record.phase == RevisionPrepared && !WillStage(w, sys, entry)
    ensures Handle(w, sys, entry, SMOOTH.(look := look)).rows[entry.record.id].record.phase == Phase.Failed
  {
  }

  // ----- Settling -----

  /** How far an artifact is from being delivered or given up. */
  function Distance(record: Record): nat {
    var left: nat := if record.attempts <= MAX_ARTIFACT_REVISIONS then MAX_ARTIFACT_REVISIONS - record.attempts else 0;
    match record.phase
    case RevisionPrepared => 6 * left + 6
    case Generated => 6 * left + 5
    case StructureChecked => 6 * left + 4
    case VisualChecked | ReadyForDelivery => 6 * left + 3
    case RevisionRequired => 6 * left + 2
    case _ => 0
  }

  /** One undisturbed sweep that lists just this record. */
  function Pass(w: World, sys: System, id: nat, look: Look): System
    requires sys.due == [] && id in sys.rows && sys.rows[id].record.id == id && Recoverable(sys.rows[id].record.phase)
  {
    var listed := Next(w, sys, ListDue([id]));
    if listed.due == [] then listed else Next(w, listed, HandleNext(SMOOTH.(look := look)))
  }

  lemma ListSingle(sys: System, id: nat, entry: Entry)
    requires Listable(sys, [id]) && id in sys.rows && sys.rows[id] == Row(entry.record, entry.version)
    requires StoragePath(sys, entry.record) == Some(entry.path)
    ensures List(sys, [id], []) == sys.(due := [entry])
  {
    assert [id][1..] == [] && [] + [entry] == [entry];
    assert List(sys, [id], []) == List(sys, [], [entry]);
  }

  lemma ListOne(w: World, sys: System, id: nat)
    requires Inv(w, sys) && sys.due == [] && id in sys.rows && Recoverable(sys.rows[id].record.phase)
    ensures sys.rows[id].record.id == id
    ensures var row := sys.rows[id];
      var path := StoragePath(sys, row.record);
      path.Some? && Listable(sys, [id]) && List(sys, [id], []) == sys.(due := [Entry(row.record, row.version, path.value)])
  {
    var row := sys.rows[id];
    assert RecordOk(w, sys, row.record);
    var entry := Entry(row.record, row.version, StoragePath(sys, row.record).value);
    ListSingle(sys, id, entry);
  }

  lemma PassIsHandle(w: World, sys: System, id: nat, look: Look)
    requires Inv(w, sys) && sys.due == [] && id in sys.rows && Recoverable(sys.rows[id].record.phase)
    ensures sys.rows[id].record.id == id
    ensures var row := sys.rows[id];
      var path := StoragePath(sys, row.record);
      path.Some? && Pass(w, sys, id, look) == Handle(w, sys, Entry(row.record, row.version, path.value), SMOOTH.(look := look))
      && Inv(w, Pass(w, sys, id, look)) && Pass(w, sys, id, look).due == []
  {
    ListOne(w, sys, id);
    var row := sys.rows[id];
    var entry := Entry(row.record, row.version, StoragePath(sys, row.record).value);
    var listed := Next(w, sys, ListDue([id]));
    assert listed == List(sys, [id], []);
    assert sys == listed.(due := []);
    InvStep(w, sys, ListDue([id]));
    InvStep(w, listed, HandleNext(SMOOTH.(look := look)));
  }

  lemma HandleAdvances(w: World, sys: System, entry: Entry, look: Look)
    requires RecordOk(w, sys, entry.record) && Recoverable(entry.record.phase) && entry.record.phase != RevisionPrepared
    requires entry.record.id in sys.rows && sys.rows[entry.record.id] == Row(entry.record, entry.version)
    requires Holds(w, sys.files, entry.path, entry.record.hash)
    ensures var after := Handle(w, sys, entry, SMOOTH.(look := look)).rows[entry.record.id].record;
      if entry.record.phase == StructureChecked && look == Misfit then after == entry.record
      else Distance(after) < Distance(entry.record)
  {
  }

  lemma StrayFails(w: World, sys: System, entry: Entry, look: Look)
    requires entry.record.id in sys.rows && sys.rows[entry.record.id] == Row(entry.record, entry.version)
    requires !Holds(w, sys.files, entry.path, entry.record.hash)
    ensures Handle(w, sys, entry, SMOOTH.(look := look)).rows[entry.record.id].record == entry.record.(phase := Phase.Failed)
  {
  }

  lemma RevisionAdvances(w: World, sys: System, entry: Entry, look: Look)
    requires Inv(w, sys) && Fresh(w, sys, entry) && entry.record.phase == RevisionPrepared
    requires Holds(w, sys.files, entry.path, entry.record.hash)
    ensures Distance(Handle(w, sys, entry, SMOOTH.(look := look)).rows[entry.record.id].record) < Distance(entry.record)
  {
    RevisionOutcome(w, sys, entry, look);
    RevisionKeepsAttempts(w, sys, entry, SMOOTH.(look := look));
    RevisedIsCloser(entry.record, Handle(w, sys, entry, SMOOTH.(look := look)).rows[entry.record.id].record);
  }

  lemma RevisedIsCloser(before: Record, after: Record)
    requires before.phase == RevisionPrepared && after.attempts == before.attempts
    requires after.phase == Generated || after.phase == Phase.Failed
    ensures Distance(after) < Distance(before)
  {
  }

  lemma StrayAdvances(w: World, sys: System, entry: Entry, look: Look)
    requires Fresh(w, sys, entry) && Recoverable(entry.record.phase) && !Holds(w, sys.files, entry.path, entry.record.hash)
    ensures Distance(Handle(w, sys, entry, SMOOTH.(look := look)).rows[entry.record.id].record) < Distance(entry.record)
  {
    StrayFails(w, sys, entry, look);
  }

  lemma ListedAdvances(w: World, sys: System, entry: Entry, look: Look)
    requires Inv(w, sys) && Fresh(w, sys, entry) && Recoverable(entry.record.phase)
    ensures var after := Handle(w, sys, entry, SMOOTH.(look := look)).rows[entry.record.id].record;
      if entry.record.phase == StructureChecked && look == Misfit && Holds(w, sys.files, entry.path, entry.record.hash)
      then after == entry.record
      else Distance(after) < Distance(entry.record)
  {
    if !Holds(w, sys.files, entry.path, entry.record.hash) {
      StrayAdvances(w, sys, entry, look);
    } else if entry.record.phase == RevisionPrepared {
      RevisionAdvances(w, sys, entry, look);
    } else {
      HandleAdvances(w, sys, entry, look);
    }
  }

  /** An undisturbed pass brings an artifact closer to its end, except exactly when its file still has its hash
      and rendering gave nothing the visual check would judge; then the record waits as it was. */
  lemma PassAdvancesExactly(w: World, sys: System, id: nat, look: Look)
    requires Inv(w, sys) && sys.due == [] && id in sys.rows && Recoverable(sys.rows[id].record.phase)
    ensures sys.rows[id].record.id == id && StoragePath(sys, sys.rows[id].record).Some?
    ensures var before := sys.rows[id].record;
      var after, path := Pass(w, sys, id, look), StoragePath(sys, before).value;
      && id in after.rows
      && if before.phase == StructureChecked && look == Misfit && Holds(w, sys.files, path, before.hash) then after.rows[id].record == before
         else Distance(after.rows[id].record) < Distance(before)
  {
    PassIsHandle(w, sys, id, look);
    var row := sys.rows[id];
    var entry := Entry(row.record, row.version, StoragePath(sys, row.record).value);
    assert EntryOk(w, sys, entry) by {
      assert RecordOk(w, sys, row.record);
    }
    ListedAdvances(w, sys, entry, look);
  }

  lemma ReviseKeepsAttempts(w: World, sys: System, entry: Entry, luck: Luck)
    requires entry.record.id in sys.rows && sys.rows[entry.record.id].record == entry.record
    ensures Revise(w, sys, entry, luck).rows[entry.record.id].record.attempts == entry.record.attempts
  {
  }

  lemma RevisionKeepsAttempts(w: World, sys: System, entry: Entry, luck: Luck)
    requires entry.record.id in sys.rows && sys.rows[entry.record.id] == Row(entry.record, entry.version)
    requires entry.record.phase == RevisionPrepared
    ensures Handle(w, sys, entry, luck).rows[entry.record.id].record.attempts == entry.record.attempts
  {
    ReviseKeepsAttempts(w, sys, entry, luck);
  }

  /** Undisturbed passes, one for each look, until the artifact is delivered or given up. */
  function Passes(w: World, sys: System, id: nat, looks: seq<Look>): System
    decreases |looks|
  {
    if looks == [] || sys.due != [] || id !in sys.rows || sys.rows[id].record.id != id
       || !Recoverable(sys.rows[id].record.phase)
    then sys
    else Passes(w, Pass(w, sys, id, looks[0]), id, looks[1..])
  }

  lemma DistanceBound(record: Record)
    ensures Distance(record) <= 24 && (Distance(record) == 0 <==> !Recoverable(record.phase))
  {
  }

  lemma JudgedPass(w: World, sys: System, id: nat, look: Look) returns (next: System)
    requires Inv(w, sys) && sys.due == [] && id in sys.rows && Recoverable(sys.rows[id].record.phase) && look != Misfit
    ensures sys.rows[id].record.id == id && next == Pass(w, sys, id, look)
    ensures Inv(w, next) && next.due == [] && id in next.rows
    ensures Distance(next.rows[id].record) < Distance(sys.rows[id].record)
  {
    PassIsHandle(w, sys, id, look);
    PassAdvancesExactly(w, sys, id, look);
    next := Pass(w, sys, id, look);
  }

  lemma {:induction false} PassesSettle(w: World, sys: System, id: nat, looks: seq<Look>)
    requires Inv(w, sys) && sys.due == [] && id in sys.rows
    requires Misfit !in looks && |looks| >= Distance(sys.rows[id].record)
    ensures var after := Passes(w, sys, id, looks);
      id in after.rows && (after.rows[id].record.phase == Completed || after.rows[id].record.phase == Phase.Failed)
    decreases |looks|
  {
    DistanceBound(sys.rows[id].record);
    if Recoverable(sys.rows[id].record.phase) {
      var next := JudgedPass(w, sys, id, looks[0]);
      PassesSettle(w, next, id, looks[1..]);
    }
  }

  // ----- The same from any reachable state -----

  /** The row stands as it was listed. */
  predicate Listed(sys: System, entry: Entry) {
    && entry.record.id in sys.rows && sys.rows[entry.record.id] == Row(entry.record, entry.version)
    && StoragePath(sys, entry.record) == Some(entry.path)
  }

  lemma ListedIsFresh(w: World, sys: System, entry: Entry)
    requires Inv(w, sys) && Listed(sys, entry)
    ensures Fresh(w, sys, entry)
  {
    assert RecordOk(w, sys, sys.rows[entry.record.id].record);
  }

  /** Wherever handling a record stopped before its row changed, handling it again undisturbed ends as it would
      have ended without the stop; if the stop tore the temporary file, the artifact fails. */
  lemma InterruptionIsInvisible(w: World, sys: System, entry: Entry, luck: Luck, look: Look)
    requires Reachable(w, sys) && Listed(sys, entry) && Handle(w, sys, entry, luck).rows == sys.rows
    ensures Resumes(w, sys, Handle(w, sys, entry, luck), entry, look)
  {
    ReachableInv(w, sys);
    ListedIsFresh(w, sys, entry);
    HandlingResumes(w, sys, entry, luck, look);
  }

  /** An undisturbed revision goes through exactly for an artifact that was never revised, whose file still has
      its hash, whose input still generates a file and whose revised and staged names hold nothing else. A second
      one never does, though three attempts are allowed. */
  lemma RevisionSucceedsExactly(w: World, sys: System, entry: Entry, look: Look)
    requires Reachable(w, sys) && Listed(sys, entry) && entry.record.phase == RevisionPrepared
    ensures var after := Handle(w, sys, entry, SMOOTH.(look := look)).rows[entry.record.id].record;
      && (after.phase == Generated <==>
            entry.record.ref.Original? && Holds(w, sys.files, entry.path, entry.record.hash)
            && CanStage(w, sys.files, entry.record, entry.path))
      && (after.phase == Generated ==> after.revision == 1 && after.ref == Revision(entry.record.id, entry.record.attempts))
      && (after.phase != Generated ==> after.phase == Phase.Failed)
  {
    ReachableInv(w, sys);
    ListedIsFresh(w, sys, entry);
    if Holds(w, sys.files, entry.path, entry.record.hash) {
      RevisionOutcome(w, sys, entry, look);
    } else {
      StrayFails(w, sys, entry, look);
    }
  }

  /** Twenty-four undisturbed passes whose renderings can be judged deliver any artifact or give it up. */
  lemma ArtifactSettles(w: World, sys: System, id: nat, looks: seq<Look>)
    requires Reachable(w, sys) && sys.due == [] && id in sys.rows
    requires Misfit !in looks && |looks| >= 24
    ensures var after := Passes(w, sys, id, looks);
      id in after.rows && (after.rows[id].record.phase == Completed || after.rows[id].record.phase == Phase.Failed)
  {
    ReachableInv(w, sys);
    DistanceBound(sys.rows[id].record);
    PassesSettle(w, sys, id, looks);
  }
}
