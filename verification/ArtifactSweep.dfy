// The recovery sweep and everything that can happen around it, as steps on one system.
module ArtifactSweep {
  import opened Common
  import opened ArtifactFiles
  import opened ArtifactRecords

  const SWEEP_LIMIT := 16

  /** `Outside` is every write that goes round the staged one: a report export or an office file, whole or
      stopped half-way, and whatever other programs do to the files. */
  datatype Event =
    | Outside(path: Path, content: Option<Bytes>)
    | Register(request: nat, id: nat, path: Path, look: Look, cut: nat)
    | Prepare(request: nat, id: nat, path: Path, hash: Hash, stopped: bool)
    | Reregister(id: nat, bytes: Bytes, look: Look, cut: nat)
    | ListDue(ids: seq<nat>)
    | HandleNext(luck: Luck)
    | Show(id: nat, readable: bool)
    | Restart

  predicate IsBoundPath(sys: System, path: Path) {
    exists ref :: ref in sys.bindings && sys.bindings[ref].path == path
  }

  predicate HasRequest(sys: System, request: nat) {
    exists id :: id in sys.rows && sys.rows[id].record.request == request
  }

  /** A file name with a single dot, as the report export chooses them. */
  predicate Plain(name: string) {
    Split(name).Some? && '.' !in Split(name).value.0
  }

  predicate Listable(sys: System, ids: seq<nat>) {
    && (forall i :: 0 <= i < |ids| ==>
          ids[i] in sys.rows && sys.rows[ids[i]].record.id == ids[i] && Recoverable(sys.rows[ids[i]].record.phase))
    && (forall i, j :: 0 <= i < j < |ids| ==> ids[i] != ids[j])
  }

  /** Any file may be overwritten at any time; only files somebody is bound to are not deleted. A report is
      registered after its file was written, whatever is there by then. */
  predicate Enabled(w: World, sys: System, event: Event) {
    match event
    case Outside(path, content) => content.Some? || !IsBoundPath(sys, path)
    case Register(_, id, path, _, _) => path in sys.files && !IsStaging(path.name) && id !in sys.rows
    case Prepare(_, id, path, _, _) => Plain(path.name) && !IsStaging(path.name) && id !in sys.rows
    case Reregister(id, bytes, _, _) =>
      id in sys.rows && w.hash(bytes) == sys.rows[id].record.hash && (
        var path := StoragePath(sys, sys.rows[id].record);
        path.Some? && path.value in sys.files)
    case ListDue(ids) => sys.due == [] && Listable(sys, ids)
    case HandleNext(_) => sys.due != []
    case Show(id, _) => id in sys.rows
    case Restart => true
  }

  /** The checks a registration runs at once while it holds the store; `cut` is where a crash stops it. */
  function Inspect(w: World, sys: System, record: Record, version: nat, bytes: Bytes, look: Look, cut: nat): (after: System)
    ensures after == sys.(rows := after.rows, previews := after.previews)
  {
    var checked := CheckStructure(w, record, bytes);
    var first := Save(sys, checked, version, true);
    if cut == 0 then sys
    else if cut == 1 || checked.phase != StructureChecked || look == RenderFailed then first
    else InspectPages(first, checked, version + 1, look, cut)
  }

  function InspectPages(sys: System, record: Record, version: nat, look: Look, cut: nat): (after: System)
    ensures after == sys.(rows := after.rows, previews := after.previews)
  {
    FinishPages(if look == Clean then sys.(previews := sys.previews + {(record.id, record.revision)}) else sys,
                CheckVisual(record, look), version, look, cut)
  }

  function FinishPages(shown: System, seen: Record, version: nat, look: Look, cut: nat): (after: System)
    ensures after == shown.(rows := after.rows, previews := after.previews)
  {
    var saved := Save(shown, seen, version, true);
    var done := Complete(seen);
    if cut == 2 then shown
    else if cut == 3 || look != Clean || done.Refused? then saved
    else Save(saved, done.value, version + 1, true)
  }

  /** `register_completed_office_artifact`. */
  function RegisterOffice(w: World, sys: System, request: nat, id: nat, path: Path, look: Look, cut: nat): (after: System)
    requires path in sys.files
    ensures after.due == sys.due && after.files == sys.files
    ensures forall ref :: ref in after.bindings && ref !in sys.bindings ==> after.bindings[ref].path == path
  {
    var bytes := sys.files[path];
    var record := FreshRecord(id, request, w.hash(bytes));
    var (bound, ok) := Bind(sys, record.ref, Binding(request, path, record.hash));
    if HasRequest(sys, request) then sys
    else if !ok then bound
    else Admit(w, bound, record, bytes, look, cut)
  }

  function Admit(w: World, bound: System, record: Record, bytes: Bytes, look: Look, cut: nat): (after: System)
    ensures after == bound.(rows := after.rows, previews := after.previews)
  {
    if cut == 0 then bound
    else Inspect(w, bound.(rows := bound.rows[record.id := Row(record, 0)]), record, 0, bytes, look, cut - 1)
  }

  /** `prepare_pdf_artifact_before_write`: path and row are recorded before the file is written, or written over. */
  function PrepareReport(sys: System, request: nat, id: nat, path: Path, hash: Hash, stopped: bool): (after: System)
    ensures after.due == sys.due && after.files == sys.files
    ensures forall ref :: ref in after.bindings && ref !in sys.bindings ==> after.bindings[ref].path == path
  {
    var record := FreshRecord(id, request, hash);
    var (bound, ok) := Bind(sys, record.ref, Binding(request, path, hash));
    if !ok || stopped || HasRequest(sys, request) then bound
    else bound.(rows := bound.rows[id := Row(record, 0)])
  }

  /** The first half of a sweep: the listed records whose binding still matches, up to the limit. */
  function List(sys: System, ids: seq<nat>, found: seq<Entry>): System
    requires Listable(sys, ids)
    decreases |ids|
  {
    if ids == [] then sys.(due := found)
    else
      var row := sys.rows[ids[0]];
      var path := StoragePath(sys, row.record);
      if path.Some? then
        List(sys, ids[1..], if |found| < SWEEP_LIMIT then found + [Entry(row.record, row.version, path.value)] else found)
      else
        List(NeedsAttention(sys, row.record, row.version, true), ids[1..], found)
  }

  predicate Holds(w: World, files: Files, path: Path, hash: Hash) {
    path in files && w.hash(files[path]) == hash
  }

  /** One completed artifact as `list_artifact_deliveries` shows it. */
  function ShowDelivery(w: World, sys: System, id: nat, readable: bool): (after: System)
    requires id in sys.rows
    ensures after == sys.(rows := after.rows)
  {
    var row := sys.rows[id];
    var path := StoragePath(sys, row.record);
    var intact := path.Some? && readable && Holds(w, sys.files, path.value, row.record.hash);
    if row.record.phase == Completed && !intact then NeedsAttention(sys, row.record, row.version, true) else sys
  }

  function Next(w: World, sys: System, event: Event): (after: System)
    requires Enabled(w, sys, event)
    ensures event.HandleNext? ==> after.due == sys.due[1..]
    ensures event.Restart? ==> after.due == []
    ensures !event.HandleNext? && !event.Restart? && !event.ListDue? ==> after.due == sys.due
  {
    match event
    case Outside(path, None) => sys.(files := sys.files - {path})
    case Outside(path, Some(bytes)) => sys.(files := sys.files[path := bytes])
    case Register(request, id, path, look, cut) => RegisterOffice(w, sys, request, id, path, look, cut)
    case Prepare(request, id, path, hash, stopped) => PrepareReport(sys, request, id, path, hash, stopped)
    case Reregister(id, bytes, look, cut) =>
      Inspect(w, sys, sys.rows[id].record, sys.rows[id].version, bytes, look, cut)
    case ListDue(ids) => List(sys, ids, [])
    case HandleNext(luck) => Handle(w, sys.(due := []), sys.due[0], luck).(due := sys.due[1..])
    case Show(id, readable) => ShowDelivery(w, sys, id, readable)
    case Restart => sys.(due := [])
  }

  function Empty(files: Files): System {
    System(files, map[], map[], {}, map[], [])
  }

  predicate Legal(w: World, sys: System, events: seq<Event>)
    decreases |events|
  {
    events == [] || (Enabled(w, sys, events[0]) && Legal(w, Next(w, sys, events[0]), events[1..]))
  }

  function Run(w: World, sys: System, events: seq<Event>): System
    requires Legal(w, sys, events)
    decreases |events|
  {
    if events == [] then sys else Run(w, Next(w, sys, events[0]), events[1..])
  }

  // ----- The sweep as the worker runs it -----

  function HandleAll(w: World, sys: System, lucks: seq<Luck>): System
    requires |lucks| >= |sys.due|
    decreases |sys.due|
  {
    if sys.due == [] then sys else HandleAll(w, Next(w, sys, HandleNext(lucks[0])), lucks[1..])
  }

  class Recovery {
    const disk: Disk
    var bindings: map<Ref, Binding>
    var authorities: map<Ref, Authority>
    var previews: set<(nat, nat)>
    var rows: map<nat, Row>

    constructor (disk: Disk)
      ensures this.disk == disk && View([]) == Empty(disk.files)
    {
      this.disk := disk;
      bindings, authorities, previews, rows := map[], map[], {}, map[];
    }

    ghost function View(due: seq<Entry>): System
      reads this, disk
    {
      System(disk.files, bindings, authorities, previews, rows, due)
    }

    method Update(record: Record, version: nat, saved: bool)
      modifies this`rows
      ensures View([]) == Save(old(View([])), record, version, saved)
    {
      if saved && record.id in rows && rows[record.id].version == version {
        rows := rows[record.id := Row(record, version + 1)];
      }
    }

    method MarkNeedsAttention(record: Record, version: nat, saved: bool)
      modifies this`rows
      ensures View([]) == NeedsAttention(old(View([])), record, version, saved)
    {
      Update(record.(phase := Failed), version, saved);
    }

    /** The `RevisionPrepared` arm: what the write left, and the new binding if it went through. */
    method PrepareRevision(w: World, entry: Entry, luck: Luck) returns (reply: Reply, binding: Option<Binding>)
      modifies disk
      ensures Split(entry.path.name).None? || Regenerate(w, entry.record).None? ==>
        reply == Erred && binding == None && View([]) == old(View([]))
      ensures Split(entry.path.name).Some? && Regenerate(w, entry.record).Some? ==>
        var job := RevisionJob(entry.record, entry.path, Regenerate(w, entry.record).value);
        if !luck.authority || !Authorized(old(View([])), entry.record, job.revised)
        then reply == Erred && binding == None && View([]) == old(View([]))
        else (disk.files, reply) == StagedWrite(old(disk.files), job, luck.stop)
             && binding == if reply == Written
                           then Some(Binding(entry.record.request, job.revised, w.hash(job.bytes))) else None
    {
      var record := entry.record;
      reply, binding := Erred, None;
      var regenerated := Regenerate(w, record);
      if regenerated.None? || Split(entry.path.name).None? {
        return;
      }
      var job := RevisionJob(record, entry.path, regenerated.value);
      if !luck.authority || record.ref !in authorities {
        return;
      }
      var authority := authorities[record.ref];
      if authority.request != record.request || record.attempts == 0 || record.attempts > MAX_ARTIFACT_REVISIONS
         || job.revised != Path(authority.dir, RevisedName(authority.stem, authority.extension, record.attempts)) {
        return;
      }
      reply := disk.WriteRevision(job, luck.stop);
      if reply == Written {
        binding := Some(Binding(record.request, job.revised, w.hash(job.bytes)));
      }
    }

    /** `bind_artifact_storage_path` for a revision's reference. */
    method BindRevision(ref: Ref, binding: Binding) returns (ok: bool)
      requires ref.Revision?
      modifies this`bindings
      ensures (View([]), ok) == Bind(old(View([])), ref, binding)
    {
      if ref in bindings && bindings[ref] != binding {
        return false;
      }
      bindings := bindings[ref := binding];
      ok := true;
    }

    /** One turn of the sweep's second loop. */
    method HandleEntry(w: World, entry: Entry, luck: Luck)
      modifies this, disk
      ensures View([]) == Handle(w, old(View([])), entry, luck)
    {
      var record := entry.record;
      if !luck.readable || entry.path !in disk.files || w.hash(disk.files[entry.path]) != record.hash {
        MarkNeedsAttention(record, entry.version, luck.saved);
        return;
      }
      var failed, shown := false, false;
      match record.phase {
        case Generated =>
          record := CheckStructure(w, record, disk.files[entry.path]);
        case StructureChecked =>
          failed, shown := luck.look == RenderFailed, luck.look == Clean;
          record := CheckVisual(record, luck.look);
        case ReadyForDelivery | VisualChecked =>
          var done := Complete(record);
          if done.Ok? {
            record := done.value;
          } else {
            failed := true;
          }
        case RevisionRequired =>
          record := RequestRevision(record);
        case RevisionPrepared =>
          var reply, binding := PrepareRevision(w, entry, luck);
          if reply == Crashed {
            return;
          }
          failed := binding.None?;
          if binding.Some? {
            var ref := Revision(record.id, record.attempts);
            if !luck.bound {
              return;
            }
            var ok := BindRevision(ref, binding.value);
            if !ok {
              return;
            }
            record := ReplaceRevision(record, ref, binding.value.hash);
          }
        case _ =>
          return;
      }
      if failed {
        MarkNeedsAttention(record, entry.version, luck.saved);
        return;
      }
      if shown {
        if !luck.previews {
          return;
        }
        previews := previews + {(record.id, record.revision)};
      }
      Update(record, entry.version, luck.saved);
    }

    /** `run_artifact_recovery_sweep` over the rows the store listed. */
    method Sweep(w: World, ids: seq<nat>, lucks: seq<Luck>)
      requires Listable(View([]), ids) && |lucks| >= |List(View([]), ids, []).due|
      modifies this, disk
      ensures View([]) == HandleAll(w, List(old(View([])), ids, []), lucks)
    {
      ghost var listed := List(View([]), ids, []);
      var due: seq<Entry> := [];
      var i := 0;
      while i < |ids|
        invariant 0 <= i <= |ids|
        invariant Listable(View([]), ids[i..])
        invariant List(View([]), ids[i..], due) == listed
      {
        var row := rows[ids[i]];
        assert ids[i..][0] == ids[i] && ids[i..][1..] == ids[i + 1..];
        if row.record.ref in bindings && bindings[row.record.ref].request == row.record.request
           && bindings[row.record.ref].hash == row.record.hash {
          if |due| < SWEEP_LIMIT {
            due := due + [Entry(row.record, row.version, bindings[row.record.ref].path)];
          }
        } else {
          MarkNeedsAttention(row.record, row.version, true);
        }
        i := i + 1;
      }
      assert View(due) == listed;
      i := 0;
      while i < |due|
        invariant 0 <= i <= |due| <= |lucks|
        invariant HandleAll(w, View(due[i..]), lucks[i..]) == HandleAll(w, listed, lucks)
      {
        assert due[i..][0] == due[i] && due[i..][1..] == due[i + 1..] && lucks[i..][1..] == lucks[i + 1..];
        ghost var before := View(due[i..]);
        assert before.(due := []) == View([]);
        HandleEntry(w, due[i], lucks[i]);
        assert Next(w, before, HandleNext(lucks[i])) == View(due[i + 1..]);
        i := i + 1;
      }
    }
  }
}
