// Every step keeps the artifact invariant, and what follows for all runs.
module ArtifactReach {
  import opened Common
  import opened ArtifactFiles
  import opened ArtifactRecords
  import opened ArtifactSweep
  import opened ArtifactSafety

  // ----- Registration -----

  /** Whatever stage a registration reaches, its record is in order. */
  lemma FinishShape(w: World, shown: System, record: Record, version: nat, look: Look, cut: nat)
    requires RecordOk(w, shown, record) && record.id in shown.rows && shown.rows[record.id] == Row(record, version)
    requires record.phase == StructureChecked && (look == Clean ==> (record.id, record.revision) in shown.previews)
    ensures RowPut(w, shown, FinishPages(shown, CheckVisual(record, look), version, look, cut), record.id)
  {
    var seen := CheckVisual(record, look);
    SeenOk(w, shown, record, look);
    if Complete(seen).Ok? {
      CompletedOk(w, shown, seen);
    }
  }

  lemma PagesShape(w: World, sys: System, record: Record, version: nat, look: Look, cut: nat)
    requires RecordOk(w, sys, record) && record.id in sys.rows && sys.rows[record.id] == Row(record, version)
    requires record.phase == StructureChecked
    ensures RowPut(w, sys, InspectPages(sys, record, version, look, cut), record.id)
  {
    if look == Clean {
      var shown := sys.(previews := sys.previews + {(record.id, record.revision)});
      FinishShape(w, shown, record, version, look, cut);
    } else {
      FinishShape(w, sys, record, version, look, cut);
    }
  }

  lemma InspectShape(w: World, sys: System, record: Record, version: nat, bytes: Bytes, look: Look, cut: nat)
    requires RecordOk(w, sys, record) && record.id in sys.rows && sys.rows[record.id] == Row(record, version)
    requires StoragePath(sys, record).value in sys.files
    ensures RowPut(w, sys, Inspect(w, sys, record, version, bytes, look, cut), record.id)
  {
    var checked := CheckStructure(w, record, bytes);
    var first := Save(sys, checked, version, true);
    CheckedOk(w, sys, record, bytes);
    if checked.phase == StructureChecked {
      PagesShape(w, first, checked, version + 1, look, cut);
    }
  }

  lemma BindOriginalKeeps(w: World, sys: System, request: nat, path: Path, hash: Hash)
    requires Core(w, sys)
    ensures var ref := Original(request);
      var (bound, ok) := Bind(sys, ref, Binding(request, path, hash));
      Keeps(w, sys, bound)
      && (ok ==> ref in bound.bindings && bound.bindings[ref] == Binding(request, path, hash) && ref in bound.authorities)
  {
    var ref, binding := Original(request), Binding(request, path, hash);
    var (bound, ok) := Bind(sys, ref, binding);
    if ref in sys.bindings ==> sys.bindings[ref] == binding {
      OriginalTables(w, sys, ref, binding);
    } else {
      SameTables(w, sys);
    }
    SameRowsStayOk(w, sys, bound);
  }

  lemma SameTables(w: World, sys: System)
    requires TablesOk(w, sys)
    ensures Grown(sys, sys)
  {
  }

  function AddOriginal(sys: System, ref: Ref, binding: Binding, authority: Option<Authority>): System {
    sys.(bindings := sys.bindings[ref := binding],
         authorities := if authority.Some? then sys.authorities[ref := authority.value] else sys.authorities)
  }

  lemma AddOriginalTables(w: World, sys: System, ref: Ref, binding: Binding, authority: Option<Authority>)
    requires TablesOk(w, sys) && ref == Original(binding.request)
    requires ref in sys.bindings ==> sys.bindings[ref] == binding
    requires authority.Some? ==> (
      && ref !in sys.authorities
      && authority.value.request == binding.request && authority.value.dir == binding.path.dir
      && Split(binding.path.name) == Some((authority.value.stem, authority.value.extension)))
    ensures TablesOk(w, AddOriginal(sys, ref, binding, authority)) && Grown(sys, AddOriginal(sys, ref, binding, authority))
  {
    var after := AddOriginal(sys, ref, binding, authority);
    forall other | other in after.bindings
      ensures BindingOk(w, after, other)
    {
      assert other in sys.bindings ==> BindingOk(w, sys, other);
    }
    forall other | other in after.authorities
      ensures AuthorityOk(after, other)
    {
      assert other in sys.authorities ==> AuthorityOk(sys, other);
    }
  }

  lemma OriginalTables(w: World, sys: System, ref: Ref, binding: Binding)
    requires TablesOk(w, sys) && ref == Original(binding.request)
    requires ref in sys.bindings ==> sys.bindings[ref] == binding
    ensures TablesOk(w, Bind(sys, ref, binding).0) && Grown(sys, Bind(sys, ref, binding).0)
  {
    var parts := Split(binding.path.name);
    var authority := if ref in sys.authorities || parts.None? then None
                     else Some(Authority(binding.request, binding.path.dir, parts.value.0, parts.value.1));
    assert Bind(sys, ref, binding).0 == AddOriginal(sys, ref, binding, authority);
    AddOriginalTables(w, sys, ref, binding, authority);
  }

  lemma RowPutOverInsert(w: World, bound: System, inserted: System, after: System, id: nat)
    requires id !in bound.rows && id in inserted.rows && inserted == bound.(rows := bound.rows[id := inserted.rows[id]])
    requires RowPut(w, inserted, after, id)
    ensures RowPut(w, bound, after, id)
  {
    assert after.rows == bound.rows[id := after.rows[id]];
  }

  lemma InsertedIsOk(w: World, bound: System, record: Record)
    requires RecordOk(w, bound, record)
    ensures var inserted := bound.(rows := bound.rows[record.id := Row(record, 0)]);
      RecordOk(w, inserted, record) && StoragePath(inserted, record) == StoragePath(bound, record)
  {
  }

  lemma AdmitShape(w: World, bound: System, record: Record, bytes: Bytes, look: Look, cut: nat)
    requires RecordOk(w, bound, record) && record.id !in bound.rows && cut > 0
    requires StoragePath(bound, record).value in bound.files
    ensures RowPut(w, bound, Inspect(w, bound.(rows := bound.rows[record.id := Row(record, 0)]), record, 0, bytes, look, cut - 1), record.id)
  {
    var inserted := bound.(rows := bound.rows[record.id := Row(record, 0)]);
    InsertedIsOk(w, bound, record);
    InspectShape(w, inserted, record, 0, bytes, look, cut - 1);
    RowPutOverInsert(w, bound, inserted, Inspect(w, inserted, record, 0, bytes, look, cut - 1), record.id);
  }

  lemma FreshOk(w: World, sys: System, id: nat, request: nat, path: Path, hash: Hash)
    requires var ref := Original(request);
      ref in sys.bindings && sys.bindings[ref] == Binding(request, path, hash) && ref in sys.authorities
    ensures var record := FreshRecord(id, request, hash);
      RecordOk(w, sys, record) && StoragePath(sys, record) == Some(path)
  {
  }

  lemma BoundFileOk(w: World, sys: System, request: nat, id: nat, path: Path)
    requires Core(w, sys) && path in sys.files
    ensures var record := FreshRecord(id, request, w.hash(sys.files[path]));
      var (bound, ok) := Bind(sys, record.ref, Binding(request, path, record.hash));
      && Keeps(w, sys, bound) && bound.files == sys.files && bound.rows == sys.rows
      && (ok ==> RecordOk(w, bound, record) && StoragePath(bound, record) == Some(path))
  {
    var record := FreshRecord(id, request, w.hash(sys.files[path]));
    var bound := Bind(sys, record.ref, Binding(request, path, record.hash)).0;
    BindOriginalKeeps(w, sys, request, path, record.hash);
    if Bind(sys, record.ref, Binding(request, path, record.hash)).1 {
      FreshOk(w, bound, id, request, path, record.hash);
    }
  }

  lemma RegisterKeeps(w: World, sys: System, request: nat, id: nat, path: Path, look: Look, cut: nat)
    requires Core(w, sys) && path in sys.files && id !in sys.rows
    ensures Keeps(w, sys, RegisterOffice(w, sys, request, id, path, look, cut))
  {
    var record := FreshRecord(id, request, w.hash(sys.files[path]));
    var (bound, ok) := Bind(sys, record.ref, Binding(request, path, record.hash));
    BoundFileOk(w, sys, request, id, path);
    if !HasRequest(sys, request) && ok && cut > 0 {
      AdmitShape(w, bound, record, sys.files[path], look, cut);
      RowPutKeeps(w, bound, Admit(w, bound, record, sys.files[path], look, cut), id);
      KeepsOn(w, sys, bound, Admit(w, bound, record, sys.files[path], look, cut));
    }
  }

  lemma BoundReportOk(w: World, sys: System, request: nat, id: nat, path: Path, hash: Hash)
    requires Core(w, sys)
    ensures var record := FreshRecord(id, request, hash);
      var (bound, ok) := Bind(sys, record.ref, Binding(request, path, hash));
      Keeps(w, sys, bound) && (ok ==> RecordOk(w, bound, record))
  {
    var (bound, ok) := Bind(sys, Original(request), Binding(request, path, hash));
    BindOriginalKeeps(w, sys, request, path, hash);
    if ok {
      FreshOk(w, bound, id, request, path, hash);
    }
  }

  lemma PrepareKeeps(w: World, sys: System, request: nat, id: nat, path: Path, hash: Hash, stopped: bool)
    requires Core(w, sys) && id !in sys.rows
    ensures Keeps(w, sys, PrepareReport(sys, request, id, path, hash, stopped))
  {
    var record := FreshRecord(id, request, hash);
    var (bound, ok) := Bind(sys, record.ref, Binding(request, path, hash));
    BoundReportOk(w, sys, request, id, path, hash);
    if ok && !stopped && !HasRequest(sys, request) {
      InsertedKeeps(w, sys, bound, record);
    }
  }

  lemma InsertedKeeps(w: World, sys: System, bound: System, record: Record)
    requires Keeps(w, sys, bound) && RecordOk(w, bound, record) && record.id !in bound.rows
    ensures Keeps(w, sys, bound.(rows := bound.rows[record.id := Row(record, 0)]))
  {
    var after := bound.(rows := bound.rows[record.id := Row(record, 0)]);
    assert RecordOk(w, after, record);
    RowPutKeeps(w, bound, after, record.id);
    KeepsOn(w, sys, bound, after);
  }

  // ----- The other steps -----

  lemma OutsideTables(w: World, sys: System, path: Path, content: Option<Bytes>)
    requires TablesOk(w, sys) && Enabled(w, sys, Outside(path, content))
    ensures TablesOk(w, Next(w, sys, Outside(path, content))) && Grown(sys, Next(w, sys, Outside(path, content)))
  {
    var after := Next(w, sys, Outside(path, content));
    forall ref | ref in after.bindings
      ensures BindingOk(w, after, ref)
    {
      assert BindingOk(w, sys, ref);
      assert sys.bindings[ref].path == path ==> IsBoundPath(sys, path);
    }
    forall ref | ref in after.authorities
      ensures AuthorityOk(after, ref)
    {
      assert AuthorityOk(sys, ref);
    }
    forall ref | ref in sys.bindings && sys.bindings[ref].path in sys.files
      ensures sys.bindings[ref].path in after.files
    {
      assert sys.bindings[ref].path == path ==> IsBoundPath(sys, path);
    }
  }

  lemma OutsideKeeps(w: World, sys: System, path: Path, content: Option<Bytes>)
    requires Core(w, sys) && Enabled(w, sys, Outside(path, content))
    ensures Keeps(w, sys, Next(w, sys, Outside(path, content)))
  {
    OutsideTables(w, sys, path, content);
    SameRowsStayOk(w, sys, Next(w, sys, Outside(path, content)));
  }

  lemma RowEntryOk(w: World, sys: System, id: nat)
    requires RowsOk(w, sys) && id in sys.rows
    ensures var row := sys.rows[id];
      StoragePath(sys, row.record).Some? && EntryOk(w, sys, Entry(row.record, row.version, StoragePath(sys, row.record).value))
  {
    assert RecordOk(w, sys, sys.rows[id].record);
  }

  ghost predicate EntriesOk(w: World, sys: System, entries: seq<Entry>) {
    forall i :: 0 <= i < |entries| ==> EntryOk(w, sys, entries[i])
  }

  lemma OneMoreOk(w: World, sys: System, found: seq<Entry>, entry: Entry)
    requires EntriesOk(w, sys, found) && EntryOk(w, sys, entry)
    ensures EntriesOk(w, sys, found + [entry])
  {
  }

  lemma {:induction false} ListKeeps(w: World, sys: System, ids: seq<nat>, found: seq<Entry>)
    requires RowsOk(w, sys) && Listable(sys, ids) && EntriesOk(w, sys, found)
    ensures var after := List(sys, ids, found); after == sys.(due := after.due) && EntriesOk(w, sys, after.due)
    decreases |ids|
  {
    if ids != [] {
      var row := sys.rows[ids[0]];
      RowEntryOk(w, sys, ids[0]);
      var entry := Entry(row.record, row.version, StoragePath(sys, row.record).value);
      OneMoreOk(w, sys, found, entry);
      var longer := if |found| < SWEEP_LIMIT then found + [entry] else found;
      assert List(sys, ids, found) == List(sys, ids[1..], longer);
      ListKeeps(w, sys, ids[1..], longer);
    }
  }

  lemma ShowKeeps(w: World, sys: System, id: nat, readable: bool)
    requires Core(w, sys) && id in sys.rows
    ensures Keeps(w, sys, ShowDelivery(w, sys, id, readable))
  {
    var row := sys.rows[id];
    assert RecordOk(w, sys, row.record);
    if ShowDelivery(w, sys, id, readable) != sys {
      NeedsAttentionKeeps(w, sys, row.record, row.version, true);
    }
  }

  lemma DuePart(w: World, sys: System, due: seq<Entry>)
    requires Core(w, sys)
    ensures Core(w, sys.(due := due)) && Grown(sys, sys.(due := due)) && Grown(sys.(due := due), sys)
  {
    var after := sys.(due := due);
    forall ref | ref in after.bindings
      ensures BindingOk(w, after, ref)
    {
      assert BindingOk(w, sys, ref);
    }
    forall ref | ref in after.authorities
      ensures AuthorityOk(after, ref)
    {
      assert AuthorityOk(sys, ref);
    }
    SameRowsStayOk(w, sys, after);
  }

  lemma HandleNextKeeps(w: World, sys: System, luck: Luck)
    requires Inv(w, sys) && sys.due != []
    ensures Keeps(w, sys, Handle(w, sys.(due := []), sys.due[0], luck).(due := sys.due[1..]))
  {
    var bare, entry := sys.(due := []), sys.due[0];
    DuePart(w, sys, []);
    EntryStaysOk(w, sys, bare, entry);
    BareHandleKeeps(w, bare, entry, luck, sys.due[1..]);
    KeepsOn(w, sys, bare, Handle(w, bare, entry, luck).(due := sys.due[1..]));
  }

  lemma BareHandleKeeps(w: World, bare: System, entry: Entry, luck: Luck, due: seq<Entry>)
    requires Core(w, bare) && NamesOk(bare) && EntryOk(w, bare, entry)
    ensures Keeps(w, bare, Handle(w, bare, entry, luck).(due := due))
  {
    HandleKeeps(w, bare, entry, luck);
    DuePart(w, Handle(w, bare, entry, luck), due);
    KeepsOn(w, bare, Handle(w, bare, entry, luck), Handle(w, bare, entry, luck).(due := due));
  }

  lemma CoreStep(w: World, sys: System, event: Event)
    requires Inv(w, sys) && Enabled(w, sys, event)
    ensures Keeps(w, sys, Next(w, sys, event))
  {
    match event
    case Outside(path, content) => OutsideKeeps(w, sys, path, content);
    case Register(request, id, path, look, cut) => RegisterKeeps(w, sys, request, id, path, look, cut);
    case Prepare(request, id, path, hash, stopped) => PrepareKeeps(w, sys, request, id, path, hash, stopped);
    case Reregister(id, bytes, look, cut) =>
      InspectShape(w, sys, sys.rows[id].record, sys.rows[id].version, bytes, look, cut);
      RowPutKeeps(w, sys, Next(w, sys, event), id);
    case ListDue(ids) =>
      ListKeeps(w, sys, ids, []);
      DuePart(w, sys, List(sys, ids, []).due);
    case HandleNext(luck) => HandleNextKeeps(w, sys, luck);
    case Show(id, readable) => ShowKeeps(w, sys, id, readable);
    case Restart => DuePart(w, sys, []);
  }

  // ----- Names -----

  lemma ReviseAdds(w: World, sys: System, entry: Entry, luck: Luck, ref: Ref)
    requires ref in Revise(w, sys, entry, luck).bindings && ref !in sys.bindings
    ensures var after := Revise(w, sys, entry, luck);
      after.bindings[ref].path in after.files && !IsStaging(after.bindings[ref].path.name)
  {
    var job := RevisionJob(entry.record, entry.path, Regenerate(w, entry.record).value);
    StagedWriteEffect(sys.files, job, luck.stop);
    RevisedNameIsNotPlain(entry.path.name, entry.record.attempts);
  }

  /** The only new binding a handled record can add is a revision's, and its file is there. */
  lemma HandleAdds(w: World, sys: System, entry: Entry, luck: Luck, ref: Ref)
    requires ref in Handle(w, sys, entry, luck).bindings && ref !in sys.bindings
    ensures var after := Handle(w, sys, entry, luck);
      after.bindings[ref].path in after.files && !IsStaging(after.bindings[ref].path.name)
  {
    assert entry.record.phase == RevisionPrepared;
    assert Handle(w, sys, entry, luck) == Revise(w, sys, entry, luck);
    ReviseAdds(w, sys, entry, luck, ref);
  }

  lemma NamesStay(sys: System, after: System)
    requires NamesOk(sys) && Grown(sys, after)
    requires forall ref :: ref in after.bindings && ref !in sys.bindings ==> NameOk(after, ref)
    ensures NamesOk(after)
  {
    forall ref | ref in after.bindings
      ensures NameOk(after, ref)
    {
      assert ref in sys.bindings ==> NameOk(sys, ref);
    }
  }

  lemma NewNameOk(w: World, sys: System, event: Event, ref: Ref)
    requires Inv(w, sys) && Enabled(w, sys, event)
    requires ref in Next(w, sys, event).bindings && ref !in sys.bindings
    ensures NameOk(Next(w, sys, event), ref)
  {
    if event.HandleNext? {
      HandleAdds(w, sys.(due := []), sys.due[0], event.luck, ref);
    } else if event.ListDue? {
      ListKeeps(w, sys, event.ids, []);
    }
  }

  lemma NamesStep(w: World, sys: System, event: Event)
    requires Inv(w, sys) && Enabled(w, sys, event) && Grown(sys, Next(w, sys, event))
    ensures NamesOk(Next(w, sys, event))
  {
    var after := Next(w, sys, event);
    forall ref | ref in after.bindings && ref !in sys.bindings
      ensures NameOk(after, ref)
    {
      NewNameOk(w, sys, event, ref);
    }
    NamesStay(sys, after);
  }

  // ----- Runs -----

  lemma InvStep(w: World, sys: System, event: Event)
    requires Inv(w, sys) && Enabled(w, sys, event)
    ensures Inv(w, Next(w, sys, event)) && Grown(sys, Next(w, sys, event))
  {
    var after := Next(w, sys, event);
    CoreStep(w, sys, event);
    NamesStep(w, sys, event);
    DueStep(w, sys, event);
  }

  lemma DueStep(w: World, sys: System, event: Event)
    requires Inv(w, sys) && Enabled(w, sys, event) && Grown(sys, Next(w, sys, event))
    ensures var after := Next(w, sys, event);
      forall i :: 0 <= i < |after.due| ==> EntryOk(w, after, after.due[i])
  {
    var after := Next(w, sys, event);
    if event.ListDue? {
      ListKeeps(w, sys, event.ids, []);
    }
    forall i | 0 <= i < |after.due|
      ensures EntryOk(w, after, after.due[i])
    {
      DueFrom(w, sys, event, i);
      EntryStaysOk(w, sys, after, after.due[i]);
    }
  }

  lemma DueFrom(w: World, sys: System, event: Event, i: nat)
    requires Inv(w, sys) && Enabled(w, sys, event) && i < |Next(w, sys, event).due|
    ensures EntryOk(w, sys, Next(w, sys, event).due[i])
  {
    if event.ListDue? {
      ListKeeps(w, sys, event.ids, []);
    }
  }

  lemma GrownOn(sys: System, middle: System, after: System)
    requires Grown(sys, middle) && Grown(middle, after)
    ensures Grown(sys, after)
  {
    forall id | id in sys.rows
      ensures id in after.rows && RowGrown(sys.rows[id], after.rows[id])
    {
      assert RowGrown(sys.rows[id], middle.rows[id]) && RowGrown(middle.rows[id], after.rows[id]);
    }
  }

  lemma {:induction false} InvRun(w: World, sys: System, events: seq<Event>)
    requires Inv(w, sys) && Legal(w, sys, events)
    ensures Inv(w, Run(w, sys, events)) && Grown(sys, Run(w, sys, events))
    decreases |events|
  {
    if events != [] {
      InvStep(w, sys, events[0]);
      InvRun(w, Next(w, sys, events[0]), events[1..]);
      GrownOn(sys, Next(w, sys, events[0]), Run(w, sys, events));
    }
  }

  lemma InvFromEmpty(w: World, files: Files, events: seq<Event>)
    requires Legal(w, Empty(files), events)
    ensures Inv(w, Run(w, Empty(files), events))
  {
    InvRun(w, Empty(files), events);
  }
}
