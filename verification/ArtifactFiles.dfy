// File names of artifact revisions, and the staged write that puts a revision in place.
module ArtifactFiles {
  import opened Common
  import opened Text

  type Bytes = seq<bv8>

  datatype Path = Path(dir: string, name: string)

  function LastDot(name: string): (at: Option<nat>)
    ensures at.Some? ==> at.value < |name| && name[at.value] == '.' && '.' !in name[at.value + 1..]
    ensures at.None? ==> '.' !in name
  {
    if name == [] then None
    else if name[|name| - 1] == '.' then Some(|name| - 1)
    else
      assert name == name[..|name| - 1] + [name[|name| - 1]];
      LastDot(name[..|name| - 1])
  }

  /** `file_stem` and `extension`; a leading dot alone starts no extension. */
  function Split(name: string): (parts: Option<(string, string)>)
    ensures parts.Some? ==> name == parts.value.0 + "." + parts.value.1 && parts.value.0 != [] && '.' !in parts.value.1
  {
    var at := LastDot(name);
    if at.None? || at.value == 0 || name == ".." then None
    else Some((name[..at.value], name[at.value + 1..]))
  }

  function Dotted(front: string, tail: string): string {
    front + "." + tail
  }

  /** `{stem}.revision-{attempt}.{extension}` */
  function RevisedName(stem: string, extension: string, attempt: nat): string {
    Dotted(Dotted(stem, "revision-" + Decimal(attempt)), extension)
  }

  /** `.{name}.ds-agent-{artifact}-{attempt}.tmp` */
  function StagingName(name: string, artifact: nat, attempt: nat): string {
    Dotted(Dotted("." + name, "ds-agent-" + Decimal(artifact) + "-" + Decimal(attempt)), "tmp")
  }

  /** A name of the shape the staged write uses for its temporary file. */
  predicate IsStaging(name: string) {
    var outer := Split(name);
    outer.Some? && outer.value.1 == "tmp" && (
      var inner := Split(outer.value.0);
      inner.Some? && "ds-agent-" <= inner.value.1)
  }

  lemma {:induction false} LastDotOf(front: string, tail: string)
    requires '.' !in tail
    ensures LastDot(Dotted(front, tail)) == Some(|front|)
  {
    var name := Dotted(front, tail);
    if tail != [] {
      assert name[..|name| - 1] == Dotted(front, tail[..|tail| - 1]);
      LastDotOf(front, tail[..|tail| - 1]);
    }
  }

  /** Splitting undoes joining, except for the name `..`. */
  lemma SplitOf(front: string, tail: string)
    requires '.' !in tail && front != [] && (front != "." || tail != [])
    ensures Split(Dotted(front, tail)) == Some((front, tail))
  {
    LastDotOf(front, tail);
    var name := Dotted(front, tail);
    assert name[..|front|] == front && name[|front| + 1..] == tail;
    if |front| == 1 {
      assert front == [front[0]];
    }
  }

  lemma StagingNameIsStaging(name: string, artifact: nat, attempt: nat)
    ensures IsStaging(StagingName(name, artifact, attempt))
  {
    var id := "ds-agent-" + Decimal(artifact) + "-" + Decimal(attempt);
    SplitOf("." + name, id);
    SplitOf(Dotted("." + name, id), "tmp");
  }

  /** A revision never takes a name the staged write would use, and always a longer one than it came from. */
  lemma RevisedNameIsNew(name: string, attempt: nat)
    requires Split(name).Some?
    ensures var (stem, extension) := Split(name).value;
      var revised := RevisedName(stem, extension, attempt);
      !IsStaging(revised) && |revised| > |name|
      && Split(revised) == Some((Dotted(stem, "revision-" + Decimal(attempt)), extension))
  {
    var (stem, extension) := Split(name).value;
    var number := "revision-" + Decimal(attempt);
    assert number[0] == 'r' && "ds-agent-"[0] == 'd';
    SplitOf(stem, number);
    SplitOf(Dotted(stem, number), extension);
  }

  lemma StagingNameIsLonger(name: string, artifact: nat, attempt: nat)
    ensures |StagingName(name, artifact, attempt)| > |name|
  {
  }

  // ----- The staged write -----

  /** Where a write stops: a failing operation returns an error, a crash returns nothing. */
  datatype Stop =
    | Nowhere
    | Unreadable(crash: bool)
    | BeforeOpen(crash: bool)
    | DuringWrite(written: nat, crash: bool)
    | BeforeRename(crash: bool)

  datatype Reply = Written | Erred | Crashed

  datatype Job = Job(revised: Path, staging: Path, bytes: Bytes)

  function Interrupted(crash: bool): Reply {
    if crash then Crashed else Erred
  }

  type Files = map<Path, Bytes>

  /** The files and the answer after one call; `Disk.WriteRevision` is proved to compute this. */
  function StagedWrite(files: Files, job: Job, stop: Stop): (Files, Reply) {
    var finished := (files[job.staging := job.bytes] - {job.staging})[job.revised := job.bytes];
    if job.revised in files then
      (files, if stop.Unreadable? then Interrupted(stop.crash)
              else if files[job.revised] == job.bytes then Written else Erred)
    else if job.staging in files then
      if stop.Unreadable? then (files, Interrupted(stop.crash))
      else if files[job.staging] != job.bytes then (files, Erred)
      else if stop.BeforeRename? then (files, Interrupted(stop.crash))
      else (finished, Written)
    else if stop.BeforeOpen? then (files, Interrupted(stop.crash))
    else if stop.DuringWrite? && stop.written < |job.bytes| then
      (files[job.staging := job.bytes[..stop.written]], Interrupted(stop.crash))
    else if stop.BeforeRename? then (files[job.staging := job.bytes], Interrupted(stop.crash))
    else (finished, Written)
  }

  predicate Torn(files: Files, job: Job) {
    job.revised !in files && job.staging in files && files[job.staging] != job.bytes
  }

  /** What one call may do to the files, whatever stops it. */
  ghost predicate WriteEffect(before: Files, after: Files, job: Job, stop: Stop, reply: Reply) {
    && (forall p :: p != job.revised && p != job.staging ==>
          (p in before <==> p in after) && (p in before ==> after[p] == before[p]))
    && (job.revised in before ==> after == before && (reply == Written ==> before[job.revised] == job.bytes))
    && (job.revised in before && before[job.revised] == job.bytes && stop == Nowhere ==> reply == Written)
    && (Torn(before, job) ==> after == before && reply != Written)
    && (job.revised in after && job.revised !in before ==> after[job.revised] == job.bytes && reply == Written)
    && (reply == Written ==> job.revised in after && after[job.revised] == job.bytes)
    && (job.revised !in before && !Torn(before, job) && stop == Nowhere ==>
          reply == Written && after == (before - {job.staging})[job.revised := job.bytes])
    && (job.revised !in before && !Torn(before, job) && reply != Written ==>
          after == before || after == before[job.staging := job.bytes]
          || (exists n :: 0 <= n < |job.bytes| && after == before[job.staging := job.bytes[..n]]))
  }

  lemma StagedWriteEffect(files: Files, job: Job, stop: Stop)
    requires job.revised != job.staging
    ensures var (after, reply) := StagedWrite(files, job, stop);
      WriteEffect(files, after, job, stop, reply) && (stop == Nowhere ==> reply != Crashed)
  {
    var finished := (files[job.staging := job.bytes] - {job.staging})[job.revised := job.bytes];
    assert finished == (files - {job.staging})[job.revised := job.bytes];
  }

  /** A torn temporary file comes from nothing but a stop inside the write. */
  lemma TearsExactly(files: Files, job: Job, stop: Stop)
    requires job.revised != job.staging
    ensures Torn(StagedWrite(files, job, stop).0, job) <==>
            Torn(files, job)
            || (job.revised !in files && job.staging !in files && stop.DuringWrite? && stop.written < |job.bytes|)
  {
  }

  /** A call leaves every file alone that is neither its staging file nor a revised file it puts in place. */
  lemma StagedWriteLeaves(files: Files, job: Job, stop: Stop, path: Path)
    requires path != job.staging && (path == job.revised ==> path in files)
    ensures var after := StagedWrite(files, job, stop).0;
      (path in files <==> path in after) && (path in files ==> after[path] == files[path])
  {
  }

  class Disk {
    var files: Files

    constructor ()
      ensures files == map[]
    {
      files := map[];
    }

    /** `write_revision_atomically`. */
    method WriteRevision(job: Job, stop: Stop) returns (reply: Reply)
      requires job.revised != job.staging
      modifies this
      ensures (files, reply) == StagedWrite(old(files), job, stop)
    {
      if job.revised in files {
        if stop.Unreadable? {
          return Interrupted(stop.crash);
        }
        return if files[job.revised] == job.bytes then Written else Erred;
      }
      if job.staging in files {
        if stop.Unreadable? {
          return Interrupted(stop.crash);
        }
        if files[job.staging] != job.bytes {
          return Erred;
        }
      } else {
        if stop.BeforeOpen? {
          return Interrupted(stop.crash);
        }
        files := files[job.staging := []];
        if stop.DuringWrite? && stop.written < |job.bytes| {
          files := files[job.staging := job.bytes[..stop.written]];
          assert files == old(files)[job.staging := job.bytes[..stop.written]];
          return Interrupted(stop.crash);
        }
        files := files[job.staging := job.bytes];
        assert files == old(files)[job.staging := job.bytes];
      }
      assert files == old(files)[job.staging := job.bytes];
      if stop.BeforeRename? {
        return Interrupted(stop.crash);
      }
      files := (files - {job.staging})[job.revised := job.bytes];
      reply := Written;
    }
  }

  // ----- Any sequence of calls for one revision -----

  datatype Call = Call(stop: Stop, reply: Reply)

  /** `states` is the history of the files over the calls, each of which may have stopped anywhere. */
  ghost predicate History(states: seq<Files>, calls: seq<Call>, job: Job) {
    && job.revised != job.staging
    && |states| == |calls| + 1
    && forall i :: 0 <= i < |calls| ==> WriteEffect(states[i], states[i + 1], job, calls[i].stop, calls[i].reply)
  }

  lemma {:induction false} WrittenStays(states: seq<Files>, calls: seq<Call>, job: Job, i: nat, j: nat)
    requires History(states, calls, job) && i <= j < |states| && job.revised in states[i]
    ensures states[j] == states[i]
    decreases j - i
  {
    if i < j {
      assert WriteEffect(states[i], states[i + 1], job, calls[i].stop, calls[i].reply);
      WrittenStays(states, calls, job, i + 1, j);
    }
  }

  lemma {:induction false} TornStays(states: seq<Files>, calls: seq<Call>, job: Job, i: nat, j: nat)
    requires History(states, calls, job) && i <= j < |states| && Torn(states[i], job)
    ensures states[j] == states[i] && (j < |calls| ==> calls[j].reply != Written)
    decreases j - i
  {
    if j < |calls| {
      assert WriteEffect(states[j], states[j + 1], job, calls[j].stop, calls[j].reply);
    }
    if i < j {
      assert WriteEffect(states[i], states[i + 1], job, calls[i].stop, calls[i].reply);
      TornStays(states, calls, job, i + 1, j);
    }
  }

  /** The revised path is absent or holds exactly the intended bytes, or is what was there before the first
      call; after a success nothing changes any more; no other file is ever touched. */
  lemma {:induction false} RevisionIsAtomic(states: seq<Files>, calls: seq<Call>, job: Job, j: nat)
    requires History(states, calls, job) && j < |states|
    ensures job.revised in states[0] ==> states[j] == states[0]
    ensures job.revised !in states[0] && job.revised in states[j] ==> states[j][job.revised] == job.bytes
    ensures forall i :: 0 <= i < j && calls[i].reply == Written ==>
      job.revised in states[j] && states[j][job.revised] == job.bytes && states[j] == states[i + 1]
    ensures forall p :: p != job.revised && p != job.staging ==>
      (p in states[j] <==> p in states[0]) && (p in states[0] ==> states[j][p] == states[0][p])
    ensures Torn(states[0], job) ==> states[j] == states[0]
    decreases j
  {
    if j > 0 {
      RevisionIsAtomic(states, calls, job, j - 1);
      assert WriteEffect(states[j - 1], states[j], job, calls[j - 1].stop, calls[j - 1].reply);
    }
  }

  /** After any history, an undisturbed call succeeds exactly when no earlier call (or stranger) left a
      different file under either name. A crash inside the write leaves such a file for good. */
  lemma RetrySucceedsExactly(states: seq<Files>, calls: seq<Call>, job: Job)
    requires History(states, calls, job) && calls != [] && calls[|calls| - 1].stop == Nowhere
    ensures var before := states[|calls| - 1];
      (calls[|calls| - 1].reply == Written <==>
        !Torn(before, job) && (job.revised in before ==> before[job.revised] == job.bytes))
  {
    var i := |calls| - 1;
    assert WriteEffect(states[i], states[i + 1], job, calls[i].stop, calls[i].reply);
  }
}
