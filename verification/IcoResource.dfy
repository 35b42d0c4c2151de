// Choosing one image of an .ico file: the directory is parsed from bytes and the frame nearest to the
// desired size is returned as a slice of the file.
module IcoResource {
  import opened Common

  type Byte = b: int | 0 <= b < 256 witness 0

  function At(bytes: seq<Byte>, i: nat): nat
    requires i < |bytes|
  {
    bytes[i]
  }

  function ReadU16(bytes: seq<Byte>, offset: nat): Option<nat> {
    if offset + 2 <= |bytes| then Some(At(bytes, offset) + 0x100 * At(bytes, offset + 1)) else None
  }

  function ReadU32(bytes: seq<Byte>, offset: nat): Option<nat> {
    if offset + 4 <= |bytes|
    then Some(At(bytes, offset) + 0x100 * At(bytes, offset + 1)
              + 0x1_0000 * At(bytes, offset + 2) + 0x100_0000 * At(bytes, offset + 3))
    else None
  }

  function Side(b: Byte): nat {
    if b == 0 then 256 else b
  }

  function AbsDiff(a: nat, b: nat): nat {
    if a < b then b - a else a - b
  }

  datatype Candidate = Candidate(distance: nat, smaller: nat, offset: nat, size: nat)

  /** The order of the source's tuples. */
  predicate Before(a: Candidate, b: Candidate) {
    || a.distance < b.distance
    || (a.distance == b.distance && (
          || a.smaller < b.smaller
          || (a.smaller == b.smaller && (a.offset < b.offset || (a.offset == b.offset && a.size < b.size)))))
  }

  // ----- What the directory says -----

  function EntryAt(k: nat): nat {
    6 + k * 16
  }

  function FrameCount(bytes: seq<Byte>): Option<nat> {
    if ReadU16(bytes, 0) == Some(0) && ReadU16(bytes, 2) == Some(1) then ReadU16(bytes, 4) else None
  }

  predicate Square(bytes: seq<Byte>, k: nat) {
    EntryAt(k) + 1 < |bytes| && Side(bytes[EntryAt(k)]) == Side(bytes[EntryAt(k) + 1])
  }

  /** The bytes of an entry that the selection looks at are there. */
  predicate Readable(bytes: seq<Byte>, k: nat) {
    EntryAt(k) + 1 < |bytes| && (Square(bytes, k) ==> EntryAt(k) + 16 <= |bytes|)
  }

  function CandidateAt(bytes: seq<Byte>, desired: nat, k: nat): Candidate
    requires Readable(bytes, k) && Square(bytes, k)
  {
    var width := Side(bytes[EntryAt(k)]);
    Candidate(AbsDiff(width, desired), if width < desired then 1 else 0,
              ReadU32(bytes, EntryAt(k) + 12).value, ReadU32(bytes, EntryAt(k) + 8).value)
  }

  predicate Usable(bytes: seq<Byte>, k: nat) {
    Readable(bytes, k) && Square(bytes, k) && (
      var c := CandidateAt(bytes, 0, k);
      c.offset + c.size <= |bytes|)
  }

  predicate Parses(bytes: seq<Byte>) {
    FrameCount(bytes).Some? && forall k :: 0 <= k < FrameCount(bytes).value ==> Readable(bytes, k)
  }

  /** `best` is the least candidate of the first `n` entries, if any of them is usable. */
  ghost predicate Least(bytes: seq<Byte>, desired: nat, n: nat, best: Option<Candidate>) {
    match best
    case None => forall k :: 0 <= k < n ==> !Usable(bytes, k)
    case Some(c) =>
      && (exists k :: 0 <= k < n && Usable(bytes, k) && CandidateAt(bytes, desired, k) == c)
      && (forall k :: 0 <= k < n && Usable(bytes, k) ==> !Before(CandidateAt(bytes, desired, k), c))
  }

  function Slice(bytes: seq<Byte>, best: Option<Candidate>): Option<seq<Byte>> {
    if best.Some? && best.value.offset + best.value.size <= |bytes|
    then Some(bytes[best.value.offset..best.value.offset + best.value.size])
    else None
  }

  ghost predicate Chosen(bytes: seq<Byte>, desired: nat, best: Option<Candidate>) {
    if Parses(bytes) then Least(bytes, desired, FrameCount(bytes).value, best) else best == None
  }

  /** What selecting from a file means: the slice of the least usable square frame; nothing when the header is
      wrong, the directory is cut short, or no frame is usable. */
  ghost predicate Selection(bytes: seq<Byte>, desired: nat, result: Option<seq<Byte>>) {
    exists best :: Chosen(bytes, desired, best) && result == Slice(bytes, best)
  }

  method SelectIcoResource(bytes: seq<Byte>, desired: nat) returns (result: Option<seq<Byte>>)
    ensures Selection(bytes, desired, result)
    ensures result.Some? <==> Parses(bytes) && exists k :: 0 <= k < FrameCount(bytes).value && Usable(bytes, k)
  {
    var reserved, kind := ReadU16(bytes, 0), ReadU16(bytes, 2);
    if reserved != Some(0) || kind != Some(1) {
      assert Chosen(bytes, desired, None);
      return None;
    }
    var count := ReadU16(bytes, 4);
    if count.None? {
      assert Chosen(bytes, desired, None);
      return None;
    }
    var best: Option<Candidate> := None;
    for k := 0 to count.value
      invariant forall j :: 0 <= j < k ==> Readable(bytes, j)
      invariant Least(bytes, desired, k, best)
      invariant best.Some? ==> best.value.offset + best.value.size <= |bytes|
    {
      var entry := 6 + k * 16;
      if entry + 1 >= |bytes| {
        assert !Readable(bytes, k);
        assert Chosen(bytes, desired, None);
        return None;
      }
      var width, height := Side(bytes[entry]), Side(bytes[entry + 1]);
      if width != height {
        continue;
      }
      var size, offset := ReadU32(bytes, entry + 8), ReadU32(bytes, entry + 12);
      if size.None? || offset.None? {
        assert !Readable(bytes, k);
        assert Chosen(bytes, desired, None);
        return None;
      }
      if offset.value + size.value > |bytes| {
        continue;
      }
      var candidate := Candidate(AbsDiff(width, desired), if width < desired then 1 else 0, offset.value, size.value);
      assert Usable(bytes, k) && CandidateAt(bytes, desired, k) == candidate;
      if best.None? || Before(candidate, best.value) {
        best := Some(candidate);
      }
    }
    assert Chosen(bytes, desired, best);
    result := Slice(bytes, best);
  }

  /** There is one answer. */
  lemma SelectionIsUnique(bytes: seq<Byte>, desired: nat, a: Option<seq<Byte>>, b: Option<seq<Byte>>)
    requires Selection(bytes, desired, a) && Selection(bytes, desired, b)
    ensures a == b
  {
    var x :| Chosen(bytes, desired, x) && a == Slice(bytes, x);
    var y :| Chosen(bytes, desired, y) && b == Slice(bytes, y);
    ChosenIsUnique(bytes, desired, x, y);
  }

  lemma ChosenIsUnique(bytes: seq<Byte>, desired: nat, x: Option<Candidate>, y: Option<Candidate>)
    requires Chosen(bytes, desired, x) && Chosen(bytes, desired, y)
    ensures x == y
  {
  }

  // ----- The order of the directory does not matter -----

  function Entry(bytes: seq<Byte>, k: nat): seq<Byte>
    requires EntryAt(k) + 16 <= |bytes|
  {
    bytes[EntryAt(k)..EntryAt(k) + 16]
  }

  ghost predicate Lists(bytes: seq<Byte>, n: nat, entry: seq<Byte>)
    requires EntryAt(n) <= |bytes|
  {
    exists j: nat :: j < n && Entry(bytes, j) == entry
  }

  /** Two files of one length and one frame count whose full directories hold the same entries. */
  ghost predicate SameEntries(a: seq<Byte>, b: seq<Byte>) {
    && |a| == |b| && FrameCount(a) == FrameCount(b) && FrameCount(a).Some? && EntryAt(FrameCount(a).value) <= |a|
    && (forall k: nat :: k < FrameCount(a).value ==> Lists(b, FrameCount(a).value, Entry(a, k)))
    && (forall k: nat :: k < FrameCount(a).value ==> Lists(a, FrameCount(a).value, Entry(b, k)))
  }

  lemma EntryDecides(a: seq<Byte>, b: seq<Byte>, desired: nat, j: nat, k: nat)
    requires |a| == |b| && EntryAt(j) + 16 <= |a| && EntryAt(k) + 16 <= |b| && Entry(a, j) == Entry(b, k)
    ensures Usable(a, j) <==> Usable(b, k)
    ensures Usable(a, j) ==> CandidateAt(a, desired, j) == CandidateAt(b, desired, k)
  {
    assert forall i :: 0 <= i < 16 ==> Entry(a, j)[i] == a[EntryAt(j) + i];
    assert forall i :: 0 <= i < 16 ==> Entry(b, k)[i] == b[EntryAt(k) + i];
  }

  lemma UsableAcross(a: seq<Byte>, b: seq<Byte>, desired: nat, k: nat) returns (j: nat)
    requires |a| == |b| && FrameCount(a).Some? && EntryAt(FrameCount(a).value) <= |a| && k < FrameCount(a).value
    requires Lists(a, FrameCount(a).value, Entry(b, k)) && Usable(b, k)
    ensures j < FrameCount(a).value && Usable(a, j) && CandidateAt(a, desired, j) == CandidateAt(b, desired, k)
  {
    j :| j < FrameCount(a).value && Entry(a, j) == Entry(b, k);
    EntryDecides(a, b, desired, j, k);
  }

  lemma LeastAcross(a: seq<Byte>, b: seq<Byte>, desired: nat, best: Option<Candidate>)
    requires SameEntries(a, b) && Least(a, desired, FrameCount(a).value, best)
    ensures Least(b, desired, FrameCount(b).value, best)
  {
    var n := FrameCount(a).value;
    forall k | 0 <= k < n && Usable(b, k)
      ensures best.Some? && !Before(CandidateAt(b, desired, k), best.value)
    {
      var j := UsableAcross(a, b, desired, k);
    }
    if best.Some? {
      var j: nat :| j < n && Usable(a, j) && CandidateAt(a, desired, j) == best.value;
      var k := UsableAcross(b, a, desired, j);
    }
  }

  /** Reordering, or repeating, the entries of a full directory changes nothing: the same frame is chosen, and
      the same bytes are returned when its data lies outside the directory. */
  lemma EntryOrderIsIrrelevant(a: seq<Byte>, b: seq<Byte>, desired: nat, best: Option<Candidate>)
    requires SameEntries(a, b)
    ensures Chosen(a, desired, best) <==> Chosen(b, desired, best)
    ensures (best.Some? ==> best.value.offset >= EntryAt(FrameCount(a).value))
            && a[EntryAt(FrameCount(a).value)..] == b[EntryAt(FrameCount(b).value)..]
            ==> Slice(a, best) == Slice(b, best)
  {
    var n := FrameCount(a).value;
    assert Parses(a) && Parses(b);
    if Chosen(a, desired, best) {
      LeastAcross(a, b, desired, best);
    }
    if Chosen(b, desired, best) {
      assert SameEntries(b, a);
      LeastAcross(b, a, desired, best);
    }
    if best.Some? && best.value.offset >= EntryAt(n) && a[EntryAt(n)..] == b[EntryAt(n)..] && Slice(a, best).Some? {
      var lo, hi := best.value.offset, best.value.offset + best.value.size;
      SliceOfDrop(a, EntryAt(n), lo - EntryAt(n), hi - EntryAt(n));
      SliceOfDrop(b, EntryAt(n), lo - EntryAt(n), hi - EntryAt(n));
    }
  }

  // ----- A file that is written and read back -----

  datatype Frame = Frame(side: nat, data: seq<Byte>)

  function Le16(n: nat): seq<Byte>
    requires n < 0x1_0000
  {
    [n % 0x100, n / 0x100]
  }

  function Le32(n: nat): seq<Byte>
    requires n < 0x1_0000_0000
  {
    [n % 0x100, n / 0x100 % 0x100, n / 0x1_0000 % 0x100, n / 0x100_0000]
  }

  lemma ReadsBack16(bytes: seq<Byte>, at: nat, n: nat)
    requires n < 0x1_0000 && at + 2 <= |bytes| && bytes[at..at + 2] == Le16(n)
    ensures ReadU16(bytes, at) == Some(n)
  {
    assert bytes[at] == bytes[at..at + 2][0] && bytes[at + 1] == bytes[at..at + 2][1];
  }

  /** A number of four bytes is the sum of its places. */
  lemma Places(n: nat)
    requires n < 0x1_0000_0000
    ensures n == n % 0x100 + 0x100 * (n / 0x100 % 0x100) + 0x1_0000 * (n / 0x1_0000 % 0x100) + 0x100_0000 * (n / 0x100_0000)
  {
    var a := n / 0x100;
    var b := a / 0x100;
    assert b == n / 0x1_0000;
    assert b / 0x100 == n / 0x100_0000;
  }

  lemma ReadsBack32(bytes: seq<Byte>, at: nat, n: nat)
    requires n < 0x1_0000_0000 && at + 4 <= |bytes| && bytes[at..at + 4] == Le32(n)
    ensures ReadU32(bytes, at) == Some(n)
  {
    var four := bytes[at..at + 4];
    Places(n);
    assert bytes[at] == four[0] && bytes[at + 1] == four[1] && bytes[at + 2] == four[2] && bytes[at + 3] == four[3];
  }

  function DataSize(frames: seq<Frame>): nat {
    if frames == [] then 0 else DataSize(frames[..|frames| - 1]) + |frames[|frames| - 1].data|
  }

  function Data(frames: seq<Frame>): (data: seq<Byte>)
    ensures |data| == DataSize(frames)
  {
    if frames == [] then [] else Data(frames[..|frames| - 1]) + frames[|frames| - 1].data
  }

  function DirectoryEntry(frame: Frame, offset: nat): (entry: seq<Byte>)
    requires 1 <= frame.side <= 256 && |frame.data| < 0x1_0000_0000 && offset < 0x1_0000_0000
    ensures |entry| == 16
  {
    [frame.side % 256, frame.side % 256, 0, 0] + Le16(1) + Le16(32) + Le32(|frame.data|) + Le32(offset)
  }

  /** What the format can hold. */
  ghost predicate Storable(frames: seq<Frame>) {
    && |frames| < 0x1_0000 && EntryAt(|frames|) + DataSize(frames) < 0x1_0000_0000
    && forall f :: f in frames ==> 1 <= f.side <= 256
  }

  lemma {:induction false} DataPrefix(frames: seq<Frame>, k: nat)
    requires k <= |frames|
    ensures DataSize(frames[..k]) <= DataSize(frames)
    ensures k < |frames| ==> DataSize(frames[..k]) + |frames[k].data| <= DataSize(frames)
    ensures k < |frames| ==>
      Data(frames)[DataSize(frames[..k])..DataSize(frames[..k]) + |frames[k].data|] == frames[k].data
    decreases |frames|
  {
    if k == |frames| {
      assert frames[..k] == frames;
    } else {
      var front := frames[..|frames| - 1];
      if k < |front| {
        DataPrefix(front, k);
        assert front[..k] == frames[..k];
      }
    }
  }

  function Directory(frames: seq<Frame>, n: nat): (directory: seq<Byte>)
    requires Storable(frames) && n <= |frames|
    ensures |directory| == 16 * n
  {
    if n == 0 then []
    else
      DataPrefix(frames, n - 1);
      Directory(frames, n - 1) + DirectoryEntry(frames[n - 1], EntryAt(|frames|) + DataSize(frames[..n - 1]))
  }

  function Encode(frames: seq<Frame>): seq<Byte>
    requires Storable(frames)
  {
    Le16(0) + Le16(1) + Le16(|frames|) + Directory(frames, |frames|) + Data(frames)
  }

  lemma {:induction false} DirectoryHolds(frames: seq<Frame>, n: nat, k: nat)
    requires Storable(frames) && k < n <= |frames|
    ensures DataSize(frames[..k]) + |frames[k].data| <= DataSize(frames)
    ensures Directory(frames, n)[16 * k..16 * k + 16] == DirectoryEntry(frames[k], EntryAt(|frames|) + DataSize(frames[..k]))
  {
    DataPrefix(frames, k);
    if k < n - 1 {
      DirectoryHolds(frames, n - 1, k);
      var front := Directory(frames, n - 1);
      assert Directory(frames, n)[16 * k..16 * k + 16] == front[16 * k..16 * k + 16];
    }
  }

  lemma SliceOfDrop(bytes: seq<Byte>, d: nat, lo: nat, hi: nat)
    requires lo <= hi && d + hi <= |bytes|
    ensures bytes[d..][lo..hi] == bytes[d + lo..d + hi]
  {
  }

  lemma EncodedEntry(frames: seq<Frame>, desired: nat, k: nat)
    requires Storable(frames) && k < |frames|
    ensures var bytes := Encode(frames);
      var offset := EntryAt(|frames|) + DataSize(frames[..k]);
      && Usable(bytes, k)
      && CandidateAt(bytes, desired, k) ==
         Candidate(AbsDiff(frames[k].side, desired), if frames[k].side < desired then 1 else 0, offset, |frames[k].data|)
      && offset + |frames[k].data| <= |bytes| && bytes[offset..offset + |frames[k].data|] == frames[k].data
  {
    var bytes := Encode(frames);
    var before, size := DataSize(frames[..k]), |frames[k].data|;
    EncodedParts(frames);
    DataPrefix(frames, k);
    EncodedEntryBytes(frames, k);
    EntryReads(bytes, desired, k, frames[k], EntryAt(|frames|) + before);
    SliceOfDrop(bytes, EntryAt(|frames|), before, before + size);
  }

  lemma EncodedEntryBytes(frames: seq<Frame>, k: nat)
    requires Storable(frames) && k < |frames|
    ensures var bytes := Encode(frames);
      && EntryAt(k) + 16 <= |bytes| && EntryAt(|frames|) + DataSize(frames[..k]) < 0x1_0000_0000
      && |frames[k].data| < 0x1_0000_0000
      && bytes[EntryAt(k)..EntryAt(k) + 16] == DirectoryEntry(frames[k], EntryAt(|frames|) + DataSize(frames[..k]))
  {
    var bytes := Encode(frames);
    EncodedParts(frames);
    DirectoryHolds(frames, |frames|, k);
    assert bytes[EntryAt(k)..EntryAt(k) + 16] == bytes[6..EntryAt(|frames|)][16 * k..16 * k + 16];
  }

  lemma EntryFields(frame: Frame, offset: nat)
    requires 1 <= frame.side <= 256 && |frame.data| < 0x1_0000_0000 && offset < 0x1_0000_0000
    ensures var entry := DirectoryEntry(frame, offset);
      entry[0] == entry[1] == frame.side % 256 && entry[8..12] == Le32(|frame.data|) && entry[12..16] == Le32(offset)
  {
    var head: seq<Byte> := [frame.side % 256, frame.side % 256, 0, 0] + Le16(1) + Le16(32);
    assert |head| == 8;
    assert DirectoryEntry(frame, offset) == head + Le32(|frame.data|) + Le32(offset);
  }

  lemma EncodedParts(frames: seq<Frame>)
    requires Storable(frames)
    ensures var bytes := Encode(frames);
      && |bytes| == EntryAt(|frames|) + DataSize(frames)
      && bytes[6..EntryAt(|frames|)] == Directory(frames, |frames|) && bytes[EntryAt(|frames|)..] == Data(frames)
  {
  }

  lemma EntryReads(bytes: seq<Byte>, desired: nat, k: nat, frame: Frame, offset: nat)
    requires 1 <= frame.side <= 256 && |frame.data| < 0x1_0000_0000 && offset < 0x1_0000_0000
    requires EntryAt(k) + 16 <= |bytes| && bytes[EntryAt(k)..EntryAt(k) + 16] == DirectoryEntry(frame, offset)
    requires offset + |frame.data| <= |bytes|
    ensures Usable(bytes, k)
    ensures CandidateAt(bytes, desired, k) ==
            Candidate(AbsDiff(frame.side, desired), if frame.side < desired then 1 else 0, offset, |frame.data|)
  {
    var entry := DirectoryEntry(frame, offset);
    var at := EntryAt(k);
    assert bytes[at] == bytes[at..at + 16][0] && bytes[at + 1] == bytes[at..at + 16][1];
    EntryFields(frame, offset);
    assert bytes[at + 8..at + 12] == bytes[at..at + 16][8..12];
    assert bytes[at + 12..at + 16] == bytes[at..at + 16][12..16];
    ReadsBack32(bytes, at + 8, |frame.data|);
    ReadsBack32(bytes, at + 12, offset);
  }

  /** The frame the selection is for: nearest, then not smaller than desired, then first. */
  predicate Preferred(frames: seq<Frame>, desired: nat, k: nat) {
    && k < |frames|
    && forall j :: 0 <= j < |frames| ==>
         var mine, other := AbsDiff(frames[k].side, desired), AbsDiff(frames[j].side, desired);
         || mine < other
         || (mine == other && frames[j].side < desired <= frames[k].side)
         || (mine == other && (frames[k].side < desired <==> frames[j].side < desired) && k <= j)
  }

  lemma {:induction false} OffsetsGrow(frames: seq<Frame>, j: nat, k: nat)
    requires j < k <= |frames|
    ensures DataSize(frames[..j]) + |frames[j].data| <= DataSize(frames[..k])
  {
    var front := frames[..k];
    DataPrefix(front, j);
    assert front[..j] == frames[..j];
  }

  /** Selecting from a written file gives back the data of the preferred frame. */
  lemma EncodedFrameIsSelected(frames: seq<Frame>, desired: nat, k: nat)
    requires Storable(frames) && Preferred(frames, desired, k)
    ensures Selection(Encode(frames), desired, Some(frames[k].data))
  {
    var bytes, n := Encode(frames), |frames|;
    EncodedHeader(frames);
    EncodedEntry(frames, desired, k);
    var best := CandidateAt(bytes, desired, k);
    forall j | 0 <= j < n
      ensures Usable(bytes, j) && !Before(CandidateAt(bytes, desired, j), best)
    {
      EncodedEntry(frames, desired, j);
      if k < j {
        OffsetsGrow(frames, k, j);
      }
    }
    assert Chosen(bytes, desired, Some(best));
    assert Slice(bytes, Some(best)) == Some(frames[k].data);
  }

  lemma EncodedHeader(frames: seq<Frame>)
    requires Storable(frames)
    ensures FrameCount(Encode(frames)) == Some(|frames|)
  {
    var bytes := Encode(frames);
    assert bytes[0..2] == Le16(0) && bytes[2..4] == Le16(1) && bytes[4..6] == Le16(|frames|);
    ReadsBack16(bytes, 0, 0);
    ReadsBack16(bytes, 2, 1);
    ReadsBack16(bytes, 4, |frames|);
  }
}
