// The `k=v; ...` lines of a context receipt: the parser of `agentContextReceipt.ts` and what it undoes.
module Receipt {
  import opened Common
  import opened Text

  type Fields = map<string, string>

  /** Assigning a string to this name on a plain object stores nothing. */
  const SHADOWED := "__proto__"

  /** `line.split(";")` */
  function SplitLine(line: string): (segments: seq<string>)
    ensures segments != []
  {
    if line == [] then [[]]
    else
      var rest := SplitLine(line[1..]);
      if line[0] == ';' then [[]] + rest else [[line[0]] + rest[0]] + rest[1..]
  }

  function TrimScript(s: string): string {
    Trim(s, IsScriptSpace)
  }

  predicate Trimmed(s: string) {
    Tight(s, IsScriptSpace)
  }

  /** `part.indexOf("=")` */
  function EqualsAt(part: string): (at: Option<nat>)
    ensures at.Some? ==> at.value < |part| && part[at.value] == '=' && '=' !in part[..at.value]
    ensures at.None? ==> '=' !in part
  {
    if part == [] then None
    else if part[0] == '=' then Some(0)
    else
      var rest := EqualsAt(part[1..]);
      if rest.None? then None
      else
        assert part[..rest.value + 1] == [part[0]] + part[1..][..rest.value];
        Some(rest.value + 1)
  }

  /** The key and value of a trimmed segment, unless it is malformed. */
  function Pair(part: string): Option<(string, string)> {
    var at := EqualsAt(part);
    if at.None? || at.value == 0 then None
    else Some((TrimScript(part[..at.value]), TrimScript(part[at.value + 1..])))
  }

  function Put(fields: Fields, part: string): Fields {
    var pair := Pair(part);
    if pair.None? || pair.value.0 == SHADOWED then fields else fields[pair.value.0 := pair.value.1]
  }

  function Reduce(parts: seq<string>, fields: Fields): Fields {
    if parts == [] then fields else Reduce(parts[1..], Put(fields, parts[0]))
  }

  /** The trimmed segments that are not empty. */
  function Parts(segments: seq<string>): seq<string> {
    if segments == [] then []
    else (if TrimScript(segments[0]) == [] then [] else [TrimScript(segments[0])]) + Parts(segments[1..])
  }

  function Parse(line: string): Fields {
    Reduce(Parts(SplitLine(line)), map[])
  }

  method ParseReceiptFields(line: string) returns (fields: Fields)
    ensures fields == Parse(line)
  {
    var parts := Parts(SplitLine(line));
    fields := map[];
    for i := 0 to |parts|
      invariant Reduce(parts[i..], fields) == Parse(line)
    {
      assert parts[i..][1..] == parts[i + 1..];
      var separator := EqualsAt(parts[i]);
      if separator.None? || separator.value == 0 {
        continue;
      }
      var key := TrimScript(parts[i][..separator.value]);
      if key != SHADOWED {
        fields := fields[key := TrimScript(parts[i][separator.value + 1..])];
      }
    }
  }

  function FieldValue(fields: Fields, key: string): string {
    if key in fields then TrimScript(fields[key]) else ""
  }

  // ----- Joining lines -----

  lemma {:induction false} SplitJoined(a: string, b: string)
    ensures SplitLine(a + ";" + b) == SplitLine(a) + SplitLine(b)
    decreases |a|
  {
    var line := a + ";" + b;
    if a == [] {
      assert line[1..] == b;
    } else {
      assert line[1..] == a[1..] + ";" + b;
      SplitJoined(a[1..], b);
    }
  }

  lemma {:induction false} PartsJoined(a: seq<string>, b: seq<string>)
    ensures Parts(a + b) == Parts(a) + Parts(b)
  {
    if a == [] {
      assert a + b == b;
    } else {
      assert (a + b)[1..] == a[1..] + b;
      PartsJoined(a[1..], b);
    }
  }

  lemma {:induction false} ReduceJoined(a: seq<string>, b: seq<string>, fields: Fields)
    ensures Reduce(a + b, fields) == Reduce(b, Reduce(a, fields))
    decreases |a|
  {
    if a == [] {
      assert a + b == b;
    } else {
      assert (a + b)[1..] == a[1..] + b;
      ReduceJoined(a[1..], b, Put(fields, a[0]));
    }
  }

  lemma {:induction false} ReduceOverrides(parts: seq<string>, fields: Fields)
    ensures Reduce(parts, fields) == fields + Reduce(parts, map[])
    decreases |parts|
  {
    if parts != [] {
      ReduceOverrides(parts[1..], Put(fields, parts[0]));
      ReduceOverrides(parts[1..], Put(map[], parts[0]));
    }
  }

  /** Parsing `a;b` is parsing `a`, overridden by parsing `b`. */
  lemma ParseJoined(a: string, b: string)
    ensures Parse(a + ";" + b) == Parse(a) + Parse(b)
  {
    SplitJoined(a, b);
    PartsJoined(SplitLine(a), SplitLine(b));
    ReduceJoined(Parts(SplitLine(a)), Parts(SplitLine(b)), map[]);
    ReduceOverrides(Parts(SplitLine(b)), Parse(a));
  }

  // ----- Malformed segments -----

  /** Nothing but space before the first `=`, or no `=` at all, or a name that stores nothing. */
  predicate Malformed(segment: string) {
    var pair := Pair(TrimScript(segment));
    pair.None? || pair.value.0 == SHADOWED
  }

  lemma {:induction false} OneSegment(segment: string)
    requires ';' !in segment
    ensures SplitLine(segment) == [segment]
  {
    if segment != [] {
      OneSegment(segment[1..]);
      assert segment == [segment[0]] + segment[1..];
    }
  }

  lemma ParseSegment(segment: string)
    requires ';' !in segment
    ensures Parse(segment) == Put(map[], TrimScript(segment))
  {
    OneSegment(segment);
    var part := TrimScript(segment);
    assert [segment][1..] == [];
    if part != [] {
      assert Parts([segment]) == [part] && [part][1..] == [];
      assert Reduce([part], map[]) == Reduce([], Put(map[], part));
    }
  }

  /** A segment adds nothing exactly when it is malformed. */
  lemma MalformedExactly(segment: string)
    requires ';' !in segment
    ensures Parse(segment) == map[] <==> Malformed(segment)
  {
    ParseSegment(segment);
    var pair := Pair(TrimScript(segment));
    if pair.Some? && pair.value.0 != SHADOWED {
      assert pair.value.0 in Parse(segment);
    }
  }

  /** A malformed segment anywhere in a line has no effect. */
  lemma MalformedHasNoEffect(a: string, segment: string, b: string)
    requires ';' !in segment && Malformed(segment)
    ensures Parse(a + ";" + segment + ";" + b) == Parse(a + ";" + b)
  {
    MalformedExactly(segment);
    ParseJoined(a + ";" + segment, b);
    ParseJoined(a, segment);
    ParseJoined(a, b);
  }

  // ----- Trimming -----

  lemma {:induction false} TrimTight(s: string)
    requires Trimmed(s)
    ensures TrimScript(s) == s
  {
  }

  lemma {:induction false} TrimEndShape(s: string)
    ensures var t := TrimEnd(s, IsScriptSpace);
      t <= s && (t != [] ==> !IsScriptSpace(t[|t| - 1]))
  {
    if s != [] && IsScriptSpace(s[|s| - 1]) {
      TrimEndShape(s[..|s| - 1]);
    }
  }

  lemma {:induction false} TrimStartShape(s: string)
    ensures var t := TrimStart(s, IsScriptSpace); t != [] ==> !IsScriptSpace(t[0])
  {
    if s != [] && IsScriptSpace(s[0]) {
      TrimStartShape(s[1..]);
    }
  }

  lemma TrimIsTight(s: string)
    ensures Trimmed(TrimScript(s))
  {
    TrimStartShape(s);
    TrimEndShape(TrimStart(s, IsScriptSpace));
  }

  predicate AllTrimmed(fields: Fields) {
    forall k :: k in fields ==> Trimmed(fields[k])
  }

  lemma {:induction false} ReduceTight(parts: seq<string>, fields: Fields)
    requires AllTrimmed(fields)
    ensures AllTrimmed(Reduce(parts, fields))
    decreases |parts|
  {
    if parts != [] {
      if Pair(parts[0]).Some? {
        TrimIsTight(parts[0][EqualsAt(parts[0]).value + 1..]);
      }
      assert AllTrimmed(Put(fields, parts[0]));
      ReduceTight(parts[1..], Put(fields, parts[0]));
    }
  }

  /** Reading a parsed field gives the stored text: it was trimmed once and is not trimmed further. */
  lemma FieldValueIsStored(line: string, key: string)
    ensures FieldValue(Parse(line), key) == if key in Parse(line) then Parse(line)[key] else ""
  {
    ReduceTight(Parts(SplitLine(line)), map[]);
    if key in Parse(line) {
      TrimTight(Parse(line)[key]);
    }
  }

  // ----- Printing and parsing back -----

  predicate Printable(pair: (string, string)) {
    && pair.0 != [] && pair.0 != SHADOWED && Trimmed(pair.0) && '=' !in pair.0 && ';' !in pair.0
    && Trimmed(pair.1) && ';' !in pair.1
  }

  function PrintPair(pair: (string, string)): string {
    pair.0 + "=" + pair.1
  }

  /** `k=v; k=v; ...` */
  function Print(pairs: seq<(string, string)>): string {
    if pairs == [] then ""
    else if |pairs| == 1 then PrintPair(pairs[0])
    else PrintPair(pairs[0]) + ";" + (" " + Print(pairs[1..]))
  }

  /** The pairs as a table, the last of equal keys winning. */
  function Table(pairs: seq<(string, string)>): Fields {
    if pairs == [] then map[] else map[pairs[0].0 := pairs[0].1] + Table(pairs[1..])
  }

  lemma {:induction false} EqualsAtKey(key: string, value: string)
    requires '=' !in key
    ensures EqualsAt(key + "=" + value) == Some(|key|)
  {
    var part := key + "=" + value;
    if key != [] {
      assert part[1..] == key[1..] + "=" + value;
      EqualsAtKey(key[1..], value);
    }
  }

  lemma PrintedPair(pair: (string, string), lead: string)
    requires Printable(pair) && (lead == "" || lead == " ")
    ensures ';' !in lead + PrintPair(pair)
    ensures Parse(lead + PrintPair(pair)) == map[pair.0 := pair.1]
  {
    var part := PrintPair(pair);
    assert part[0] == pair.0[0] && part[|part| - 1] == if pair.1 == [] then '=' else pair.1[|pair.1| - 1];
    TrimTight(part);
    assert lead == " " ==> (lead + part)[1..] == part && (lead + part)[0] == ' ';
    assert lead == "" ==> lead + part == part;
    assert TrimScript(lead + part) == part;
    ParseSegment(lead + part);
    EqualsAtKey(pair.0, pair.1);
    assert part[..|pair.0|] == pair.0 && part[|pair.0| + 1..] == pair.1;
    TrimTight(pair.0);
    TrimTight(pair.1);
  }

  lemma PrintSplits(pairs: seq<(string, string)>, lead: string)
    requires |pairs| > 1
    ensures lead + Print(pairs) == (lead + PrintPair(pairs[0])) + ";" + (" " + Print(pairs[1..]))
  {
  }

  lemma {:induction false} PrintedAfter(pairs: seq<(string, string)>, lead: string)
    requires pairs != [] && (forall p :: p in pairs ==> Printable(p)) && (lead == "" || lead == " ")
    ensures Parse(lead + Print(pairs)) == Table(pairs)
    decreases |pairs|
  {
    PrintedPair(pairs[0], lead);
    if |pairs| == 1 {
      assert Table(pairs) == map[pairs[0].0 := pairs[0].1] + map[];
    } else {
      PrintedAfter(pairs[1..], " ");
      PrintSplits(pairs, lead);
      ParseJoined(lead + PrintPair(pairs[0]), " " + Print(pairs[1..]));
    }
  }

  /** Parsing undoes printing, for values that may contain `=`. */
  lemma ParsePrinted(pairs: seq<(string, string)>)
    requires forall p :: p in pairs ==> Printable(p)
    ensures Parse(Print(pairs)) == Table(pairs)
  {
    if pairs != [] {
      PrintedAfter(pairs, "");
      assert "" + Print(pairs) == Print(pairs);
    } else {
      OneSegment("");
      ParseSegment("");
    }
  }
}
