// The context a prompt is sent with: which turns are compacted, which are kept as they are, and how the
// sections are put together.
module ContextWindow {
  import opened Text

  const SOFT_LIMIT_TOKENS := 96_000
  const RECENT_COUNT: nat := 16
  const RECENT_COUNT_COMPRESSED: nat := 10
  const OLDER_COUNT: nat := 24
  const EXCERPT_LENGTH: nat := 220

  datatype Message = Message(role: string, content: string)

  function Characters(messages: seq<Message>): nat {
    if messages == [] then 0 else |messages[0].content| + Characters(messages[1..])
  }

  /** Characters divided by three, rounded up. */
  function EstimatedTokens(messages: seq<Message>): nat {
    (Characters(messages) + 2) / 3
  }

  predicate ShouldCompress(messages: seq<Message>) {
    EstimatedTokens(messages) > SOFT_LIMIT_TOKENS
  }

  function RecentCount(messages: seq<Message>): nat {
    if ShouldCompress(messages) then RECENT_COUNT_COMPRESSED else RECENT_COUNT
  }

  /** `slice(-count)` for a positive count. */
  function LastOf<T>(s: seq<T>, count: nat): seq<T> {
    if |s| <= count then s else s[|s| - count..]
  }

  function Recent(messages: seq<Message>): seq<Message> {
    LastOf(messages, RecentCount(messages))
  }

  function Older(messages: seq<Message>): seq<Message> {
    var kept := if |messages| > RecentCount(messages) then |messages| - RecentCount(messages) else 0;
    LastOf(messages[..kept], OLDER_COUNT)
  }

  // ----- Excerpts -----

  /** `replace(/\s+/g, " ")` */
  function Collapse(s: string): string {
    if s == [] then []
    else if !IsScriptSpace(s[0]) then [s[0]] + Collapse(s[1..])
    else if |s| > 1 && IsScriptSpace(s[1]) then Collapse(s[1..])
    else " " + Collapse(s[1..])
  }

  function Excerpt(content: string): string {
    var text := Trim(Collapse(content), IsScriptSpace);
    if |text| <= EXCERPT_LENGTH then text else text[..EXCERPT_LENGTH]
  }

  /** All space is single blanks. */
  predicate SingleBlanks(s: string) {
    forall i :: 0 <= i < |s| && IsScriptSpace(s[i]) ==> s[i] == ' ' && (i + 1 < |s| ==> !IsScriptSpace(s[i + 1]))
  }

  lemma {:induction false} CollapseBlanks(s: string)
    ensures SingleBlanks(Collapse(s))
    ensures s != [] ==> Collapse(s) != [] && (IsScriptSpace(Collapse(s)[0]) <==> IsScriptSpace(s[0]))
  {
    if s != [] {
      CollapseBlanks(s[1..]);
    }
  }

  lemma {:induction false} TrimStartCuts(s: string)
    ensures exists k :: 0 <= k <= |s| && TrimStart(s, IsScriptSpace) == s[k..]
    ensures TrimStart(s, IsScriptSpace) != [] ==> !IsScriptSpace(TrimStart(s, IsScriptSpace)[0])
  {
    if s != [] && IsScriptSpace(s[0]) {
      TrimStartCuts(s[1..]);
      var k :| 0 <= k <= |s[1..]| && TrimStart(s[1..], IsScriptSpace) == s[1..][k..];
      assert s[1..][k..] == s[k + 1..];
    } else {
      assert s == s[0..];
    }
  }

  lemma {:induction false} TrimEndCuts(s: string)
    ensures TrimEnd(s, IsScriptSpace) <= s
  {
    if s != [] && IsScriptSpace(s[|s| - 1]) {
      TrimEndCuts(s[..|s| - 1]);
    }
  }

  /** An excerpt is one line of at most 220 characters, starts with text, and holds single blanks only. */
  lemma ExcerptIsOneLine(content: string)
    ensures var e := Excerpt(content);
      |e| <= EXCERPT_LENGTH && SingleBlanks(e) && '\n' !in e && (e != [] ==> !IsScriptSpace(e[0]))
  {
    var collapsed := Collapse(content);
    var started := TrimStart(collapsed, IsScriptSpace);
    var text := TrimEnd(started, IsScriptSpace);
    CollapseBlanks(content);
    TrimStartCuts(collapsed);
    TrimEndCuts(started);
    assert SingleBlanks(started);
    assert SingleBlanks(text);
    assert SingleBlanks(Excerpt(content));
    assert IsScriptSpace('\n');
  }

  // ----- The two windows -----

  /** The compacted and the verbatim turns are disjoint, in order, and together a suffix of the history: the
      verbatim ones are the last sixteen, or ten when compressing, the compacted ones up to twenty-four before. */
  lemma WindowsAreASuffix(messages: seq<Message>)
    ensures var older, recent := Older(messages), Recent(messages);
      var n := |messages|;
      var count := if Characters(messages) > 288_000 then 10 else 16;
      && |recent| == (if n < count then n else count)
      && |older| == (if n - |recent| < 24 then n - |recent| else 24)
      && messages[n - |recent| - |older|..] == older + recent
      && messages[n - |recent|..] == recent
  {
    var older, recent := Older(messages), Recent(messages);
    var n := |messages|;
    assert messages[n - |recent|..] == recent;
    assert messages[n - |recent| - |older|..n - |recent|] == older;
    assert messages[n - |recent| - |older|..] == messages[n - |recent| - |older|..n - |recent|] + messages[n - |recent|..];
  }

  lemma {:induction false} CharactersJoin(a: seq<Message>, b: seq<Message>)
    ensures Characters(a + b) == Characters(a) + Characters(b)
  {
    if a == [] {
      assert a + b == b;
    } else {
      assert (a + b)[1..] == a[1..] + b;
      CharactersJoin(a[1..], b);
    }
  }

  /** A conversation that is compressed stays compressed, and its verbatim window only moves forward. */
  lemma CompressionStays(messages: seq<Message>, added: seq<Message>)
    ensures ShouldCompress(messages) ==> ShouldCompress(messages + added)
    ensures |messages| - |Recent(messages)| <= |messages + added| - |Recent(messages + added)|
  {
    CharactersJoin(messages, added);
  }

  // ----- The sections -----

  function Numbered(index: nat, role: string, text: string): string {
    Decimal(index + 1) + ". " + role + ": " + text
  }

  function OlderLines(older: seq<Message>): seq<string> {
    seq(|older|, i requires 0 <= i < |older| => Numbered(i, older[i].role, Excerpt(older[i].content)))
  }

  function RecentLines(recent: seq<Message>): seq<string> {
    seq(|recent|, i requires 0 <= i < |recent| => Numbered(i, recent[i].role, Trim(recent[i].content, IsScriptSpace)))
  }

  function Join(lines: seq<string>, separator: string): string {
    if lines == [] then "" else if |lines| == 1 then lines[0] else lines[0] + separator + Join(lines[1..], separator)
  }

  const INTRODUCTION :=
    "DS Agent conversation context. Use this as prior context, but answer the current user message directly."

  const COMPACTED_TITLE := "Older turns were automatically compacted because the conversation is approaching the DeepSeek context budget:"

  /** The sections of the prompt; `soul` is the start-up section, empty when there is none. */
  function Sections(prompt: string, messages: seq<Message>, soul: string): seq<string> {
    if messages == [] then
      if soul != "" then [soul, "Current user message:", prompt] else [prompt]
    else
      [INTRODUCTION, "Estimated prior context tokens: " + Decimal(EstimatedTokens(messages)) + "."]
      + (if soul != "" && ShouldCompress(messages) then [soul] else [])
      + (if Older(messages) == [] then []
         else [if ShouldCompress(messages) then COMPACTED_TITLE else "Older turns:", Join(OlderLines(Older(messages)), "\n")])
      + ["Recent turns:", Join(RecentLines(Recent(messages)), "\n")]
      + ["Current user message:", prompt]
  }

  function BuildPrompt(prompt: string, messages: seq<Message>, soul: string): string {
    Join(Sections(prompt, messages, soul), "\n\n")
  }

  function Breaks(s: string): nat {
    if s == [] then 0 else (if s[0] == '\n' then 1 else 0) + Breaks(s[1..])
  }

  lemma {:induction false} BreaksJoin(a: string, b: string)
    ensures Breaks(a + b) == Breaks(a) + Breaks(b)
  {
    if a == [] {
      assert a + b == b;
    } else {
      assert (a + b)[1..] == a[1..] + b;
      BreaksJoin(a[1..], b);
    }
  }

  lemma {:induction false} NoBreaks(s: string)
    requires '\n' !in s
    ensures Breaks(s) == 0
  {
    if s != [] {
      NoBreaks(s[1..]);
    }
  }

  lemma {:induction false} LinesBreak(lines: seq<string>)
    requires lines != [] && forall l :: l in lines ==> '\n' !in l
    ensures Breaks(Join(lines, "\n")) == |lines| - 1
  {
    NoBreaks(lines[0]);
    if |lines| > 1 {
      LinesBreak(lines[1..]);
      BreaksJoin(lines[0] + "\n", Join(lines[1..], "\n"));
      BreaksJoin(lines[0], "\n");
    }
  }

  /** However long or broken the compacted turns were, their section has one line a turn, each bounded. */
  lemma OlderSectionIsBounded(messages: seq<Message>)
    requires Older(messages) != [] && forall m :: m in messages ==> '\n' !in m.role
    ensures Breaks(Join(OlderLines(Older(messages)), "\n")) == |Older(messages)| - 1 < OLDER_COUNT
  {
    var older := Older(messages);
    var lines := OlderLines(older);
    forall l | l in lines
      ensures '\n' !in l
    {
      var i :| 0 <= i < |lines| && lines[i] == l;
      assert older[i] in messages;
      ExcerptIsOneLine(older[i].content);
    }
    LinesBreak(lines);
  }

  lemma {:induction false} JoinEnds(sections: seq<string>, separator: string)
    requires sections != []
    ensures var text, last := Join(sections, separator), sections[|sections| - 1];
      |text| >= |last| && text[|text| - |last|..] == last
  {
    if |sections| > 1 {
      JoinEnds(sections[1..], separator);
    }
  }

  /** The prompt always ends with the user's message, unchanged, and the start-up section is sent exactly with
      the first turn of a conversation or when it is compressed. */
  lemma PromptEndsWithMessage(prompt: string, messages: seq<Message>, soul: string)
    ensures var text := BuildPrompt(prompt, messages, soul);
      |text| >= |prompt| && text[|text| - |prompt|..] == prompt
    ensures messages == [] && soul == "" ==> BuildPrompt(prompt, messages, soul) == prompt
    ensures soul != "" && (messages == [] || ShouldCompress(messages)) ==> soul in Sections(prompt, messages, soul)
    ensures !ShouldCompress(messages) && messages != [] ==>
      Sections(prompt, messages, soul) == Sections(prompt, messages, "")
  {
    var sections := Sections(prompt, messages, soul);
    assert sections[|sections| - 1] == prompt;
    JoinEnds(sections, "\n\n");
    if soul != "" && messages != [] && ShouldCompress(messages) {
      assert sections[2] == soul;
    }
  }
}
