// The conversation rail: its order, the handlers that change it, and what its stored form keeps.
module Conversations {
  import opened Common
  import opened Text

  /** A message as stored: from the user with a text, from the user with anything else for a content, any
      other value, or null. */
  datatype Turn = UserText(text: string) | UserOther | Reply(text: string) | NullTurn

  /** `updated` is the time the stored date stands for. */
  datatype Conversation = Conversation(
    id: string, title: string, messages: seq<Turn>, updated: int, pinned: bool, archived: bool, manualTitle: bool)

  function EmptyConversation(id: string, now: int): Conversation {
    Conversation(id, "", [], now, false, false, false)
  }

  // ----- Order -----

  /** The comparison puts `a` before `b`: pinned first, then the newer. */
  predicate Precedes(a: Conversation, b: Conversation) {
    (a.pinned && !b.pinned) || (a.pinned == b.pinned && a.updated > b.updated)
  }

  predicate Ties(a: Conversation, b: Conversation) {
    a.pinned == b.pinned && a.updated == b.updated
  }

  function InsertConversation(c: Conversation, sorted: seq<Conversation>): seq<Conversation> {
    if sorted == [] || !Precedes(sorted[0], c) then [c] + sorted
    else [sorted[0]] + InsertConversation(c, sorted[1..])
  }

  /** `sortAgentConversations`: JavaScript's sort is stable. */
  function SortConversations(s: seq<Conversation>): seq<Conversation> {
    if s == [] then [] else InsertConversation(s[0], SortConversations(s[1..]))
  }

  predicate Ordered(s: seq<Conversation>) {
    forall i, j :: 0 <= i < j < |s| ==> !Precedes(s[j], s[i])
  }

  /** Those that tie with `c`, in their order. */
  function Tied(s: seq<Conversation>, c: Conversation): seq<Conversation> {
    if s == [] then [] else (if Ties(s[0], c) then [s[0]] else []) + Tied(s[1..], c)
  }

  lemma {:induction false} InsertKeepsOrder(c: Conversation, sorted: seq<Conversation>)
    requires Ordered(sorted)
    ensures var all := InsertConversation(c, sorted);
      Ordered(all) && multiset(all) == multiset(sorted) + multiset{c} && |all| == |sorted| + 1
  {
    if sorted != [] && Precedes(sorted[0], c) {
      var rest := InsertConversation(c, sorted[1..]);
      InsertKeepsOrder(c, sorted[1..]);
      assert sorted == [sorted[0]] + sorted[1..];
      forall j | 0 <= j < |rest|
        ensures !Precedes(rest[j], sorted[0])
      {
        assert rest[j] in multiset(rest);
        assert rest[j] == c || rest[j] in sorted[1..];
      }
    }
  }

  lemma {:induction false} InsertKeepsTies(c: Conversation, sorted: seq<Conversation>, key: Conversation)
    ensures Tied(InsertConversation(c, sorted), key) == Tied([c] + sorted, key)
  {
    assert ([c] + sorted)[1..] == sorted;
    if sorted != [] && Precedes(sorted[0], c) {
      InsertKeepsTies(c, sorted[1..], key);
      assert ([c] + sorted[1..])[1..] == sorted[1..];
      assert ([sorted[0]] + InsertConversation(c, sorted[1..]))[1..] == InsertConversation(c, sorted[1..]);
    }
  }

  /** Sorting permutes, puts pinned before unpinned and newer before older, and keeps the order of ties. */
  lemma {:induction false} SortOrders(s: seq<Conversation>)
    ensures var sorted := SortConversations(s);
      Ordered(sorted) && multiset(sorted) == multiset(s) && |sorted| == |s|
    ensures forall key :: Tied(SortConversations(s), key) == Tied(s, key)
  {
    if s != [] {
      SortOrders(s[1..]);
      InsertKeepsOrder(s[0], SortConversations(s[1..]));
      assert s == [s[0]] + s[1..];
      forall key
        ensures Tied(SortConversations(s), key) == Tied(s, key)
      {
        InsertKeepsTies(s[0], SortConversations(s[1..]), key);
        assert ([s[0]] + SortConversations(s[1..]))[1..] == SortConversations(s[1..]);
      }
    }
  }

  // ----- The rail -----

  datatype Rail = Rail(conversations: seq<Conversation>, active: string)

  datatype Action =
    | StartNew(id: string, now: int)
    | Open(id: string)
    | TogglePinned(id: string)
    | Archive(id: string, now: int, spare: string)
    | Rename(id: string, title: string, now: int)

  function FirstOpen(s: seq<Conversation>): Option<Conversation> {
    if s == [] then None else if !s[0].archived then Some(s[0]) else FirstOpen(s[1..])
  }

  function FindOpen(s: seq<Conversation>, id: string): Option<Conversation> {
    if s == [] then None else if s[0].id == id && !s[0].archived then Some(s[0]) else FindOpen(s[1..], id)
  }

  function Pin(c: Conversation, id: string): Conversation {
    if c.id == id then c.(pinned := !c.pinned) else c
  }

  function PutAway(c: Conversation, id: string, now: int): Conversation {
    if c.id == id then c.(archived := true, updated := now) else c
  }

  function Retitle(c: Conversation, id: string, title: string, now: int): Conversation {
    if c.id == id then c.(title := title, manualTitle := true, updated := now) else c
  }

  function PinAll(s: seq<Conversation>, id: string): seq<Conversation> {
    seq(|s|, i requires 0 <= i < |s| => Pin(s[i], id))
  }

  function PutAwayAll(s: seq<Conversation>, id: string, now: int): seq<Conversation> {
    seq(|s|, i requires 0 <= i < |s| => PutAway(s[i], id, now))
  }

  function RetitleAll(s: seq<Conversation>, id: string, title: string, now: int): seq<Conversation> {
    seq(|s|, i requires 0 <= i < |s| => Retitle(s[i], id, title, now))
  }

  function Act(rail: Rail, action: Action): Rail {
    match action
    case StartNew(id, now) => Rail(SortConversations([EmptyConversation(id, now)] + rail.conversations), id)
    case Open(id) => if FindOpen(rail.conversations, id).Some? then rail.(active := id) else rail
    case TogglePinned(id) => rail.(conversations := SortConversations(PinAll(rail.conversations, id)))
    case Archive(id, now, spare) =>
      var sorted := SortConversations(PutAwayAll(rail.conversations, id, now));
      if id != rail.active then rail.(conversations := sorted)
      else
        var replacement := FirstOpen(sorted);
        if replacement.Some? then Rail(sorted, replacement.value.id)
        else Rail([EmptyConversation(spare, now)] + sorted, spare)
    case Rename(id, title, now) =>
      if id == "" || Trim(title, IsScriptSpace) == "" then rail
      else rail.(conversations := SortConversations(RetitleAll(rail.conversations, id, Trim(title, IsScriptSpace), now)))
  }

  /** What is stored: no list at all, or a list whose entries may lack an id, a message list or a date. */
  type Stored = Option<seq<Option<Conversation>>>

  function WellFormed(entries: seq<Option<Conversation>>): seq<Conversation> {
    if entries == [] then []
    else (if entries[0].Some? then [entries[0].value] else []) + WellFormed(entries[1..])
  }

  /** The read looks for the first user message and trims its content; a null before it, or a content that is no
      string, throws. */
  predicate Readable(messages: seq<Turn>) {
    messages == [] || messages[0].UserText? || (messages[0].Reply? && Readable(messages[1..]))
  }

  predicate AllReadable(s: seq<Conversation>) {
    forall c :: c in s ==> Readable(c.messages)
  }

  /** The whole read is one try: what it throws anywhere gives up everything. */
  function ReadSessions(sessions: seq<Conversation>, spare: Conversation): seq<Conversation> {
    if sessions == [] || !AllReadable(sessions) then [spare]
    else if forall c :: c in sessions ==> c.archived then [spare] + SortConversations(sessions)
    else SortConversations(sessions)
  }

  function ReadInitial(stored: Stored, spare: Conversation): seq<Conversation> {
    ReadSessions(if stored.Some? then WellFormed(stored.value) else [], spare)
  }

  function Initial(stored: Stored, spareId: string, now: int): Rail {
    var conversations := ReadInitial(stored, EmptyConversation(spareId, now));
    var open := FirstOpen(conversations);
    Rail(conversations, if open.Some? then open.value.id
                        else if conversations != [] then conversations[0].id else spareId)
  }

  function Perform(rail: Rail, actions: seq<Action>): Rail
    decreases |actions|
  {
    if actions == [] then rail else Perform(Act(rail, actions[0]), actions[1..])
  }

  class ConversationRail {
    var conversations: seq<Conversation>
    var active: string

    ghost function View(): Rail
      reads this
    {
      Rail(conversations, active)
    }

    constructor (stored: Stored, spareId: string, now: int)
      ensures View() == Initial(stored, spareId, now)
      ensures conversations != [] && ActiveOpen(View())
      ensures stored.Some? && AllReadable(WellFormed(stored.value)) ==> Kept(WellFormed(stored.value)) <= Kept(conversations)
    {
      InitialIsOpen(stored, spareId, now);
      if stored.Some? && AllReadable(WellFormed(stored.value)) {
        ReadKeeps(WellFormed(stored.value), EmptyConversation(spareId, now));
      }
      var initial := Initial(stored, spareId, now);
      conversations, active := initial.conversations, initial.active;
    }

    method StartNewConversation(id: string, now: int)
      modifies this
      ensures View() == Act(old(View()), StartNew(id, now))
      ensures active == id && ActiveOpen(View()) && Ordered(conversations)
      ensures Kept(conversations) == old(Kept(conversations)) + multiset{(id, [])}
    {
      StartKeepsAll(View(), id, now);
      StartIsOpen(View(), id, now);
      SortOrders([EmptyConversation(id, now)] + conversations);
      conversations := SortConversations([EmptyConversation(id, now)] + conversations);
      active := id;
    }

    method OpenConversation(id: string)
      modifies this`active
      ensures View() == Act(old(View()), Open(id))
    {
      var conversation := FindOpen(conversations, id);
      if conversation.None? {
        return;
      }
      FindOpenFinds(conversations, id);
      active := conversation.value.id;
    }

    method TogglePinnedConversation(id: string)
      modifies this`conversations
      ensures View() == Act(old(View()), TogglePinned(id))
      ensures Ordered(conversations) && forall c :: c in conversations <==> Pin(c, id) in old(conversations)
      ensures old(ActiveOpen(View())) ==> ActiveOpen(View())
      ensures Kept(conversations) == old(Kept(conversations))
    {
      ToggleFlipsPins(View(), id);
      conversations := SortConversations(PinAll(conversations, id));
    }

    method ArchiveConversation(id: string, now: int, spare: string)
      modifies this
      ensures View() == Act(old(View()), Archive(id, now, spare))
    {
      var sorted := SortConversations(PutAwayAll(conversations, id, now));
      conversations := sorted;
      if id == active {
        var replacement := FirstOpen(sorted);
        if replacement.Some? {
          active := replacement.value.id;
        } else {
          active := spare;
          conversations := [EmptyConversation(spare, now)] + sorted;
        }
      }
    }

    method SaveRename(id: string, typed: string, now: int)
      modifies this`conversations
      ensures View() == Act(old(View()), Rename(id, typed, now))
    {
      var title := Trim(typed, IsScriptSpace);
      if title == "" || id == "" {
        return;
      }
      conversations := SortConversations(RetitleAll(conversations, id, title, now));
    }
  }

  // ----- The active conversation is always open -----

  ghost predicate HasOpen(s: seq<Conversation>, id: string) {
    exists c :: c in s && c.id == id && !c.archived
  }

  ghost predicate ActiveOpen(rail: Rail) {
    HasOpen(rail.conversations, rail.active)
  }

  lemma {:induction false} FindOpenFinds(s: seq<Conversation>, id: string)
    ensures FindOpen(s, id).Some? <==> HasOpen(s, id)
    ensures FindOpen(s, id).Some? ==> FindOpen(s, id).value.id == id
  {
    if s != [] {
      FindOpenFinds(s[1..], id);
      assert s == [s[0]] + s[1..];
    }
  }

  lemma {:induction false} FirstOpenIsFirst(s: seq<Conversation>)
    ensures FirstOpen(s).None? <==> forall c :: c in s ==> c.archived
    ensures FirstOpen(s).Some? ==>
      exists i :: 0 <= i < |s| && s[i] == FirstOpen(s).value && !s[i].archived && forall j :: 0 <= j < i ==> s[j].archived
  {
    if s != [] {
      FirstOpenIsFirst(s[1..]);
      assert s == [s[0]] + s[1..];
      if s[0].archived && FirstOpen(s).Some? {
        var i :| 0 <= i < |s[1..]| && s[1..][i] == FirstOpen(s).value && !s[1..][i].archived
                 && forall j :: 0 <= j < i ==> s[1..][j].archived;
        assert s[i + 1] == FirstOpen(s).value;
        assert forall j :: 0 < j < i + 1 ==> s[j] == s[1..][j - 1];
      }
    }
  }

  lemma SortKeepsOpen(s: seq<Conversation>, id: string)
    ensures HasOpen(SortConversations(s), id) <==> HasOpen(s, id)
  {
    SortOrders(s);
    assert forall c :: c in s <==> c in multiset(s);
    assert forall c :: c in SortConversations(s) <==> c in multiset(SortConversations(s));
  }

  lemma StartIsOpen(rail: Rail, id: string, now: int)
    ensures ActiveOpen(Act(rail, StartNew(id, now)))
  {
    var s := [EmptyConversation(id, now)] + rail.conversations;
    assert s[0] == EmptyConversation(id, now);
    SortKeepsOpen(s, id);
  }

  lemma ActKeepsOpen(rail: Rail, action: Action)
    requires ActiveOpen(rail)
    ensures ActiveOpen(Act(rail, action))
  {
    var s := rail.conversations;
    var k :| 0 <= k < |s| && s[k].id == rail.active && !s[k].archived;
    match action
    case StartNew(id, now) => StartIsOpen(rail, id, now);
    case Open(id) => FindOpenFinds(s, id);
    case TogglePinned(id) =>
      assert PinAll(s, id)[k] == Pin(s[k], id);
      SortKeepsOpen(PinAll(s, id), rail.active);
    case Archive(id, now, spare) =>
      assert PutAwayAll(s, id, now)[k] == PutAway(s[k], id, now);
      var sorted := SortConversations(PutAwayAll(s, id, now));
      SortKeepsOpen(PutAwayAll(s, id, now), rail.active);
      FirstOpenIsFirst(sorted);
      assert ([EmptyConversation(spare, now)] + sorted)[0] == EmptyConversation(spare, now);
    case Rename(id, title, now) =>
      var trimmed := Trim(title, IsScriptSpace);
      assert RetitleAll(s, id, trimmed, now)[k] == Retitle(s[k], id, trimmed, now);
      SortKeepsOpen(RetitleAll(s, id, trimmed, now), rail.active);
  }

  lemma InitialIsOpen(stored: Stored, spareId: string, now: int)
    ensures ActiveOpen(Initial(stored, spareId, now)) && Initial(stored, spareId, now).conversations != []
  {
    var spare := EmptyConversation(spareId, now);
    var sessions := if stored.Some? then WellFormed(stored.value) else [];
    var conversations := ReadInitial(stored, spare);
    SortOrders(sessions);
    if conversations[0] == spare {
      assert HasOpen(conversations, spareId);
    } else {
      var c :| c in sessions && !c.archived;
      SortKeepsOpen(sessions, c.id);
    }
    FirstOpenIsFirst(conversations);
  }

  /** From any stored list and through any actions, the active id names a conversation that is there and not
      archived, even where ids repeat. */
  lemma {:induction false} ActiveIsAlwaysOpen(rail: Rail, actions: seq<Action>)
    requires ActiveOpen(rail)
    ensures ActiveOpen(Perform(rail, actions))
    decreases |actions|
  {
    if actions != [] {
      ActKeepsOpen(rail, actions[0]);
      ActiveIsAlwaysOpen(Act(rail, actions[0]), actions[1..]);
    }
  }

  lemma ActiveIsOpenFromStart(stored: Stored, spareId: string, now: int, actions: seq<Action>)
    ensures ActiveOpen(Perform(Initial(stored, spareId, now), actions))
  {
    InitialIsOpen(stored, spareId, now);
    ActiveIsAlwaysOpen(Initial(stored, spareId, now), actions);
  }

  // ----- No conversation is lost -----

  /** What a user would miss: every conversation's id and messages, repeats counted. */
  function Kept(s: seq<Conversation>): multiset<(string, seq<Turn>)> {
    if s == [] then multiset{} else multiset{(s[0].id, s[0].messages)} + Kept(s[1..])
  }

  lemma {:induction false} SortKeeps(s: seq<Conversation>)
    ensures Kept(SortConversations(s)) == Kept(s)
  {
    if s != [] {
      SortKeeps(s[1..]);
      InsertKeeps(s[0], SortConversations(s[1..]));
    }
  }

  lemma {:induction false} InsertKeeps(c: Conversation, sorted: seq<Conversation>)
    ensures Kept(InsertConversation(c, sorted)) == multiset{(c.id, c.messages)} + Kept(sorted)
  {
    if sorted == [] || !Precedes(sorted[0], c) {
      assert ([c] + sorted)[1..] == sorted;
    } else {
      InsertKeeps(c, sorted[1..]);
      assert InsertConversation(c, sorted)[1..] == InsertConversation(c, sorted[1..]);
    }
  }

  lemma {:induction false} SameKept(a: seq<Conversation>, b: seq<Conversation>)
    requires |a| == |b| && forall i :: 0 <= i < |a| ==> a[i].id == b[i].id && a[i].messages == b[i].messages
    ensures Kept(a) == Kept(b)
  {
    if a != [] {
      SameKept(a[1..], b[1..]);
    }
  }

  lemma PrependKeeps(c: Conversation, s: seq<Conversation>)
    ensures Kept([c] + s) == multiset{(c.id, c.messages)} + Kept(s)
  {
    assert ([c] + s)[1..] == s;
  }

  /** The empty conversation an action adds, if it adds one. */
  function Added(rail: Rail, action: Action): multiset<(string, seq<Turn>)> {
    match action
    case StartNew(id, _) => multiset{(id, [])}
    case Archive(id, _, spare) =>
      if id == rail.active && forall c :: c in rail.conversations ==> c.archived || c.id == id then multiset{(spare, [])}
      else multiset{}
    case _ => multiset{}
  }

  lemma MappedKeeps(s: seq<Conversation>, mapped: seq<Conversation>)
    requires |mapped| == |s| && forall i :: 0 <= i < |s| ==> mapped[i].id == s[i].id && mapped[i].messages == s[i].messages
    ensures Kept(SortConversations(mapped)) == Kept(s)
  {
    SortKeeps(mapped);
    SameKept(mapped, s);
  }

  lemma StartKeepsAll(rail: Rail, id: string, now: int)
    ensures Kept(Act(rail, StartNew(id, now)).conversations) == Kept(rail.conversations) + multiset{(id, [])}
  {
    SortKeeps([EmptyConversation(id, now)] + rail.conversations);
    PrependKeeps(EmptyConversation(id, now), rail.conversations);
  }

  /** An action keeps every conversation and adds only empty ones: a new one, or the spare when the last open
      conversations are put away. */
  lemma ActKeepsAll(rail: Rail, action: Action)
    ensures Kept(Act(rail, action).conversations) == Kept(rail.conversations) + Added(rail, action)
  {
    match action
    case StartNew(id, now) => StartKeepsAll(rail, id, now);
    case Open(_) =>
    case TogglePinned(id) => MappedKeeps(rail.conversations, PinAll(rail.conversations, id));
    case Archive(id, now, spare) => ArchiveKeepsAll(rail, id, now, spare);
    case Rename(id, title, now) =>
      MappedKeeps(rail.conversations, RetitleAll(rail.conversations, id, Trim(title, IsScriptSpace), now));
  }

  lemma ArchiveKeepsAll(rail: Rail, id: string, now: int, spare: string)
    ensures var action := Archive(id, now, spare);
      Kept(Act(rail, action).conversations) == Kept(rail.conversations) + Added(rail, action)
  {
    var sorted := SortConversations(PutAwayAll(rail.conversations, id, now));
    MappedKeeps(rail.conversations, PutAwayAll(rail.conversations, id, now));
    if id == rail.active {
      FirstOpenIsFirst(sorted);
      AllPutAway(rail.conversations, id, now);
      if FirstOpen(sorted).None? {
        PrependKeeps(EmptyConversation(spare, now), sorted);
      }
    }
  }

  lemma SortMembers(s: seq<Conversation>, c: Conversation)
    ensures c in SortConversations(s) <==> c in s
  {
    SortOrders(s);
    assert c in s <==> c in multiset(s);
    assert c in SortConversations(s) <==> c in multiset(SortConversations(s));
  }

  /** The open conversations left after putting one id away are the other open ones, unchanged. */
  lemma OpenLeft(s: seq<Conversation>, id: string, now: int, c: Conversation)
    requires !c.archived
    ensures c in SortConversations(PutAwayAll(s, id, now)) <==> c in s && c.id != id
  {
    var put := PutAwayAll(s, id, now);
    SortMembers(put, c);
    if c in put {
      var k :| 0 <= k < |put| && put[k] == c;
      assert s[k] == c;
    }
    if c in s && c.id != id {
      var k :| 0 <= k < |s| && s[k] == c;
      assert put[k] == c;
    }
  }

  lemma AllPutAway(s: seq<Conversation>, id: string, now: int)
    ensures var sorted := SortConversations(PutAwayAll(s, id, now));
      (forall c :: c in sorted ==> c.archived) <==> forall c :: c in s ==> c.archived || c.id == id
  {
    var sorted := SortConversations(PutAwayAll(s, id, now));
    forall c: Conversation | !c.archived
      ensures c in sorted <==> c in s && c.id != id
    {
      OpenLeft(s, id, now, c);
    }
  }

  lemma {:induction false} NothingIsLost(rail: Rail, actions: seq<Action>)
    ensures Kept(rail.conversations) <= Kept(Perform(rail, actions).conversations)
    decreases |actions|
  {
    if actions != [] {
      ActKeepsAll(rail, actions[0]);
      NothingIsLost(Act(rail, actions[0]), actions[1..]);
    }
  }

  // ----- Pinning -----

  lemma PinTwice(c: Conversation, id: string)
    ensures Pin(Pin(c, id), id) == c
  {
  }

  lemma PinMembers(s: seq<Conversation>, id: string, c: Conversation)
    ensures c in SortConversations(PinAll(s, id)) <==> Pin(c, id) in s
  {
    SortMembers(PinAll(s, id), c);
    if c in PinAll(s, id) {
      var k :| 0 <= k < |s| && PinAll(s, id)[k] == c;
      PinTwice(s[k], id);
    }
    if Pin(c, id) in s {
      var k :| 0 <= k < |s| && s[k] == Pin(c, id);
      PinTwice(c, id);
      assert PinAll(s, id)[k] == c;
    }
  }

  /** Exactly the conversations with the id have their pin flipped, and the list is in order again. */
  lemma ToggleFlipsPins(rail: Rail, id: string)
    ensures var after := Act(rail, TogglePinned(id));
      && Ordered(after.conversations)
      && (forall c :: c in after.conversations <==> Pin(c, id) in rail.conversations)
      && (ActiveOpen(rail) ==> ActiveOpen(after))
      && Kept(after.conversations) == Kept(rail.conversations)
  {
    SortOrders(PinAll(rail.conversations, id));
    ActKeepsAll(rail, TogglePinned(id));
    if ActiveOpen(rail) {
      ActKeepsOpen(rail, TogglePinned(id));
    }
    forall c
      ensures c in SortConversations(PinAll(rail.conversations, id)) <==> Pin(c, id) in rail.conversations
    {
      PinMembers(rail.conversations, id, c);
    }
  }

  // ----- Archiving -----

  lemma FirstOpenIsBest(sorted: seq<Conversation>, c: Conversation)
    requires Ordered(sorted) && c in sorted && !c.archived
    ensures FirstOpen(sorted).Some? && FirstOpen(sorted).value in sorted && !FirstOpen(sorted).value.archived
    ensures !Precedes(c, FirstOpen(sorted).value)
  {
    FirstOpenIsFirst(sorted);
    var i :| 0 <= i < |sorted| && sorted[i] == FirstOpen(sorted).value && !sorted[i].archived
             && forall j :: 0 <= j < i ==> sorted[j].archived;
    var m :| 0 <= m < |sorted| && sorted[m] == c;
  }

  /** Putting the active conversation away opens the first of those left, or the spare when none is left. */
  lemma ArchiveOpensBest(rail: Rail, now: int, spare: string)
    ensures var after := Act(rail, Archive(rail.active, now, spare));
      if forall c :: c in rail.conversations ==> c.archived || c.id == rail.active
      then after.active == spare && after.conversations != [] && after.conversations[0] == EmptyConversation(spare, now)
      else (exists best :: (
        && best in rail.conversations && !best.archived && best.id == after.active && best.id != rail.active
        && forall c :: c in rail.conversations && !c.archived && c.id != rail.active ==> !Precedes(c, best)))
  {
    var s, id := rail.conversations, rail.active;
    var sorted := SortConversations(PutAwayAll(s, id, now));
    AllPutAway(s, id, now);
    FirstOpenIsFirst(sorted);
    if exists c :: c in s && !c.archived && c.id != id {
      SortOrders(PutAwayAll(s, id, now));
      forall c | c in s && !c.archived && c.id != id
        ensures FirstOpen(sorted).Some? && !Precedes(c, FirstOpen(sorted).value)
      {
        OpenLeft(s, id, now, c);
        FirstOpenIsBest(sorted, c);
      }
      OpenLeft(s, id, now, FirstOpen(sorted).value);
    }
  }

  // ----- Storing and reading again -----

  const MAX_STORED: nat := 50

  function FirstFifty(s: seq<Conversation>): seq<Conversation> {
    if |s| <= MAX_STORED then s else s[..MAX_STORED]
  }

  function AsStored(s: seq<Conversation>): Stored {
    Some(seq(|s|, i requires 0 <= i < |s| => Some(s[i])))
  }

  /** The rail in memory and the list in the browser's storage. */
  datatype Life = Life(rail: Rail, stored: Stored)

  /** `Store` is the effect that follows a change of the rail; `Restart` forgets the rail and reads again. */
  datatype Event = Do(action: Action) | Store | Restart(spareId: string, now: int)

  function Live(life: Life, event: Event): Life {
    match event
    case Do(action) => life.(rail := Act(life.rail, action))
    case Store => life.(stored := AsStored(FirstFifty(life.rail.conversations)))
    case Restart(spareId, now) => life.(rail := Initial(life.stored, spareId, now))
  }

  function LiveAll(life: Life, events: seq<Event>): Life
    decreases |events|
  {
    if events == [] then life else LiveAll(Live(life, events[0]), events[1..])
  }

  lemma {:induction false} WellFormedStored(s: seq<Conversation>)
    ensures WellFormed(AsStored(s).value) == s
  {
    if s != [] {
      assert AsStored(s).value[1..] == AsStored(s[1..]).value;
      WellFormedStored(s[1..]);
    }
  }

  lemma ReadKeeps(sessions: seq<Conversation>, spare: Conversation)
    requires AllReadable(sessions)
    ensures Kept(ReadSessions(sessions, spare))
      == Kept(sessions) + if forall c :: c in sessions ==> c.archived then Kept([spare]) else multiset{}
  {
    SortKeeps(sessions);
    PrependKeeps(spare, SortConversations(sessions));
    PrependKeeps(spare, []);
    assert [spare] + [] == [spare];
  }

  lemma {:induction false} InKept(s: seq<Conversation>, c: Conversation)
    requires c in s
    ensures (c.id, c.messages) in Kept(s)
  {
    if s[0] != c {
      InKept(s[1..], c);
    }
  }

  lemma {:induction false} KeptComesFrom(s: seq<Conversation>, kept: (string, seq<Turn>))
    requires kept in Kept(s)
    ensures exists c :: c in s && (c.id, c.messages) == kept
  {
    if kept == (s[0].id, s[0].messages) {
      assert s[0] in s;
    } else {
      KeptComesFrom(s[1..], kept);
      var c :| c in s[1..] && (c.id, c.messages) == kept;
      assert c in s;
    }
  }

  /** A read keeps the well-formed entries exactly when the messages of none of them make it throw; one that
      does loses every other one with it. */
  lemma ReadKeepsExactly(entries: seq<Option<Conversation>>, spareId: string, now: int)
    ensures Kept(WellFormed(entries)) <= Kept(Initial(Some(entries), spareId, now).conversations)
      <==> AllReadable(WellFormed(entries))
    ensures !AllReadable(WellFormed(entries)) ==>
      Initial(Some(entries), spareId, now) == Rail([EmptyConversation(spareId, now)], spareId)
  {
    var sessions, spare := WellFormed(entries), EmptyConversation(spareId, now);
    if AllReadable(sessions) {
      ReadKeeps(WellFormed(entries), EmptyConversation(spareId, now));
    } else {
      var c :| c in sessions && !Readable(c.messages);
      InKept(sessions, c);
      assert Initial(Some(entries), spareId, now).conversations == [spare];
      assert Kept([spare]) == multiset{(spareId, [])};
      assert (c.id, c.messages) !in Kept([spare]);
    }
  }

  lemma PairWellFormed(a: Conversation, b: Conversation)
    ensures WellFormed([Some(a), Some(b)]) == [a, b]
  {
    assert [Some(a), Some(b)][1..] == [Some(b)] && [Some(b)][1..] == [];
    assert WellFormed([Some(b)]) == [b];
  }

  /** A null message before the first user message of one session, or a user message whose content is no text,
      costs every session beside it, and the next store makes the loss permanent. */
  lemma OneBadMessageLosesAll(good: Conversation, bad: Conversation, spareId: string, now: int)
    requires bad.messages in {[NullTurn], [UserOther]}
    ensures var life := Life(Initial(Some([Some(good), Some(bad)]), spareId, now), Some([Some(good), Some(bad)]));
      life.rail.conversations == [EmptyConversation(spareId, now)]
      && WellFormed(Live(life, Store).stored.value) == [EmptyConversation(spareId, now)]
  {
    var entries := [Some(good), Some(bad)];
    PairWellFormed(good, bad);
    assert bad in [good, bad];
    ReadKeepsExactly(entries, spareId, now);
    WellFormedStored([EmptyConversation(spareId, now)]);
  }

  ghost predicate Distinct(s: seq<Conversation>) {
    forall i, j :: 0 <= i < j < |s| ==> s[i].id != s[j].id
  }

  ghost predicate Holds(rail: Rail, c: Conversation) {
    (c.id, c.messages) in Kept(rail.conversations)
  }

  lemma NotAmongFirst(s: seq<Conversation>, k: nat)
    requires MAX_STORED <= k < |s| && Distinct(s)
    ensures (s[k].id, s[k].messages) !in Kept(FirstFifty(s))
  {
    if (s[k].id, s[k].messages) in Kept(FirstFifty(s)) {
      KeptComesFrom(FirstFifty(s), (s[k].id, s[k].messages));
    }
  }

  lemma AmongFirst(s: seq<Conversation>, k: nat)
    requires k < MAX_STORED && k < |s|
    ensures (s[k].id, s[k].messages) in Kept(FirstFifty(s))
  {
    assert FirstFifty(s)[k] == s[k];
    InKept(FirstFifty(s), s[k]);
  }

  /** Stored and read again, a conversation is still there exactly when it is among the first fifty of the rail
      and the messages of none of these make the read throw. */
  lemma SurvivesExactly(life: Life, k: nat, spareId: string, now: int)
    requires k < |life.rail.conversations| && Distinct(life.rail.conversations)
    requires forall c :: c in life.rail.conversations ==> c.id != spareId
    ensures var s := life.rail.conversations;
      Holds(LiveAll(life, [Store, Restart(spareId, now)]).rail, s[k])
      <==> k < MAX_STORED && AllReadable(FirstFifty(s))
  {
    var s, spare := life.rail.conversations, EmptyConversation(spareId, now);
    StoreAndRestart(life, spareId, now);
    WellFormedStored(FirstFifty(s));
    PrependKeeps(spare, []);
    assert [spare] + [] == [spare];
    if AllReadable(FirstFifty(s)) {
      ReadKeeps(FirstFifty(s), spare);
    }
    if k < MAX_STORED {
      AmongFirst(s, k);
    } else {
      NotAmongFirst(s, k);
    }
  }

  lemma StoreAndRestart(life: Life, spareId: string, now: int)
    ensures LiveAll(life, [Store, Restart(spareId, now)]).rail
      == Initial(AsStored(FirstFifty(life.rail.conversations)), spareId, now)
  {
    var stored := Live(life, Store);
    var restarted := Live(stored, Restart(spareId, now));
    assert LiveAll(restarted, []) == restarted;
    assert [Restart(spareId, now)][1..] == [];
    assert LiveAll(stored, [Restart(spareId, now)]) == restarted;
    assert [Store, Restart(spareId, now)][1..] == [Restart(spareId, now)];
  }

  lemma {:induction false} InsertKeepsDistinct(c: Conversation, sorted: seq<Conversation>)
    requires Distinct([c] + sorted)
    ensures Distinct(InsertConversation(c, sorted))
    ensures forall d :: d in InsertConversation(c, sorted) <==> d == c || d in sorted
  {
    var a := [c] + sorted;
    if sorted != [] && Precedes(sorted[0], c) {
      assert forall k :: 0 <= k < |sorted| ==> a[k + 1] == sorted[k];
      forall i, j | 0 <= i < j < |[c] + sorted[1..]|
        ensures ([c] + sorted[1..])[i].id != ([c] + sorted[1..])[j].id
      {
        assert a[if i == 0 then 0 else i + 1].id != a[j + 1].id;
      }
      InsertKeepsDistinct(c, sorted[1..]);
      assert sorted == [sorted[0]] + sorted[1..];
      forall d | d in InsertConversation(c, sorted[1..]) ensures d.id != sorted[0].id {
        assert a[0].id != a[1].id;
        if d != c {
          var m :| 0 <= m < |sorted[1..]| && sorted[1..][m] == d;
          assert a[1].id != a[m + 2].id;
        }
      }
    }
  }

  lemma {:induction false} SortKeepsDistinct(s: seq<Conversation>)
    requires Distinct(s)
    ensures Distinct(SortConversations(s))
  {
    if s != [] {
      SortKeepsDistinct(s[1..]);
      var rest := SortConversations(s[1..]);
      forall j | 0 <= j < |rest| ensures rest[j].id != s[0].id {
        SortMembers(s[1..], rest[j]);
        var m :| 0 <= m < |s[1..]| && s[1..][m] == rest[j];
        assert s[0].id != s[m + 1].id;
      }
      InsertKeepsDistinct(s[0], rest);
    }
  }

  /** With fifty conversations one more is enough: whichever comes last in the rail then is gone after the next
      restart. */
  lemma FiftyFirstIsLost(life: Life, id: string, spareId: string, now: int, later: int)
    requires |life.rail.conversations| == MAX_STORED && Distinct(life.rail.conversations)
    requires forall c :: c in life.rail.conversations ==> c.id != id && c.id != spareId
    requires id != spareId
    ensures var grown := Live(life, Do(StartNew(id, now)));
      |grown.rail.conversations| == MAX_STORED + 1
      && !Holds(LiveAll(grown, [Store, Restart(spareId, later)]).rail, grown.rail.conversations[MAX_STORED])
  {
    var s := [EmptyConversation(id, now)] + life.rail.conversations;
    var grown := Live(life, Do(StartNew(id, now)));
    SortOrders(s);
    SortKeepsDistinct(s);
    forall c | c in grown.rail.conversations ensures c.id != spareId {
      SortMembers(s, c);
    }
    SurvivesExactly(grown, MAX_STORED, spareId, later);
  }

  /** At every store the rail holds at most fifty conversations. */
  ghost predicate NeverOverFifty(life: Life, events: seq<Event>)
    decreases |events|
  {
    events == [] ||
    ((events[0].Store? ==> |life.rail.conversations| <= MAX_STORED) && NeverOverFifty(Live(life, events[0]), events[1..]))
  }

  /** Rail and storage both hold all of `base`, and nothing in them makes a read throw. */
  ghost predicate Holding(life: Life, base: multiset<(string, seq<Turn>)>) {
    && base <= Kept(life.rail.conversations) && AllReadable(life.rail.conversations)
    && life.stored.Some?
    && base <= Kept(WellFormed(life.stored.value)) && AllReadable(WellFormed(life.stored.value))
  }

  lemma ReadableFromKept(s: seq<Conversation>)
    requires forall kept :: kept in Kept(s) ==> Readable(kept.1)
    ensures AllReadable(s)
  {
    forall c | c in s ensures Readable(c.messages) {
      InKept(s, c);
      assert Readable((c.id, c.messages).1);
    }
  }

  lemma KeptReadable(s: seq<Conversation>)
    requires AllReadable(s)
    ensures forall kept :: kept in Kept(s) ==> Readable(kept.1)
  {
    forall kept | kept in Kept(s) ensures Readable(kept.1) {
      KeptComesFrom(s, kept);
    }
  }

  lemma ActReadable(rail: Rail, action: Action)
    requires AllReadable(rail.conversations)
    ensures AllReadable(Act(rail, action).conversations)
  {
    ActKeepsAll(rail, action);
    KeptReadable(rail.conversations);
    AddedReadable(rail, action);
    ReadableFromKept(Act(rail, action).conversations);
  }

  lemma AddedReadable(rail: Rail, action: Action)
    ensures forall kept :: kept in Added(rail, action) ==> Readable(kept.1)
  {
  }

  lemma InitialReadable(sessions: seq<Conversation>, spare: Conversation)
    requires AllReadable(sessions) && spare.messages == []
    ensures AllReadable(ReadSessions(sessions, spare))
  {
    forall c | c in ReadSessions(sessions, spare) ensures Readable(c.messages) {
      SortMembers(sessions, c);
    }
  }

  lemma LiveHolds(life: Life, event: Event, base: multiset<(string, seq<Turn>)>)
    requires Holding(life, base) && (event.Store? ==> |life.rail.conversations| <= MAX_STORED)
    ensures Holding(Live(life, event), base)
  {
    match event
    case Do(action) =>
      ActKeepsAll(life.rail, action);
      ActReadable(life.rail, action);
    case Store =>
      WellFormedStored(life.rail.conversations);
    case Restart(spareId, now) =>
      ReadKeeps(WellFormed(life.stored.value), EmptyConversation(spareId, now));
      InitialReadable(WellFormed(life.stored.value), EmptyConversation(spareId, now));
  }

  lemma {:induction false} HoldsThroughout(life: Life, events: seq<Event>, base: multiset<(string, seq<Turn>)>)
    requires Holding(life, base) && NeverOverFifty(life, events)
    ensures Holding(LiveAll(life, events), base)
    decreases |events|
  {
    if events != [] {
      LiveHolds(life, events[0], base);
      HoldsThroughout(Live(life, events[0]), events[1..], base);
    }
  }

  /** From a readable list on, through any actions, stores and restarts, no stored conversation is lost as long
      as the rail never holds more than fifty when it is stored. */
  lemma StoredIsNeverLost(entries: seq<Option<Conversation>>, spareId: string, now: int, events: seq<Event>)
    requires AllReadable(WellFormed(entries))
    requires NeverOverFifty(Life(Initial(Some(entries), spareId, now), Some(entries)), events)
    ensures Kept(WellFormed(entries))
      <= Kept(LiveAll(Life(Initial(Some(entries), spareId, now), Some(entries)), events).rail.conversations)
  {
    var life := Life(Initial(Some(entries), spareId, now), Some(entries));
    ReadKeeps(WellFormed(entries), EmptyConversation(spareId, now));
    InitialReadable(WellFormed(entries), EmptyConversation(spareId, now));
    HoldsThroughout(life, events, Kept(WellFormed(entries)));
  }
}
