// Choosing the connected account for a proposed change, and dispatching the proposal to a review.
module ConnectedActions {
  import opened Common
  import opened Text

  datatype Capability = MailSendDraft | CalendarCreateEvent | CalendarUpdateEvent | CalendarCancelEvent

  datatype Account = Account(id: nat, displayName: string, connected: bool, granted: seq<Capability>)

  predicate Eligible(a: Account, capability: Capability) {
    a.connected && capability in a.granted
  }

  predicate Named(a: Account, name: string) {
    Lower(a.displayName) == Lower(name)
  }

  function Eligibles(accounts: seq<Account>, capability: Capability): seq<Account> {
    if accounts == [] then []
    else
      var last := |accounts| - 1;
      Eligibles(accounts[..last], capability) + if Eligible(accounts[last], capability) then [accounts[last]] else []
  }

  function NamedOnes(accounts: seq<Account>, name: string): seq<Account> {
    if accounts == [] then []
    else
      var last := |accounts| - 1;
      NamedOnes(accounts[..last], name) + if Named(accounts[last], name) then [accounts[last]] else []
  }

  /** The requested display name that counts: trimmed, and absent when blank. */
  function Wanted(requested: Option<string>): Option<string> {
    if requested.None? || Trim(requested.value, IsRustSpace) == "" then None
    else Some(Trim(requested.value, IsRustSpace))
  }

  function Single(accounts: seq<Account>): Option<Account> {
    if |accounts| == 1 then Some(accounts[0]) else None
  }

  function Choice(accounts: seq<Account>, capability: Capability, requested: Option<string>): Option<Account> {
    var eligible := Eligibles(accounts, capability);
    if |eligible| == 1 then Single(eligible)
    else if Wanted(requested).None? then None
    else Single(NamedOnes(eligible, Wanted(requested).value))
  }

  /** `select_connected_work_account`. */
  method SelectAccount(accounts: seq<Account>, capability: Capability, requested: Option<string>)
    returns (chosen: Option<Account>)
    ensures chosen == Choice(accounts, capability, requested)
  {
    var eligible: seq<Account> := [];
    for i := 0 to |accounts|
      invariant eligible == Eligibles(accounts[..i], capability)
    {
      assert accounts[..i + 1][..i] == accounts[..i];
      if Eligible(accounts[i], capability) {
        eligible := eligible + [accounts[i]];
      }
    }
    assert accounts[..|accounts|] == accounts;
    if |eligible| == 1 {
      return Some(eligible[0]);
    }
    var name := Wanted(requested);
    if name.None? {
      return None;
    }
    var matches: seq<Account> := [];
    for i := 0 to |eligible|
      invariant matches == NamedOnes(eligible[..i], name.value)
    {
      assert eligible[..i + 1][..i] == eligible[..i];
      if Named(eligible[i], name.value) {
        matches := matches + [eligible[i]];
      }
    }
    assert eligible[..|eligible|] == eligible;
    chosen := if |matches| == 1 then Some(matches[0]) else None;
  }

  lemma {:induction false} EligibleCount(accounts: seq<Account>, capability: Capability, a: Account)
    ensures multiset(Eligibles(accounts, capability))[a]
         == if Eligible(a, capability) then multiset(accounts)[a] else 0
  {
    if accounts != [] {
      var last := |accounts| - 1;
      assert accounts == accounts[..last] + [accounts[last]];
      EligibleCount(accounts[..last], capability, a);
    }
  }

  lemma {:induction false} NamedCount(accounts: seq<Account>, name: string, a: Account)
    ensures multiset(NamedOnes(accounts, name))[a] == if Named(a, name) then multiset(accounts)[a] else 0
  {
    if accounts != [] {
      var last := |accounts| - 1;
      assert accounts == accounts[..last] + [accounts[last]];
      NamedCount(accounts[..last], name, a);
    }
  }

  /** `a` is the one listed account that is eligible. */
  ghost predicate OnlyEligible(accounts: seq<Account>, capability: Capability, a: Account) {
    && Eligible(a, capability) && multiset(accounts)[a] == 1
    && forall b :: b in accounts && Eligible(b, capability) ==> b == a
  }

  /** `a` is the one listed account that is eligible and carries the name. */
  ghost predicate OnlyNamed(accounts: seq<Account>, capability: Capability, name: string, a: Account) {
    && Eligible(a, capability) && Named(a, name) && multiset(accounts)[a] == 1
    && forall b :: b in accounts && Eligible(b, capability) && Named(b, name) ==> b == a
  }

  lemma SingleIsOnly(kept: seq<Account>, a: Account)
    ensures Single(kept) == Some(a) <==> multiset(kept)[a] == 1 && forall b :: b in kept ==> b == a
  {
    if Single(kept) == Some(a) {
      assert kept == [a];
    }
    if multiset(kept)[a] == 1 && forall b :: b in kept ==> b == a {
      forall b | b in multiset(kept) ensures b == a {
        assert b in kept;
      }
      assert multiset(kept) == multiset{a};
      assert |kept| == |multiset(kept)|;
    }
  }

  lemma Membership(accounts: seq<Account>)
    ensures forall b :: b in accounts <==> multiset(accounts)[b] > 0
  {
  }

  lemma SingleEligible(accounts: seq<Account>, capability: Capability, a: Account)
    ensures Single(Eligibles(accounts, capability)) == Some(a) <==> OnlyEligible(accounts, capability, a)
  {
    var kept := Eligibles(accounts, capability);
    SingleIsOnly(kept, a);
    forall b ensures multiset(kept)[b] == if Eligible(b, capability) then multiset(accounts)[b] else 0 {
      EligibleCount(accounts, capability, b);
    }
    Membership(kept);
    Membership(accounts);
  }

  lemma SingleNamed(accounts: seq<Account>, capability: Capability, name: string, a: Account)
    ensures Single(NamedOnes(Eligibles(accounts, capability), name)) == Some(a) <==> OnlyNamed(accounts, capability, name, a)
  {
    var kept := NamedOnes(Eligibles(accounts, capability), name);
    SingleIsOnly(kept, a);
    forall b ensures multiset(kept)[b] == if Eligible(b, capability) && Named(b, name) then multiset(accounts)[b] else 0 {
      EligibleCount(accounts, capability, b);
      NamedCount(Eligibles(accounts, capability), name, b);
    }
    Membership(kept);
    Membership(accounts);
  }

  /** The selected account is connected, holds the capability, and is the only eligible one, or the only
      eligible one with the requested name; in every other case nothing is selected. */
  lemma ChoiceExactly(accounts: seq<Account>, capability: Capability, requested: Option<string>, a: Account)
    ensures Choice(accounts, capability, requested) == Some(a) <==> (
      || OnlyEligible(accounts, capability, a)
      || (Wanted(requested).Some?
          && (forall b :: !OnlyEligible(accounts, capability, b))
          && OnlyNamed(accounts, capability, Wanted(requested).value, a)))
  {
    var eligible := Eligibles(accounts, capability);
    forall b ensures Single(eligible) == Some(b) <==> OnlyEligible(accounts, capability, b) {
      SingleEligible(accounts, capability, b);
    }
    if Wanted(requested).Some? {
      SingleNamed(accounts, capability, Wanted(requested).value, a);
    }
    if |eligible| == 1 {
      assert OnlyEligible(accounts, capability, eligible[0]);
    }
  }

  /** Listing the same accounts in another order selects the same one. */
  lemma ChoiceIgnoresOrder(xs: seq<Account>, ys: seq<Account>, capability: Capability, requested: Option<string>)
    requires multiset(xs) == multiset(ys)
    ensures Choice(xs, capability, requested) == Choice(ys, capability, requested)
  {
    var ex, ey := Eligibles(xs, capability), Eligibles(ys, capability);
    forall a ensures multiset(ex)[a] == multiset(ey)[a] {
      EligibleCount(xs, capability, a);
      EligibleCount(ys, capability, a);
    }
    SameSingle(ex, ey);
    if Wanted(requested).Some? {
      var name := Wanted(requested).value;
      forall a ensures multiset(NamedOnes(ex, name))[a] == multiset(NamedOnes(ey, name))[a] {
        NamedCount(ex, name, a);
        NamedCount(ey, name, a);
      }
      SameSingle(NamedOnes(ex, name), NamedOnes(ey, name));
    }
  }

  lemma SameSingle(xs: seq<Account>, ys: seq<Account>)
    requires forall a :: multiset(xs)[a] == multiset(ys)[a]
    ensures |xs| == |ys| && Single(xs) == Single(ys)
  {
    assert multiset(xs) == multiset(ys);
    assert |xs| == |multiset(xs)| == |multiset(ys)| == |ys|;
    if |xs| == 1 {
      assert xs[0] in multiset(ys);
    }
  }

  // ----- Dispatching a proposed action -----

  datatype ActionKind = MailReview | CalendarReview | Unrelated

  datatype State = Untouched | WaitingPrerequisite | Succeeded | Failed

  datatype Note =
    | NoDurableRun | Incomplete | MailInvalid | CalendarInvalid
    | ChooseAccount | ConnectAccount | MailReady | CalendarReady

  /** What the typed parsers make of the proposal's content. */
  datatype Payload = Unreadable | MailDraft(valid: bool) | Intent(capability: Capability, valid: bool)

  class Proposal {
    const kind: ActionKind
    const target: Option<string>
    var content: Option<string>
    var state: State
    var note: Option<Note>
    var blocked: Option<Note>

    constructor (kind: ActionKind, target: Option<string>, content: Option<string>)
      ensures this.kind == kind && this.target == target && this.content == content
      ensures state == Untouched && note == None && blocked == None
    {
      this.kind, this.target, this.content := kind, target, content;
      state, note, blocked := Untouched, None, None;
    }

    /** `mark_connected_work_action_failed`. */
    method MarkFailed(message: Note)
      modifies this
      ensures state == Failed && note == blocked == Some(message) && content == None
    {
      state, note, blocked, content := Failed, Some(message), Some(message), None;
    }
  }

  /** The capability a proposal needs, when its content is a change of its kind. */
  function Need(kind: ActionKind, payload: Payload): Option<Capability> {
    match (kind, payload)
    case (MailReview, MailDraft(true)) => Some(MailSendDraft)
    case (CalendarReview, Intent(capability, true)) => if capability == MailSendDraft then None else Some(capability)
    case _ => None
  }

  /** `dispatch_connected_work_agent_action`; `prepared` says whether the store accepts the review.
      A review is prepared only for a complete, valid change with exactly one account to carry it, and the
      proposed content survives only where the user can still act on it. */
  method Dispatch(action: Proposal, hasRun: bool, payload: Payload, accounts: seq<Account>, prepared: bool)
    returns (ok: bool, created: bool)
    requires action.state == Untouched
    modifies action
    ensures created <==>
      hasRun && old(action.content).Some? && Trim(old(action.content).value, IsRustSpace) != ""
      && Need(action.kind, payload).Some?
      && Choice(accounts, Need(action.kind, payload).value, action.target).Some? && prepared
    ensures created <==> action.state == Succeeded
    ensures action.content == None || (action.content == old(action.content) && action.state in {Untouched, WaitingPrerequisite})
    ensures action.state in {Succeeded, Failed} ==> action.content == None
    ensures action.state == WaitingPrerequisite ==>
      ok && Need(action.kind, payload).Some?
      && (action.note == Some(ChooseAccount) <==> exists a :: a in accounts && Eligible(a, Need(action.kind, payload).value))
    ensures action.blocked.Some? <==> action.state == Failed || (action.state == Untouched && old(action.blocked).Some?)
    ensures action.kind == Unrelated || !ok ==>
      action.state == Untouched && action.content == old(action.content) && action.note == old(action.note)
    ensures !ok ==> hasRun && Need(action.kind, payload).Some? && !prepared
  {
    if action.kind == Unrelated {
      return true, false;
    }
    if !hasRun {
      action.MarkFailed(NoDurableRun);
      return true, false;
    }
    if action.content.None? || Trim(action.content.value, IsRustSpace) == "" {
      action.MarkFailed(Incomplete);
      return true, false;
    }
    var need := Need(action.kind, payload);
    if need.None? {
      action.MarkFailed(if action.kind == MailReview then MailInvalid else CalendarInvalid);
      return true, false;
    }
    var account := SelectAccount(accounts, need.value, action.target);
    if account.None? {
      action.state, action.blocked := WaitingPrerequisite, None;
      action.note := Some(if exists a :: a in accounts && Eligible(a, need.value) then ChooseAccount else ConnectAccount);
      return true, false;
    }
    if !prepared {
      return false, false;
    }
    action.state, action.blocked, action.content := Succeeded, None, None;
    action.note := Some(if action.kind == MailReview then MailReady else CalendarReady);
    return true, true;
  }
}
