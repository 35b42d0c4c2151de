// Review items: their changes, the exact action revision each command must name, and putting a connected
// change up for approval.
module ReviewItems {
  import opened Common
  import opened Text
  import opened ConnectedStore

  /** The mutable part of a review item; its ids never change. */
  datatype Item = Item(
    title: string, fingerprint: Option<string>, tool: Option<nat>, status: ReviewStatus, revision: nat,
    evidence: Option<string>)
  {
    /** What `action_revision` digests. */
    function Digest(): (Option<nat>, ReviewStatus, Option<string>, nat) {
      (tool, status, fingerprint, revision)
    }

    predicate Open() {
      status == ReviewPending || status == ApprovalPending
    }

    /** An item under approval names its invocation and its preview; one under review names no invocation. */
    predicate Valid() {
      && revision <= MAX_U32
      && (status == ReviewPending ==> tool.None?)
      && (status == ApprovalPending ==> tool.Some? && fingerprint.Some? && RequiredText(fingerprint.value) == fingerprint)
    }
  }

  /** Trimmed text, unless it is blank. */
  function RequiredText(text: string): Option<string> {
    if Trim(text, IsRustSpace) == "" then None else Some(Trim(text, IsRustSpace))
  }

  datatype Change =
    | Edit(title: string, fingerprint: Option<string>)
    | RequestApproval(tool: nat, exact: string)
    | Resolve(accepted: bool)
    | CompleteApproved(evidence: string)

  function Changed(item: Item, change: Change): Result<Item> {
    match change
    case Edit(title, fingerprint) =>
      if !item.Open() || RequiredText(title).None? then Refused
      else Ok(item.(title := RequiredText(title).value, fingerprint := fingerprint, tool := None,
                    status := ReviewPending, revision := Bump(item.revision)))
    case RequestApproval(tool, exact) =>
      if item.status != ReviewPending || RequiredText(exact).None? || item.fingerprint != RequiredText(exact)
      then Refused
      else Ok(item.(tool := Some(tool), status := ApprovalPending, revision := Bump(item.revision)))
    case Resolve(accepted) =>
      if !item.Open() || (accepted && item.status == ApprovalPending) then Refused
      else Ok(item.(status := if accepted then Accepted else Rejected, revision := Bump(item.revision)))
    case CompleteApproved(evidence) =>
      if item.status != ApprovalPending || RequiredText(evidence).None? then Refused
      else Ok(item.(evidence := RequiredText(evidence), status := Accepted, revision := Bump(item.revision)))
  }

  lemma ChangedIsValid(item: Item, change: Change)
    requires item.Valid() && Changed(item, change).Ok?
    ensures Changed(item, change).value.Valid()
  {
    if change.RequestApproval? {
      TrimTwice(change.exact, IsRustSpace);
    }
  }

  class ReviewItem {
    var item: Item

    constructor (item: Item)
      ensures this.item == item
    {
      this.item := item;
    }

    /** A closed item refuses every change. One that is accepted moves the revision on, so that the item's
        digest is new; only a request puts the item under approval, and only a completion accepts it from there. */
    method Apply(change: Change) returns (ok: bool)
      modifies this
      ensures ok <==> Changed(old(item), change).Ok?
      ensures item == if ok then Changed(old(item), change).value else old(item)
      ensures ok ==> old(item).Open() && item.revision == Bump(old(item).revision)
      ensures ok && old(item).revision < MAX_U32 ==> item.Digest() != old(item).Digest()
      ensures ok ==> (item.status == ApprovalPending <==> change.RequestApproval?)
      ensures ok && item.status == Accepted && old(item).status == ApprovalPending ==> change.CompleteApproved?
      ensures old(item).Valid() ==> item.Valid()
    {
      if item.Valid() && Changed(item, change).Ok? {
        ChangedIsValid(item, change);
      }
      var changed := Changed(item, change);
      ok := changed.Ok?;
      if ok {
        item := changed.value;
      }
    }

    /** `request_connected_work_approval_with_state`; `prepared` says whether the exact preview can be frozen,
        as invocation `tool` with fingerprint `fingerprint`, and `found` is the stored invocation of the item. */
    method RequestConnectedApproval(
      digest: (Option<nat>, ReviewStatus, Option<string>, nat), prepared: bool, tool: nat, fingerprint: string,
      found: Option<(nat, string)>)
      returns (ok: bool)
      requires item.Valid()
      modifies this
      ensures item.Valid()
      ensures ok <==> (
        && digest == old(item).Digest()
        && ((old(item).status == ApprovalPending && found.Some?
             && old(item).tool == Some(found.value.0) && old(item).fingerprint == Some(found.value.1))
            || (old(item).status == ReviewPending && prepared && RequiredText(fingerprint) == Some(fingerprint))))
      ensures !ok || old(item).status == ApprovalPending ==> item == old(item)
      ensures ok ==> item.status == ApprovalPending && item.tool.Some?
      ensures ok && old(item).status == ReviewPending ==>
        item.tool == Some(tool) && item.fingerprint == Some(fingerprint)
        && (old(item).revision < MAX_U32 ==> item.Digest() != digest)
    {
      if digest != item.Digest() {
        return false;
      }
      match item.status
      case ReviewPending =>
        if !prepared || RequiredText(fingerprint) != Some(fingerprint) {
          return false;
        }
        EditTitleIsText();
        ok := Apply(Edit("Review this exact calendar change", Some(fingerprint)));
        ok := Apply(RequestApproval(tool, fingerprint));
      case ApprovalPending =>
        ok := found.Some? && item.tool == Some(found.value.0) && item.fingerprint == Some(found.value.1);
      case _ =>
        ok := false;
    }
  }

  lemma EditTitleIsText()
    ensures RequiredText("Review this exact calendar change").Some?
  {
    assert !IsRustSpace('R');
    assert TrimStart("Review this exact calendar change", IsRustSpace) == "Review this exact calendar change";
    assert !IsRustSpace("Review this exact calendar change"[32]);
  }

  // ----- A revision named once -----

  ghost predicate Legal(item: Item, changes: seq<Change>)
    decreases |changes|
  {
    changes == [] || (Changed(item, changes[0]).Ok? && Legal(Changed(item, changes[0]).value, changes[1..]))
  }

  ghost function After(item: Item, changes: seq<Change>): Item
    requires Legal(item, changes)
    decreases |changes|
  {
    if changes == [] then item else After(Changed(item, changes[0]).value, changes[1..])
  }

  lemma {:induction false} RevisionGrows(item: Item, changes: seq<Change>)
    requires Legal(item, changes) && item.revision <= MAX_U32
    ensures After(item, changes).revision == if item.revision + |changes| <= MAX_U32 then item.revision + |changes| else MAX_U32
    decreases |changes|
  {
    if changes != [] {
      RevisionGrows(Changed(item, changes[0]).value, changes[1..]);
    }
  }

  lemma {:induction false} ClosedStaysClosed(item: Item, changes: seq<Change>)
    requires Legal(item, changes) && !item.Open()
    ensures changes == []
  {
  }

  lemma OneChange(item: Item, change: Change)
    requires Changed(item, change).Ok?
    ensures Legal(item, [change]) && After(item, [change]) == Changed(item, change).value
  {
    assert [change][1..] == [];
  }

  lemma ThenChanges(item: Item, change: Change, rest: seq<Change>)
    requires Changed(item, change).Ok? && Legal(Changed(item, change).value, rest)
    ensures Legal(item, [change] + rest) && After(item, [change] + rest) == After(Changed(item, change).value, rest)
  {
    assert ([change] + rest)[1..] == rest;
  }

  /** A saturated open item can be brought back to its own digest. */
  lemma SaturatedRepeats(item: Item) returns (changes: seq<Change>)
    requires item.Valid() && item.Open() && item.revision == MAX_U32
    ensures changes != [] && Legal(item, changes) && After(item, changes).Digest() == item.Digest()
  {
    EditTitleIsText();
    var edit := Edit("Review this exact calendar change", item.fingerprint);
    if item.status == ReviewPending {
      OneChange(item, edit);
      changes := [edit];
    } else {
      var request := RequestApproval(item.tool.value, item.fingerprint.value);
      OneChange(Changed(item, edit).value, request);
      ThenChanges(item, edit, [request]);
      changes := [edit] + [request];
    }
  }

  /** A command that names an item's revision is refused after any change, exactly as long as the revision
      counter has not reached its 32-bit maximum on an open item. */
  lemma StaleRevisionExactly(item: Item)
    requires item.Valid()
    ensures ((forall changes :: changes != [] && Legal(item, changes) ==> After(item, changes).Digest() != item.Digest())
             <==> !(item.Open() && item.revision == MAX_U32))
  {
    forall changes | changes != [] && Legal(item, changes)
      ensures item.revision < MAX_U32 ==> After(item, changes).Digest() != item.Digest()
      ensures item.Open()
    {
      RevisionGrows(item, changes);
      if !item.Open() {
        ClosedStaysClosed(item, changes);
      }
    }
    if item.Open() && item.revision == MAX_U32 {
      var changes := SaturatedRepeats(item);
    }
  }
}
