// The rows of the event store that one connected-work review touches: the review item, its
// connector invocation, the one-shot approval, and the reconciliation claim.
// Each store call runs under the store lock, so it is one atomic transition of these rows.
module ConnectedStore {
  import opened Common

  datatype ReviewStatus = ReviewPending | ApprovalPending | Accepted | Rejected

  datatype InvocationStatus = PendingApproval | Running | Succeeded | Failed | ReconciliationRequired

  /** The one-shot permission behind the exact approval. */
  datatype Grant = Undecided | Approved | Denied | Consumed

  /** The fields an action revision digests and that can change for one review. */
  datatype ActionRevision = ActionRevision(status: ReviewStatus, revision: nat)

  type Evidence = string

  /** A provider receipt; `matches` says it agrees with the frozen mutation envelope. */
  datatype Receipt = Receipt(matches: bool, reconciled: bool, evidence: Evidence)

  /** `bound` says the review item still names the invocation's tool; editing the item drops it.
      `generation` is the account's, `frozen` the one the invocation was prepared for. */
  datatype Rows = Rows(
    review: ReviewStatus,
    revision: nat,
    bound: bool,
    status: InvocationStatus,
    evidence: Option<Evidence>,
    grant: Grant,
    connected: bool,
    generation: nat,
    frozen: nat,
    claim: Option<nat>,
    quarantined: bool)
  {
    function Action(): ActionRevision {
      ActionRevision(review, revision)
    }

    predicate Open() {
      review == ReviewPending || review == ApprovalPending
    }

    /** The account is connected and still the one the change was prepared for. */
    predicate Ready() {
      connected && generation == frozen
    }
  }

  const MAX_U32: nat := 0xFFFF_FFFF

  function Bump(revision: nat): nat {
    if revision < MAX_U32 then revision + 1 else revision
  }

  predicate Invocable(rows: Rows, requested: ActionRevision) {
    requested == rows.Action() && rows.review == ApprovalPending
  }

  /** `connected_work_invocation_for_review`: a read under the lock. */
  function Lookup(rows: Rows, requested: ActionRevision): Result<InvocationStatus> {
    if Invocable(rows, requested) then Ok(rows.status) else Refused
  }

  /** `approve_and_start_connected_work_review`: note the early success on a running invocation. */
  function Approve(rows: Rows, requested: ActionRevision): Result<Rows> {
    if !Invocable(rows, requested) then Refused
    else if rows.status == Running then Ok(rows)
    else if rows.status != PendingApproval then Refused
    else if rows.grant in {Undecided, Grant.Approved} && rows.Ready() then
      Ok(rows.(status := Running, grant := Consumed))
    else Refused
  }

  /** `load_connector_reconciliation_binding`: what every claimed step checks again. */
  predicate Binding(rows: Rows) {
    rows.Ready() && rows.review == ApprovalPending && rows.bound
  }

  /** `complete_connector_invocation` without a claim, and with one for the reconciler. Without a claim the
      review is looked up by the invocation's tool: an edited item is not found, and completion goes on. */
  function Complete(rows: Rows, receipt: Receipt, claim: Option<nat>): Result<Rows> {
    if !receipt.matches then Refused
    else if rows.status == Succeeded then
      if claim.None? && rows.evidence == Some(receipt.evidence) then Ok(rows) else Refused
    else if rows.status == Running && claim.Some? then Refused
    else if rows.status == ReconciliationRequired && (claim.None? || !receipt.reconciled) then Refused
    else if rows.status !in {Running, ReconciliationRequired} then Refused
    else if !rows.Ready() then Refused
    else if rows.bound && rows.review != ApprovalPending then Refused
    else if claim.Some? && (rows.claim != claim || !Binding(rows)) then Refused
    else
      var done := rows.(status := Succeeded, evidence := Some(receipt.evidence), claim := None);
      Ok(if rows.bound then done.(review := Accepted, revision := Bump(rows.revision)) else done)
  }

  /** `mark_connector_invocation_reconciliation_required`. */
  function Freeze(rows: Rows): Result<Rows> {
    if rows.status == Running then Ok(rows.(status := ReconciliationRequired, claim := None)) else Refused
  }

  /** `fail_claimed_connector_reconciliation_known_not_applied`. */
  function FailNotApplied(rows: Rows, claim: nat): Result<Rows> {
    if rows.status != ReconciliationRequired || rows.claim != Some(claim) || !Binding(rows) then Refused
    else
      Ok(rows.(status := Failed, evidence := None, review := Rejected,
               revision := Bump(rows.revision), claim := None))
  }

  /** A refused review takes the unused approval of its tool with it. */
  function Withdrawn(rows: Rows): Grant {
    if rows.bound && rows.grant != Consumed then Denied else rows.grant
  }

  /** `resolve_review_queue_item`; the exact approval cannot be given this way. */
  function Resolve(rows: Rows, requested: ActionRevision, accepted: bool): Result<Rows> {
    if requested != rows.Action() || !rows.Open() || (accepted && rows.review == ApprovalPending) then Refused
    else
      Ok(rows.(review := if accepted then Accepted else Rejected, revision := Bump(rows.revision),
               grant := if accepted then rows.grant else Withdrawn(rows)))
  }

  /** `edit_review_queue_item`: the item goes back to review and names no tool any more. */
  function EditItem(rows: Rows, requested: ActionRevision): Result<Rows> {
    if requested != rows.Action() || !rows.Open() then Refused
    else
      Ok(rows.(review := ReviewPending, revision := Bump(rows.revision), bound := false, grant := Withdrawn(rows)))
  }

  /** Whether a sweep looks at the invocation at all. */
  predicate Due(rows: Rows) {
    rows.status == ReconciliationRequired && rows.claim.None? && !rows.quarantined
  }

  /** One candidate of `claim_due_connector_reconciliations`: claimed, or set aside for good when its binding
      does not hold at that moment. */
  function TakeClaim(rows: Rows, claim: nat): Rows {
    if !Due(rows) then rows
    else if Binding(rows) then rows.(claim := Some(claim))
    else rows.(quarantined := true)
  }

  /** `renew_connector_reconciliation_claim`, just before the remote state is read. */
  predicate Renews(rows: Rows, claim: nat) {
    rows.status == ReconciliationRequired && rows.claim == Some(claim) && Binding(rows)
  }

  /** `defer_connector_reconciliation`, and the lease running out. */
  function DropClaim(rows: Rows, claim: nat): Result<Rows> {
    if rows.status == ReconciliationRequired && rows.claim == Some(claim) then
      Ok(rows.(claim := None))
    else Refused
  }

  /** A change of the account: its health, and a new generation when it is disconnected, revoked or given
      other credentials or capabilities. */
  function ChangeAccount(rows: Rows, connected: bool, renewed: bool): Rows {
    rows.(connected := connected, generation := if renewed then rows.generation + 1 else rows.generation)
  }
}
