// Approve-and-run of one connected-account change as a step machine. Callers interleave freely
// between their lock scopes, the reconciliation workers run beside them, and a crash kills every
// caller and worker but keeps the store and whatever the provider has already done.
module ApproveAndRun {
  import opened Common
  import opened ConnectedStore

  datatype Outcome = Applied(receipt: Receipt) | Uncertain | ProviderError

  /** What a call tells its user. */
  datatype Reply =
    | KnownApplied(evidence: Option<Evidence>)
    | EffectUnknown(status: InvocationStatus)
    | NothingSent
    | StoreRefused

  /** Where a call stands between two of its lock scopes. */
  datatype Caller =
    | Entered(requested: ActionRevision)
    | Seen(requested: ActionRevision, status: InvocationStatus)
    | Permitted(requested: ActionRevision)
    | Returned(requested: ActionRevision, outcome: Outcome)
    | Done(called: bool, reply: Reply)

  datatype Answer = FoundApplied(receipt: Receipt) | FoundNothing | Unsure

  datatype Worker = Claimed | Answered(answer: Answer)

  /** `permits`, `joins` and `calls` count what happened; no step reads them. */
  datatype System = System(
    rows: Rows,
    callers: map<nat, Caller>,
    workers: map<nat, Worker>,
    permits: nat,
    joins: nat,
    calls: nat,
    effects: nat)

  datatype Event =
    | Enter(c: nat, requested: ActionRevision, enabled: bool)
    | Read(c: nat, supported: bool, accountFound: bool)
    | FreezeRunning(c: nat)
    | ApproveStart(c: nat)
    | FindNoProvider(c: nat)
    | CallProvider(c: nat, outcome: Outcome, performed: bool)
    | Record(c: nat)
    | ResolveReview(requested: ActionRevision, accepted: bool)
    | EditReview(requested: ActionRevision)
    | Decide(granted: bool)
    | AccountChange(connected: bool, renewed: bool)
    | Claim(w: nat)
    | Ask(w: nat, answer: Answer)
    | Settle(w: nat)
    | LoseClaim(w: nat)
    | Crash

  /** The provider applies before it answers `Applied`; the reconciler reads the remote state. */
  predicate Enabled(s: System, e: Event) {
    match e
    case Enter(c, _, _) => c !in s.callers
    case Read(c, _, _) => c in s.callers && s.callers[c].Entered?
    case FreezeRunning(c) => c in s.callers && s.callers[c].Seen? && s.callers[c].status == Running
    case ApproveStart(c) => c in s.callers && s.callers[c].Seen? && s.callers[c].status != Running
    case FindNoProvider(c) => c in s.callers && s.callers[c].Permitted?
    case CallProvider(c, outcome, performed) =>
      c in s.callers && s.callers[c].Permitted? && (outcome.Applied? ==> performed)
    case Record(c) => c in s.callers && s.callers[c].Returned?
    case ResolveReview(_, _) => true
    case EditReview(_) => true
    case Decide(_) => s.rows.grant == Undecided
    case AccountChange(_, _) => true
    case Claim(w) => w !in s.workers
    case Ask(w, answer) =>
      w in s.workers && s.workers[w].Claimed?
      && (answer.FoundApplied? ==> s.effects > 0) && (answer.FoundNothing? ==> s.effects == 0)
    case Settle(w) => w in s.workers && s.workers[w].Answered?
    case LoseClaim(_) => true
    case Crash => true
  }

  function Keep(before: Rows, after: Result<Rows>): Rows {
    if after.Ok? then after.value else before
  }

  /** The last lock scope of a call: record success, or leave the result to reconciliation. */
  function RecordScope(rows: Rows, outcome: Outcome): (Rows, Reply) {
    var uncertain :=
      var frozen := Freeze(rows);
      if frozen.Ok? then (frozen.value, EffectUnknown(frozen.value.status)) else (rows, StoreRefused);
    match outcome
    case Applied(receipt) =>
      var completed := Complete(rows, receipt, None);
      if completed.Ok? then (completed.value, KnownApplied(completed.value.evidence))
      else if rows.status == Succeeded then (rows, KnownApplied(rows.evidence))
      else if rows.status != Running then (rows, StoreRefused)
      else uncertain
    case Uncertain => uncertain
    case ProviderError => uncertain
  }

  function SettleScope(rows: Rows, w: nat, answer: Answer): Rows {
    match answer
    case FoundApplied(receipt) =>
      if receipt.reconciled then Keep(rows, Complete(rows, receipt, Some(w))) else Keep(rows, DropClaim(rows, w))
    case FoundNothing => Keep(rows, FailNotApplied(rows, w))
    case Unsure => Keep(rows, DropClaim(rows, w))
  }

  function Next(s: System, e: Event): System
    requires Enabled(s, e)
  {
    match e
    case Enter(c, requested, enabled) =>
      s.(callers := s.callers[c := if enabled then Entered(requested) else Done(false, NothingSent)])
    case Read(c, supported, accountFound) =>
      var requested := s.callers[c].requested;
      var found := Lookup(s.rows, requested);
      s.(callers := s.callers[c :=
        if found.Refused? then Done(false, StoreRefused)
        else if !supported then Done(false, NothingSent)
        else if !accountFound then Done(false, StoreRefused)
        else Seen(requested, found.value)])
    case FreezeRunning(c) =>
      var frozen := Freeze(s.rows);
      s.(rows := Keep(s.rows, frozen),
         callers := s.callers[c := Done(false, if frozen.Ok? then EffectUnknown(frozen.value.status) else StoreRefused)])
    case ApproveStart(c) =>
      var requested := s.callers[c].requested;
      var started := Approve(s.rows, requested);
      if started.Refused? then s.(callers := s.callers[c := Done(false, StoreRefused)])
      else s.(rows := started.value,
              callers := s.callers[c := Permitted(requested)],
              permits := s.permits + 1,
              joins := s.joins + if s.rows.status == Running then 1 else 0)
    case FindNoProvider(c) =>
      s.(callers := s.callers[c := Done(false, NothingSent)])
    case CallProvider(c, outcome, performed) =>
      s.(callers := s.callers[c := Returned(s.callers[c].requested, outcome)],
         calls := s.calls + 1,
         effects := s.effects + if performed then 1 else 0)
    case Record(c) =>
      var (rows, reply) := RecordScope(s.rows, s.callers[c].outcome);
      s.(rows := rows, callers := s.callers[c := Done(true, reply)])
    case ResolveReview(requested, accepted) => s.(rows := Keep(s.rows, Resolve(s.rows, requested, accepted)))
    case EditReview(requested) => s.(rows := Keep(s.rows, EditItem(s.rows, requested)))
    case Decide(granted) => s.(rows := s.rows.(grant := if granted then Grant.Approved else Denied))
    case AccountChange(connected, renewed) => s.(rows := ChangeAccount(s.rows, connected, renewed))
    case Claim(w) =>
      var taken := TakeClaim(s.rows, w);
      if taken.claim.None? || s.rows.claim.Some? then s.(rows := taken)
      else s.(rows := taken, workers := s.workers[w := Claimed])
    case Ask(w, answer) =>
      if Renews(s.rows, w) then s.(workers := s.workers[w := Answered(answer)]) else s.(workers := s.workers - {w})
    case Settle(w) => s.(rows := SettleScope(s.rows, w, s.workers[w].answer), workers := s.workers - {w})
    case LoseClaim(w) => s.(rows := Keep(s.rows, DropClaim(s.rows, w)))
    case Crash =>
      s.(rows := s.rows.(claim := None), callers := map[], workers := map[])
  }

  /** A review that has just been put up for exact approval. */
  predicate Initial(s: System) {
    && s.rows.review == ApprovalPending
    && s.rows.status == PendingApproval
    && s.rows.evidence == None
    && s.rows.grant in {Undecided, Grant.Approved}
    && s.rows.claim == None && !s.rows.quarantined
    && s.rows.bound && s.rows.generation == s.rows.frozen
    && s.callers == map[] && s.workers == map[]
    && s.permits == 0 && s.joins == 0 && s.calls == 0 && s.effects == 0
  }

  ghost predicate Legal(s: System, run: seq<Event>)
    decreases |run|
  {
    run == [] || (Enabled(s, run[0]) && Legal(Next(s, run[0]), run[1..]))
  }

  ghost function Run(s: System, run: seq<Event>): System
    requires Legal(s, run)
    decreases |run|
  {
    if run == [] then s else Run(Next(s, run[0]), run[1..])
  }

  /** `t` can follow `s`. */
  ghost predicate Leads(s: System, t: System) {
    exists run :: Legal(s, run) && Run(s, run) == t
  }

  /** Callers that may still reach the provider. */
  ghost function Holders(s: System): set<nat> {
    set c | c in s.callers && s.callers[c].Permitted?
  }

  lemma {:induction false} RunAppend(s: System, run: seq<Event>, e: Event)
    requires Legal(s, run) && Enabled(Run(s, run), e)
    ensures Legal(s, run + [e]) && Run(s, run + [e]) == Next(Run(s, run), e)
    decreases |run|
  {
    if run == [] {
      assert run + [e] == [e];
    } else {
      assert (run + [e])[1..] == run[1..] + [e];
      RunAppend(Next(s, run[0]), run[1..], e);
    }
  }

  lemma LeadsToItself(s: System)
    ensures Leads(s, s)
  {
    assert Legal(s, []) && Run(s, []) == s;
  }

  lemma LeadsOn(s: System, t: System, e: Event)
    requires Leads(s, t) && Enabled(t, e)
    ensures Leads(s, Next(t, e))
  {
    var run :| Legal(s, run) && Run(s, run) == t;
    RunAppend(s, run, e);
  }

  lemma {:induction false} RunJoins(s: System, run: seq<Event>, later: seq<Event>)
    requires Legal(s, run) && Legal(Run(s, run), later)
    ensures Legal(s, run + later) && Run(s, run + later) == Run(Run(s, run), later)
    decreases |run|
  {
    if run == [] {
      assert run + later == later;
    } else {
      assert (run + later)[1..] == run[1..] + later;
      RunJoins(Next(s, run[0]), run[1..], later);
    }
  }

  lemma LeadsThrough(s: System, t: System, u: System)
    requires Leads(s, t) && Leads(t, u)
    ensures Leads(s, u)
  {
    var run :| Legal(s, run) && Run(s, run) == t;
    var later :| Legal(t, later) && Run(t, later) == u;
    RunJoins(s, run, later);
  }

  lemma FreshCaller(t: System) returns (c: nat)
    ensures c !in t.callers
  {
    c := FreshKey(t.callers.Keys);
  }

  lemma {:induction false} FreshKey(keys: set<nat>) returns (c: nat)
    ensures forall k :: k in keys ==> k < c
    decreases |keys|
  {
    if keys == {} {
      c := 0;
    } else {
      var k :| k in keys;
      var rest := FreshKey(keys - {k});
      c := if rest > k then rest else k + 1;
      assert forall j :: j in keys ==> j == k || j in keys - {k};
    }
  }
}
