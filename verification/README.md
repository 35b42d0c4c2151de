# DS Agent: verified models of the desktop agent's protocols

A Dafny model of the parts of the DS Agent desktop application where mistakes cost most: a change to a
connected account that must not be sent twice, a team of experts scheduled by dependencies and shared
resources, a recovery sweep that must survive a crash at any point, and the smaller state machines and parsers
around them. `dafny verify dfyconfig.toml` checks everything.

## What is modelled

**Approving and running a connected-account change.** `ConnectedStore` holds the rows one review touches and
the store's transitions on them; `EventStore` is the same store as an object updated in place, with the command
on top. `ApproveAndRun` is the command as steps: any number of callers between their lock scopes, reconciliation
workers, rejections, edits, account changes and crashes. `ApproveAndRunSafety`, `ApproveAndRunCalls`,
`ApproveAndRunResolution` and `ApproveAndRunReplies` prove what every run keeps, how many calls are still to
come, what can still be resolved, and which answers are true. `ReviewItems` is the review item and the exact
revision each command must name, and `ConnectedActions` the choice of account and the dispatch of a proposal.

**Expert teams.** `ExpertTeam` has the desktop's scheduler and the kernel's own readiness check;
`ExpertLatest`, `ExpertSafety` and `ExpertProgress` prove the latest-attempt fold, the exact condition for mutual
exclusion, progress and termination. `ExpertPlan` is the depth-first search that rejects dependency cycles and the
link from an accepted plan to progress. `SynthesisGate` compares the desktop's and the kernel's conditions for
synthesis. `DurableWorker` is the desktop's timer: asynchronous ticks that interleave at their awaits.

**Artifact recovery.** `ArtifactFiles` is the staged write (temporary file, rename) with a stop at any point;
`ArtifactRecords` the records, checks and tables; `ArtifactSweep` the sweep, registration, report preparation,
delivery listing and every write that goes round the staged one, as steps, with the sweep itself as methods over
the stored state. `ArtifactSafety` and `ArtifactReach` prove the invariant; `ArtifactDelivery` and
`ArtifactOutcome` what follows.

**The rest.** `Conversations` (the rail, and what storing and reading it again keeps), `ContextWindow` (the
prompt's context), `Receipt` (the receipt parser), `IcoResource` (the icon selector), and `Text` and `Common` for
what they share.

## What the proofs say about the code

Most of the intended properties hold as intended. Where one does not, the exact condition is proved, and a run
that fails is given.

- `approve_and_start_connected_work_review` answers with success when the invocation is already running
  (`connector_draft.rs:1190`), so two overlapping calls can both reach the provider. At most one permission is
  handed out exactly when no approval joins a running invocation, and whether a second call can still come is read
  off the state exactly.
- `approve_and_run_connected_work_review` is a synchronous command. Calls that are run one at a time are safe
  (`SerialCallsApplyAtMostOnce`). Overlap needs a dispatcher that runs commands concurrently, or a second process on
  the same database; neither the command nor the store, which is locked only inside each scope, excludes it.
- A review can be rejected or edited while its invocation runs. From then on the invocation can never be settled.
- An uncertain invocation can still be settled exactly while its review awaits approval, no sweep has set it aside,
  and its account is of the generation it was prepared for. One sweep that meets the account out of order sets it
  aside for good; disconnecting, revoking or reconnecting the account outdates it for good.
- A second call freezes a running invocation even when the first caller is about to call the provider, so an
  invocation can be recorded as not applied and be applied afterwards.
- "Nothing was sent or changed" from the first lock scope is true of every history exactly when the invocation is
  neither running nor uncertain; no crash is needed to make it false. From a registry that is switched off it is
  certain only before the start, and always in a build where the registry stays off. From an approval that finds no
  provider it is certain exactly without a join.
- The revision limit for artifacts is three, but the authority for revised paths is looked up by the current
  storage reference and recorded only for original ones: a second revision always fails.
- A crash inside the write of a revision's temporary file makes that artifact fail; nothing removes the file.
- A PDF report's record is stored before its file is written. Until then it names a missing or an older file, and a
  sweep in between marks it failed. The export writes its file in place (`capability.rs:891`), without the store's
  lock: one that is stopped half-way over a delivered report costs the delivery. A version keeps its bytes exactly
  as long as the last such write left the same ones.
- The kernel checks a team's room and its conflicts when an attempt is claimed, not when one that waits for a
  confirmation or a resource runs again (`commands.rs:2334`, `commands.rs:2780`, and the lease renewal at
  `event_store.rs:11400`, whose claim event makes a waiting run count as running). At most three run, and no two
  writers of a key run together, exactly as long as no attempt goes on in a full team or beside a conflicting one.
- The desktop and the kernel keep different records when two attempts carry one number, and a batch chosen from
  one snapshot can hold two writers of one key; only the kernel's check at each claim tells them apart.
- The worker's busy flag is exact, but a parent's chain of awaits can outlive a tick that failed.
- Only the first fifty conversations of the rail are stored, and a message the read cannot handle gives up every
  stored session. Storing and reading again keeps a conversation exactly when it is among the first fifty and
  none of these has such a message.
- An action revision names one state of a review until the 32-bit revision counter saturates.

## Model

| member | source | states |
|---|---|---|
| ReviewItems.ReviewItem.Apply | apps/desktop/src-tauri/src/kernel/automation.rs:216-292 | a closed item refuses every change; an accepted one moves the revision on, so the digest is new, and leaves a valid item; only a request puts an item under approval and only a completion accepts it from there; a refusal changes nothing |
| ReviewItems.ReviewItem.RequestConnectedApproval | apps/desktop/src-tauri/src/connected_work_commands.rs:237-270 | approval is requested only for the exact current revision of an open item; asking again changes nothing and needs the stored invocation of that tool and preview; success leaves the item naming one invocation and one preview |
| ReviewItems.StaleRevisionExactly | apps/desktop/src-tauri/src/kernel/automation.rs:178-191 | after any change a command naming the old revision is refused, exactly as long as an open item has not reached the 32-bit revision limit, where the counter saturates |
| EventStore.Store.FindInvocation | apps/desktop/src-tauri/src/kernel/event_store/connector_draft.rs:1149-1179 | a lookup answers only for the exact revision of a review awaiting approval |
| EventStore.Store.ApproveAndStart | apps/desktop/src-tauri/src/kernel/event_store/connector_draft.rs:1181-1227 | the store method performs the approval transition, including its early success on a running invocation |
| EventStore.Store.CompleteInvocation | apps/desktop/src-tauri/src/kernel/event_store.rs:7826-8079 | completion without a claim performs the transition or refuses and changes nothing: it needs a matching receipt, a running invocation, a connected account of the frozen generation, and a review that awaits approval unless editing took its tool away |
| EventStore.Store.MarkReconciliationRequired | apps/desktop/src-tauri/src/kernel/event_store.rs:7064-7128 | freezing moves Running to ReconciliationRequired and refuses in every other status |
| EventStore.RecordOutcome | apps/desktop/src-tauri/src/connected_work_commands.rs:365-420 | the last lock scope stores success or uncertainty and answers accordingly, as the step machine's record step does |
| EventStore.ApproveAndRunReview | apps/desktop/src-tauri/src/connected_work_commands.rs:297-421 | run alone, the command is a run of the step machine; it reaches the provider exactly under the listed conditions and leaves nothing Running afterwards |
| ApproveAndRunSafety.AtMostOnceExactly | apps/desktop/src-tauri/src/connected_work_commands.rs:309-365 | over all interleavings, crashes, rejections, edits and reconciliations at most one permission to call is handed out exactly when no approval joins a running invocation |
| ApproveAndRunSafety.EveryPermitCanCall | apps/desktop/src-tauri/src/connected_work_commands.rs:346-362 | each permission handed out can still become a provider call, so the bound is tight |
| ApproveAndRunCalls.AtMostOneCallExactly | apps/desktop/src-tauri/src/connected_work_commands.rs:309-365 | from any reached state no continuation makes a second call exactly when a waiting invocation can no longer be approved, or when for a started one the calls made, the permissions held and the approvals that would still join are at most one |
| ApproveAndRunSafety.TwoOverlappingCallsApplyTwice | apps/desktop/src-tauri/src/kernel/event_store/connector_draft.rs:1190-1192 | two calls that read the waiting invocation before either approves both reach the provider |
| ApproveAndRunSafety.SerialCallsApplyAtMostOnce | apps/desktop/src-tauri/src/connected_work_commands.rs:297-421 | calls that do not overlap, with any crashes, apply the change at most once |
| ApproveAndRunSafety.EveryCallHeldTheExactRevision | apps/desktop/src-tauri/src/connected_work_commands.rs:346-362 | each provider call rests on an approval of the revision put up, and on the consumed one-shot grant, though it was read in another lock scope |
| ApproveAndRunSafety.KnownAppliedIsTrue | apps/desktop/src-tauri/src/connected_work_commands.rs:366-394 | an answer of KnownApplied means the provider applied the change and the invocation succeeded with that evidence |
| ApproveAndRunSafety.PendingMeansUntouched | apps/desktop/src-tauri/src/connected_work_commands.rs:309-358 | an invocation still waiting for approval was never called |
| ApproveAndRunResolution.StatusOnlyAdvances | apps/desktop/src-tauri/src/kernel/connectors.rs:1163-1178 | no status is ever taken back; success, with its evidence, and failure are final |
| ApproveAndRunResolution.RecordingLeavesRunning | apps/desktop/src-tauri/src/connected_work_commands.rs:363-420 | once a call has recorded its result the invocation is never waiting or running again |
| ApproveAndRunResolution.OneMoreCallFreezes | apps/desktop/src-tauri/src/connected_work_commands.rs:332-345 | one further call moves a running invocation to ReconciliationRequired without reaching the provider |
| ApproveAndRunResolution.CrashedRunRecoversExactly | apps/desktop/src-tauri/src/connected_work_commands.rs:332-345 | after a crash a running invocation can still be resolved exactly when its review was neither rejected nor edited meanwhile |
| ApproveAndRunResolution.ReconcilerSettles | apps/desktop/src-tauri/src/kernel/connectors/reconciliation.rs:22-122 | while its review awaits approval, nothing set it aside and the account is of the frozen generation, the reconciler can settle an uncertain invocation with the verdict the remote state supports |
| ApproveAndRunResolution.UncertainSettlesExactly | apps/desktop/src-tauri/src/kernel/event_store.rs:7183-7357 | an uncertain invocation can still be settled exactly when its review awaits approval, no sweep has set it aside, and its account generation is the frozen one |
| ApproveAndRunResolution.SetAsideForGood | apps/desktop/src-tauri/src/kernel/event_store.rs:7183-7247 | one sweep that finds the account out of order sets the invocation aside for good, though the account recovers and the review still awaits approval |
| ApproveAndRunResolution.NewGenerationForGood | apps/desktop/src-tauri/src/kernel/event_store.rs:3178-3215 | a new account generation leaves the uncertain changes of the old one unsettled for good |
| ApproveAndRunResolution.NotAppliedIsFinalExactly | apps/desktop/src-tauri/src/kernel/event_store.rs:7499-7631 | an invocation recorded as not applied stays unapplied exactly when nothing was applied and no call holds a permission |
| ApproveAndRunResolution.FrozenCallAppliesAfterNotApplied | apps/desktop/src-tauri/src/connected_work_commands.rs:332-345 | frozen by a second call while the first is on its way, an invocation is recorded as not applied and applied afterwards |
| ApproveAndRunReplies.FirstReadTrueExactly | apps/desktop/src-tauri/src/connected_work_commands.rs:317-322 | "nothing was sent" from the first scope is true of every history reaching it in a given status exactly when the status is neither Running nor ReconciliationRequired; no crash is needed to make it false |
| ApproveAndRunReplies.DisabledEntryTrueExactly | apps/desktop/src-tauri/src/connected_work_commands.rs:302-308 | from a switched-off registry the same words are true of every history reaching a given status exactly when the status is PendingApproval |
| ApproveAndRunReplies.DisabledBuildNeverCalls | apps/desktop/src-tauri/src/connected_work_commands.rs:302-308 | while the registry stays off nothing is ever sent |
| ApproveAndRunReplies.MissingProviderTrueExactly | apps/desktop/src-tauri/src/connected_work_commands.rs:359-361 | after an approval that finds no provider they are true of every history without a join, and not of every one with a join |
| ConnectedActions.SelectAccount | apps/desktop/src-tauri/src/connected_work_commands.rs:150-182 | the two filtering loops compute the specified choice |
| ConnectedActions.ChoiceExactly | apps/desktop/src-tauri/src/connected_work_commands.rs:150-182 | the selected account is connected, has the capability, and is the only eligible one or the only eligible one of that name ignoring ASCII case; otherwise none is selected |
| ConnectedActions.ChoiceIgnoresOrder | apps/desktop/src-tauri/src/connected_work_commands.rs:150-182 | the order of the accounts does not matter |
| ConnectedActions.Proposal.MarkFailed | apps/desktop/src-tauri/src/connected_work_commands.rs:184-189 | a failed proposal carries the message twice and loses its content |
| ConnectedActions.Dispatch | apps/desktop/src-tauri/src/connected_work_commands.rs:25-148 | a review is created exactly for a complete valid change with one account to carry it; the content survives only where the user can still act |
| ExpertLatest.CollectLatest | apps/desktop/src/expert-team.ts:5-17 | the map-building loop computes the fold, keys in insertion order |
| ExpertLatest.LatestExactly | apps/desktop/src/expert-team.ts:5-17 | exactly one record per folded key, the first of its highest attempts |
| ExpertLatest.LatestIgnoresOrder | apps/desktop/src/expert-team.ts:5-17 | with differing attempt numbers the records' order does not matter |
| ExpertLatest.NewerAttemptHoldsBack | apps/desktop/src/expert-team.ts:45-55 | a newer unfinished attempt makes every dependent not ready and blocks synthesis |
| ExpertSafety.ExclusiveRunExactly | apps/desktop/src-tauri/src/kernel/event_store.rs:11738-11760 | at every moment of a run at most three of a team run and no two share a key that one writes, exactly when no attempt that goes on, which nothing checks, enters a full or conflicting team |
| ExpertSafety.ConfirmedWriterJoins | apps/desktop/src-tauri/src/commands.rs:2334-2339 | a writer that waits for a confirmation is replaced by another writer of its key and then confirmed: both run |
| ExpertSafety.FrontEndAgreesWithKernel | apps/desktop/src-tauri/src/kernel/event_store.rs:212-280 | on one team with differing attempts the front end's readiness and the kernel's are the same check, up to the parent's unchanged input |
| ExpertSafety.EqualAttemptsDisagree | apps/desktop/src-tauri/src/kernel/event_store.rs:212-280 | with equal attempt numbers they keep different records |
| ExpertSafety.SnapshotBatchBound | apps/desktop/src/expert-team.ts:67-73 | each batch member fits what already runs; starting the whole batch unchecked leaves at most five running |
| ExpertSafety.BatchMembersCanClash | apps/desktop/src/App.tsx:2919-2933 | two members of one batch may both write one key |
| ExpertProgress.Progress | apps/desktop/src/expert-team.ts:31-100 | a ranked, healthy team can be synthesized, or one of its attempts runs or waits half-way, or one may start and a batch is offered |
| ExpertProgress.TeamFinishes | apps/desktop/src/expert-team.ts:31-100 | if every started attempt passes in the end, the remaining work falls by one with each start and each pass, whatever waits in between, and a run that can only wait has made the team ready for synthesis |
| ExpertProgress.CycleNeverRuns | apps/desktop/src/expert-team.ts:45-58 | keys that wait for each other and were never claimed never run or pass in any run, and the team never synthesizes |
| ExpertPlan.CycleWalk.Visit | apps/desktop/src-tauri/src/kernel/expert_team.rs:465-484 | the search finds every key it returns from orderable after its dependencies, or a cycle exists |
| ExpertPlan.RejectDependencyCycles | apps/desktop/src-tauri/src/kernel/expert_team.rs:452-490 | a plan is rejected exactly when its dependencies contain a cycle, and accepted exactly when they can be ordered |
| ExpertPlan.AcceptedPlanIsGood | apps/desktop/src-tauri/src/kernel/expert_team.rs:276-350 | the queued runs of an accepted plan form a team to which the progress results apply |
| SynthesisGate.KernelAcceptsExactly | apps/desktop/src-tauri/src/commands.rs:15603-15672 | with differing attempts the kernel accepts a parent's children exactly when the desktop would queue it and no legacy child is mixed in |
| SynthesisGate.DesktopRequestQueuesExactly | apps/desktop/src-tauri/src/commands.rs:15594-15714 | a request the desktop makes is queued exactly when the team may be synthesized, no legacy child is mixed in and a contracted team's production is reviewed; it is never answered as already queued |
| DurableWorker.OneTickInside | apps/desktop/src/App.tsx:2873-3112 | over all ticks, re-mounts and interleaved awaits the busy flag is set exactly while one tick is between setting and clearing it |
| DurableWorker.SynthesisIsGuarded | apps/desktop/src/App.tsx:2888-2972 | on both paths a parent is queued for synthesis only if in the list used it waits, has children, all are terminal, and its team may be synthesized |
| DurableWorker.StrayQueuesUnderNextTick | apps/desktop/src/App.tsx:2944-2972 | a parent's chain of awaits can outlive its failed tick and queue a synthesis from the old list under the next tick's flag |
| ArtifactFiles.Disk.WriteRevision | apps/desktop/src-tauri/src/artifact_commands.rs:256-293 | the staged write leaves the files and answers as specified, wherever it is stopped |
| ArtifactFiles.RevisedNameIsNew | apps/desktop/src-tauri/src/artifact_commands.rs:118-131 | a revised name is longer than the name it comes from, is no staging name, and splits back |
| ArtifactFiles.RevisionIsAtomic | apps/desktop/src-tauri/src/artifact_commands.rs:256-293 | over any calls, each stopped anywhere, the revised path is absent, as it was before, or holds exactly the intended bytes; after a success nothing changes; no other file is touched |
| ArtifactFiles.RetrySucceedsExactly | apps/desktop/src-tauri/src/artifact_commands.rs:262-293 | an undisturbed retry succeeds exactly when neither name holds something else; a torn temporary file blocks it for good |
| ArtifactSweep.Recovery.HandleEntry | apps/desktop/src-tauri/src/artifact_commands.rs:59-204 | one turn of the sweep's loop does what the record's phase asks, at every point of failure |
| ArtifactSweep.Recovery.PrepareRevision | apps/desktop/src-tauri/src/artifact_commands.rs:104-165 | the revision arm writes only an authorized path, and hands over a binding only after the write |
| ArtifactSweep.Recovery.Sweep | apps/desktop/src-tauri/src/artifact_commands.rs:27-205 | a whole sweep lists at most sixteen records and handles each in turn |
| ArtifactReach.InvStep | apps/desktop/src-tauri/src/artifact_commands.rs:27-205 | every step, whatever fails in it and whatever is written over any file meanwhile, keeps the tables and records in agreement and forgets nothing bound |
| ArtifactDelivery.NoDanglingVersion | apps/desktop/src-tauri/src/commands.rs:13373-13414 | a version has its file, with its hash, exactly when the last write from outside since it was bound left that content, or, with none since, when it was not a report bound before its export |
| ArtifactDelivery.RecordsAreBound | apps/desktop/src-tauri/src/kernel/event_store/artifact.rs:290-307 | every stored record names a bound path; where nothing was ever written it is a report's that has passed no check |
| ArtifactDelivery.StoppedExportFailsDelivery | apps/desktop/src-tauri/src/kernel/capability.rs:876-897 | an export over a delivered report that is stopped half-way costs the delivery |
| ArtifactDelivery.VersionsKeepTheirBytes | apps/desktop/src-tauri/src/artifact_commands.rs:118-165 | through anything that follows a bound version keeps its reference and path, and its file holds what was last written there from outside, or what it held: it keeps its bytes exactly when no such write, or the same bytes again, comes last |
| ArtifactDelivery.OneRevisionAtMost | apps/desktop/src-tauri/src/kernel/event_store/artifact.rs:211-288 | no run ever stores a second revision, although three attempts are allowed |
| ArtifactDelivery.RevisionSucceedsExactly | apps/desktop/src-tauri/src/artifact_commands.rs:104-165 | an undisturbed revision goes through exactly for a never revised artifact whose file has its hash and that can be regenerated and staged |
| ArtifactDelivery.DeliveredWasChecked | apps/desktop/src-tauri/src/kernel/artifacts.rs:305-321 | a completed artifact has current passed structure and visual evidence and stored previews for a content of its hash that is sound, and its file is sound as long as it has that hash |
| ArtifactDelivery.ShowingChangesExactly | apps/desktop/src-tauri/src/kernel/event_store/artifact.rs:472-515 | listing deliveries fails a completed artifact exactly when its file cannot be read or no longer has its hash |
| ArtifactDelivery.InterruptionIsInvisible | apps/desktop/src-tauri/src/artifact_commands.rs:59-204 | stopped anywhere before its row changed, a handling done again ends as if it had not been stopped, unless it tore the temporary file; then the artifact fails |
| ArtifactDelivery.PassAdvancesExactly | apps/desktop/src-tauri/src/artifact_commands.rs:79-166 | an undisturbed pass brings an artifact closer to its end except exactly when its file has its hash and rendering gave nothing to judge |
| ArtifactDelivery.ArtifactSettles | apps/desktop/src-tauri/src/artifact_commands.rs:27-205 | twenty-four such passes deliver any artifact or give it up |
| ArtifactOutcome.DeliveredExactly | apps/desktop/src-tauri/src/artifact_commands.rs:79-166 | with clean renderings an artifact is delivered exactly when its file has its hash and is sound, or its one revision can be made and is sound |
| Conversations.SortOrders | apps/desktop/src/App.tsx:523-532 | sorting permutes, puts pinned first and newer before older, and keeps the order of ties |
| Conversations.ConversationRail.constructor | apps/desktop/src/App.tsx:1206-1214 | whatever is stored, the first rail is not empty and its active conversation is open; a readable list loses nothing |
| Conversations.ConversationRail.StartNewConversation | apps/desktop/src/App.tsx:2132-2152 | the new conversation is active and open, the list is in order, and nothing but an empty conversation is added |
| Conversations.ConversationRail.OpenConversation | apps/desktop/src/App.tsx:2154-2171 | only a present, unarchived conversation is opened |
| Conversations.ConversationRail.TogglePinnedConversation | apps/desktop/src/App.tsx:2195-2206 | exactly the conversations with the id have their pin flipped, the list is in order, the active one stays open and nothing is lost |
| Conversations.ConversationRail.ArchiveConversation | apps/desktop/src/App.tsx:2208-2241 | the handler performs the archive transition |
| Conversations.ConversationRail.SaveRename | apps/desktop/src/App.tsx:2258-2281 | a blank title or no conversation changes nothing |
| Conversations.ActiveIsOpenFromStart | apps/desktop/src/App.tsx:2132-2281 | from any stored list and through any actions the active id names a present, unarchived conversation, even where ids repeat |
| Conversations.ActKeepsAll | apps/desktop/src/App.tsx:2132-2281 | an action keeps every conversation's id and messages and adds only a new empty one, or the spare |
| Conversations.ReadKeepsExactly | apps/desktop/src/App.tsx:733-790 | a read keeps the well-formed entries exactly when the messages of none of them make it throw; otherwise only the spare is left |
| Conversations.OneBadMessageLosesAll | apps/desktop/src/App.tsx:748-757 | one session with a null message first, or a user message without a text, costs the good session beside it, for good after the next store |
| Conversations.SurvivesExactly | apps/desktop/src/App.tsx:1850-1858 | stored and read again a conversation is still there exactly when it is among the first fifty and the messages of none of these make the read throw |
| Conversations.FiftyFirstIsLost | apps/desktop/src/App.tsx:1850-1858 | with fifty conversations one more is enough: whichever is last in the rail is gone after the next restart |
| Conversations.StoredIsNeverLost | apps/desktop/src/App.tsx:733-790 | from a readable list on, through any actions, stores and restarts, no stored conversation is lost while the rail holds at most fifty at each store |
| Conversations.ArchiveOpensBest | apps/desktop/src/App.tsx:2208-2241 | archiving the active conversation opens one that no other open one precedes, or the spare in front |
| ContextWindow.ExcerptIsOneLine | apps/desktop/src/App.tsx:574-577 | an excerpt is one line of at most 220 characters with single blanks |
| ContextWindow.OlderSectionIsBounded | apps/desktop/src/App.tsx:574-599 | the compacted section has one line a turn, whatever the turns held |
| ContextWindow.CompressionStays | apps/desktop/src/App.tsx:534-572 | a compressed conversation stays compressed and its window only moves forward |
| ContextWindow.PromptEndsWithMessage | apps/desktop/src/App.tsx:553-606 | the prompt ends with the user's message unchanged; the start-up section is sent exactly on the first turn or when compressing |
| Receipt.ParseReceiptFields | apps/desktop/src/agentContextReceipt.ts:163-176 | the reducing loop computes the parse |
| Receipt.ParseJoined | apps/desktop/src/agentContextReceipt.ts:163-176 | parsing a;b is parsing a overridden by parsing b |
| Receipt.MalformedExactly | apps/desktop/src/agentContextReceipt.ts:163-176 | a segment adds nothing exactly when it is malformed |
| Receipt.MalformedHasNoEffect | apps/desktop/src/agentContextReceipt.ts:163-176 | a malformed segment anywhere has no effect |
| Receipt.ParsePrinted | apps/desktop/src/agentContextReceipt.ts:163-176 | parsing undoes printing, values may contain = |
| Receipt.FieldValueIsStored | apps/desktop/src/agentContextReceipt.ts:178-180 | reading a parsed field gives the stored text |
| IcoResource.SelectIcoResource | apps/desktop/src-tauri/src/main.rs:213-248 | the slice of the least usable square frame by (distance, smaller, offset, size); nothing exactly when the header is wrong, the directory is cut short, or no frame is usable |
| IcoResource.EntryOrderIsIrrelevant | apps/desktop/src-tauri/src/main.rs:220-245 | reordering or repeating the entries of a full directory changes nothing |
| IcoResource.EncodedFrameIsSelected | apps/desktop/src-tauri/src/main.rs:213-260 | selecting from a written file gives back the data of the preferred frame |

## Left out

- AtMostOnceExactly: the store calls are atomic transitions, as each runs under one lock; the provider's own idempotency key is not modelled, so two calls count as two.
- AtMostOneCallExactly: counts provider calls, as above, and not what a provider's idempotency key would merge.
- UncertainSettlesExactly: a remote state that cannot be read, or a provider that is never there again, is a reconciler that stays unsure; the condition says that a settlement is possible, not that it comes.
- EventStore.ApproveAndRunReview: one uninterrupted caller; interleavings are the step machine's.
- EventStore.Store.CompleteInvocation: the account's capability list and the tool record are taken to stay as they were frozen; health, generation and the review's tool are modelled.
- ReviewItems.ReviewItem.RequestConnectedApproval: freezing the calendar proposal's own tables is a flag, and the digest's hash is a tuple.
- ConnectedActions.Dispatch: parsing the proposal's JSON and storing the review are parameters, an error while the accounts are read is not modelled, and the notes are names instead of sentences.
- ExpertSafety.SnapshotBatchBound: assumes distinct run ids, as the kernel assigns them.
- ExpertSafety.ExclusiveRunExactly: the separate resource claims of single tool calls, which expire by lease, are not modelled; the result is about the contracts' resources.
- ExpertProgress.TeamFinishes: attempts whose lease runs out are not queued again in this result; the safety results allow it.
- ExpertPlan.AcceptedPlanIsGood: a plan's roles, budgets, capabilities, resource limits and texts are not checked here.
- SynthesisGate.DesktopRequestQueuesExactly: whether the production's staged file and its review match is one flag.
- DurableWorker.SynthesisIsGuarded: the guard is about the list that was read; the kernel repeats its own checks when the call arrives.
- ArtifactDelivery.NoDanglingVersion: a bound file may be overwritten by anyone at any time, but is not deleted or renamed by others. Hash collisions are not excluded, and what the hash, the generator and the structure check compute is left to a parameter.
- ArtifactDelivery.DeliveredWasChecked: without collision-freedom, which is a condition of its last clause, a file with the right hash need not be the one that was checked.
- ArtifactSweep.Recovery.Sweep: one sweep at a time, as one thread is started; the order and limit of the listing query are any list of recoverable records; quarantined rows, templates, generation intents and input fingerprints are not modelled; a lock that cannot be taken is a step that does nothing.
- ArtifactReach.InvStep: handling one listed record is one step beside registrations and listings; the row's version guards the update in both.
- ArtifactFiles.RevisionIsAtomic: a rename is atomic, and the file system keeps what was synced.
- Conversations.SortOrders: stored dates that do not parse compare as no number in the source and leave the order to the runtime; dates are integers here.
- Conversations.ActiveIsOpenFromStart: the synchronous handlers only; messages appended across awaits and the mirrored message list are left out, as are start-up profiles and drafts.
- Conversations.SurvivesExactly: the title that a conversation without one of its own is given on reading is not computed, and the browser's storage is taken to accept what it is given.
- ContextWindow.PromptEndsWithMessage: lengths count characters where the source counts UTF-16 units; the start-up section's text is a parameter.
- IcoResource.SelectIcoResource: `usize` is unbounded, as on the 64-bit targets; the 32-bit overflow exit is not modelled.
- Receipt.ParseReceiptFields: names inherited from the object prototype are not modelled on lookup; assigning `__proto__` is.
- Text: ASCII case folding and the white-space sets of the two runtimes; no other Unicode rule.
- Connector providers, the reconciliation registry's timing, leases and retries, the agent-run log, skills, memory, settings, the user interface and the Tauri command wrappers would add only parameters or easy members.
