# Verification of the WhatsApp pipeline

The repository runs a venue's WhatsApp assistant. Inbound webhooks become durable inbox jobs; a worker
turns each job into one committed conversational turn; turns enqueue outbox rows; another worker sends
them; and at any moment a human agent may take a conversation over or an administrator may reset it.
Any number of workers run these paths against the same rows and may die between two transactions.

This project models that pipeline in Dafny and proves what it promises over every run. It also covers
four self-contained algorithms beside it: the Ogg/Opus duration reader with its page checksum, the
resolver of event types named in a message, the merging of extracted entities, and visit booking against
a calendar that can fail.

How to check it: `dafny verify dfyconfig.toml` (Dafny 4.11).

## How it is modelled

* One `session.begin()` block is one atomic step. A provider or agenda call is a step of its own. What a
  worker remembers between its transactions lives only in a `workers` map, and a `Crash` step forgets it.
* Claim tokens and automation epochs are uuid4 values; only their freshness is used, so they are drawn
  from one counter. The context fingerprint is a SHA-256 digest; equal digests stand for equal contexts.
* What has happened so far is kept as a multiset of events, against which the counts are stated.
* Orchestrator turns are a parameter. On the conversation they are bound only by `Ownership.TurnContract`
  (a silent turn leaves the conversation alone; a speaking one neither enters HUMAN_ACTIVE nor assigns an
  agent); towards the agenda they are an arbitrary `Replay.Plan`, chosen anew at every attempt.
* Rows that the source updates in place are also modelled as objects. `OutboxStore`, `InboxStore` and
  `HumanDesk` hold classes whose methods are proved against the row functions that the protocols use.

| file | what it holds |
|---|---|
| `Ownership` | conversation and case rows, the panel's commands, coherence of human ownership |
| `HumanDesk` | the same commands and the reset, as methods on row objects |
| `Delivery`, `Authority` | outbox rows and the eligibility check; who may speak, by the facts that give the right to |
| `DeliveryProtocol`, `DeliverySafety`, `DeliveryRuns` | the outbox protocol; its inductive invariant; theorems over runs |
| `DeliveryAuthority`, `DeliveryPass`, `DeliveryExample` | who is heard over runs; the undisturbed pass of a worker; one instructive run |
| `OutboxStore` | outbox rows as objects; claim batch and reaper as loops, and as runs of the protocol |
| `Inbox`, `Replay`, `InboxProtocol`, `InboxSafety`, `InboxRuns` | jobs and webhook events; the agenda log; the inbox protocol; its invariant; theorems over runs |
| `InboxIntake`, `InboxProgress`, `InboxPass`, `InboxExample` | where messages and events end up; what commits, failures, retries and claims leave; the undisturbed turn; one instructive run |
| `InboxStore` | inbox jobs as objects; claim batch and reaper as loops, and as runs of the protocol |
| `Locks` | the locks on customers, conversations, handoffs, inbox jobs and outbox rows; mutual exclusion and deadlock freedom |
| `Xors`, `Crc`, `OggPages`, `Images`, `OggStream`, `OggWriter`, `OggRecording`, `OggParser` | the page checksum, pages, streams, what writers produce, recordings byte by byte, and the reader's loop |
| `Mentions` | event types named in a text |
| `Entities`, `EntityBatch` | entity validation and the batch |
| `Visits`, `VisitDates` | visit booking, and dates without a year |

## Where code and expectation part

* `app/reservation/notifications.py:100-112` calls `create_handoff` while a human may be active. That leaves
  a conversation which no panel command accepts, no turn changes and no settlement frees
  (`Ownership.ConflictStrands`, `Ownership.StrandedStays`). Over all runs ownership is coherent exactly when no
  such conflict met an active human since the customer's last reset (`DeliveryRuns.CoherentIff`).
* A human's turn can end without a return or a reset: settling the last pending payment evidence ends it when
  the human's case is the payment review, and the bot speaks again (`Ownership.SettlementReleases`).
* A SUPPRESSED document may have been handed to the provider before
  (`DeliveryExample.DocumentSuppressedAfterTwoCalls`). A suppressed row was never admitted and never handed over
  in the whole run exactly when its `send_admission` is absent (`DeliveryRuns.SuppressedIsHonest`).
* A turn that makes fewer agenda calls than its log holds commits all the same: nothing compares the final
  position with the length of the log. `InboxExample.CommitLeavesResultUnused` is a run in which an
  appointment is made and the turn that commits never asked for it. The whole log is consumed exactly when it
  was gathered by the plan that commits (`Replay.CommitConsumesLogIff`).
* A reschedule moves the calendar before the database accepts the slot, and does not move it back. The
  agreement of the two breaks exactly under the guard `Visits.Desk.Strands`; `Visits.StrandedEvent` reaches it.
* A booking settles its row without asking where its event stands. When the pending row is meanwhile
  rescheduled in vain, booking and calendar part exactly under `Visits.Desk.Misleads`; `Visits.MisledBooking`
  reaches it.
* A visit rescheduled before it was ever confirmed has no event recorded, so a later cancellation leaves its
  event in the calendar: `Visits.OrphanedEvent`.
* Which entity families survive a batch can depend on the order of the entities (`EntityBatch.OrderCanMatter`).
  It can exactly when an undisputed guest count n meets both the range of exactly n and another range, or an
  undisputed budget meets both a declined and a not declined budget (`EntityBatch.OrderMattersIff`).
* The comment at `app/channel/inbound.py:463-464` says that administrative routes can own a handoff before its
  conversation. None of the modelled paths does, so the request without waiting never finds the handoff locked by
  one of them (`Locks.HandoffsAreNeverContended`).

## Model

| member | source | states |
|---|---|---|
| Ownership.HumanActiveIffHeld | app/admin/ownership.py:58-70 | in a coherent desk HUMAN_ACTIVE holds exactly when there is one open case, taken by the conversation's own agent, with the bot off |
| Ownership.HeldIsOwned | app/admin/ownership.py:58-70 | on a coherent human-held desk the ownership guard finds its case and never refuses |
| Ownership.CommandKeepsCoherence | app/admin/routes.py:2339-2724 | every accepted take, direct take, reassignment, return and reply keeps coherence; a refused one has no resulting desk |
| Ownership.ResetKeepsCoherence | app/admin/conversation_reset.py:133-153 | a reset conversation is closed, enabled, unassigned and under the given epoch, every open case is resolved and nobody's, and it is coherent whatever it was before |
| Ownership.TurnKeepsCoherence | app/orchestrator/service.py:299-345 | any turn that meets its contract keeps coherence |
| Ownership.TakeIsExclusive | app/admin/routes.py:2349-2361 | after an accepted take every further take is refused |
| Ownership.OnlyOwnerMutates | app/admin/ownership.py:72-80 | return and reply are accepted for the current owner and for nobody else |
| Ownership.TakeThenReturn | app/admin/routes.py:2601-2654 | take and return leave an unassigned, enabled, active bot under an epoch used neither before nor during the take |
| Ownership.DirectTakeNeverRaises | app/admin/routes.py:2390-2542 | a direct take is accepted exactly when its own guards pass; no state transition inside it can fail |
| Ownership.ReassignMovesOwnership | app/admin/routes.py:2557-2574 | accepted exactly from an active human to another active agent; then the new owner and nobody else may reply, in the same period |
| Ownership.HandoffOutcome | app/handoff/service.py:66-119 | creating a handoff fails exactly from RESOLVED and CLOSED; otherwise the conversation waits, with one more case, pending and nobody's, and its period ends unless it was waiting already |
| Ownership.CreateHandoffCoherentIff | app/handoff/service.py:66-119 | creating a handoff keeps coherence exactly when the conversation is not HUMAN_ACTIVE |
| Ownership.CreateHandoffStrandsHumanCase | app/handoff/service.py:66-119 | from HUMAN_ACTIVE it is accepted, and then every panel command is refused |
| Ownership.SettlementKeepsCoherence | app/reservation/notifications.py:211-300 | settling payments keeps coherence, and each transition it makes is allowed |
| Ownership.SettlementOutcome | app/reservation/notifications.py:238-300 | exactly the open payment reviews are resolved; when nothing else was open and the conversation waited for a human or had one, the bot is active, enabled, unassigned, not silent, under a new epoch; otherwise the conversation is unchanged |
| Ownership.SettlementReleases | app/reservation/notifications.py:275-300 | it ends a human's turn exactly when the human's case is a payment review, and then the bot is active, unassigned, under a new epoch |
| Ownership.ConflictStrands | app/reservation/notifications.py:100-112 | the case of a conflict met while a human is active strands the conversation |
| Ownership.StrandedStays | app/reservation/notifications.py:100-112 | a stranded conversation refuses every command, keeps turns silent, and stays stranded under further cases and settlements |
| HumanDesk.ConversationRow.SetState | app/conversation/models.py:96-103 | assigning the state rotates the epoch exactly on entering or leaving a paused state |
| HumanDesk.ConversationRow.SetBot | app/conversation/models.py:104-110 | assigning bot_enabled rotates the epoch exactly on a change |
| HumanDesk.ConversationRow.Move | app/conversation/service.py:146-172 | a transition outside the table fails and changes nothing |
| HumanDesk.ConversationRow.MoveToHuman | app/admin/routes.py:2880-2903 | reaches HUMAN_ACTIVE by way of WAITING_FOR_HUMAN, or fails |
| HumanDesk.TakeWorks | app/admin/routes.py:2349-2361 | what an accepted take leaves behind, in full |
| HumanDesk.TakeDirectWorks | app/admin/routes.py:2400-2500 | what an accepted direct take leaves behind, in full |
| HumanDesk.ReturnWorks | app/admin/routes.py:2612-2637 | what an accepted return leaves behind, in full |
| HumanDesk.CaseDesk.Take | app/admin/routes.py:2339-2386 | the handler's assignments are the take command; refused calls change nothing |
| HumanDesk.CaseDesk.TakeDirect | app/admin/routes.py:2390-2542 | the same for the direct take, with its new case |
| HumanDesk.CaseDesk.Reassign | app/admin/routes.py:2546-2597 | the same for reassignment |
| HumanDesk.CaseDesk.Return | app/admin/routes.py:2601-2654 | the same for return |
| HumanDesk.CaseDesk.Reply | app/admin/routes.py:2658-2724 | accepted exactly for the owner when there is a message to answer; the row it enqueues names the agent |
| HumanDesk.CaseDesk.SoleOpen | app/admin/ownership.py:20-55 | finds the open case exactly when there is one and only one |
| HumanDesk.ResetRows | app/admin/conversation_reset.py:98-156 | refused as a whole while a job is active; otherwise all conversations closed under distinct epochs, all cases resolved, all jobs completed; a dry run changes nothing |
| Delivery.PrefilterIsExact | app/channel/worker.py:112-158 | among due or text-blocked pending documents the query drops exactly those on which the in-lock check would change nothing |
| Delivery.BlockedDocumentIsRetired | app/channel/worker.py:66-104 | a predecessor that ended unsent never strands its document: it is selected on the next pass and retired by it, suppressed unless the text is in review or the document may have been sent |
| Authority.UnprovenDocumentIsReviewed | app/channel/worker.py:66-104 | a row whose preceding text cannot be proven is taken out for review, never sent and never suppressed as settled |
| Authority.EligibleIff | app/channel/delivery.py:151-277 | a row is eligible exactly when one of five authorities stands (an agent's audited text, the bot in its running period, an awaited transfer, a recorded payment decision, a due receipt); it is suppressed when its time is over, and reviewed when it never was proven |
| Authority.HumanActiveHears | app/channel/delivery.py:151-219 | while a human is active exactly audited replies and recorded payment decisions are eligible |
| DeliverySafety.StepInv | app/channel/worker.py:107-599 | the protocol's invariant (fencing, honesty, call bounds, text before document, desks coherent or stranded) is kept by every step, payment notices and new conversations included |
| DeliveryRuns.RunInv | app/channel/worker.py:107-599 | it holds in every world of every run |
| DeliveryRuns.AdmittedIsFenced | app/channel/delivery.py:302-323 | a row in phase ADMITTED is SENDING, under the token of that admission |
| DeliveryRuns.StaleTokenChangesNothing | app/channel/worker.py:431-454 | a transaction under a token that is not the row's changes no row and grants nothing |
| DeliveryRuns.CallsAreBounded | app/channel/worker.py:546-599 | at most max_attempts acquisitions; at most one admission per acquisition of a text and two of a document; provider calls within the same bounds |
| DeliveryRuns.SuppressedIsHonest | app/channel/delivery.py:280-287 | in every run a row's admission is absent exactly when it was never admitted, and then it was never handed to the provider; a suppressed row with an admission was handed over, and its last admission was rejected; a suppressed text has none |
| DeliveryRuns.StoppedAfterAdmission | app/channel/worker.py:557-571 | whatever stops a row after ADMITTED or UNKNOWN, it is never SUPPRESSED |
| DeliveryRuns.AdmissionStep | app/channel/delivery.py:290-323 | a row is admitted only by a decision that finds it eligible at that moment |
| DeliveryRuns.RowPersists | app/channel/delivery.py:280-287 | SENT, FAILED, SUPPRESSED and REVIEW rows never change again |
| DeliveryRuns.TextBeforeDocument | app/channel/worker.py:66-104 | a row with a predecessor gets a token only when that text is SENT, and it stays SENT ever after |
| DeliveryRuns.RevocationIsFinal | app/channel/worker.py:555-567 | once its epoch is rotated away a row is never admitted again, never returns to PENDING, and changes status at most twice |
| DeliveryRuns.ResetRevokes | app/admin/conversation_reset.py:135-153 | a reset revokes all automatic rows and transfer notices of the customer |
| DeliveryRuns.TakeRevokes | app/admin/routes.py:2349-2361 | so does an accepted take for its conversation |
| DeliveryRuns.OwnershipIsCoherent | app/admin/ownership.py:58-99 | in every world of every run, stranded conversations included, HUMAN_ACTIVE holds exactly when a human holds the conversation |
| DeliveryRuns.CoherentIff | app/reservation/notifications.py:100-112 | in every world of every run a desk is coherent exactly when no payment conflict met an active human on it since its customer's last reset |
| DeliveryRuns.HumanStays | app/admin/routes.py:2601-2654 | a human stays active until a return, a reset, a payment conflict on the conversation, or the settlement of the payment review the human holds |
| DeliveryRuns.OnlyHumansSpeak | app/channel/delivery.py:151-238 | until one of these every admission in that conversation is a human reply or a human payment decision |
| DeliveryAuthority.DecisionOutcome | app/channel/delivery.py:290-323 | under the row's own token a check lets through, and an admission admits, exactly what may speak; anything else is suppressed when its time is over and it was not left uncertain, and reviewed otherwise |
| DeliveryAuthority.AdmittedIff | app/channel/delivery.py:290-335 | a row is admitted in a step exactly when the step is an admitting decision under its token and one of the five authorities stands at that moment |
| DeliveryAuthority.AgentIsHeard | app/admin/routes.py:2658-2724 | a message of the active agent, and of nobody else, becomes a pending row; that row may speak in every later world of the run |
| DeliveryAuthority.HumanVoiceIsReal | app/channel/delivery.py:128-169 | a row of human origin is admitted only as a text that the active agent of its conversation wrote in an earlier step |
| DeliveryAuthority.PeriodStands | app/conversation/models.py:96-110 | over a run: while a conversation's epoch is the same so are its silence and its paused state; once it has changed it is one never drawn before |
| DeliveryAuthority.OutputIsHeardInItsPeriod | app/channel/delivery.py:203-219 | stamped automatic output may be sent at any later moment exactly while the epoch it was produced under still stands, unless it was produced in silence |
| DeliveryAuthority.OpenedSpeaks | app/channel/inbound.py:1215-1246 | a conversation opened by intake is active, enabled, nobody's, without cases, under an epoch above all others |
| DeliveryAuthority.NoticeIsHeardWhileAwaited | app/channel/delivery.py:192-219 | a transfer notice may be sent exactly while its case is pending in the period in which the customer was told to wait |
| DeliveryAuthority.DeliveryIsRetried | app/channel/worker.py:546-599 | a failed delivery that may speak is due again after a positive, capped delay (two seconds at first) and not before, or FAILED when permanent or at the limit; one that may not is stopped |
| DeliveryAuthority.ReapableIff | app/channel/worker.py:185-204 | the reaper takes exactly SENDING rows whose claim is older than the timeout, or which never had one and were created before that |
| DeliveryAuthority.SuccessIsSent | app/channel/worker.py:457-543 | a reported success of a row still held makes it SENT; under a stale token nothing happens |
| DeliveryPass.OnePassSends | app/channel/worker.py:293-428 | a selected row that may speak is SENT by a claim and one undisturbed pass, at the cost of one admission and one provider call; no other row is touched |
| DeliveryPass.RejectionIsSurvived | app/channel/worker.py:338-428 | a document whose media is rejected once is sent by the same pass with a second admission and call |
| DeliveryExample.DocumentSuppressedAfterTwoCalls | app/channel/worker.py:338-428 | a reachable world with a SUPPRESSED document that was handed to the provider twice |
| OutboxStore.OutboxRow.StopDelivery | app/channel/delivery.py:280-287 | the assignments give the specified row: REVIEW when the row may have been sent |
| OutboxStore.OutboxRow.Decide | app/channel/delivery.py:290-323 | row and decision are those of the protocol, and the row passes exactly when it is held under the token, no send is under way, and it may speak |
| OutboxStore.OutboxRow.Reject | app/channel/delivery.py:338-349 | a media rejection applies exactly under the current token |
| OutboxStore.OutboxRow.Fail | app/channel/worker.py:546-599 | the failed row is the protocol's: retry, failure, or stop, with an uncertain admission marked |
| OutboxStore.OutboxRow.Reap | app/channel/worker.py:204-226 | a row is failed exactly when it is stale under its lock, and is not stale afterwards |
| OutboxStore.OutboxRow.Settle | app/channel/worker.py:457-543 | success and failure apply exactly under the current token |
| OutboxStore.OutboxTable.DependencyBlocks | app/channel/worker.py:66-104 | blocks exactly when the gate is not clear, and retires the row when the gate says so |
| OutboxStore.OutboxTable.ClaimBatch | app/channel/worker.py:107-173 | the batch claims, skips and retires its rows one after another, under fresh tokens |
| OutboxStore.OutboxTable.RecoverStale | app/channel/worker.py:176-239 | of the candidates that no other transaction holds, exactly those still stale are failed, once each, and counted; all other rows are untouched |
| OutboxStore.SelectionSurvives | app/channel/worker.py:136-158 | claiming one selected row leaves every other selected row selected |
| OutboxStore.BatchRefinesProtocol | app/channel/worker.py:107-173 | the batch transaction is a run of claim steps of the protocol, each enabled in its turn |
| OutboxStore.ReaperRefinesProtocol | app/channel/worker.py:176-239 | the reaper pass is a run of reap steps of the protocol, one for each row it fails, each enabled in its turn |
| Replay.CommitReplaysLog | app/orchestrator/inbox_effects.py:46-64 | a committing attempt makes exactly the calls of a prefix of the log, answered by the logged values |
| Replay.CommitConsumesLogIff | app/orchestrator/inbox_effects.py:46-64 | a commit consumes the whole log exactly when the log was gathered by attempting the plan that commits; then the turn's calls are the logged ones |
| InboxExample.CommitLeavesResultUnused | app/channel/inbox.py:353-383 | for every mutating call and answer: a reachable world with that result in the log, and an enabled turn that commits without asking for it |
| InboxSafety.StepInv | app/channel/inbox.py:87-483 | the protocol's invariant is kept by every step: intake, delivered messages, claim, reap, turn, agenda, cancellation, retry and reset |
| InboxSafety.EveryIdHasItsJob | app/channel/inbox.py:454-472 | comparing the number of jobs with the number of ids suffices: equal numbers mean that every id has its job |
| InboxRuns.OneJobPerExternalId | app/channel/inbound.py:896-943 | in every run each external id has at most one message and at most one job |
| InboxRuns.JobPersists | app/channel/inbox.py:247-323 | a job keeps its message and conversation; COMPLETED rows never change; a job with external work is never acquired again |
| InboxRuns.AppliedIsCommit | app/channel/inbox.py:247-323 | a turn counts as applied exactly when it commits, in the step that makes its job COMPLETED |
| InboxProgress.TurnTakesEffect | app/channel/inbox.py:247-323 | the committing step leaves the conversation in the turn's context and the job COMPLETED, and every other conversation, job, message and event as it was |
| InboxProgress.ContextStep | app/channel/inbox.py:247-339 | a conversation's context changes only by a commit, a change from outside or a reset, and to exactly what these say |
| InboxProgress.TurnStands | app/channel/inbox.py:247-323 | over a run the context a turn left stands until the next commit, outside change or reset of that conversation |
| InboxPass.TurnIsCommitted | app/channel/inbox.py:353-383 | a turn that asks at most eleven things is brought to its commit by one undisturbed acquisition, each question asked once, the log holding all questions and answers in order |
| InboxPass.TwelfthQuestionFails | app/channel/inbox.py:370-383 | a turn that would ask a twelfth thing and go on ends as a failure after twelve questions |
| InboxRuns.AppliedExactlyOnce | app/channel/inbox.py:247-323 | over a run a job is applied at most once and never beside a closing reset; once applied it is COMPLETED for good |
| InboxRuns.CommittedTurnReplaysItsLog | app/channel/inbox.py:256-276 | a committed turn replayed the results of its own acquisition, each from one call, and the fingerprint of the claim held unless a silent state took over without external work |
| InboxRuns.ExternalWorkIsNeverReoffered | app/channel/inbox.py:120-130 | once external work is committed no failure, reap, cancellation or retry makes the job PENDING or acquires it again |
| InboxRuns.MutatingCallsComeFromOneAcquisition | app/channel/inbox.py:326-339 | all mutating calls of a job come from one acquisition, at most twelve; each position of an acquisition is called at most once |
| InboxRuns.AttemptsAreBounded | app/channel/inbox.py:120-130 | a job still offered or processed has failed fewer than max_attempts times since its insertion or last manual retry, none has failed more often, and a FAILED job has used them all |
| Inbox.FailureOutcome | app/channel/inbox.py:120-130 | below the limit a failed job is PENDING after a positive, capped delay (two seconds at first); at the limit it is FAILED |
| InboxProgress.FailureIsRetried | app/channel/inbox.py:120-130 | an expired, raised or overtaken attempt without external work counts once and leaves the job the head of its conversation, offered exactly from the delay on, or FAILED at the limit |
| InboxProgress.UncertainFailure | app/channel/inbox.py:120-130 | after external work any such failure sends the job to REVIEW |
| InboxProgress.ChangedAfterExternal | app/channel/inbox.py:258-261 | a turn that finds its conversation changed after external work goes to REVIEW and changes nothing else |
| InboxProgress.CancelReleases | app/channel/inbox.py:385-397 | a cancelled attempt without external work does not count and is offered again at once |
| InboxProgress.RetryStartsOver | scripts/reprocess_webhook_events.py:157-202 | a manual retry takes exactly FAILED new work without external effects; the job starts over without attempts, and the events that gave up because of it wait again |
| InboxProgress.ClaimEquips | app/channel/inbox.py:206-243 | a claim gives the job to a worker with a new token, an empty log and the fingerprint of now, and expires exactly after the timeout |
| InboxRuns.ConversationsAreFifo | app/channel/inbox.py:184-244 | at most one active job per conversation, and everything before an active or finished job is finished |
| InboxRuns.TurnsAreAppliedInOrder | app/channel/inbox.py:184-244 | the turns of one conversation commit in the order of their jobs |
| InboxRuns.ClaimingIsLocal | app/channel/inbox.py:187-199 | what a conversation offers depends on its own jobs alone |
| InboxRuns.OnlyTheHeadIsOffered | app/channel/inbox.py:187-225 | unfinished work has exactly one head, offered when pending and due; no other job of the conversation ever is |
| InboxRuns.ReviewHeadBlocks | app/channel/inbox.py:187-199 | a head in REVIEW stays there, with nothing behind it processed, until its customer is reset |
| InboxRuns.ProcessedMeansDone | app/channel/inbox.py:454-483 | PROCESSED is terminal, and from then on every external id of the payload has a COMPLETED job |
| InboxRuns.IngestionIsBounded | app/channel/inbox.py:402-451 | ingest attempts never exceed the maximum, and reaching it makes the event EXHAUSTED |
| InboxRuns.ExpansionIsAllOrNothing | app/channel/inbound.py:184-213 | expanding a payload adds nothing, or stores every message that staff interception lets through, with its job |
| InboxIntake.MessageLands | app/channel/inbound.py:897-943 | a new message is stored once, in the customer's newest conversation that takes messages, or in a new one exactly when there is none; its job is new, pending, due and last |
| InboxIntake.RedeliveryOutcome | app/channel/inbound.py:897-920 | a known message is refused exactly when it was not received from this customer; otherwise nothing is stored twice, and a message without a job gets one for review |
| InboxIntake.EchoIsRefused | app/channel/inbound.py:900-902 | a message the outbox sent is refused when it comes back as incoming |
| InboxIntake.ExpansionOutcome | app/channel/inbox.py:402-440 | an expansion that fails counts and is tried again exactly from a positive, capped delay on, or is EXHAUSTED at the limit; legacy events go to REVIEW; events not waiting are left alone |
| InboxIntake.RefreshOutcome | app/channel/inbox.py:454-483 | a PREPARED event goes to REVIEW for a message without a job, else to PROCESSED when all are COMPLETED, REVIEW when one is in REVIEW, EXHAUSTED when one has FAILED, and waits otherwise |
| InboxIntake.AdoptionStartsIntake | scripts/reprocess_webhook_events.py:136-154 | adoption takes exactly unexpanded legacy events none of whose messages is stored, and they are expanded from then on |
| InboxStore.JobRow.Retire | app/channel/inbox.py:112-117 | the assignments give the retired job |
| InboxStore.JobRow.FailLocked | app/channel/inbox.py:120-130 | REVIEW after external work, FAILED at the limit, PENDING with a delay within the cap otherwise, and one attempt more |
| InboxStore.JobRow.Cancel | app/channel/inbox.py:385-397 | cancellation releases the job, or sends it to REVIEW after external work |
| InboxStore.JobTable.EarliestUnfinished | app/channel/inbox.py:213-219 | finds the unfinished job with the least id, if there is one |
| InboxStore.JobTable.ClaimHead | app/channel/inbox.py:206-243 | claims the head exactly when it is offered |
| InboxStore.JobTable.ClaimBatch | app/channel/inbox.py:184-244 | each claim took the head of a candidate that no other transaction holds, under its own token; no conversation is taken from twice, order is kept, and none of those candidates is left with an offered job |
| InboxStore.JobTable.RecoverStale | app/channel/inbox.py:153-181 | of the candidates that no other transaction holds, exactly those whose claim has expired are failed, and counted; all other jobs are untouched |
| InboxStore.ClaimStep | app/channel/inbox.py:206-243 | one more claim keeps all that, and the conversations already served stay served |
| InboxStore.ClaimBatchRefinesProtocol | app/channel/inbox.py:184-244 | whatever a claim batch may have done is a run of claim steps of the protocol, one for each claim, each enabled in its turn |
| InboxStore.ReaperRefinesProtocol | app/channel/inbox.py:153-181 | the reaper pass is a run of reap steps of the protocol, one for each claim it fails |
| Locks.PathsAreOrdered | app/channel/inbox.py:66-91 | in every path each blocking request but for handoffs is above all earlier ones in the order (customer, table, id) or repeats one, and whoever asks for a handoff has waited for its conversation before |
| Locks.StepInv | app/channel/delivery.py:91-125 | rows have one holder; transactions hold only what they asked for, and all they waited for |
| Locks.HandoffsAreNeverContended | app/reservation/notifications.py:240-250 | in every reachable state a request for a handoff, waiting or not, finds it free: nobody waits for a handoff, and the payment media's NOWAIT never fails |
| Locks.OneAtATime | app/channel/delivery.py:91-125 | turns, deliveries, panel commands, resets and payment notices of one conversation exclude one another: no two of them are past their locks in any reachable state |
| Locks.NotifyFollowsOrderIff | app/reservation/notifications.py:72-90 | the payment notice would follow the order with handoffs in it exactly when the cases of later conversations are newer |
| Locks.WaitsClimb | app/admin/conversation_reset.py:55-98 | along a chain of waiting transactions the wanted rows strictly ascend |
| Locks.NoDeadlock | app/admin/ownership.py:28-49 | in every reachable state of all these paths, the payment notice included, every nonempty set of transactions has a member that waits for none of them |
| Locks.MediaHandoffIsOutOfOrder | app/channel/inbound.py:456-475 | the handoff of the payment media path is asked for out of order, after the inbox job: with waiting it would break the order |
| Crc.OggCrc | app/channel/audio_duration.py:11-17 | the byte and bit loops compute the fold of the shift register |
| Crc.ChecksumOfOne | app/channel/audio_duration.py:16 | the checksum of the byte 1 is the polynomial 0x04C11DB7 |
| Crc.BitStepLinear | app/channel/audio_duration.py:16 | a register shift is linear |
| Crc.BitStepZero | app/channel/audio_duration.py:16 | and injective at zero, because the polynomial is odd |
| Crc.ChecksumLinear | app/channel/audio_duration.py:11-17 | the checksum of a difference is the difference of the checksums |
| Crc.BurstDetected | app/channel/audio_duration.py:11-17 | inputs of one length that differ, but only within four consecutive bytes, have different checksums |
| OggPages.ReadsWhatIsWritten | app/channel/audio_duration.py:34-51 | a written page is read back, whatever follows it |
| OggPages.WrittenIsWhatIsRead | app/channel/audio_duration.py:34-51 | an accepted page is exactly the image that writing it gives, checksum included |
| OggStream.PagesIff | app/channel/audio_duration.py:32-83 | bytes are read as a list of pages exactly when they are the concatenation of the pages' images |
| OggParser.ReadPage | app/channel/audio_duration.py:33-51 | returns the page at the head of the data exactly when there is one |
| OggParser.ReadSegments | app/channel/audio_duration.py:61-77 | accepts a page's segments exactly when the packets may still belong to a complete stream, and tracks them |
| OggParser.ReadPackets | app/channel/audio_duration.py:52-82 | accepts a page exactly when it fits the pages before it |
| OggParser.MisfitRejected | app/channel/audio_duration.py:52-82 | a page that does not fit condemns the whole input, whatever follows |
| OggParser.OpusDuration | app/channel/audio_duration.py:20-88 | returns a number of seconds exactly when the bytes are a recording that plays for so long, and an error exactly otherwise |
| OggWriter.AssembleIff | app/channel/audio_duration.py:61-77 | pages reassemble to given packets exactly when lacing and bodies are those of the packets |
| OggWriter.WrittenIsAccepted | app/channel/audio_duration.py:20-88 | every stream a writer makes within the limits (RFC 3533, sections 5 and 6; RFC 7845, section 4.3) is accepted, with (final granule - pre-skip) / 48000 |
| OggWriter.AcceptedIsWritten | app/channel/audio_duration.py:20-88 | whatever is accepted was written so, by pages and packets that the bytes determine, and its duration is not negative |
| OggRecording.RecordingIsAccepted | app/channel/audio_duration.py:32-88 | a recording laid out byte by byte (RFC 3533, section 6; RFC 7845, section 5) with pre-skip p and final granule g is accepted with (g - p) / 48000 seconds |
| OggRecording.AcceptedIsRecording | app/channel/audio_duration.py:32-88 | accepted bytes are such a recording, and determine its pages, header fields, comments, audio and final granule |
| OggRecording.PlaysForIff | app/channel/audio_duration.py:20-88 | acceptance with a duration is exactly being a recording that plays for so long |
| OggWriter.CorruptPage | app/channel/audio_duration.py:48-51 | a burst in a page, outside checksum, segment count and lacing, makes the page unreadable |
| OggWriter.CorruptionIsRejected | app/channel/audio_duration.py:48-51 | such a burst in any page of an input makes the input rejected |
| Mentions.OccurrenceFound | app/conversation/catalog_event_type.py:99-108 | every standing occurrence of a label overlaps a reported match that starts no later |
| Mentions.KeptAreTheMaximal | app/conversation/catalog_event_type.py:109-119 | no kept mention lies strictly inside a raw one, and every raw one lies inside a kept one |
| Mentions.KeptEmptyIff | app/conversation/catalog_event_type.py:95-119 | nothing is kept exactly when no label in force stands in the text |
| Mentions.AnsweringAgreesWithLabel | app/conversation/catalog_event_type.py:73-130 | a message that is exactly a label resolves to that label's type in answering mode |
| Mentions.ResolvedIff | app/conversation/catalog_event_type.py:122-130 | a message resolves exactly when what is kept is of one kind, to the longest mention, and of the longest to the earliest |
| Mentions.FixedPriceIsLongest | app/conversation/catalog_event_type.py:142-148 | a fixed-price match is the longest kept proposal, and of the longest the earliest |
| Mentions.FixedPriceIff | app/conversation/catalog_event_type.py:142-148 | a fixed-price match exists exactly when a proposal is kept and nothing else but romantic dinners |
| Mentions.ProposalIsFixedPrice | app/conversation/catalog_event_type.py:142-148 | whenever the general resolver says PROPOSAL the fixed-price resolver finds one |
| Entities.IntegerTextIff | app/conversation/entity_validation.py:115-135 | accepted text is an optional plus and digits denoting 1 to 2^31 - 1; leading zeros and the ten-digit guard exclude no such number |
| Entities.IntegerNumberIff | app/conversation/entity_validation.py:115-135 | of numbers exactly the whole ones from 1 to 2^31 - 1 are accepted |
| Entities.RangeIff | app/conversation/entity_validation.py:347-353 | a range is two accepted integers in order, under the names min and max and nothing else |
| Entities.ServicesIff | app/conversation/entity_validation.py:363-387 | a list is accepted exactly when every item is a text or a request and one asks for a service; the codes are exactly those asked for, once each, earlier items first |
| Entities.AcceptedIff | app/conversation/entity_validation.py:325-395 | an entity is accepted exactly when representable, not INVALID, of valid value, and confirmed unless it is a full name |
| Entities.CanonicalRoundTrip | app/conversation/entity_validation.py:44-59 | revalidating the canonical form of a count, range or service list gives the same value |
| EntityBatch.ValidateEntities | app/conversation/entity_validation.py:404-435 | a family is accepted, once, with its first value and in order of appearance, exactly when it survives; the rejections, in order, are those of the entities, the conflicting families and the cross-family contradictions |
| EntityBatch.SurvivesIff | app/conversation/entity_validation.py:404-435 | a family survives exactly when it is decoded and undisputed, and no stated range differs from its count, no count stands beside it as a range, no declined budget beside a budget |
| EntityBatch.FirstIsEarliest | app/conversation/entity_validation.py:416-423 | the value that counts is that of the earliest representation that validates |
| EntityBatch.FoldIn | app/conversation/entity_validation.py:408-423 | after each entity: the first value per family, and exactly the contested families blocked |
| EntityBatch.NoContradiction | app/conversation/entity_validation.py:424-434 | never a guest count beside a range, never a budget beside a declined one |
| EntityBatch.AcceptedIsUnanimous | app/conversation/entity_validation.py:408-423 | every representation of an accepted family validated and means the same |
| EntityBatch.OrderCanMatter | app/conversation/entity_validation.py:416-434 | two orders of the same entities with different surviving families |
| EntityBatch.OrderIsIrrelevantWithoutContradiction | app/conversation/entity_validation.py:404-435 | two batches of the same entities, whatever their order and repetitions, accept the same families unless one of those two contradictions is among them |
| EntityBatch.OrderMattersIff | app/conversation/entity_validation.py:404-435 | some order of a batch accepts other families exactly when an undisputed guest count n meets both the range n to n and another range, or an undisputed budget meets both a declined and a not declined budget |
| Visits.FakeCalendar.CreateEvent | app/calendar/adapter.py:166-192 | result and events for every combination of injected failures |
| Visits.FakeCalendar.UpdateEvent | app/calendar/adapter.py:194-220 | the same for updates |
| Visits.FakeCalendar.DeleteEvent | app/calendar/adapter.py:222-229 | result and events for deletions: Unavailable exactly when they are made to fail, otherwise NotFound exactly for an unknown event |
| Visits.VisitEventIsRight | app/appointment/models.py:30-32 | for the allowed start times the computed end is 45 minutes later on the same day |
| Visits.VisitTimes | app/appointment/models.py:27-32 | visits start at eight, nine, ten or eleven and last 45 minutes |
| Visits.Desk.InsertPending | app/appointment/service.py:836-863 | an appointment is inserted exactly when its slot is free and its row admissible; no slot is ever booked twice |
| Visits.Desk.CreateOrReconcile | app/appointment/service.py:865-887 | succeeds exactly when the event exists already or the first call found creation working; a second call that succeeds still raises, and leaves the event |
| Visits.Desk.Confirm | app/appointment/service.py:523-616 | confirmed means in the calendar at that slot for 45 minutes, unless the booking is misled; a calendar failure leaves the appointment flagged; database and calendar agree exactly unless a rival's vain move of the pending row misleads the booking; all other visits are untouched |
| Visits.Desk.Cancel | app/appointment/service.py:770-823 | a cancelled visit's recorded event is gone, an unrecorded one stays; a calendar failure only flags it; no other visit or event changes |
| Visits.Desk.Reschedule | app/appointment/service.py:678-749 | moved exactly when calendar and database both accept, with the whole new state; database and calendar keep agreeing exactly unless the calendar accepts the move and the slot is then refused |
| Visits.StrandedDisagrees | app/appointment/service.py:704-739 | in that case the event stands at a slot that is not the appointment's |
| Visits.OrphanedEvent | app/appointment/service.py:770-823 | from an empty desk, for any two slots: a failed booking, a reschedule and a cancellation, all accepted, leave the cancelled visit's event in the calendar |
| Visits.StrandedEvent | app/appointment/service.py:704-739 | from an empty desk, for any two slots: a confirmed, unflagged visit whose event stands at the other slot |
| Visits.MisledBooking | app/appointment/service.py:580-616 | the same for a booking whose pending row is rescheduled in vain before it is settled |
| VisitDates.LeapWithinEight | app/appointment/service.py:382-386 | of any eight consecutive years one is a leap year, also across a century |
| VisitDates.WindowSuffices | app/appointment/service.py:382-386 | whatever day and month recur at all recur within eight years, up to year 9999 |
| VisitDates.ValidIff | app/appointment/service.py:376-394 | the dates are those of the Gregorian calendar up to year 9999 |
| VisitDates.NotBeforeIff | app/appointment/service.py:376-394 | one date is not before another exactly when its day number, at 31 days a month and 372 a year, is not less |
| VisitDates.FutureDate | app/appointment/service.py:376-394 | the earliest date of that day and month that is not past, or none exactly when there is none up to year 9999 |
| VisitDates.SevenYearsAreNotEnough | app/appointment/service.py:382-386 | a day from which seven years would miss 29 February |

## Left out

- Orchestrator: what a turn writes besides the conversation's context is not modelled; turns are bound by a contract.
- HTTP, credentials, media download, transcription and classification: a call succeeds, fails, or fails after taking effect.
- Webhook signature checks, provider status records, staff notifications and their tables: staff interception is a choice of the environment.
- Reservations and payment evidence: facts that eligibility reads and that may change at any step; which conversations a settlement covers is a choice of the environment.
- Reads inside one transaction of rows it has not locked (the preceding text of a claim batch) are taken as part of the same atomic step.
- Locks outside customers, conversations, handoffs, inbox jobs and outbox rows (webhook events, reservations, agents), foreign-key share locks and waits on unique indexes.
- Message text, summaries, audit texts and log output.
- SHA-256 collisions and repeated uuid4 values.
- The turn loop of a claimed job (`app/channel/inbox.py:355-399`) and the two send procedures (`app/channel/worker.py:293-428`) are modelled as the program counters of the protocols' workers, not as loops: other workers act between any two of their transactions.
- Job ids are taken to ascend within one customer, whose intake is serialized by the customer lock.
- Authority.EligibleIff: the result is stated, not the reason code that accompanies it; the same holds for the reasons of stopped rows and failed jobs.
- DeliveryRuns.TextBeforeDocument: deletion of outbox rows does not occur in the repository and is not modelled.
- OggParser.OpusDuration: which of the error codes is raised is stated for INVALID_SIZE only; for the others, that there is an error exactly on unacceptable input. The duration is a real number where Python returns a float.
- Mentions.AnsweringAgreesWithLabel: the label table is a parameter; used of it is only that no label is empty and that one label means one type. Unicode normalization and the word class are parameters too.
- Entities.CanonicalRoundTrip: the service catalogue is a parameter with the contract that codes are upper-case words and that only codes are matched.
- EntityBatch.ValidateEntities: decoding of envelopes is not modelled.
- Names, event types, budgets, event dates and special requests are validated by a parameter.
- Visits.Desk.Confirm: availability is a parameter that offers only the four start times. Between insertion and settlement one other operation may run on the new row: a cancellation, or a reschedule before or after the booking's calendar call.
- Visits.Desk.Reschedule: one reschedule runs at a time, so the lost slot shows as a slot that another appointment holds when the database is asked.
- Reminders, attendee dialogues and parsing of dates from text.
- app/event/validation.py is not part of this model.
