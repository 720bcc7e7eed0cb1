# A verified model of durable reminders

The personal assistant creates reminders and delivers them as notifications. It promises that a reminder is created
once or not at all, that a notification is not sent twice by mistake, and that a worker may die anywhere in between.
This project models the code that carries these promises, and three self-contained algorithms of its tooling, and
proves the promises for every run, state or input.

| part | files | what is modelled |
|---|---|---|
| delivery protocol | `Delivery`, `DispatchProtocol`, `DispatchSafety`, `DispatchHistory`, `DispatchTheorems`, `DispatchLeases`, `RowLaws` | messages, the validity rule, guarded transitions; any number of workers, claims, confirmations, sends, answers, sweeps, operators and crashes as a step system with a log of what provider and operator saw; clocks are arbitrary values chosen at each step |
| the in-memory outbox and its dispatcher | `Orders`, `OutboxSpec`, `OutboxRuns`, `OutboxLaws`, `Outbox`, `DispatcherSteps`, `Dispatcher` | classes with dictionaries, indexes, scans and sorted candidates; every transaction of the dispatcher is proved to be a step of the protocol, and the provider's requests to be the sends of its log |
| the SQL outbox | `SqlOutbox`, `PostgresOutbox` | a table of guarding columns and JSON payloads, its CHECK constraint, the statements of each method |
| reminder creation | `WorkflowStates`, `ReminderCreation`, `CreationLaws`, `ReminderTheorems`, `ReminderPromises`, `ReminderReports`, `ReminderRun` | the workflow state store, approved and unapproved runs, the pre-read as a step of its own, commits that are applied, refused or of unknown outcome, and what each run reports |
| the two together | `Lifecycle`, `EndToEnd`, `NoticeTimes` | creation and delivery side by side: every created reminder enters the delivery protocol, whose assumption about new messages becomes a theorem, and the promises of delivery hold from creation on; nothing is sent before its notice time |
| transactions and locks | `Transactions`, `LockOrder` | snapshots of five stores under ordered reentrant locks, and threads that take them |
| tooling and documents | `Graphs`, `Cycles`, `Sites`, `SplitPlan`, `Text`, `Words`, `Citations` | import cycles and the independent detector, mutation sites and the greedy split, summaries with line citations |

Times are microseconds, with Python's last datetime as an explicit limit. Fingerprints are modelled by the data they
are computed from, and derived ids by the identity they are derived from, so both are injective. The provider, the
approval check, the language model, generated tokens and ids, and every clock are parameters or step arguments.
The step systems take one transaction as one step, which is what the locks, the row locks and the serializable
transactions of the original provide; a claim of several messages is a sequence of steps that claim one each.

Two findings where the code and a promise part ways, each with its exact condition:

- The SQL outbox adds the lease to the time before it looks for rows, so a claim whose lease ends after the last
  datetime raises even when nothing is due; the in-memory one raises only if there is something to claim
  (`OutboxRuns.RepliesAgreeExactly`, with an input in `OutboxRuns.EmptyClaimDiffers`).
- A resumed reminder run uses the waiting draft only if its pre-read, outside the transaction, had seen it waiting, or
  had seen nothing and extracted the same reminder itself (`ReminderPromises.DraftUsedExactly`). With a grant given
  before approval was required, a run exists that stores a draft and loses it (`ReminderPromises.EarlyGrantLosesDraft`);
  without such grants no run does (`ReminderPromises.DraftIsNeverLost`).

## Model

| member | source | states |
|---|---|---|
| DispatchTheorems.NoKeySentTwice | src/personal_assistant/application/use_cases/reminder_notifications_dispatch.py:75-125 | over every interleaving of workers, crashes, lease expiries, sweeps and operators, with any clocks, no dispatch key of a tenant reaches the provider twice |
| DispatchTheorems.ResendIsLicensed | src/personal_assistant/application/use_cases/reminder_notifications_dispatch.py:317-367 | a later attempt is sent only after the earlier one was answered known-transient or an operator chose retry for it, and that happened before the later send |
| DispatchTheorems.StoredMessagesAreValid | src/personal_assistant/application/dto/events.py:102-187 | every stored message satisfies the per-status metadata rule in every reachable state |
| DispatchTheorems.ValidityNeverRefuses | src/personal_assistant/adapters/persistence/in_memory.py:669-673 | the validity rule never ends a dispatcher or operator transaction |
| DispatchTheorems.ClaimsFailOnlyUnattempted | src/personal_assistant/application/use_cases/reminder_notifications_dispatch.py:215-242 | failing a claim before I/O, in either place, only meets messages that were never attempted |
| DispatchTheorems.RecordsIffTokenIsLive | src/personal_assistant/application/use_cases/reminder_notifications_dispatch.py:289-367 | a worker's result is recorded exactly when its claim token is still on the row |
| DispatchTheorems.ConfirmsIffTokenIsLive | src/personal_assistant/application/use_cases/reminder_notifications_dispatch.py:263-273 | a worker reaches the provider exactly when its token is still on the row at confirmation |
| DispatchTheorems.DeadTokenIsRefusedForever | src/personal_assistant/adapters/persistence/in_memory.py:632-678 | a token that left its row never returns, and every transition under it is refused and leaves the stores alone |
| DispatchTheorems.FinalMessagesNeverChange | src/personal_assistant/adapters/persistence/in_memory.py:661-668 | published and failed messages never change in any field |
| DispatchTheorems.AttemptsAreBounded | src/personal_assistant/application/use_cases/reminder_notifications_dispatch.py:333-350 | attempts never pass 4, and queued messages have at most 3 |
| DispatchTheorems.DelayIsInTable | src/personal_assistant/application/use_cases/reminder_notifications_dispatch.py:340-348 | whenever a worker reschedules, the delay table is read inside its bounds, without wrap-around |
| DispatchTheorems.FinalStatusIsEarned | src/personal_assistant/application/use_cases/reminder_notifications_dispatch.py:317-367 | published only after a delivered answer for the last attempt or an operator's word; failed after a send only after a permanent answer, or a transient one on the fourth attempt |
| DispatchTheorems.LifeFalls | src/personal_assistant/application/use_cases/reminder_notifications_dispatch.py:183-201 | attempts never decrease, and a measure on attempts and status falls at every step that moves a message, reclaims and releases excepted |
| DispatchTheorems.LifeIsBounded | src/personal_assistant/application/use_cases/reminder_notifications_helpers.py:24-26 | at most 13 moves other than claims and releases in the whole life of a message, operator retries included |
| DispatchTheorems.BackOffIsKept | src/personal_assistant/application/use_cases/reminder_notifications_helpers.py:139-151 | after attempt n failed transiently at t, every claim for attempt n+1 carries a time of at least t plus 30, 120 or 300 seconds, for n of 1, 2 or 3, and of at least t plus the provider's delay |
| DispatchTheorems.MirrorAgrees | src/personal_assistant/application/use_cases/reminder_notifications_dispatch.py:370-408 | after every committed transaction a reminder shows its message's status, attempts, times and error; `sent` means not pending; the next attempt agrees once the first mirror ran |
| DispatchLeases.LeaseIsKept | src/personal_assistant/adapters/persistence/in_memory.py:304-338 | after a claim at t for L seconds, and until its worker gives it up by releasing, failing or recording, no sweep and no other claim of the row is possible at a time before t + L seconds, whatever is done to other rows and whatever clocks others go by; from that time on the sweep is possible exactly if it was being sent, the claim exactly if not |
| DispatchLeases.TransientIsRetried | src/personal_assistant/application/use_cases/reminder_notifications_dispatch.py:333-350 | after a transient answer to attempt n of at most 3 at t, the row waits for a time not before t plus 30, 120 or 300 seconds and t plus the provider's delay, not after the later of the two, and never past the last datetime; as long as the row stays as it is, a claim is possible exactly from that time on |
| DispatchLeases.AnswerIsRecorded | src/personal_assistant/application/use_cases/reminder_notifications_dispatch.py:289-367 | what a worker with a live token stores for an answer, field by field |
| NoticeTimes.NothingIsSentEarly | src/personal_assistant/application/use_cases/reminders.py:441-470 | from creation on and for any clocks: nothing is sent for a reminder before a worker has claimed it for its first attempt, and every claim for a first attempt carries a time at or after the notice time of the creation, asked for or default |
| DispatchSafety.KeepsInv | src/personal_assistant/application/use_cases/reminder_notifications_dispatch.py:203-368 | every step keeps rows valid, ids apart, workers' copies in agreement with rows whose token they hold, and live tokens unique |
| DispatchHistory.StepMoves | src/personal_assistant/adapters/persistence/in_memory.py:304-428 | the only moves a committed step can make on the one message it touches |
| DispatchHistory.KeepsBackOff | src/personal_assistant/adapters/persistence/in_memory.py:322-326 | a pending back-off is honoured by every stored row and claim of a run |
| DispatchHistory.KeepsMirror | src/personal_assistant/adapters/persistence/postgres.py:2054-2137 | every step keeps every mirrored reminder equal to its message |
| Delivery.ValidityRefusesExactly | src/personal_assistant/application/dto/events.py:102-187 | on a valid message the rule refuses a transition that passed its guards exactly when it would fail a claim on an attempted message |
| Delivery.UncheckedCopiesAreValid | src/personal_assistant/adapters/persistence/in_memory.py:327-335 | claiming without running the rule, sweeping and reconciling all keep it |
| Delivery.AttemptKeyInjective | src/personal_assistant/application/use_cases/reminder_notifications_helpers.py:71-72 | a dispatch key determines message id and attempt |
| Delivery.BackOff | src/personal_assistant/application/use_cases/reminder_notifications_helpers.py:139-147 | the delay is at least the default and at least what the provider asked for |
| Dispatcher.DispatchDueReminders.Dispatch | src/personal_assistant/application/use_cases/reminder_notifications_dispatch.py:61-125 | run over the class-based stores from any reachable state, a whole dispatch, also one that an exception ends, is a run of the protocol made of sweeps of the first expired rows, claims of the first due rows under this owner and time, and steps of the tasks these claims handed out; the provider gets exactly the requests of the log, each with the channel, the recipient, the text and the next attempt's key of a claimed, approved message; no message is claimed twice, each dispatched one has one fate, which is its stored status, and the outcome lists are those fates split up |
| Dispatcher.CollectSplits | src/personal_assistant/application/use_cases/reminder_notifications_dispatch.py:70-125 | every claimed message is in exactly one list of the outcome: prefailed ones are skipped first, each other is skipped or uncertain exactly if that is its fate and else published under the id its fate names; each stands in its list at the place that the fates before it give, and nothing else is listed |
| Dispatcher.DispatchDueReminders.DispatchAll | src/personal_assistant/application/use_cases/reminder_notifications_dispatch.py:75-117 | the loop steps the held tasks only, and gives every message its fate, in order |
| Dispatcher.DispatchDueReminders.DispatchOne | src/personal_assistant/application/use_cases/reminder_notifications_dispatch.py:75-117 | one claimed message: every step is one of its own task; the provider gets at most one request, with the message's channel, recipient, text and next attempt's key, and exactly one if it is approved and can be sent and nothing raises; the stored row, field by field, is the one released for half a minute, failed as malformed, or confirmed and recorded with the provider's answer; what is reported is its status, published under the id that the answer names |
| Dispatcher.DispatchDueReminders.ClaimMessages | src/personal_assistant/application/use_cases/reminder_notifications_dispatch.py:203-244 | the claim transaction equals claiming the first due rows, oldest first, one by one under this owner and time; they are dealt out to the dispatchable and the prefailed ones, each dispatchable one in the hands of its own new task; it raises only for a lease past the last datetime, and then changes nothing |
| Dispatcher.DispatchDueReminders.SweepExpired | src/personal_assistant/application/use_cases/reminder_notifications_dispatch.py:246-261 | the sweep transaction equals sweeping the first rows, oldest first, that are being sent and whose `claimed_until` is not after the time of the sweep, one by one, and reports their ids; every other row, a send within its lease above all, is as it was |
| Dispatcher.DispatchDueReminders.ConfirmSending | src/personal_assistant/application/use_cases/reminder_notifications_dispatch.py:263-273 | succeeds exactly when the protocol confirms the task, with the same stores, and counts the attempt |
| Dispatcher.DispatchDueReminders.ReleaseBeforeIo | src/personal_assistant/application/use_cases/reminder_notifications_dispatch.py:275-287 | the protocol's release, for 30 seconds after the claim, rolled back when the mirror or the date arithmetic raises |
| Dispatcher.DispatchDueReminders.RecordAnswer | src/personal_assistant/application/use_cases/reminder_notifications_dispatch.py:289-367 | the branches on raised, mismatched and answered results leave the stores of the protocol's record step: published at that time; failed or uncertain with the error that the provider's code stands for; or pending again for the time at which the table's and the provider's delay are both over |
| Dispatcher.DispatchDueReminders.ResolveUncertain | src/personal_assistant/application/use_cases/reminder_notifications_dispatch.py:152-201 | reconciliation by message id succeeds exactly for an uncertain reminder, a retry only below four attempts, with the decided row stored and the protocol's refusals and stores |
| OutboxSpec.AddKeepsStore | src/personal_assistant/adapters/persistence/in_memory.py:210-251 | adding keeps both id indexes exact inverses of the rows; a rejected add changes nothing and a stored row is new under both ids |
| OutboxSpec.ClaimsKeepStore | src/personal_assistant/adapters/persistence/in_memory.py:304-338 | a claim keeps the indexes exact and every row valid although it never runs the rule |
| OutboxSpec.FirstOfUnique | src/personal_assistant/adapters/persistence/in_memory.py:305-309 | which due rows are taken, and in which order, is determined by creation time, id and limit |
| OutboxLaws.ClaimLaw | src/personal_assistant/adapters/persistence/in_memory.py:304-338 | a claim, in the fields of the rows: it leases the first `limit` rows of the tenant and type, by creation time and then id, that are pending, or claimed with a lease that is over, and whose back-off is over; each until the time plus the lease; every other row is as it was |
| OutboxLaws.SweepLaw | src/personal_assistant/adapters/persistence/in_memory.py:383-428 | a sweep, in the fields of the rows: it marks uncertain the first `limit` sends whose lease is over, and changes nothing else |
| OutboxLaws.TransitionLaw | src/personal_assistant/adapters/persistence/in_memory.py:632-678 | a transition under a token, in the fields of the row: who is refused and how, and what each transition leaves |
| OutboxLaws.DecisionLaw | src/personal_assistant/adapters/persistence/in_memory.py:577-607 | the same for an operator's decision |
| RowLaws.RunningSendIsLeftAlone | src/personal_assistant/adapters/persistence/in_memory.py:404-412 | whatever a sweep is asked for, a row that is being sent and whose lease ends later is as it was |
| RowLaws.RecordedChangeShows | src/personal_assistant/application/use_cases/reminder_notifications_helpers.py:100-151 | the recorded change stores the error for its provider code, and the next attempt at the time when both delays are over |
| Orders.StringOrderIsLexical | src/personal_assistant/adapters/persistence/in_memory.py:305-309 | the order of ids is that of their first difference, and a prefix comes first |
| OutboxRuns.AddedByIndex | src/personal_assistant/adapters/persistence/in_memory.py:228-247 | checking the two indexes decides exactly what scanning all rows for the two ids would decide |
| OutboxRuns.IndexFindsExactly | src/personal_assistant/adapters/persistence/in_memory.py:650-653 | the index knows an id exactly when a row carries it, and names that one row |
| OutboxRuns.RepliesAgreeExactly | src/personal_assistant/adapters/persistence/postgres.py:692-704 | from the same contents both outboxes store the same, and reply alike if and only if the operation is not a claim past the last datetime with nothing due |
| OutboxRuns.EmptyClaimDiffers | src/personal_assistant/adapters/persistence/postgres.py:699-699 | an input on which they differ |
| OutboxRuns.RunsAgree | src/personal_assistant/adapters/persistence/postgres.py:567-1187 | over whole runs of the same operations both outboxes hold the same messages after each, and reply alike with that one exception |
| OutboxRuns.OneOutcome | src/personal_assistant/adapters/persistence/in_memory.py:182-678 | every operation has one reply and one resulting state |
| Outbox.InMemoryOutbox.Add | src/personal_assistant/adapters/persistence/in_memory.py:182-251 | replay, conflicts and insertion as specified, with both indexes updated |
| Outbox.InMemoryOutbox.ClaimDue | src/personal_assistant/adapters/persistence/in_memory.py:270-339 | leases exactly the first `limit` due rows by creation time and id, each under its own new token until the time plus the lease, and changes nothing else |
| Outbox.InMemoryOutbox.SweepExpiredSending | src/personal_assistant/adapters/persistence/in_memory.py:383-428 | marks exactly the first `limit` sends uncertain whose `claimed_until` is not after the time of the sweep; a send with a later one is unchanged |
| Outbox.InMemoryOutbox.Transition | src/personal_assistant/adapters/persistence/in_memory.py:632-678 | refusals in the order token, id, token match, status, validity; otherwise the one row named by the id changes |
| Outbox.InMemoryOutbox.OperatorTransition | src/personal_assistant/adapters/persistence/in_memory.py:577-607 | reconciles the uncertain row that the id names |
| SqlOutbox.FiltersAgree | src/personal_assistant/adapters/persistence/postgres.py:722-736 | the claim statement's filter, which ignores the back-off of claimed rows, picks what the in-memory filter picks on every sound row |
| SqlOutbox.FiltersAgreeAlwaysExactly | src/personal_assistant/adapters/persistence/in_memory.py:314-326 | the two filters agree on a message at every time if and only if it is not claimed with a back-off that ends after its lease |
| SqlOutbox.CheckIsValidity | src/personal_assistant/infrastructure/migrations/sql/0004_scheduler_delivery_mirror.sql:31-98 | the table's CHECK refuses a transition exactly when the validity rule refuses its message |
| SqlOutbox.CheckDescribesValidity | src/personal_assistant/infrastructure/migrations/sql/0004_scheduler_delivery_mirror.sql:31-98 | on every row, the CHECK and the validity rule ask the same, but for a blank token or owner, which only the rule refuses |
| SqlOutbox.UpdateKeepsSync | src/personal_assistant/adapters/persistence/postgres.py:265-292 | one statement keeps every payload field equal to its columns, whatever it assigns |
| SqlOutbox.PatchIsChange | src/personal_assistant/adapters/persistence/postgres.py:860-1085 | the SQL patch of each transition yields the in-memory message, though release also clears `sending_at` |
| SqlOutbox.PatchIsDecision | src/personal_assistant/adapters/persistence/postgres.py:1087-1131 | the same for the operator's two decisions |
| SqlOutbox.SameDueKeys | src/personal_assistant/adapters/persistence/postgres.py:722-738 | on every sound table both outboxes see the same due and the same expired rows |
| Postgres.LeasesAreClaims | src/personal_assistant/adapters/persistence/postgres.py:741-755 | the claim's UPDATE writes exactly the in-memory claimed copies and keeps the table sound, leases outliving back-offs included |
| Postgres.PostgresOutbox.Add | src/personal_assistant/adapters/persistence/postgres.py:568-680 | insert, replay and the two kinds of conflict, as the in-memory outbox |
| Postgres.PostgresOutbox.Transition | src/personal_assistant/adapters/persistence/postgres.py:246-320 | guarded UPDATE and the SELECT that tells refusals apart give the in-memory outcome for every nonblank token |
| Postgres.PostgresOutbox.Resolve | src/personal_assistant/adapters/persistence/postgres.py:1133-1187 | the in-memory outcome of reconciliation |
| Postgres.PostgresOutbox.ClaimDue | src/personal_assistant/adapters/persistence/postgres.py:682-767 | the in-memory outcome of a claim, in the fields of the rows, except that it adds the lease first |
| Postgres.PostgresOutbox.SweepExpiredSending | src/personal_assistant/adapters/persistence/postgres.py:787-858 | the in-memory outcome of a sweep; a send whose `claimed_until` is later is unchanged |
| WorkflowStates.OneFreshRegistration | src/personal_assistant/adapters/persistence/in_memory.py:720-777 | over any operations a stored key was created exactly once: by one fresh registration, or by an upsert before any |
| WorkflowStates.EpisodeResumedOnce | src/personal_assistant/adapters/persistence/in_memory.py:747-760 | resumptions never outnumber waiting episodes, and an open episode has not been resumed |
| WorkflowStates.NoSecondResume | src/personal_assistant/adapters/persistence/in_memory.py:747-760 | after a resumption nobody resumes the key again before it waits again |
| WorkflowStates.ResumeKeepsData | src/personal_assistant/application/dto/workflows.py:36-53 | resuming hands over the waiting state as it is, but for its status and the time of the change |
| WorkflowStates.IdentityIsForever | src/personal_assistant/adapters/persistence/in_memory.py:779-820 | fingerprint, id, type and key never change, and completed or failed states never change at all |
| WorkflowStates.IndexIsExact | src/personal_assistant/adapters/persistence/in_memory.py:736-777 | in every reachable store the workflow-id index is the exact inverse of the states |
| WorkflowStates.RejectionChangesNothing | src/personal_assistant/adapters/persistence/in_memory.py:783-816 | a rejected registration or upsert changes nothing |
| WorkflowStates.RegistrationLaw | src/personal_assistant/adapters/persistence/in_memory.py:720-777 | in every store with an exact index: which registrations get through, which error the others raise, and whether a state is entered as given, handed back to running with all its data, or returned unchanged |
| WorkflowStates.UpsertLaw | src/personal_assistant/adapters/persistence/in_memory.py:779-820 | which upserts get through, which error the others raise, and that the state is stored as given |
| WorkflowStates.InMemoryWorkflowStateStore.RegisterOrReplay | src/personal_assistant/adapters/persistence/in_memory.py:720-777 | the method is the registration these theorems are about, with its outcome spelled out |
| WorkflowStates.InMemoryWorkflowStateStore.Upsert | src/personal_assistant/adapters/persistence/in_memory.py:779-820 | the method is the upsert these theorems are about, with its outcome spelled out |
| ReminderPromises.AllFourOrNone | src/personal_assistant/application/use_cases/reminders.py:292-485 | over any runs, concurrent attempts, aborts and uncertain commits: calendar event, reminder, event row and outbox row of an identity are all present exactly when its state is completed |
| ReminderPromises.NoOtherRows | src/personal_assistant/application/use_cases/reminders.py:387-470 | no store holds any other row, so each completed identity has exactly one of each |
| ReminderPromises.OnlyRegistrationRefuses | src/personal_assistant/application/use_cases/reminders.py:325-485 | no write of the transaction ever meets a conflict; it fails exactly when registration or the reply scan does |
| ReminderPromises.ReportsAreExact | src/personal_assistant/application/use_cases/reminders.py:652-690 | a run that commits reports creation, or a duplicate of a completed reminder, exactly when all four effects are there |
| ReminderPromises.UnknownOutcomeIsSettled | src/personal_assistant/adapters/persistence/postgres.py:2543-2586 | a commit of unknown outcome that was applied is settled by the next run that gets through, which reports the completed duplicate and changes nothing; one that was not applied leaves nothing in the stores |
| ReminderReports.LostCommitIsRetried | src/personal_assistant/application/use_cases/reminders.py:292-485 | after a creation whose commit was not applied, the next run of the identity, started later, is elected again: it creates all four effects from its extraction, or asks back if it has none; if a draft was waiting it uses that draft, and only a blocked reply can stop it |
| ReminderReports.DuplicatesRepeatTheReport | src/personal_assistant/application/use_cases/reminders.py:652-760 | once a run has reported a creation, or why it asks back, every later run of the identity that gets through, approved or not, reports the same ids or the same reason, marked as reused |
| ReminderReports.DuplicateNamesTheRows | src/personal_assistant/application/use_cases/reminders.py:667-684 | a duplicate of a completed run names the ids of the stored calendar event and reminder, and the other rows name them too |
| ReminderReports.DuplicateAsksForTheDraft | src/personal_assistant/application/use_cases/reminders.py:719-736 | while a draft waits, an unapproved duplicate asks to approve the title of that draft and names no ids |
| ReminderReports.ReportsTheState | src/personal_assistant/application/use_cases/reminders.py:345-373 | whatever a step reports is what a replay of the state it leaves reports; it is marked as reused exactly when the states did not change |
| ReminderReports.SettledForever | src/personal_assistant/adapters/persistence/in_memory.py:747-816 | a state that waits for clarification or is completed never changes again |
| ReminderReports.FreshTransaction | src/personal_assistant/application/use_cases/reminders.py:373-485 | a transaction that does not replay: with an extraction it reports the ids of event and reminder and leaves the four rows and the completed state of that creation, field by field; without one it asks back for its reason and leaves a state that waits for it |
| ReminderReports.FirstReports | src/personal_assistant/application/use_cases/reminders.py:373-650 | every report of a run that does the work itself, field by field: the ids, the reason it asks back for, or the title it wants approved |
| ReminderReports.DuplicateOfRunning | src/personal_assistant/application/use_cases/reminders.py:685-700 | a duplicate that meets a run still at work names nothing and asks for nothing |
| ReminderReports.ReadUses | src/personal_assistant/application/use_cases/reminders.py:292-325 | an approved run works with the waiting draft, with its own extraction where nothing is stored, and otherwise with none; another payload under its key ends it |
| ReminderReports.RegistrationStores | src/personal_assistant/application/use_cases/reminders.py:258-272 | the state that a new registration enters, field by field |
| ReminderPromises.EffectsBelongTogether | src/personal_assistant/application/use_cases/reminders.py:387-470 | the four rows of a completed identity and its state come, field by field, from one creation: each other's ids, one request and text, and one notice time: as asked for, rounded up to whole minutes before the start, or the default number of minutes before it |
| ReminderPromises.DefaultNoticeIsKept | src/personal_assistant/application/use_cases/reminders.py:916-920 | where no notice time was asked for, the stored reminder, event, message and completed state carry the start less the default minutes |
| ReminderPromises.FinishedForever | src/personal_assistant/application/use_cases/reminders.py:471-484 | a completed identity stays completed |
| ReminderPromises.DraftIsNeverLost | src/personal_assistant/application/use_cases/reminders.py:306-325 | with grants only after approval was required, an identity that reached approval waits with its draft, or is completed with rows that show it: title, start and time zone, and in reminder, event, message and completed state the notice time the draft asks for, in whole minutes before the start, or the start less the default minutes when it asks for none |
| ReminderPromises.StoredNoticeIsPunctual | src/personal_assistant/application/use_cases/reminders.py:916-924 | the stored reminder and message fall less than a minute after the notice time the draft asked for, and never after the start |
| ReminderPromises.DraftUsedExactly | src/personal_assistant/application/use_cases/reminders.py:292-325 | without that assumption, the exact condition on the pre-read under which a resumed run uses the draft |
| ReminderPromises.EarlyGrantLosesDraft | src/personal_assistant/application/use_cases/reminders.py:314-360 | a run with an early grant that stores a draft and then overwrites it |
| ReminderTheorems.StepKeepsInv | src/personal_assistant/application/use_cases/reminders.py:292-650 | every step keeps states moving forward, effects matching completed states, elected runs unique and drafts in place |
| ReminderTheorems.TransactionKeepsStores | src/personal_assistant/application/use_cases/reminders.py:325-485 | what a committed transaction does, by replay, clarification or creation, and that it keeps none-or-all |
| ReminderCreation.DraftRoundTrip | src/personal_assistant/domain/reminders/workflow_state.py:60-89 | a draft merged into any workflow data is read back unchanged |
| ReminderCreation.ReasonRoundTrip | src/personal_assistant/domain/reminders/models.py:20-27 | the stored text of a clarification reason is read back as that reason |
| CreationLaws.RowsShow | src/personal_assistant/application/use_cases/reminders.py:387-470 | the rows as the transaction builds them show request, extraction, text and ids, and a notice time as asked for or by default |
| CreationLaws.StateIsShown | src/personal_assistant/application/use_cases/reminders.py:471-484 | so does the completed state, whatever data it had before |
| CreationLaws.DraftIsReadable | src/personal_assistant/domain/reminders/workflow_state.py:60-89 | exactly which stored data are a draft, and what stands in for a missing time zone, notice time or confidence |
| CreationLaws.StoredReasonExactly | src/personal_assistant/application/use_cases/reminders.py:737-742 | the reason that a duplicate reports is the one whose text is stored, and a missing date and time where there is no such text |
| CreationLaws.PlacedKeeps | src/personal_assistant/adapters/outbound/calendar/local.py:78-122 | a write to an effect store never overwrites a row or an id, and is refused only for another row under its key or an id already in use |
| ReminderRun.RunTransaction | src/personal_assistant/application/use_cases/reminders.py:325-485 | the store-by-store writes inside a transaction leave the modelled transaction's effect, or the entry state when anything raises, and no lock; a run that reports a creation of its own has left the rows and the completed state of that creation, notice time included, and one that asks back a state waiting for its reason |
| ReminderRun.WriteEffects | src/personal_assistant/application/use_cases/reminders.py:387-470 | the four writes in order, with what an exception leaves for the rollback |
| Lifecycle.CreationIsEnabled | src/personal_assistant/application/use_cases/reminders.py:441-470 | the message and reminder that a creation stores meet everything the delivery protocol asks of new ones: pending, never attempted, ids, subject and reminder all new |
| Lifecycle.CreationAlwaysEnters | src/personal_assistant/application/use_cases/reminders.py:441-470 | however creation and delivery interleave, each creation adds exactly its message and its reminder to the delivery system |
| Lifecycle.DeliveredAreCreated | src/personal_assistant/application/use_cases/reminders.py:420-484 | in every reachable joint state the messages and reminders to deliver are exactly those of the completed identities, under the ids and with the payload that creation stored |
| Lifecycle.CreatedIsAnnounced | src/personal_assistant/application/use_cases/reminders.py:463-485 | whatever commits the effects has stored the outbox row, so no creation is missed |
| Lifecycle.RequestableExactly | src/personal_assistant/application/use_cases/reminder_notifications_helpers.py:75-97 | the stored payload can be sent exactly when the request named telegram or whatsapp and recipient and text are not blank |
| Lifecycle.IdTextInjective | src/personal_assistant/domain/reminders/idempotency.py:20-24 | an effect id determines its kind and its identity |
| Lifecycle.StepKeepsInv | src/personal_assistant/application/use_cases/reminders.py:325-485 | every creation or delivery step keeps messages linked to completed identities |
| EndToEnd.DeliveryOfJointRuns | src/personal_assistant/application/use_cases/reminders.py:441-470 | what delivery sees of a joint run is exactly the delivery run of its steps, each creation being the entry of its message and reminder, and no such entry is refused |
| EndToEnd.SentIsCreated | src/personal_assistant/application/use_cases/reminder_notifications_dispatch.py:75-125 | whatever reaches the provider is an attempt, numbered 1 to 4, for a completed identity, with the channel, the recipient and the text of its creation, under the key of that identity's message id and the attempt |
| EndToEnd.NothingIsSentTwice | src/personal_assistant/application/use_cases/reminder_notifications_dispatch.py:75-125 | from creation on, no dispatch key reaches the provider twice, whichever tenants are involved |
| EndToEnd.ResendIsLicensed | src/personal_assistant/application/use_cases/reminder_notifications_dispatch.py:317-367 | a created reminder is sent again only after the earlier attempt was answered known-transient or an operator chose retry |
| EndToEnd.BackOffIsKept | src/personal_assistant/application/use_cases/reminder_notifications_helpers.py:139-151 | both delays hold between the attempts for a created reminder |
| EndToEnd.CreatedIsMirrored | src/personal_assistant/application/use_cases/reminder_notifications_dispatch.py:370-408 | in every joint state each completed identity has its message and its reminder, and the reminder shows what has become of the message |
| Transactions.AllOrNothing | src/personal_assistant/adapters/persistence/in_memory_uow.py:77-105 | after the exit all five stores hold the whole block's effect if it committed, was not rolled back and no exception followed, and else exactly the entry state; no write between rollback and exit is assumed |
| Transactions.ExitLeaves | src/personal_assistant/adapters/persistence/in_memory_uow.py:77-105 | without that assumption, exactly what every block leaves: after an explicit rollback, the entry state with the later writes |
| Transactions.WithBlock | src/personal_assistant/adapters/persistence/in_memory_uow.py:57-114 | any sequence of writes, commits and rollbacks, with or without an exception, leaves that state and no lock held; a block that cannot be entered leaves the entry state and no lock |
| Transactions.InMemoryReminderTransaction.Enter | src/personal_assistant/adapters/persistence/in_memory_uow.py:57-75 | takes all locks in order and snapshots the stores; when a lock or a snapshot raises, every lock taken until then is released and no store has changed; a second entry raises and changes nothing |
| Transactions.InMemoryReminderTransaction.ReleaseLocks | src/personal_assistant/adapters/persistence/in_memory_uow.py:111-114 | releases the locks taken, all or only the first ones |
| Transactions.InMemoryReminderTransaction.RequestCommit | src/personal_assistant/adapters/persistence/in_memory_uow.py:90-94 | raises outside an active transaction and after a rollback |
| Transactions.InMemoryReminderTransaction.RollBack | src/personal_assistant/adapters/persistence/in_memory_uow.py:96-105 | restores the snapshots once; a second call changes nothing |
| Transactions.InMemoryReminderTransaction.Exit | src/personal_assistant/adapters/persistence/in_memory_uow.py:77-88 | keeps or restores the stores and releases every lock taken |
| LockOrder.NoReachableDeadlock | src/personal_assistant/adapters/persistence/in_memory_uow.py:57-88 | with any number of threads in transactions and single-store operations no reachable state is deadlocked |
| LockOrder.EverythingCanFinish | src/personal_assistant/adapters/persistence/in_memory_uow.py:111-114 | from every reachable state all threads can finish, which leaves every lock free |
| LockOrder.AnyThreadCanGetInside | src/personal_assistant/adapters/persistence/in_memory_uow.py:57-75 | from every reachable state there is a way for any thread to get inside a transaction |
| LockOrder.IdleHoldsNothing | src/personal_assistant/adapters/persistence/in_memory_uow.py:77-88 | a thread that has left its transaction holds none of the locks |
| LockOrder.BlockIsAlone | src/personal_assistant/adapters/persistence/in_memory_uow.py:34-42 | while a thread is in its block it owns all five locks, and no other thread holds any |
| Cycles.CycleFinder.Walk | tools/wct/archmetrics/analyzer.py:273-289 | visits a node; afterwards it is finished or the step to it lies on a reported cycle, and the stack is as before |
| Cycles.CycleFinder.Report | tools/wct/archmetrics/analyzer.py:274-281 | adds the stack from the node on, closed, as its canonical rotation |
| Cycles.FindCycles | tools/wct/archmetrics/analyzer.py:268-294 | reports in ascending order of module names, only simple cycles of the graph, each from its least rotation on, and hits every closed walk with a reported cycle |
| Cycles.ReportsIffCyclic | tools/wct/archmetrics/analyzer.py:268-294 | something is reported if and only if the graph is cyclic |
| Cycles.EveryCyclicComponentIsReported | tools/wct/archmetrics/analyzer.py:268-294 | every cyclic strongly connected component holds a reported cycle |
| Cycles.NoCycleTwice | tools/wct/archmetrics/analyzer.py:277-281 | no cycle is reported under two rotations |
| Cycles.DetectorIsExact | tools/wct/selftest/redteam.py:77-82 | the path-based visit succeeds from some node if and only if the graph is cyclic |
| Cycles.ContainsCycle | tools/wct/selftest/redteam.py:72-82 | decides cyclicity of the graph with the given edges |
| Cycles.ChecksAgree | tools/wct/selftest/redteam.py:72-82 | on the edges of one graph the two checks agree |
| Orders.TupleOrderIsLexical | tools/wct/archmetrics/analyzer.py:290-294 | the order of cycles is that of the first module in which they differ |
| Sites.SiteVisitor.Visit | tools/wct/mutate/engine.py:83-95 | counts each site once, for the innermost function around it, and enters each function behind those before it |
| Sites.FunctionSites | tools/wct/mutate/engine.py:73-97 | the per-scope counts are those of the sites' owners, repeated names merged; the module comes first and then every function, with or without sites, in the order of the source |
| Sites.MutationSites | tools/wct/mutate/engine.py:68-70 | the breadth-first count is the number of nodes of the mutable kinds and of constants other than None and the ellipsis |
| Sites.CountsAgree | tools/wct/mutate/engine.py:62-97 | for every syntax tree the per-scope counts add up to the breadth-first count |
| Sites.SitesByKind | tools/wct/mutate/engine.py:48-70 | the sites of trees are their nodes of just these kinds |
| Sites.JoinConcat | tools/wct/mutate/engine.py:83-95 | qualified names join two lists of parts with one dot |
| SplitPlan.Partition | tools/wct/splitplan/engine.py:32-63 | an order-preserving partition into nonempty groups within the limit, with no more groups than any other |
| SplitPlan.CloseGroup | tools/wct/splitplan/engine.py:40-45 | every group the loop closes is forced on every partition |
| SplitPlan.Plan | tools/wct/splitplan/engine.py:20-90 | refuses exactly the oversize functions, in order, and otherwise reports the partition: for each group the names of its functions in order and its own total, and the module's sites apart |
| SplitPlan.PlanFile | tools/wct/splitplan/engine.py:24-81 | the part sums and the module bucket add up to the sites of the file, counted by kind |
| Citations.CanonicalRoundTrip | src/personal_assistant/domain/common/citations.py:32-54 | a printed citation parses back to the same filename and line |
| Citations.ParsesExactly | src/personal_assistant/domain/common/citations.py:40-56 | exactly which texts are citations, and of what |
| Citations.StripIsExact | src/personal_assistant/domain/common/citations.py:37-54 | stripping takes the spaces at both ends and nothing else |
| Citations.CiteLine | src/personal_assistant/application/use_cases/documents.py:101-114 | building, checking, printing and parsing a line's citation succeeds exactly for citable filenames |
| Citations.GroundedCitations | src/personal_assistant/application/use_cases/documents.py:91-118 | succeeds exactly when the text has a word and the stripped filename has 1 to 260 characters and no line feed, and then prints, as name, colon and number, in order and once each, exactly the lines on which one of the first 60 words stands; a word's line is one plus the number of line boundaries before it in the text |
| Citations.CitedByBoundaries | src/personal_assistant/application/use_cases/documents.py:98-117 | citing the lines that contribute words is citing one plus the number of boundaries before each of the first 60 words |
| Citations.SummaryWordsAreCited | src/personal_assistant/application/use_cases/documents.py:60-63 | every word of the summary stands in a cited line |
| Citations.CitedLinesContribute | src/personal_assistant/application/use_cases/documents.py:98-117 | every cited line contributes a word of the summary |
| Citations.PrintedCitationsParse | src/personal_assistant/domain/common/citations.py:37-85 | every emitted string parses back and is grounded |
| Citations.SummaryRoundTrip | src/personal_assistant/application/use_cases/documents.py:60-63 | the words of the printed summary, shortened or not, are the first words of the text |
| Citations.Summarize | src/personal_assistant/application/use_cases/documents.py:37-90 | the first 60 words with single spaces between them, and dots if there are more, with the citations of just their lines |
| Words.LinesKeepWords | src/personal_assistant/application/use_cases/documents.py:98-102 | splitting into lines and then words gives the words of the text |
| Words.LinesSplit | src/personal_assistant/application/use_cases/documents.py:100-100 | the lines of a text have no line break in them and are the text with exactly one boundary between neighbours, a single break or a carriage return with its line feed, never one taken as two, and at most one more boundary at the end |
| Words.OnlyOneSplit | src/personal_assistant/application/use_cases/documents.py:100-100 | and there is no other way to split it so |
| Words.LineOfWord | src/personal_assistant/application/use_cases/documents.py:98-104 | the number of lines before the one a word is in is the number of boundaries before that word |
| Words.WordStandsThere | src/personal_assistant/application/use_cases/documents.py:60-60 | each word stands in the text at its position, between spaces or the ends |
| Words.SpacedConcat | src/personal_assistant/application/use_cases/documents.py:61-61 | words are joined by exactly one space |
| Text.SpacesByCode | src/personal_assistant/application/use_cases/documents.py:60-101 | the characters at which words and lines are split, by code point |

## Left out

- HTTP, channels, the admin dashboard, configuration, language models, transcription and speech: no effect on the stores modelled here.
- Traces, guardrail scans of input, and the wording of replies; a scan that blocks a reply is a parameter of a run. A report is its status, ids, reason, draft title and `reused`; the reply after the commit, if a scan blocks it, is lost like that of a worker that dies there.
- `_DirectReminderTransaction`, `mark_sent` and the `_upgrade_legacy_*` helpers: compatibility paths outside these promises.
- SHA-256, JSON, UUIDs and time zones: fingerprints, ids and times are values; `claim_due` and `sweep_expired_sending` argument checks and tenant checks of principals are not repeated.
- Aliasing of returned objects: the original hands out deep copies, the model hands out values.
- Ties between different tenants in the sort of candidates are broken by row key, which no caller can observe.
- The order in which a claim statement returns rows, and the collation PostgreSQL uses for `message_id`: the model returns them in claim order and compares characters. Rows locked by peers are skipped by the original; the comparison of the outboxes is without peers.
- Which exception a refused CHECK raises: it and the validity rule's error are one error here. `Postgres.PostgresOutbox.Transition` gives the in-memory outcome for nonblank tokens only; a blank one is a value error there and a permission error in memory.
- The provider sees each send as one step; how long it takes, and that a reply may come long after the lease has ended, is covered by other steps coming between.
- Database errors other than four outcomes of a commit: applied, refused, and unknown with either effect. A worker that dies after a commit is a commit followed by a crash.
- A reminder row is created only together with its one notification message, by the transaction of an approved run; rows written by other means, such as the legacy ones, are not in `Lifecycle`.
- Effect ids carry the identity itself where the original has its digest.
- Dispatcher.DispatchDueReminders.Dispatch: runs alone here; other workers' steps between its transactions are in the protocol, not in the method.
- Dispatcher.DispatchDueReminders.ChangeAndMirror: restores the two stores it uses by itself; snapshots, locks and all five stores are in `Transactions`.
- ReminderRun.RunTransaction: covers the transaction of an approved run; the pre-read and the unapproved run are steps of `ReminderCreation`, each of them one store operation.
- DispatchTheorems.LifeIsBounded: says nothing about reclaims and releases, which can repeat without bound.
- Upserting a workflow state that was never registered is allowed by the store, so a key created that way has no fresh registration; `WorkflowStates.OneFreshRegistration` says so.
- Citations.CanonicalRoundTrip: filenames with line breaks, and digits outside ASCII, are outside the printed form modelled here. The model trims a filename of the characters that `str.strip` removes; the trimming done by the field validation keeps \x1c to \x1f.
- Sites.FunctionSites: a syntax tree is given as kinds, names and children; parsing is not modelled, nor is Python's limit on recursion depth.
- The cycle search uses recursion without a depth limit, and module names are strings.
