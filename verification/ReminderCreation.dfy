/** `ReminderWorkflow.run`: unapproved and approved runs over the shared stores, with the pre-read a step of its own
    and commits that may be applied, refused, or of unknown outcome. */
module ReminderCreation {
  import opened Wrappers
  import opened WorkflowStates
  import Delivery

  type Instant = Delivery.Instant

  // ----- extracted reminders and drafts -----

  datatype Extraction = Extraction(title: string, timezone: string, startsAt: Instant, notifyAt: Option<Instant>,
                                   confidence: real)

  const CLASSIFY: string := "classify"
  const NEEDS_CLARIFICATION: string := "needs_clarification"
  const APPROVAL_REQUIRED: string := "approval_required"
  const COMPLETED: string := "completed"

  /** `ReminderDraft.to_workflow_data` */
  function DraftData(e: Extraction): Data {
    map["title" := Text(e.title), "timezone" := Text(e.timezone), "starts_at" := Time(e.startsAt),
        "notify_at" := if e.notifyAt.Some? then Time(e.notifyAt.value) else Null, "confidence" := Number(e.confidence)]
  }

  /** `ReminderDraft.from_mapping(...).to_extraction()`; None where it raises. */
  function ExtractionOf(data: Data): Option<Extraction> {
    if "title" !in data || !data["title"].Text? || "starts_at" !in data || !data["starts_at"].Time? then None
    else
      var timezone := if "timezone" in data then data["timezone"] else Text("UTC");
      var notifyAt := if "notify_at" in data then data["notify_at"] else Null;
      var confidence := if "confidence" in data then data["confidence"] else Number(0.86);
      if !timezone.Text? || !(notifyAt.Null? || notifyAt.Time?) || !confidence.Number? then None
      else Some(Extraction(data["title"].text, timezone.text, data["starts_at"].time,
                           if notifyAt.Time? then Some(notifyAt.time) else None, confidence.number))
  }

  /** A draft survives being merged into whatever workflow data there was. */
  lemma DraftRoundTrip(data: Data, e: Extraction)
    ensures ExtractionOf(data + DraftData(e)) == Some(e)
  {
    var merged, draft := data + DraftData(e), DraftData(e);
    assert "title" in draft && "timezone" in draft && "starts_at" in draft
           && "notify_at" in draft && "confidence" in draft;
  }

  const MINUTE: int := 60 * Delivery.SECOND

  /** `_notice_minutes_before` */
  function NoticeMinutes(e: Extraction, defaultMinutes: nat): (minutes: nat)
  {
    if e.notifyAt.None? then defaultMinutes
    else if e.startsAt - e.notifyAt.value <= 0 then 0
    else (e.startsAt - e.notifyAt.value) / MINUTE
  }

  // ----- why a run asks back -----

  /** `ReminderClarificationReason` */
  datatype Reason =
    | AmbiguousHour | MissingDate | MissingTime | MissingDatetime | NonexistentLocalTime | AmbiguousLocalTime
    | InvalidTimezone

  function ReasonText(reason: Reason): string {
    match reason
    case AmbiguousHour => "ambiguous_hour"
    case MissingDate => "missing_date"
    case MissingTime => "missing_time"
    case MissingDatetime => "missing_datetime"
    case NonexistentLocalTime => "nonexistent_local_time"
    case AmbiguousLocalTime => "ambiguous_local_time"
    case InvalidTimezone => "invalid_timezone"
  }

  /** The reason with that text; a missing date and time where there is none. */
  function ReasonOf(text: string): Reason {
    if text == "ambiguous_hour" then AmbiguousHour
    else if text == "missing_date" then MissingDate
    else if text == "missing_time" then MissingTime
    else if text == "nonexistent_local_time" then NonexistentLocalTime
    else if text == "ambiguous_local_time" then AmbiguousLocalTime
    else if text == "invalid_timezone" then InvalidTimezone
    else MissingDatetime
  }

  lemma ReasonRoundTrip(reason: Reason)
    ensures ReasonOf(ReasonText(reason)) == reason
  {
    var date, time := "missing_date", "missing_time";
    assert date[8] != time[8];
    var datetime, zone := "missing_datetime", "invalid_timezone";
    assert datetime[0] != zone[0];
  }

  /** `AssistantReplies.reminder_clarification`: the id of the reply that goes with a reason, and its version. */
  function ReplyId(reason: Reason): string {
    "reminder_" + ReasonText(reason)
  }

  const REPLY_VERSION: string := "v1"

  // ----- the effects of one run -----

  datatype CalendarEvent = CalendarEvent(
    eventId: EffectId, title: string, startsAt: Instant, timezone: string, sourceEventId: string, fingerprint: string)
  datatype ScheduledReminder = ScheduledReminder(
    reminderId: EffectId, calendarEventId: EffectId, notifyAt: Instant, timezone: string, sourceEventId: string,
    fingerprint: string, channel: string, recipient: string, body: string)
  datatype ReminderCreated = ReminderCreated(
    id: EffectId, subject: EffectId, calendarEventId: EffectId, startsAt: Instant, timezone: string, notifyAt: Instant,
    sourceEventId: string, fingerprint: string)
  datatype OutboxRow = OutboxRow(
    messageId: EffectId, eventId: EffectId, subject: EffectId, calendarEventId: EffectId, causationId: EffectId,
    channel: string, recipient: string, body: string, notifyAt: Instant, timezone: string,
    sourceEventId: string, fingerprint: string)

  /** A store of rows by idempotency key with an index by durable id. */
  datatype Shelf<V> = Shelf(rows: map<RowKey, V>, keyById: map<EffectId, RowKey>)

  datatype Problem = StateProblem(error: StateError) | EffectConflict | ReplyBlocked | DraftUnreadable

  /** Create under a key and its ids; replay an equal row, refuse a different one or an id of another key. */
  function Placed<V(==)>(shelf: Shelf<V>, k: RowKey, ids: set<EffectId>, v: V): Result<Shelf<V>, Problem> {
    if k in shelf.rows then (if shelf.rows[k] == v then Success(shelf) else Failure(EffectConflict))
    else if exists id :: id in ids && id in shelf.keyById && shelf.keyById[id] != k then Failure(EffectConflict)
    else Success(Shelf(shelf.rows[k := v], shelf.keyById + map id | id in ids :: k))
  }

  datatype Stores = Stores(
    calendar: Shelf<CalendarEvent>, scheduler: Shelf<ScheduledReminder>, events: Shelf<ReminderCreated>,
    outbox: Shelf<OutboxRow>, states: Store)

  function Suffixed(k: RowKey, suffix: string): RowKey {
    Delivery.RowKey(k.tenant, k.idempotencyKey + suffix)
  }

  function CalendarKey(k: RowKey): RowKey { Suffixed(k, ":calendar") }
  function NotifyKey(k: RowKey): RowKey { Suffixed(k, ":notify") }
  function OutboxKey(k: RowKey): RowKey { Suffixed(k, ":outbox") }

  /** The event store has no idempotency key: this stands for the one id of the identity's event. */
  function CreatedKey(k: RowKey): RowKey { Suffixed(k, ":created") }

  /** What a request fixes before anything is stored. */
  datatype Request = Request(
    k: RowKey, fingerprint: string, sourceEventId: string, channel: string, recipient: string, conversationId: string,
    messageId: string, timezone: string, workflowId: string)

  function InitialState(q: Request, now: Instant): WorkflowState {
    WorkflowState(q.workflowId, q.k.tenant, "reminder.create", Running, CLASSIFY, q.k.idempotencyKey,
                  Some(q.fingerprint),
                  map["message_id" := Text(q.messageId), "source_event_id" := Text(q.sourceEventId),
                      "channel" := Text(q.channel), "conversation_id" := Text(q.conversationId),
                      "timezone" := Text(q.timezone)], now, now)
  }

  function CalendarRow(q: Request, e: Extraction): CalendarEvent {
    CalendarEvent(EffectId(CalendarEventId, q.k), e.title, e.startsAt, e.timezone, q.sourceEventId, q.fingerprint)
  }

  function ReminderRow(q: Request, e: Extraction, body: string, minutes: nat): ScheduledReminder {
    ScheduledReminder(EffectId(ReminderId, q.k), EffectId(CalendarEventId, q.k),
                      e.startsAt - minutes * MINUTE, e.timezone,
                      q.sourceEventId, q.fingerprint, q.channel, q.recipient, body)
  }

  function CreatedRow(q: Request, e: Extraction, minutes: nat): ReminderCreated {
    ReminderCreated(EffectId(ReminderCreatedId, q.k), EffectId(ReminderId, q.k), EffectId(CalendarEventId, q.k),
                    e.startsAt,
                    e.timezone, e.startsAt - minutes * MINUTE, q.sourceEventId, q.fingerprint)
  }

  function MessageRow(q: Request, e: Extraction, body: string, minutes: nat): OutboxRow {
    OutboxRow(EffectId(OutboxMessageId, q.k), EffectId(NotificationRequestedId, q.k), EffectId(ReminderId, q.k),
              EffectId(CalendarEventId, q.k), EffectId(ReminderCreatedId, q.k), q.channel, q.recipient, body,
              e.startsAt - minutes * MINUTE, e.timezone, q.sourceEventId, q.fingerprint)
  }

  /** The four writes, in the order the transaction makes them. */
  function Effects(st: Stores, q: Request, e: Extraction, body: string, minutes: nat): Result<Stores, Problem> {
    match Placed(st.calendar, CalendarKey(q.k), {EffectId(CalendarEventId, q.k)}, CalendarRow(q, e))
    case Failure(p) => Failure(p)
    case Success(calendar) =>
    match Placed(st.scheduler, NotifyKey(q.k), {EffectId(ReminderId, q.k)}, ReminderRow(q, e, body, minutes))
    case Failure(p) => Failure(p)
    case Success(scheduler) =>
    match Placed(st.events, CreatedKey(q.k), {EffectId(ReminderCreatedId, q.k)}, CreatedRow(q, e, minutes))
    case Failure(p) => Failure(p)
    case Success(events) =>
    match Placed(st.outbox, OutboxKey(q.k), {EffectId(OutboxMessageId, q.k), EffectId(NotificationRequestedId, q.k)},
                 MessageRow(q, e, body, minutes))
    case Failure(p) => Failure(p)
    case Success(outbox) => Success(Stores(calendar, scheduler, events, outbox, st.states))
  }

  // ----- the transaction of an approved run -----

  datatype Ended = Replayed(status: WorkflowStatus) | Clarified | Created

  datatype Commit = Commit(stores: Stores, ended: Ended, report: Report)

  function AtApproval(s: WorkflowState): bool {
    s.status == WaitingApproval && s.step == APPROVAL_REQUIRED
  }

  function UpsertState(st: Stores, s: WorkflowState): Result<Stores, Problem> {
    match Upserted(st.states, s.tenant, s)
    case (Failure(e), _) => Failure(StateProblem(e))
    case (Success(_), states) => Success(st.(states := states))
  }

  function ClarificationData(reason: Reason): Data {
    map["clarification_reason" := Text(ReasonText(reason)), "clarification_reply_id" := Text(ReplyId(reason)),
        "clarification_reply_version" := Text(REPLY_VERSION)]
  }

  function CompletedData(q: Request, e: Extraction, notifyAt: Instant): Data {
    map["calendar_event_id" := Id(EffectId(CalendarEventId, q.k)), "reminder_id" := Id(EffectId(ReminderId, q.k)),
        "notify_at" := Time(notifyAt), "timezone" := Text(e.timezone), "source_event_id" := Text(q.sourceEventId)]
  }

  // ----- what a run reports -----

  datatype AgentStatus = AgentCompleted | NeedsClarification | Escalated | AgentFailed

  /** `ReminderWorkflowResult`: a title stands for a request to approve that draft, a reason for the reply that asks
      back. */
  datatype Report = Report(status: AgentStatus, calendarEventId: Option<Value>, reminderId: Option<Value>,
                           asksFor: Option<Reason>, draftTitle: Option<string>, reused: bool)

  function CreatedReport(k: RowKey, reused: bool): Report {
    Report(AgentCompleted, Some(Id(EffectId(CalendarEventId, k))), Some(Id(EffectId(ReminderId, k))), None, None,
           reused)
  }

  function ClarificationReport(reason: Reason, reused: bool): Report {
    Report(NeedsClarification, None, None, Some(reason), None, reused)
  }

  function ApprovalReport(title: string, reused: bool): Report {
    Report(Escalated, None, None, None, Some(title), reused)
  }

  function Get(data: Data, field: string): Option<Value> {
    if field in data then Some(data[field]) else None
  }

  /** `ReminderClarificationReason(str(...))`, with its fallback. */
  function StoredReason(data: Data): Reason {
    if "clarification_reason" in data && data["clarification_reason"].Text?
    then ReasonOf(data["clarification_reason"].text) else MissingDatetime
  }

  /** What `_registration_result` makes of a replayed state; None for a pending one, and where its draft cannot be
      read. */
  function ReplayReport(s: WorkflowState): Option<Report> {
    match s.status
    case Pending => None
    case Completed =>
      Some(Report(AgentCompleted, Get(s.data, "calendar_event_id"), Get(s.data, "reminder_id"), None, None, true))
    case Running => Some(Report(Escalated, None, None, None, None, true))
    case Failed => Some(Report(AgentFailed, None, None, None, None, true))
    case WaitingApproval =>
      if s.step != APPROVAL_REQUIRED then Some(ClarificationReport(StoredReason(s.data), true))
      else if ExtractionOf(s.data).None? then None
      else Some(ApprovalReport(ExtractionOf(s.data).value.title, true))
  }

  /** `_registration_result`: a replayed registration ends the run, unless its state was never started. */
  function ReplayEnds(r: Registration): bool {
    r.replayed && r.state.status != Pending
  }

  /** Without an extraction the run asks for clarification. */
  function Clarify(st: Stores, state: WorkflowState, reason: Reason, now: Instant): Result<Commit, Problem> {
    match UpsertState(st,
                      Transitioned(state, Some(WaitingApproval), Some(NEEDS_CLARIFICATION), ClarificationData(reason),
                                   now))
    case Failure(p) => Failure(p)
    case Success(st') => Success(Commit(st', Clarified, ClarificationReport(reason, false)))
  }

  function CompletedState(q: Request, e: Extraction, state: WorkflowState, minutes: nat, now: Instant): WorkflowState {
    Transitioned(state, Some(Completed), Some(COMPLETED), CompletedData(q, e, e.startsAt - minutes * MINUTE), now)
  }

  /** With one it writes the four effects and completes the state. */
  function CreateAll(st: Stores, q: Request, e: Extraction, state: WorkflowState, body: string, minutes: nat,
                     now: Instant)
    : Result<Commit, Problem>
  {
    match Effects(st, q, e, body, minutes)
    case Failure(p) => Failure(p)
    case Success(st') =>
      match UpsertState(st', CompletedState(q, e, state, minutes, now))
      case Failure(p) => Failure(p)
      case Success(st'') =>
        Success(Commit(st'', Created, CreatedReport(q.k, CalendarKey(q.k) in st.calendar.rows)))
  }

  /** The body of `with self._begin_transaction(...)`; `blocked` says that the reply scan refused a reply. */
  function Transaction(st: Stores, q: Request, extraction: Option<Extraction>, reason: Reason, body: string,
                       blocked: bool, defaultMinutes: nat, now: Instant): Result<Commit, Problem>
  {
    match Registered(st.states, q.k.tenant, InitialState(q, now), Some(APPROVAL_REQUIRED), now)
    case (Failure(e), _) => Failure(StateProblem(e))
    case (Success(r), states) =>
      if ReplayEnds(r) && ReplayReport(r.state).None? then Failure(DraftUnreadable)
      else if blocked then Failure(ReplyBlocked)
      else if ReplayEnds(r) then
        Success(Commit(st.(states := states), Replayed(r.state.status), ReplayReport(r.state).value))
      else if extraction.None? then Clarify(st.(states := states), r.state, reason, now)
      else CreateAll(st.(states := states), q, extraction.value, r.state, body,
                     NoticeMinutes(extraction.value, defaultMinutes), now)
  }

  // ----- runs in flight, and their steps -----

  datatype InFlight =
    | Approved(q: Request)                                       // an approval was checked; nothing read yet
    | Prepared(q: Request, seen: Option<WorkflowState>, extraction: Option<Extraction>)
    | Elected(q: Request, state: WorkflowState)                  // an unapproved run that got the registration

  /** The request, extraction, message text and default notice that an identity's effects were created from. */
  datatype Made = Made(q: Request, e: Extraction, body: string, defaultMinutes: nat)

  /** The stores and runs in flight, with a history: the draft each identity reached approval with, and what each
      completed one was created from. */
  datatype Sys = Sys(
    stores: Stores, runs: map<nat, InFlight>, granted: set<RowKey>, drafts: map<RowKey, Extraction>,
    made: map<RowKey, Made>)

  const NO_STORES := Stores(Shelf(map[], map[]), Shelf(map[], map[]), Shelf(map[], map[]), Shelf(map[], map[]),
    WorkflowStates.EMPTY)
  const NO_RUNS := Sys(NO_STORES, map[], {}, map[], map[])

  /** How a commit ends for the store and, apart from that, for the caller. */
  datatype Outcome = Applied | Refused | UnknownApplied | UnknownNotApplied

  predicate Lands(o: Outcome) {
    o.Applied? || o.UnknownApplied?
  }

  datatype Action =
    | Grant(k: RowKey)
    | StartApproved(t: nat, q: Request)
    | Read(t: nat, llm: Option<Extraction>)
    | Transact(t: nat, reason: Reason, body: string, blocked: bool, defaultMinutes: nat, now: Instant, outcome: Outcome)
    | RegisterUnapproved(t: nat, q: Request, now: Instant, outcome: Outcome)
    | FinishUnapproved(t: nat, llm: Option<Extraction>, reason: Reason, now: Instant, outcome: Outcome)
    | Drop(t: nat)

  function WithoutRun(s: Sys, t: nat): Sys {
    s.(runs := s.runs - {t})
  }

  /** The pre-read: a waiting draft is taken over, a missing state is extracted anew, anything else has none. */
  function ReadExtraction(seen: Option<WorkflowState>, llm: Option<Extraction>): Option<Extraction> {
    if seen.None? then llm
    else if AtApproval(seen.value) then ExtractionOf(seen.value.data)
    else None
  }

  function StateOf(s: Sys, k: RowKey): Option<WorkflowState> {
    if k in s.stores.states.states then Some(s.stores.states.states[k]) else None
  }

  /** `get_by_idempotency_key` and the branches on what it found. */
  function ReadStep(s: Sys, t: nat, llm: Option<Extraction>): Sys
    requires t in s.runs && s.runs[t].Approved?
  {
    var q := s.runs[t].q;
    var seen := StateOf(s, q.k);
    if seen.Some? && seen.value.payloadFingerprint != Some(q.fingerprint) then WithoutRun(s, t)
    else if seen.Some? && AtApproval(seen.value) && ExtractionOf(seen.value.data).None? then WithoutRun(s, t)
    else s.(runs := s.runs[t := Prepared(q, seen, ReadExtraction(seen, llm))])
  }

  function TransactionOf(s: Sys, a: Action): Result<Commit, Problem>
    requires a.Transact? && a.t in s.runs && s.runs[a.t].Prepared?
  {
    var run := s.runs[a.t];
    Transaction(s.stores, run.q, run.extraction, a.reason, a.body, a.blocked, a.defaultMinutes, a.now)
  }

  function TransactStep(s: Sys, a: Action): Sys
    requires a.Transact? && a.t in s.runs && s.runs[a.t].Prepared?
  {
    var run := s.runs[a.t];
    match TransactionOf(s, a)
    case Failure(_) => WithoutRun(s, a.t)
    case Success(c) =>
      if !Lands(a.outcome) then WithoutRun(s, a.t)
      else if c.ended.Created? && run.extraction.Some? then
        var made := s.made[run.q.k := Made(run.q, run.extraction.value, a.body, a.defaultMinutes)];
        WithoutRun(s.(stores := c.stores, made := made), a.t)
      else WithoutRun(s.(stores := c.stores), a.t)
  }

  /** `register_or_replay` outside any transaction; only a fresh registration lets the run go on. */
  function RegisterStep(s: Sys, a: Action): Sys
    requires a.RegisterUnapproved?
  {
    match Registered(s.stores.states, a.q.k.tenant, InitialState(a.q, a.now), None, a.now)
    case (Failure(_), _) => s
    case (Success(r), states) =>
      var s' := if Lands(a.outcome) then s.(stores := s.stores.(states := states)) else s;
      if a.outcome.Applied? && !ReplayEnds(r) then s'.(runs := s'.runs[a.t := Elected(a.q, r.state)]) else s'
  }

  function WaitingState(run: InFlight, llm: Option<Extraction>, reason: Reason, now: Instant): WorkflowState
    requires run.Elected?
  {
    if llm.None?
    then Transitioned(run.state, Some(WaitingApproval), Some(NEEDS_CLARIFICATION), ClarificationData(reason), now)
    else Transitioned(run.state, Some(WaitingApproval), Some(APPROVAL_REQUIRED), DraftData(llm.value), now)
  }

  function FinishStep(s: Sys, a: Action): Sys
    requires a.FinishUnapproved? && a.t in s.runs && s.runs[a.t].Elected?
  {
    var run := s.runs[a.t];
    match UpsertState(s.stores, WaitingState(run, a.llm, a.reason, a.now))
    case Failure(_) => WithoutRun(s, a.t)
    case Success(st) =>
      if !Lands(a.outcome) then WithoutRun(s, a.t)
      else if a.llm.None? then WithoutRun(s.(stores := st), a.t)
      else WithoutRun(s.(stores := st, drafts := s.drafts[run.q.k := a.llm.value]), a.t)
  }

  /** A request belongs to the identity its key was derived from, and an approved run holds that identity's grant. */
  predicate Enabled(s: Sys, a: Action) {
    match a
    case Grant(_) => true
    case StartApproved(t, q) => t !in s.runs && q.k in s.granted
    case Read(t, _) => t in s.runs && s.runs[t].Approved?
    case Transact(t, _, _, _, _, _, _) => t in s.runs && s.runs[t].Prepared?
    case RegisterUnapproved(t, _, _, _) => t !in s.runs
    case FinishUnapproved(t, _, _, _, _) => t in s.runs && s.runs[t].Elected?
    case Drop(t) => t in s.runs
  }

  function Next(s: Sys, a: Action): Sys {
    if !Enabled(s, a) then s
    else match a
      case Grant(k) => s.(granted := s.granted + {k})
      case StartApproved(t, q) => s.(runs := s.runs[t := Approved(q)])
      case Read(t, llm) => ReadStep(s, t, llm)
      case Transact(_, _, _, _, _, _, _) => TransactStep(s, a)
      case RegisterUnapproved(_, _, _, _) => RegisterStep(s, a)
      case FinishUnapproved(_, _, _, _, _) => FinishStep(s, a)
      case Drop(t) => WithoutRun(s, t)
  }

  function RunAll(s: Sys, actions: seq<Action>): Sys
    decreases |actions|
  {
    if actions == [] then s else RunAll(Next(s, actions[0]), actions[1..])
  }
}
