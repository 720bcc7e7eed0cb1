/** The delivery protocol as a step system: any number of workers, each transaction one atomic step,
    crashes anywhere between steps, and clocks that need not agree. */
module DispatchProtocol {
  import opened Wrappers
  import opened Delivery

  /** The delivery fields a scheduled reminder mirrors from its outbox message. */
  datatype Reminder = Reminder(
    status: Status, attempts: nat, nextAttemptAt: Option<Instant>, sendingAt: Option<Instant>,
    publishedAt: Option<Instant>, lastError: Option<DeliveryError>, sent: bool)

  datatype ReminderKey = ReminderKey(tenant: string, reminderId: string)

  const FRESH_REMINDER := Reminder(Pending, 0, None, None, None, None, false)

  function MirrorOf(m: Message): Reminder {
    Reminder(m.status, m.attempts, m.nextAttemptAt, m.sendingAt, m.publishedAt, m.lastError, m.status != Pending)
  }

  // ----- the provider -----

  datatype Outcome = Delivered | KnownTransient | Permanent | OutcomeUnknown

  datatype NotificationResult = NotificationResult(
    notificationId: Option<string>, channel: string, idempotencyKey: string, outcome: Outcome,
    providerCode: Option<int>, retryAfter: Option<int>)

  /** The result rules every provider answer obeys. */
  predicate LegalResult(r: NotificationResult) {
    && (r.providerCode.Some? ==> 100 <= r.providerCode.value <= 599)
    && (r.retryAfter.Some? ==> r.retryAfter.value > 0 && r.outcome == KnownTransient)
    && (r.outcome == Delivered <==> r.notificationId.Some?)
    && (r.outcome == Delivered ==> r.providerCode.None?)
  }

  datatype Answer = Raised | Answered(result: NotificationResult)

  /** An answer counts as its outcome only when it echoes the request's key and channel. */
  function Verdict(m: Message, a: Answer): Outcome {
    if a.Raised? || a.result.idempotencyKey != AttemptKey(m.id, m.attempts)
       || Some(a.result.channel) != m.event.channel
    then OutcomeUnknown
    else a.result.outcome
  }

  // ----- state -----

  /** One claimed message in a worker's hands, with the worker's local copy of it. */
  datatype Task =
    | Holding(k: RowKey, m: Message, now: Instant)
    | Confirmed(k: RowKey, m: Message)
    | Awaiting(k: RowKey, m: Message)
    | Replied(k: RowKey, m: Message, answer: Answer)

  /** What an observer of provider and operator sees, in order. */
  datatype Entry =
    | ClaimTaken(k: RowKey, attempts: nat, now: Instant)
    | Sent(k: RowKey, attempt: nat, request: Request)
    | Answer(k: RowKey, attempt: nat, verdict: Outcome)
    | BackedOff(k: RowKey, attempt: nat, at: Instant, retryAfter: Option<int>)
    | RetryChosen(k: RowKey, attempt: nat)
    | DeliveryChosen(k: RowKey, attempt: nat)

  datatype Sys = Sys(
    rows: Rows, reminders: map<ReminderKey, Reminder>, tasks: map<nat, Task>,
    usedTokens: set<string>, mirrored: set<RowKey>, log: seq<Entry>)

  const EMPTY := Sys(map[], map[], map[], {}, {}, [])

  // ----- mirroring -----

  function SubjectKey(m: Message): ReminderKey {
    ReminderKey(m.tenant, m.event.subject.GetOr(""))
  }

  predicate HasReminder(reminders: map<ReminderKey, Reminder>, m: Message) {
    Truthy(m.event.subject) && SubjectKey(m) in reminders
  }

  /** Store a row and mirror it when its reminder exists (`_mirror_terminal`, `_mirror_pre_io_failed`). */
  function StoreAndMirror(s: Sys, k: RowKey, m: Message): Sys {
    if HasReminder(s.reminders, m)
    then s.(rows := s.rows[k := m], reminders := s.reminders[SubjectKey(m) := MirrorOf(m)],
            mirrored := s.mirrored + {k})
    else s.(rows := s.rows[k := m])
  }

  /** What a worker sends for the message it has confirmed. */
  function RequestFor(m: Message): Request {
    Request(m.event.channel.GetOr(""), m.event.recipient.GetOr(""), m.event.body.GetOr(""),
            AttemptKey(m.id, m.attempts))
  }

  // ----- transactions -----

  /** The outcome of one transaction: the next state, or the exception that rolled it back. */
  type Attempt = Result<Sys, StoreError>

  /** A guarded change followed by `_mirror`, which raises when there is no reminder to mirror to. */
  function ChangeStrict(s: Sys, k: RowKey, token: string, c: Change): Attempt {
    match Guarded(s, k, token, c)
    case Failure(e) => Failure(e)
    case Success(m) => if HasReminder(s.reminders, m) then Success(StoreAndMirror(s, k, m)) else Failure(NotFound)
  }

  /** A guarded change followed by a mirror that tolerates a missing reminder. */
  function ChangeLenient(s: Sys, k: RowKey, token: string, c: Change): Attempt {
    match Guarded(s, k, token, c)
    case Failure(e) => Failure(e)
    case Success(m) => Success(StoreAndMirror(s, k, m))
  }

  function Guarded(s: Sys, k: RowKey, token: string, c: Change): Result<Message, StoreError> {
    if k in s.rows then GuardedChange(s.rows[k], token, c) else Failure(NotFound)
  }

  /** One row of the claim transaction: claim it, mirror it, or fail it when it cannot be mirrored. */
  function ClaimRow(s: Sys, k: RowKey, now: Instant, token: string, owner: string, leaseSeconds: nat): Attempt
    requires k in s.rows
  {
    var until := LeaseEnd(now, leaseSeconds);
    var c := ClaimedCopy(s.rows[k], token, owner, until);
    var s' := s.(usedTokens := s.usedTokens + {token}, log := s.log + [ClaimTaken(k, c.attempts, now)]);
    if until > DATETIME_MAX then Failure(Overflow)
    else if HasReminder(s.reminders, c) then Success(StoreAndMirror(s', k, c))
    else ChangeLenient(s'.(rows := s'.rows[k := c]), k, token, FailClaim(InvalidPayloadError(now)))
  }

  /** What a worker records for an answer to the message it is sending. */
  function RecordedChange(m: Message, a: Answer, now: Instant): Change {
    match Verdict(m, a)
    case Delivered => Publish(now)
    case KnownTransient =>
      var error := KnownError(true, a.result.providerCode, now);
      if m.attempts >= MAX_DELIVERY_ATTEMPTS then Fail(error)
      else Reschedule(RetryAt(now, RetryDelay(m.attempts), a.result.retryAfter), error)
    case Permanent => Fail(KnownError(false, a.result.providerCode, now))
    case OutcomeUnknown =>
      LoseTrack(UnknownError(now, if Mismatched(m, a) then None else a.result.providerCode))
  }

  predicate Mismatched(m: Message, a: Answer) {
    a.Raised? || a.result.idempotencyKey != AttemptKey(m.id, m.attempts)
    || Some(a.result.channel) != m.event.channel
  }

  function RecordEntries(k: RowKey, m: Message, a: Answer, now: Instant): seq<Entry> {
    if RecordedChange(m, a, now).Reschedule?
    then [BackedOff(k, m.attempts, now, a.result.retryAfter)]
    else []
  }

  /** `resolve_uncertain` on a reminder message. */
  function Resolve(s: Sys, k: RowKey, retry: bool, now: Instant): Attempt {
    if k !in s.rows then Failure(NotFound)
    else if s.rows[k].event.eventType != REMINDER_NOTIFICATION then Failure(Refused)
    else if retry && s.rows[k].attempts >= MAX_DELIVERY_ATTEMPTS then Failure(Refused)
    else
      match OperatorGuardedChange(s.rows[k], if retry then ResolveRetry(now) else ResolveDelivered(now))
      case Failure(e) => Failure(e)
      case Success(m) =>
        var s' := StoreAndMirror(s, k, m);
        Success(s'.(log := s'.log + [if retry then RetryChosen(k, m.attempts) else DeliveryChosen(k, m.attempts)]))
  }

  // ----- steps -----

  datatype Action =
    | Create(k: RowKey, m: Message, withReminder: bool)
    | Claim(t: nat, k: RowKey, now: Instant, token: string, owner: string, leaseSeconds: nat)
    | Proceed(t: nat, approved: bool, clock: Instant)
    | Send(t: nat)
    | Receive(t: nat, answer: Answer)
    | Record(t: nat, clock: Instant)
    | Sweep(k: RowKey, now: Instant)
    | Reconcile(k: RowKey, retry: bool, now: Instant)
    | Crash(t: nat)

  /** A new message, as `add` builds it; its ids are new, and a reminder is only ever created together
      with its one notification message. */
  predicate Creatable(s: Sys, k: RowKey, m: Message, withReminder: bool) {
    && k !in s.rows && m.tenant == k.tenant && m.idempotencyKey == k.idempotencyKey
    && m.status == Pending && m.attempts == 0 && Unclaimed(m)
    && m.sendingAt.None? && m.publishedAt.None? && m.lastError.None?
    && (withReminder ==> Notifies(m))
    && (Notifies(m) ==> SubjectKey(m) !in s.reminders)
    && (forall k' :: k' in s.rows ==> SameTenantDistinctIds(s.rows[k'], m) && SubjectsApart(s.rows[k'], m))
  }

  predicate SameTenantDistinctIds(m1: Message, m2: Message) {
    m1.tenant == m2.tenant ==> m1.id != m2.id
  }

  predicate SubjectsApart(m1: Message, m2: Message) {
    Notifies(m1) && Notifies(m2) ==> SubjectKey(m1) != SubjectKey(m2)
  }

  predicate Notifies(m: Message) {
    m.event.eventType == REMINDER_NOTIFICATION && Truthy(m.event.subject)
  }

  predicate Enabled(s: Sys, a: Action) {
    match a
    case Create(k, m, withReminder) => Creatable(s, k, m, withReminder)
    case Claim(t, k, now, token, owner, leaseSeconds) =>
      && t !in s.tasks && token != "" && token !in s.usedTokens && owner != "" && leaseSeconds >= 1
      && k in s.rows && s.rows[k].event.eventType == REMINDER_NOTIFICATION && Claimable(s.rows[k], now)
    case Proceed(t, _, _) => t in s.tasks && s.tasks[t].Holding?
    case Send(t) => t in s.tasks && s.tasks[t].Confirmed?
    case Receive(t, answer) =>
      t in s.tasks && s.tasks[t].Awaiting? && (answer.Answered? ==> LegalResult(answer.result))
    case Record(t, _) => t in s.tasks && s.tasks[t].Replied?
    case Sweep(k, now) =>
      k in s.rows && s.rows[k].event.eventType == REMINDER_NOTIFICATION && ExpiredSending(s.rows[k], now)
    case Reconcile(_, _, _) => true
    case Crash(t) => t in s.tasks
  }

  function Token(task: Task): string {
    task.m.claimToken.GetOr("")
  }

  /** The transaction a step runs on the stores, or the exception that ends it. */
  function Transaction(s: Sys, a: Action): Attempt
    requires Enabled(s, a)
  {
    match a
    case Create(k, m, withReminder) =>
      var s' := s.(rows := s.rows[k := m]);
      Success(if withReminder then s'.(reminders := s'.reminders[SubjectKey(m) := FRESH_REMINDER]) else s')
    case Claim(_, k, now, token, owner, leaseSeconds) => ClaimRow(s, k, now, token, owner, leaseSeconds)
    case Proceed(t, approved, clock) =>
      var task := s.tasks[t];
      if !approved then
        if task.now + RELEASE_DELAY * SECOND > DATETIME_MAX then Failure(Overflow)
        else ChangeStrict(s, task.k, Token(task), Release(Some(task.now + RELEASE_DELAY * SECOND)))
      else if !Requestable(task.m.event) then
        ChangeLenient(s, task.k, Token(task), FailClaim(InvalidPayloadError(clock)))
      else ChangeStrict(s, task.k, Token(task), StartSending(clock))
    case Send(t) =>
      var task := s.tasks[t];
      Success(s.(log := s.log + [Sent(task.k, task.m.attempts, RequestFor(task.m))]))
    case Receive(t, answer) =>
      var task := s.tasks[t];
      Success(s.(log := s.log + [Answer(task.k, task.m.attempts, Verdict(task.m, answer))]))
    case Record(t, clock) =>
      var task := s.tasks[t];
      (match ChangeLenient(s, task.k, Token(task), RecordedChange(task.m, task.answer, clock))
       case Failure(e) => Failure(e)
       case Success(s') => Success(s'.(log := s'.log + RecordEntries(task.k, task.m, task.answer, clock))))
    case Sweep(k, now) => Success(StoreAndMirror(s, k, SweptCopy(s.rows[k], UnknownError(now, None))))
    case Reconcile(k, retry, now) => Resolve(s, k, retry, now)
    case Crash(_) => Success(s)
  }

  function WithTask(s: Sys, t: nat, task: Option<Task>): Sys {
    if task.Some? then s.(tasks := s.tasks[t := task.value]) else s.(tasks := s.tasks - {t})
  }

  /** What the worker's task becomes once its transaction has committed as `s'`. */
  function TaskAfter(s: Sys, a: Action, s': Sys): Sys
    requires Enabled(s, a)
  {
    match a
    case Claim(t, k, now, _, _, _) =>
      if k in s'.rows && s'.rows[k].status == Claimed then WithTask(s', t, Some(Holding(k, s'.rows[k], now))) else s'
    case Proceed(t, _, _) =>
      var k := s.tasks[t].k;
      WithTask(s', t, if k in s'.rows && s'.rows[k].status == Sending then Some(Confirmed(k, s'.rows[k])) else None)
    case Send(t) => WithTask(s', t, Some(Awaiting(s.tasks[t].k, s.tasks[t].m)))
    case Receive(t, answer) => WithTask(s', t, Some(Replied(s.tasks[t].k, s.tasks[t].m, answer)))
    case Record(t, _) => WithTask(s', t, None)
    case Crash(t) => WithTask(s', t, None)
    case _ => s'
  }

  /** An exception rolls the transaction back and ends the worker's dispatch of the message. */
  function Aborted(s: Sys, a: Action): Sys {
    if a.Proceed? || a.Record? then WithTask(s, a.t, None) else s
  }

  /** One step; an action that is not enabled does nothing. */
  function Next(s: Sys, a: Action): Sys {
    if !Enabled(s, a) then s
    else match Transaction(s, a)
         case Success(s') => TaskAfter(s, a, s')
         case Failure(_) => Aborted(s, a)
  }

  function Run(s: Sys, actions: seq<Action>): Sys
    decreases |actions|
  {
    if actions == [] then s else Run(Next(s, actions[0]), actions[1..])
  }
}
