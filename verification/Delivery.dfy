/** Outbox messages: their per-status validity rule, and every transition as a function on one message. */
module Delivery {
  import opened Wrappers
  import opened Text

  /** Aware datetimes, as microseconds since 1970 UTC. */
  type Instant = int

  const SECOND: int := 1_000_000
  /** 9999-12-31T23:59:59.999999; adding past it raises OverflowError. */
  const DATETIME_MAX: Instant := 253_402_300_799_999_999

  const MAX_DELIVERY_ATTEMPTS: nat := 4
  const REMINDER_NOTIFICATION: string := "notification.requested"
  /** Whole seconds. */
  const RETRY_DELAYS: seq<nat> := [30, 120, 300]
  const RELEASE_DELAY: nat := 30

  datatype Status = Pending | Claimed | Sending | Published | Failed | Uncertain

  datatype Category = Network | RateLimitedCategory | Rejected | Configuration | Internal | UnknownCategory

  datatype Code =
    | Timeout | ConnectionFailed | RateLimited | ProviderUnavailable | AuthenticationFailed
    | RequestRejected | InvalidConfiguration | InternalError | UnknownCode

  datatype DeliveryError =
    DeliveryError(category: Category, code: Code, providerCode: Option<int>, occurredAt: Instant)

  /** The event envelope; the data fields are None when missing or not text. */
  datatype Event = Event(
    id: string, eventType: string, subject: Option<string>,
    channel: Option<string>, recipient: Option<string>, body: Option<string>)

  datatype Message = Message(
    tenant: string, id: string, event: Event, idempotencyKey: string,
    status: Status, claimToken: Option<string>, claimOwner: Option<string>, claimedUntil: Option<Instant>,
    nextAttemptAt: Option<Instant>, attempts: nat, createdAt: Instant,
    sendingAt: Option<Instant>, publishedAt: Option<Instant>, lastError: Option<DeliveryError>)

  /** The dictionary key of a row: tenant and idempotency key. */
  datatype RowKey = RowKey(tenant: string, idempotencyKey: string)

  type Rows = map<RowKey, Message>

  /** The exceptions a delivery transaction can end in; InvalidState is the validity rule's ValueError,
      Refused the dispatcher's own. */
  datatype StoreError = NotFound | PermissionDenied | Conflict | InvalidState | Refused | Overflow

  /** Python truth of an optional string. */
  predicate Truthy(o: Option<string>) {
    o.Some? && o.value != ""
  }

  predicate Unclaimed(m: Message) {
    m.claimToken.None? && m.claimOwner.None? && m.claimedUntil.None?
  }

  predicate HoldsClaim(m: Message) {
    Truthy(m.claimToken) && Truthy(m.claimOwner) && m.claimedUntil.Some?
  }

  /** The validity rule every stored message must satisfy. */
  predicate StateMetadata(m: Message) {
    match m.status
    case Pending => Unclaimed(m) && m.sendingAt.None? && m.publishedAt.None?
    case Claimed => HoldsClaim(m) && m.sendingAt.None? && m.publishedAt.None?
    case Sending => HoldsClaim(m) && m.sendingAt.Some? && m.attempts >= 1 && m.publishedAt.None?
    case Published => m.publishedAt.Some? && m.lastError.None? && Unclaimed(m)
    case Failed =>
      && m.lastError.Some?
      && ((m.sendingAt.None? && m.attempts == 0) || (m.sendingAt.Some? && m.attempts >= 1))
      && m.publishedAt.None? && Unclaimed(m)
    case Uncertain =>
      m.sendingAt.Some? && m.lastError.Some? && m.attempts >= 1 && m.publishedAt.None? && Unclaimed(m)
  }

  // ----- transitions guarded by a claim token -----

  datatype Change =
    | StartSending(startedAt: Instant)
    | FailClaim(error: DeliveryError)
    | Release(releasedUntil: Option<Instant>)
    | Publish(publishedAt: Instant)
    | Fail(error: DeliveryError)
    | LoseTrack(error: DeliveryError)
    | Reschedule(retryAt: Instant, error: DeliveryError)

  function ExpectedStatus(c: Change): Status {
    if c.StartSending? || c.FailClaim? || c.Release? then Claimed else Sending
  }

  function WithoutClaim(m: Message): Message {
    m.(claimToken := None, claimOwner := None, claimedUntil := None)
  }

  function Changed(m: Message, c: Change): Message {
    match c
    case StartSending(at) => m.(status := Sending, sendingAt := Some(at), attempts := m.attempts + 1)
    case FailClaim(e) => WithoutClaim(m).(status := Failed, lastError := Some(e))
    case Release(next) => WithoutClaim(m).(status := Pending, nextAttemptAt := next)
    case Publish(at) => WithoutClaim(m).(status := Published, publishedAt := Some(at), lastError := None)
    case Fail(e) => WithoutClaim(m).(status := Failed, lastError := Some(e))
    case LoseTrack(e) => WithoutClaim(m).(status := Uncertain, lastError := Some(e))
    case Reschedule(at, e) =>
      WithoutClaim(m).(status := Pending, nextAttemptAt := Some(at), sendingAt := None, lastError := Some(e))
  }

  /** A transition under a token: token first, then status, then the validity rule on the copy. */
  function GuardedChange(m: Message, token: string, c: Change): Result<Message, StoreError> {
    if token == "" || m.claimToken != Some(token) then Failure(PermissionDenied)
    else if m.status != ExpectedStatus(c) then Failure(Conflict)
    else if StateMetadata(Changed(m, c)) then Success(Changed(m, c))
    else Failure(InvalidState)
  }

  // ----- operator reconciliation, claims and sweeps -----

  datatype OperatorChange = ResolveDelivered(at: Instant) | ResolveRetry(at: Instant)

  function Resolved(m: Message, c: OperatorChange): Message {
    match c
    case ResolveDelivered(at) => m.(status := Published, publishedAt := Some(at), lastError := None)
    case ResolveRetry(at) =>
      m.(status := Pending, nextAttemptAt := Some(at), sendingAt := None, publishedAt := None)
  }

  function OperatorGuardedChange(m: Message, c: OperatorChange): Result<Message, StoreError> {
    if m.status != Uncertain then Failure(Conflict)
    else if StateMetadata(Resolved(m, c)) then Success(Resolved(m, c))
    else Failure(InvalidState)
  }

  predicate OfType(m: Message, eventType: Option<string>) {
    eventType.None? || m.event.eventType == eventType.value
  }

  predicate NoLaterThan(o: Option<Instant>, now: Instant) {
    o.None? || o.value <= now
  }

  predicate ExpiredClaim(m: Message, now: Instant) {
    m.status == Claimed && m.claimedUntil.Some? && m.claimedUntil.value <= now
  }

  predicate Claimable(m: Message, now: Instant) {
    (m.status == Pending || ExpiredClaim(m, now)) && NoLaterThan(m.nextAttemptAt, now)
  }

  predicate ExpiredSending(m: Message, now: Instant) {
    m.status == Sending && m.claimedUntil.Some? && m.claimedUntil.value <= now
  }

  /** A lease is only ever given once the back-off is over, so it outlives it. */
  predicate LeaseOutlivesBackOff(m: Message) {
    m.status == Claimed && m.nextAttemptAt.Some? && m.claimedUntil.Some? ==>
      m.nextAttemptAt.value < m.claimedUntil.value
  }

  function LeaseEnd(now: Instant, leaseSeconds: nat): Instant {
    now + leaseSeconds * SECOND
  }

  /** `claim_due` stores this copy without running the validity rule. */
  function ClaimedCopy(m: Message, token: string, owner: string, until: Instant): Message {
    m.(status := Claimed, claimToken := Some(token), claimOwner := Some(owner), claimedUntil := Some(until))
  }

  function SweptCopy(m: Message, error: DeliveryError): Message {
    WithoutClaim(m).(status := Uncertain, lastError := Some(error))
  }

  // ----- retry times, errors, keys and requests -----

  /** `_retry_at`: clamps instead of overflowing. */
  function RetryAt(now: Instant, defaultDelay: nat, retryAfter: Option<int>): Instant {
    var seconds := BackOff(defaultDelay, retryAfter);
    if now + seconds * SECOND > DATETIME_MAX then DATETIME_MAX else now + seconds * SECOND
  }

  function BackOff(defaultDelay: nat, retryAfter: Option<int>): (seconds: int)
    ensures seconds >= defaultDelay && (retryAfter.Some? ==> seconds >= retryAfter.value)
  {
    if retryAfter.Some? && retryAfter.value > defaultDelay then retryAfter.value else defaultDelay
  }

  /** `RETRY_DELAYS[attempts - 1]` with Python's indexing, which wraps a negative index. */
  function RetryDelay(attempts: nat): (delay: nat)
    requires attempts < MAX_DELIVERY_ATTEMPTS
  {
    RETRY_DELAYS[if attempts == 0 then |RETRY_DELAYS| - 1 else attempts - 1]
  }

  function UnknownError(now: Instant, providerCode: Option<int>): DeliveryError {
    DeliveryError(UnknownCategory, UnknownCode, providerCode, now)
  }

  function InvalidPayloadError(now: Instant): DeliveryError {
    DeliveryError(Internal, InternalError, None, now)
  }

  /** `_known_error`, by provider code and whether the outcome was known to be transient. */
  function KnownError(transient: bool, code: Option<int>, now: Instant): DeliveryError {
    if code == Some(429) then DeliveryError(RateLimitedCategory, RateLimited, code, now)
    else if transient && (code.None? || code.value >= 500) then
      DeliveryError(Network, ProviderUnavailable, code, now)
    else if code == Some(401) || code == Some(403) then DeliveryError(Rejected, AuthenticationFailed, code, now)
    else DeliveryError(Rejected, RequestRejected, code, now)
  }

  const ATTEMPT_SEPARATOR: string := ":attempt:"

  function AttemptKey(id: string, attempt: nat): string {
    id + ATTEMPT_SEPARATOR + Decimal(attempt)
  }

  lemma AttemptKeyInjective(id1: string, n1: nat, id2: string, n2: nat)
    requires AttemptKey(id1, n1) == AttemptKey(id2, n2)
    ensures id1 == id2 && n1 == n2
  {
    JoinedNumeralInjective(id1, id2, ATTEMPT_SEPARATOR, n1, n2);
  }

  datatype Request = Request(channel: string, recipient: string, body: string, idempotencyKey: string)

  /** The checks of `_notification_request`, none of which looks at delivery state. */
  predicate Requestable(e: Event) {
    && e.eventType == REMINDER_NOTIFICATION
    && Truthy(e.subject)
    && (e.channel == Some("telegram") || e.channel == Some("whatsapp"))
    && e.recipient.Some? && !Blank(e.recipient.value)
    && e.body.Some? && !Blank(e.body.value)
  }

  function NotificationRequest(m: Message, dispatchKey: string): Option<Request> {
    if Requestable(m.event)
    then Some(Request(m.event.channel.value, m.event.recipient.value, m.event.body.value, dispatchKey))
    else None
  }

  // ----- what the validity rule decides -----

  /** A transition that passes its token and status guards is refused by the validity rule exactly when
      it would fail a claim on a message that was attempted before. */
  lemma ValidityRefusesExactly(m: Message, token: string, c: Change)
    requires StateMetadata(m)
    ensures GuardedChange(m, token, c) == Failure(InvalidState) <==>
            token != "" && m.claimToken == Some(token) && m.status == ExpectedStatus(c)
            && c.FailClaim? && m.attempts >= 1
  {}

  /** Claiming, sweeping and reconciling keep the rule although a claim never checks it. */
  lemma UncheckedCopiesAreValid(m: Message, token: string, owner: string, now: Instant, until: Instant,
                                error: DeliveryError, c: OperatorChange)
    requires StateMetadata(m)
    ensures Claimable(m, now) && token != "" && owner != "" ==> StateMetadata(ClaimedCopy(m, token, owner, until))
    ensures ExpiredSending(m, now) ==> StateMetadata(SweptCopy(m, error))
    ensures OperatorGuardedChange(m, c) != Failure(InvalidState)
  {}
}
