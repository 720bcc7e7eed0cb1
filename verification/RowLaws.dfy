/** What the operations of delivery may do to a row, in the row's own fields and in plain numbers. */
module RowLaws {
  import opened Wrappers
  import opened Text
  import opened Orders
  import opened Delivery
  import opened DispatchProtocol

  /** 9999-12-31T23:59:59.999999 in microseconds. */
  const LAST_DATETIME: Instant := 253_402_300_799_999_999

  // ----- claiming and sweeping -----

  predicate Due(m: Message, now: Instant) {
    && (m.status == Pending || (m.status == Claimed && m.claimedUntil.Some? && m.claimedUntil.value <= now))
    && (m.nextAttemptAt.Some? ==> m.nextAttemptAt.value <= now)
  }

  predicate Leased(m: Message, m': Message, now: Instant, token: string, owner: string, leaseSeconds: nat) {
    m' == m.(status := Claimed, claimToken := Some(token), claimOwner := Some(owner),
             claimedUntil := Some(now + leaseSeconds * 1_000_000))
  }

  predicate SendLapsed(m: Message, now: Instant) {
    m.status == Sending && m.claimedUntil.Some? && m.claimedUntil.value <= now
  }

  predicate LostSight(m: Message, m': Message, error: DeliveryError) {
    m' == m.(status := Uncertain, claimToken := None, claimOwner := None, claimedUntil := None,
             lastError := Some(error))
  }

  ghost predicate Before(m1: Message, m2: Message) {
    m1.createdAt < m2.createdAt || (m1.createdAt == m2.createdAt && LexicallyBefore(m1.id, m2.id))
  }

  /** The rows a claim or a sweep may choose from. */
  predicate Concerns(k: RowKey, m: Message, tenant: string, eventType: Option<string>) {
    k.tenant == tenant && (eventType.Some? ==> m.event.eventType == eventType.value)
  }

  /** These rows were leased: the first due ones, at most `limit`, oldest first, the i-th under the i-th token until the
      lease is over; every other row is as it was, and if it was due, then the limit was used up by older ones. */
  ghost predicate LeasedFirst(rows: Rows, chosen: seq<RowKey>, tenant: string, eventType: Option<string>, now: Instant,
                              limit: nat, owner: string, leaseSeconds: nat, token: nat -> string,
                              claimed: seq<Message>, rows': Rows)
  {
    && |chosen| == |claimed| <= limit && rows'.Keys == rows.Keys
    && (forall i :: 0 <= i < |chosen| ==>
          && chosen[i] in rows && chosen[i] in rows' && rows'[chosen[i]] == claimed[i]
          && Concerns(chosen[i], rows[chosen[i]], tenant, eventType) && Due(rows[chosen[i]], now)
          && Leased(rows[chosen[i]], claimed[i], now, token(i), owner, leaseSeconds))
    && (forall i, j :: 0 <= i < j < |chosen| ==> Before(rows[chosen[i]], rows[chosen[j]]))
    && (forall k :: k in rows && k !in chosen ==>
          && k in rows' && rows'[k] == rows[k]
          && (Concerns(k, rows[k], tenant, eventType) && Due(rows[k], now) ==>
                |chosen| == limit && forall i :: 0 <= i < |chosen| ==> Before(rows[chosen[i]], rows[k])))
  }

  ghost predicate ClaimedRightly(rows: Rows, tenant: string, eventType: Option<string>, now: Instant, limit: nat,
                                 owner: string, leaseSeconds: nat, token: nat -> string, claimed: seq<Message>,
                                 rows': Rows)
  {
    exists chosen ::
      LeasedFirst(rows, chosen, tenant, eventType, now, limit, owner, leaseSeconds, token, claimed, rows')
  }

  /** These rows were swept: the first ones whose send has outlived its lease, in the same way. */
  ghost predicate LostFirst(rows: Rows, chosen: seq<RowKey>, tenant: string, eventType: Option<string>, now: Instant,
                             limit: nat, error: DeliveryError, swept: seq<Message>, rows': Rows)
  {
    && |chosen| == |swept| <= limit && rows'.Keys == rows.Keys
    && (forall i :: 0 <= i < |chosen| ==>
          && chosen[i] in rows && chosen[i] in rows' && rows'[chosen[i]] == swept[i]
          && Concerns(chosen[i], rows[chosen[i]], tenant, eventType) && SendLapsed(rows[chosen[i]], now)
          && LostSight(rows[chosen[i]], swept[i], error))
    && (forall i, j :: 0 <= i < j < |chosen| ==> Before(rows[chosen[i]], rows[chosen[j]]))
    && (forall k :: k in rows && k !in chosen ==>
          && k in rows' && rows'[k] == rows[k]
          && (Concerns(k, rows[k], tenant, eventType) && SendLapsed(rows[k], now) ==>
                |chosen| == limit && forall i :: 0 <= i < |chosen| ==> Before(rows[chosen[i]], rows[k])))
  }

  ghost predicate SweptRightly(rows: Rows, tenant: string, eventType: Option<string>, now: Instant, limit: nat,
                               error: DeliveryError, swept: seq<Message>, rows': Rows)
  {
    exists chosen :: LostFirst(rows, chosen, tenant, eventType, now, limit, error, swept, rows')
  }

  /** The row is as it was, unless it is a send whose lease was over. */
  predicate SendKeptOrLapsed(rows: Rows, rows': Rows, k: RowKey, now: Instant)
    requires k in rows
  {
    && k in rows'
    && (rows'[k] != rows[k] ==>
          rows[k].status == Sending && rows[k].claimedUntil.Some? && rows[k].claimedUntil.value <= now)
  }

  /** A sweep only touches sends whose lease is over; every send within its lease is as it was. */
  lemma RunningSendIsLeftAlone(rows: Rows, tenant: string, eventType: Option<string>, now: Instant, limit: nat,
                               error: DeliveryError, swept: seq<Message>, rows': Rows, k: RowKey)
    requires SweptRightly(rows, tenant, eventType, now, limit, error, swept, rows') && k in rows
    ensures SendKeptOrLapsed(rows, rows', k, now) && (k.tenant != tenant ==> rows'[k] == rows[k])
    ensures rows[k].status == Sending && rows[k].claimedUntil.Some? && rows[k].claimedUntil.value > now ==>
      rows'[k] == rows[k]
  {
    var chosen :| LostFirst(rows, chosen, tenant, eventType, now, limit, error, swept, rows');
    if k in chosen {
      var i :| 0 <= i < |chosen| && chosen[i] == k;
    }
  }

  lemma SendsKeptOrLapsed(rows: Rows, tenant: string, eventType: Option<string>, now: Instant, limit: nat,
                          error: DeliveryError, swept: seq<Message>, rows': Rows)
    requires SweptRightly(rows, tenant, eventType, now, limit, error, swept, rows')
    ensures forall k :: k in rows ==> SendKeptOrLapsed(rows, rows', k, now)
  {
    forall k | k in rows ensures SendKeptOrLapsed(rows, rows', k, now) {
      RunningSendIsLeftAlone(rows, tenant, eventType, now, limit, error, swept, rows', k);
    }
  }

  // ----- transitions -----

  /** The status a transition starts from. */
  predicate StartsFrom(c: Change, status: Status) {
    match c
    case StartSending(_) => status == Claimed
    case FailClaim(_) => status == Claimed
    case Release(_) => status == Claimed
    case Publish(_) => status == Sending
    case Fail(_) => status == Sending
    case LoseTrack(_) => status == Sending
    case Reschedule(_, _) => status == Sending
  }

  /** What each transition leaves of the row. */
  predicate ChangedTo(m: Message, c: Change, m': Message) {
    var free := m.(claimToken := None, claimOwner := None, claimedUntil := None);
    match c
    case StartSending(at) => m' == m.(status := Sending, sendingAt := Some(at), attempts := m.attempts + 1)
    case FailClaim(e) => m' == free.(status := Failed, lastError := Some(e))
    case Release(next) => m' == free.(status := Pending, nextAttemptAt := next)
    case Publish(at) => m' == free.(status := Published, publishedAt := Some(at), lastError := None)
    case Fail(e) => m' == free.(status := Failed, lastError := Some(e))
    case LoseTrack(e) => m' == free.(status := Uncertain, lastError := Some(e))
    case Reschedule(at, e) =>
      m' == free.(status := Pending, nextAttemptAt := Some(at), sendingAt := None, lastError := Some(e))
  }

  predicate IsNamed(rows: Rows, k: RowKey, tenant: string, id: string) {
    k in rows && k.tenant == tenant && rows[k].id == id
  }

  /** The row with that id moves, and it alone, if the token is on it and its status is the right one, unless a claim
      would be failed that was attempted before; otherwise the reply says what was missing, first of all the token. */
  ghost predicate MovedUnderToken(rows: Rows, tenant: string, id: string, token: string, c: Change,
                                  r: Result<Message, StoreError>, rows': Rows)
  {
    && (r.Failure? ==> rows' == rows)
    && (token == "" ==> r == Failure(PermissionDenied))
    && (token != "" && (forall k :: !IsNamed(rows, k, tenant, id)) ==> r == Failure(NotFound))
    && forall k :: IsNamed(rows, k, tenant, id) && token != "" ==>
         var m := rows[k];
         if m.claimToken != Some(token) then r == Failure(PermissionDenied)
         else if !StartsFrom(c, m.status) then r == Failure(Conflict)
         else if c.FailClaim? && m.attempts > 0 then r == Failure(InvalidState)
         else r.Success? && ChangedTo(m, c, r.value) && rows' == rows[k := r.value]
  }

  /** An operator's decision moves an uncertain row, and only such a one. */
  ghost predicate Decided(rows: Rows, tenant: string, id: string, c: OperatorChange, r: Result<Message, StoreError>,
                          rows': Rows)
  {
    && (r.Failure? ==> rows' == rows)
    && ((forall k :: !IsNamed(rows, k, tenant, id)) ==> r == Failure(NotFound))
    && forall k :: IsNamed(rows, k, tenant, id) ==>
         var m := rows[k];
         if m.status != Uncertain then r == Failure(Conflict)
         else r.Success? && rows' == rows[k := r.value]
              && r.value == if c.ResolveDelivered?
                            then m.(status := Published, publishedAt := Some(c.at), lastError := None)
                            else m.(status := Pending, nextAttemptAt := Some(c.at), sendingAt := None,
                                    publishedAt := None)
  }

  /** An uncertain reminder may be declared delivered, or retried unless it was attempted four times. */
  predicate Decidable(m: Message, retry: bool) {
    m.event.eventType == "notification.requested" && m.status == Uncertain && !(retry && m.attempts >= 4)
  }

  predicate DecidedAs(m: Message, retry: bool, now: Instant, m': Message) {
    m' == if retry then m.(status := Pending, nextAttemptAt := Some(now), sendingAt := None, publishedAt := None)
          else m.(status := Published, publishedAt := Some(now), lastError := None)
  }

  // ----- what is sent, and what is recorded -----

  /** The payload of a reminder that can be sent. */
  predicate Sendable(e: Event) {
    && e.eventType == "notification.requested" && e.subject.Some? && e.subject.value != ""
    && (e.channel == Some("telegram") || e.channel == Some("whatsapp"))
    && e.recipient.Some? && !Blank(e.recipient.value) && e.body.Some? && !Blank(e.body.value)
  }

  /** The request is the message's next attempt: its channel, its recipient, its text. */
  predicate Carries(request: Request, m: Message) {
    && m.event.channel == Some(request.channel) && m.event.recipient == Some(request.recipient)
    && m.event.body == Some(request.body)
    && request.idempotencyKey == m.id + ":attempt:" + Decimal(m.attempts + 1)
  }

  /** The answer names the request it is for. */
  predicate Echoes(a: Answer, sending: Message) {
    && a.Answered? && a.result.idempotencyKey == sending.id + ":attempt:" + Decimal(sending.attempts)
    && sending.event.channel == Some(a.result.channel)
  }

  predicate UnknownAt(e: DeliveryError, code: Option<int>, now: Instant) {
    e.category == UnknownCategory && e.code == UnknownCode && e.providerCode == code && e.occurredAt == now
  }

  /** Which error a known failure is stored as: rate limits first, then outages, then refused credentials. */
  predicate KnownAt(e: DeliveryError, transient: bool, code: Option<int>, now: Instant) {
    && e.providerCode == code && e.occurredAt == now
    && (e.code == RateLimited <==> code == Some(429)) && (e.category == RateLimitedCategory <==> code == Some(429))
    && (e.code == ProviderUnavailable <==> transient && (code.None? || code.value >= 500))
    && (e.category == Network <==> transient && (code.None? || code.value >= 500))
    && (e.code == AuthenticationFailed <==> code == Some(401) || code == Some(403))
    && (e.code == RateLimited || e.code == ProviderUnavailable || e.code == AuthenticationFailed
        || e.code == RequestRejected)
    && (e.category == RateLimitedCategory || e.category == Network || e.category == Rejected)
  }

  /** The time of the next attempt after attempt `n` failed at `now`: once the delay of that attempt and the provider's
      own delay are over, no later than that, and never past the last datetime. */
  predicate DueAgain(v: Instant, n: nat, now: Instant, retryAfter: Option<int>) {
    var own := now + (if n == 1 then 30 else if n == 2 then 120 else 300) * 1_000_000;
    var asked := if retryAfter.Some? then now + retryAfter.value * 1_000_000 else own;
    && v <= LAST_DATETIME && (v == own || v == asked || v == LAST_DATETIME)
    && (v >= own || v == LAST_DATETIME) && (v >= asked || v == LAST_DATETIME)
    && (v == LAST_DATETIME ==> own >= LAST_DATETIME || asked >= LAST_DATETIME)
  }

  /** What a worker stores for the answer to a message it is sending. */
  predicate RecordedAs(sending: Message, a: Answer, now: Instant, m': Message) {
    var free := sending.(claimToken := None, claimOwner := None, claimedUntil := None);
    if !Echoes(a, sending) then
      m'.lastError.Some? && UnknownAt(m'.lastError.value, None, now)
      && m' == free.(status := Uncertain, lastError := m'.lastError)
    else
      match a.result.outcome
      case Delivered => m' == free.(status := Published, publishedAt := Some(now), lastError := None)
      case Permanent =>
        && m'.lastError.Some? && KnownAt(m'.lastError.value, false, a.result.providerCode, now)
        && m' == free.(status := Failed, lastError := m'.lastError)
      case OutcomeUnknown =>
        && m'.lastError.Some? && UnknownAt(m'.lastError.value, a.result.providerCode, now)
        && m' == free.(status := Uncertain, lastError := m'.lastError)
      case KnownTransient =>
        && m'.lastError.Some? && KnownAt(m'.lastError.value, true, a.result.providerCode, now)
        && if sending.attempts >= 4 then m' == free.(status := Failed, lastError := m'.lastError)
           else
             && m'.nextAttemptAt.Some?
             && (sending.attempts >= 1 ==>
                   DueAgain(m'.nextAttemptAt.value, sending.attempts, now, a.result.retryAfter))
             && m' == free.(status := Pending, nextAttemptAt := m'.nextAttemptAt, sendingAt := None,
                            lastError := m'.lastError)
  }

  /** What has become of a claimed message: released for half a minute, failed as malformed, or confirmed, sent and
      recorded with the provider's answer. */
  predicate DealtWith(m: Message, approved: bool, now: Instant, confirmedAt: Instant, recordedAt: Instant, a: Answer,
                      m': Message)
  {
    if !approved then ChangedTo(m, Release(Some(now + 30_000_000)), m')
    else if !Sendable(m.event) then
      ChangedTo(m, FailClaim(DeliveryError(Internal, InternalError, None, confirmedAt)), m')
    else
      RecordedAs(m.(status := Sending, sendingAt := Some(confirmedAt), attempts := m.attempts + 1), a, recordedAt, m')
  }

  lemma RecordedChangeShows(sending: Message, a: Answer, now: Instant)
    ensures RecordedAs(sending, a, now, Changed(sending, RecordedChange(sending, a, now)))
  {
    hide Decimal;
  }
}
