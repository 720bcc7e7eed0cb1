/** The PostgreSQL outbox: every delivery field is kept twice, in the columns that guard each statement and in
    the JSON payload that readers decode. */
module SqlOutbox {
  import opened Wrappers
  import opened Delivery
  import opened OutboxSpec

  datatype Columns = Columns(
    messageId: string, eventId: string, dispatchStatus: Status,
    claimToken: Option<string>, claimOwner: Option<string>, claimedUntil: Option<Instant>,
    nextAttemptAt: Option<Instant>, attempts: nat, createdAt: Instant,
    sendingAt: Option<Instant>, publishedAt: Option<Instant>,
    errorCategory: Option<Category>, errorCode: Option<Code>, errorProviderCode: Option<int>, errorAt: Option<Instant>,
    eventPayload: Event, fingerprint: Write)

  datatype SqlRow = SqlRow(columns: Columns, payload: Message)

  /** Rows by their primary key, tenant and idempotency key. */
  type Table = map<RowKey, SqlRow>

  // ----- the table's own constraints -----

  predicate NoError(c: Columns) {
    c.errorCategory.None? && c.errorCode.None? && c.errorProviderCode.None? && c.errorAt.None?
  }

  predicate HasError(c: Columns) {
    c.errorCategory.Some? && c.errorCode.Some? && c.errorAt.Some?
  }

  predicate NoClaim(c: Columns) {
    c.claimToken.None? && c.claimOwner.None? && c.claimedUntil.None?
  }

  predicate FullClaim(c: Columns) {
    c.claimToken.Some? && c.claimOwner.Some? && c.claimedUntil.Some?
  }

  /** `assistant_outbox_state_metadata_check` with `assistant_outbox_error_shape_check`. */
  predicate CheckConstraint(c: Columns) {
    && (NoError(c) || HasError(c))
    && match c.dispatchStatus
       case Pending => NoClaim(c) && c.sendingAt.None? && c.publishedAt.None?
       case Claimed => FullClaim(c) && c.sendingAt.None? && c.publishedAt.None?
       case Sending => FullClaim(c) && c.sendingAt.Some? && c.attempts > 0 && c.publishedAt.None?
       case Published => NoClaim(c) && c.publishedAt.Some? && NoError(c)
       case Failed =>
         && NoClaim(c) && c.publishedAt.None? && HasError(c)
         && ((c.attempts == 0 && c.sendingAt.None?) || (c.attempts > 0 && c.sendingAt.Some?))
       case Uncertain => NoClaim(c) && c.sendingAt.Some? && c.attempts > 0 && c.publishedAt.None? && HasError(c)
  }

  // ----- the message the columns describe -----

  function ColumnError(c: Columns): Option<DeliveryError> {
    if HasError(c)
    then Some(DeliveryError(c.errorCategory.value, c.errorCode.value, c.errorProviderCode, c.errorAt.value))
    else None
  }

  function FromColumns(k: RowKey, c: Columns): Message {
    Message(k.tenant, c.messageId, c.eventPayload, k.idempotencyKey, c.dispatchStatus, c.claimToken, c.claimOwner,
            c.claimedUntil, c.nextAttemptAt, c.attempts, c.createdAt, c.sendingAt, c.publishedAt, ColumnError(c))
  }

  /** The payload says exactly what the columns say. */
  predicate InSync(k: RowKey, row: SqlRow) {
    row.payload == FromColumns(k, row.columns) && row.columns.eventId == row.columns.eventPayload.id
    && (NoError(row.columns) || HasError(row.columns))
  }

  predicate RowSound(k: RowKey, row: SqlRow) {
    InSync(k, row) && StateMetadata(row.payload) && LeaseOutlivesBackOff(row.payload)
  }

  function Payloads(t: Table): (rows: Rows) {
    map k | k in t :: t[k].payload
  }

  function Described(t: Table): Rows {
    map k | k in t :: FromColumns(k, t[k].columns)
  }

  function Fingerprints(t: Table): map<RowKey, Write> {
    map k | k in t :: t[k].columns.fingerprint
  }

  /** Every row is sound, and the unique indexes on message and event ids hold. */
  ghost predicate TableSound(t: Table) {
    && (forall k {:trigger RowSound(k, t[k])} :: k in t ==> RowSound(k, t[k]))
    && (forall k1, k2 {:trigger EventsApart(t, k1, k2)} :: k1 in t && k2 in t ==> EventsApart(t, k1, k2))
    && IdsUnique(Payloads(t))
  }

  predicate EventsApart(t: Table, k1: RowKey, k2: RowKey)
    requires k1 in t && k2 in t
  {
    k1.tenant == k2.tenant && t[k1].columns.eventId == t[k2].columns.eventId ==> k1 == k2
  }

  lemma SoundTableDescribesPayloads(t: Table)
    requires TableSound(t)
    ensures Described(t) == Payloads(t)
  {
    forall k | k in t ensures FromColumns(k, t[k].columns) == t[k].payload {
      assert RowSound(k, t[k]);
    }
  }

  // ----- what a transition assigns, in the columns and in the payload -----

  datatype Update<T> = Keep | To(value: T)

  function Apply<T>(u: Update<T>, current: T): T {
    if u.To? then u.value else current
  }

  datatype Updates = Updates(
    claimToken: Update<Option<string>>, claimOwner: Update<Option<string>>, claimedUntil: Update<Option<Instant>>,
    nextAttemptAt: Update<Option<Instant>>, sendingAt: Update<Option<Instant>>, publishedAt: Update<Option<Instant>>,
    lastError: Update<Option<DeliveryError>>)

  const NO_UPDATES := Updates(Keep, Keep, Keep, Keep, Keep, Keep, Keep)
  const DROP_CLAIM := NO_UPDATES.(claimToken := To(None), claimOwner := To(None), claimedUntil := To(None))

  function TargetStatus(c: Change): Status {
    match c
    case StartSending(_) => Sending
    case FailClaim(_) => Failed
    case Release(_) => Pending
    case Publish(_) => Published
    case Fail(_) => Failed
    case LoseTrack(_) => Uncertain
    case Reschedule(_, _) => Pending
  }

  /** The updates each `mark_*` method, `release` and `reschedule` list. Unlike the in-memory `release`, this one
      also clears `sending_at`. */
  function UpdatesOf(c: Change): Updates {
    match c
    case StartSending(at) => NO_UPDATES.(sendingAt := To(Some(at)))
    case FailClaim(e) => DROP_CLAIM.(lastError := To(Some(e)))
    case Release(next) => DROP_CLAIM.(nextAttemptAt := To(next), sendingAt := To(None))
    case Publish(at) => DROP_CLAIM.(publishedAt := To(Some(at)), lastError := To(None))
    case Fail(e) => DROP_CLAIM.(lastError := To(Some(e)))
    case LoseTrack(e) => DROP_CLAIM.(lastError := To(Some(e)))
    case Reschedule(at, e) =>
      DROP_CLAIM.(nextAttemptAt := To(Some(at)), sendingAt := To(None), lastError := To(Some(e)))
  }

  function DecisionStatus(c: OperatorChange): Status {
    if c.ResolveDelivered? then Published else Pending
  }

  function UpdatesOfDecision(c: OperatorChange): Updates {
    match c
    case ResolveDelivered(at) => NO_UPDATES.(publishedAt := To(Some(at)), lastError := To(None))
    case ResolveRetry(at) => NO_UPDATES.(nextAttemptAt := To(Some(at)), sendingAt := To(None), publishedAt := To(None))
  }

  /** The assignments of one UPDATE; the error of a message is four columns. */
  function SetColumns(c: Columns, target: Status, u: Updates, increment: bool): Columns {
    var c' := c.(
      dispatchStatus := target, claimToken := Apply(u.claimToken, c.claimToken),
      claimOwner := Apply(u.claimOwner, c.claimOwner),
      claimedUntil := Apply(u.claimedUntil, c.claimedUntil), nextAttemptAt := Apply(u.nextAttemptAt, c.nextAttemptAt),
      sendingAt := Apply(u.sendingAt, c.sendingAt), publishedAt := Apply(u.publishedAt, c.publishedAt),
      attempts := if increment then c.attempts + 1 else c.attempts);
    match u.lastError
    case Keep => c'
    case To(None) => c'.(errorCategory := None, errorCode := None, errorProviderCode := None, errorAt := None)
    case To(Some(e)) =>
      c'.(errorCategory := Some(e.category), errorCode := Some(e.code), errorProviderCode := e.providerCode,
          errorAt := Some(e.occurredAt))
  }

  /** `payload || patch`; the attempts count is taken from the column, as it was before the statement. */
  function PatchPayload(m: Message, attempts: nat, target: Status, u: Updates, increment: bool): Message {
    m.(status := target, claimToken := Apply(u.claimToken, m.claimToken),
       claimOwner := Apply(u.claimOwner, m.claimOwner),
       claimedUntil := Apply(u.claimedUntil, m.claimedUntil), nextAttemptAt := Apply(u.nextAttemptAt, m.nextAttemptAt),
       sendingAt := Apply(u.sendingAt, m.sendingAt), publishedAt := Apply(u.publishedAt, m.publishedAt),
       lastError := Apply(u.lastError, m.lastError), attempts := if increment then attempts + 1 else m.attempts)
  }

  function Updated(row: SqlRow, target: Status, u: Updates, increment: bool): SqlRow {
    SqlRow(SetColumns(row.columns, target, u, increment),
           PatchPayload(row.payload, row.columns.attempts, target, u, increment))
  }

  /** One statement patches columns and payload alike, whatever it assigns. */
  lemma UpdateKeepsSync(k: RowKey, row: SqlRow, target: Status, u: Updates, increment: bool)
    requires InSync(k, row)
    ensures InSync(k, Updated(row, target, u, increment))
  {}

  /** On a sound row the SQL patch of each transition is the in-memory change. */
  lemma PatchIsChange(k: RowKey, row: SqlRow, c: Change)
    requires RowSound(k, row) && row.columns.dispatchStatus == ExpectedStatus(c)
    ensures Updated(row, TargetStatus(c), UpdatesOf(c), c.StartSending?).payload == Changed(row.payload, c)
  {}

  lemma PatchIsDecision(k: RowKey, row: SqlRow, c: OperatorChange)
    requires RowSound(k, row) && row.columns.dispatchStatus == Uncertain
    ensures Updated(row, DecisionStatus(c), UpdatesOfDecision(c), false).payload == Resolved(row.payload, c)
  {}

  /** The table's CHECK refuses a transition exactly when the validity rule refuses the message. */
  lemma CheckIsValidity(k: RowKey, row: SqlRow, c: Change)
    requires RowSound(k, row) && row.columns.dispatchStatus == ExpectedStatus(c)
    ensures var row' := Updated(row, TargetStatus(c), UpdatesOf(c), c.StartSending?);
      CheckConstraint(row'.columns) <==> StateMetadata(row'.payload)
  {
    PatchIsChange(k, row, c);
  }

  /** The CHECK and the validity rule ask the same of every row, but for a blank token or owner, which only the rule
      refuses. */
  lemma CheckDescribesValidity(k: RowKey, c: Columns)
    ensures StateMetadata(FromColumns(k, c)) && (NoError(c) || HasError(c)) <==>
            CheckConstraint(c) && (c.dispatchStatus == Claimed || c.dispatchStatus == Sending ==>
                                     c.claimToken != Some("") && c.claimOwner != Some(""))
  {}

  // ----- the due and expired filters -----

  /** The claim statement's WHERE, which does not look at the back-off of a claimed row. */
  predicate SqlDue(m: Message, now: Instant) {
    (m.status == Pending && NoLaterThan(m.nextAttemptAt, now)) || ExpiredClaim(m, now)
  }

  /** The two claim filters pick the same rows because a lease outlives the back-off. */
  lemma FiltersAgree(k: RowKey, row: SqlRow, now: Instant)
    requires RowSound(k, row)
    ensures SqlDue(FromColumns(k, row.columns), now) <==> Claimable(row.payload, now)
  {}

  /** The exact condition under which the two filters agree on a message at every time: not a claimed one whose
      back-off ends after its lease. */
  lemma FiltersAgreeAlwaysExactly(m: Message)
    ensures (forall now :: SqlDue(m, now) <==> Claimable(m, now))
            <==> !(m.status == Claimed && m.claimedUntil.Some? && m.nextAttemptAt.Some?
                   && m.claimedUntil.value < m.nextAttemptAt.value)
  {
    if m.status == Claimed && m.claimedUntil.Some? && m.nextAttemptAt.Some?
       && m.claimedUntil.value < m.nextAttemptAt.value {
      assert SqlDue(m, m.claimedUntil.value) && !Claimable(m, m.claimedUntil.value);
    }
  }

  function SqlDueKeys(t: Table, tenant: string, eventType: Option<string>, now: Instant): set<RowKey> {
    set k | k in t && k.tenant == tenant && OfType(FromColumns(k, t[k].columns), eventType)
            && SqlDue(FromColumns(k, t[k].columns), now)
  }

  function SqlExpiredKeys(t: Table, tenant: string, eventType: Option<string>, now: Instant): set<RowKey> {
    set k | k in t && k.tenant == tenant && OfType(FromColumns(k, t[k].columns), eventType)
            && ExpiredSending(FromColumns(k, t[k].columns), now)
  }

  lemma SameDueKeys(t: Table, tenant: string, eventType: Option<string>, now: Instant)
    requires TableSound(t)
    ensures SqlDueKeys(t, tenant, eventType, now) == ClaimableKeys(Payloads(t), tenant, eventType, now)
    ensures SqlExpiredKeys(t, tenant, eventType, now) == ExpiredKeys(Payloads(t), tenant, eventType, now)
  {
    forall k | k in t
      ensures k in SqlDueKeys(t, tenant, eventType, now) <==> k in ClaimableKeys(Payloads(t), tenant, eventType, now)
      ensures k in SqlExpiredKeys(t, tenant, eventType, now) <==> k in ExpiredKeys(Payloads(t), tenant, eventType, now)
    {
      assert RowSound(k, t[k]);
      FiltersAgree(k, t[k], now);
    }
  }

  // ----- changing rows of a table -----

  predicate SameIdentity(row: SqlRow, row': SqlRow) {
    && row'.columns.messageId == row.columns.messageId && row'.columns.eventId == row.columns.eventId
    && row'.columns.fingerprint == row.columns.fingerprint
  }

  ghost predicate RowsChanged(t: Table, t': Table) {
    t'.Keys == t.Keys && forall k {:trigger RowSound(k, t'[k])} ::
      k in t && k in t' ==> RowSound(k, t'[k]) && SameIdentity(t[k], t'[k])
  }

  lemma ChangesKeepTable(t: Table, t': Table)
    requires TableSound(t) && RowsChanged(t, t')
    ensures TableSound(t') && Fingerprints(t') == Fingerprints(t)
  {
    hide CheckConstraint, StateMetadata;
    forall k | k in t' ensures RowSound(k, t'[k]) && t'[k].payload.id == t[k].payload.id {
      assert RowSound(k, t[k]) && RowSound(k, t'[k]);
    }
    forall k1, k2 | k1 in t' && k2 in t' ensures EventsApart(t', k1, k2) && Apart(Payloads(t'), k1, k2) {
      assert EventsApart(t, k1, k2) && Apart(Payloads(t), k1, k2);
      assert RowSound(k1, t'[k1]) && RowSound(k2, t'[k2]);
    }
    forall k | k in t ensures Fingerprints(t')[k] == Fingerprints(t)[k] {
      assert RowSound(k, t'[k]);
    }
  }

  lemma SoundRowsPassCheck(k: RowKey, row: SqlRow)
    requires RowSound(k, row)
    ensures CheckConstraint(row.columns)
  {}

  lemma UpdateOneRow(t: Table, k: RowKey, row': SqlRow)
    requires TableSound(t) && k in t && RowSound(k, row') && SameIdentity(t[k], row')
    ensures TableSound(t[k := row']) && Fingerprints(t[k := row']) == Fingerprints(t)
    ensures Payloads(t[k := row']) == Payloads(t)[k := row'.payload]
  {
    hide CheckConstraint, StateMetadata, RowSound;
    forall k' | k' in t ensures RowSound(k', t[k := row'][k']) && SameIdentity(t[k'], t[k := row'][k']) {
      assert RowSound(k', t[k']);
    }
    ChangesKeepTable(t, t[k := row']);
  }
}
