/** `PostgresOutbox`: each method runs its statements on the table and is proved to give the outcome that the
    in-memory outbox gives on the rows' payloads. */
module Postgres {
  import opened Wrappers
  import opened Text
  import opened Orders
  import opened Delivery
  import opened OutboxSpec
  import opened OutboxRuns
  import opened OutboxLaws
  import opened RowLaws
  import opened Outbox
  import opened SqlOutbox

  function Held(t: Table): Contents {
    Contents(Payloads(t), Fingerprints(t))
  }

  // ----- adding -----

  /** The row that `add` inserts; `sending_at` and the error columns are left to their NULL default. */
  function InsertedRow(m: Message, w: Write): SqlRow {
    SqlRow(Columns(m.id, m.event.id, m.status, m.claimToken, m.claimOwner, m.claimedUntil, m.nextAttemptAt, m.attempts,
                   m.createdAt, None, m.publishedAt, None, None, None, None, m.event, w), m)
  }

  /** The rows whose message id or event id a new row would repeat. */
  function Repeating(t: Table, tenant: string, messageId: string, eventId: string): set<RowKey> {
    set k | k in t && k.tenant == tenant && (t[k].columns.messageId == messageId || t[k].columns.eventId == eventId)
  }

  lemma RepeatingClashes(t: Table, m: Message)
    requires TableSound(t)
    ensures Repeating(t, m.tenant, m.id, m.event.id) != {} <==> Clashes(Payloads(t), m)
  {
    var rows := Payloads(t);
    if k :| k in Repeating(t, m.tenant, m.id, m.event.id) {
      assert RowSound(k, t[k]);
      assert HasId(rows, k, m.tenant, IdOf(m, false), false) || HasId(rows, k, m.tenant, IdOf(m, true), true);
    }
    if Clashes(rows, m) {
      var k, ofEvent :| HasId(rows, k, m.tenant, IdOf(m, ofEvent), ofEvent);
      assert RowSound(k, t[k]);
      assert k in Repeating(t, m.tenant, m.id, m.event.id);
    }
  }

  lemma InsertKeepsTable(t: Table, k: RowKey, m: Message, w: Write)
    requires TableSound(t) && k == RowKey(m.tenant, m.idempotencyKey) && k !in t
    requires m == NewMessage(m.tenant, m.id, m.event, m.idempotencyKey, m.nextAttemptAt, m.createdAt)
    requires Repeating(t, m.tenant, m.id, m.event.id) == {}
    ensures TableSound(t[k := InsertedRow(m, w)])
    ensures Held(t[k := InsertedRow(m, w)]) == Contents(Payloads(t)[k := m], Fingerprints(t)[k := w])
  {
    hide CheckConstraint, Repeating;
    var t' := t[k := InsertedRow(m, w)];
    forall k' | k' in t' ensures RowSound(k', t'[k']) {
      assert k' != k ==> RowSound(k', t[k']);
    }
    forall k1, k2 | k1 in t' && k2 in t' ensures EventsApart(t', k1, k2) && Apart(Payloads(t'), k1, k2) {
      NoNewRepeat(t, k, m, w, k1, k2);
    }
    assert Payloads(t') == Payloads(t)[k := m];
    assert Fingerprints(t') == Fingerprints(t)[k := w];
  }

  lemma NoNewRepeat(t: Table, k: RowKey, m: Message, w: Write, k1: RowKey, k2: RowKey)
    requires TableSound(t) && k == RowKey(m.tenant, m.idempotencyKey) && k !in t
    requires Repeating(t, m.tenant, m.id, m.event.id) == {}
    requires k1 in t[k := InsertedRow(m, w)] && k2 in t[k := InsertedRow(m, w)]
    ensures var t' := t[k := InsertedRow(m, w)]; EventsApart(t', k1, k2) && Apart(Payloads(t'), k1, k2)
  {
    if k1 != k && k2 != k {
      assert EventsApart(t, k1, k2) && Apart(Payloads(t), k1, k2);
    } else if k1 != k {
      assert RowSound(k1, t[k1]) && k1 !in Repeating(t, m.tenant, m.id, m.event.id);
    } else if k2 != k {
      assert RowSound(k2, t[k2]) && k2 !in Repeating(t, m.tenant, m.id, m.event.id);
    }
  }

  // ----- rows by message id -----

  function WithMessageId(t: Table, tenant: string, id: string): set<RowKey> {
    set k | k in t && k.tenant == tenant && t[k].columns.messageId == id
  }

  lemma MessageIdNames(t: Table, tenant: string, id: string)
    requires TableSound(t)
    ensures forall k :: k in WithMessageId(t, tenant, id) <==> Names(Payloads(t), k, tenant, id)
    ensures forall k1, k2 :: k1 in WithMessageId(t, tenant, id) && k2 in WithMessageId(t, tenant, id) ==> k1 == k2
  {
    forall k ensures k in WithMessageId(t, tenant, id) <==> Names(Payloads(t), k, tenant, id) {
      assert k in t ==> RowSound(k, t[k]);
    }
    forall k1, k2 | k1 in WithMessageId(t, tenant, id) && k2 in WithMessageId(t, tenant, id) ensures k1 == k2 {
      OnlyOneNamed(Payloads(t), tenant, id, k1);
    }
  }

  /** The rows a token-guarded UPDATE matches. */
  function Guarded(t: Table, tenant: string, id: string, expected: Status, token: string): set<RowKey> {
    set k | k in WithMessageId(t, tenant, id) && t[k].columns.dispatchStatus == expected
            && t[k].columns.claimToken == Some(token)
  }

  /** The table after an UPDATE of the matched rows. */
  function UpdatedRows(t: Table, hits: set<RowKey>, target: Status, u: Updates, increment: bool): Table {
    map k | k in t :: if k in hits then Updated(t[k], target, u, increment) else t[k]
  }

  lemma OneRowUpdated(t: Table, k: RowKey, target: Status, u: Updates, increment: bool)
    requires k in t
    ensures UpdatedRows(t, {k}, target, u, increment) == t[k := Updated(t[k], target, u, increment)]
  {}

  /** A transition that the CHECK lets through keeps the table sound. */
  lemma TransitionedRow(k: RowKey, row: SqlRow, c: Change)
    requires RowSound(k, row) && row.columns.dispatchStatus == ExpectedStatus(c)
    ensures var row' := Updated(row, TargetStatus(c), UpdatesOf(c), c.StartSending?);
      && SameIdentity(row, row') && (CheckConstraint(row'.columns) ==> RowSound(k, row'))
      && row'.payload == Changed(row.payload, c)
      && (CheckConstraint(row'.columns) <==> StateMetadata(Changed(row.payload, c)))
  {
    PatchIsChange(k, row, c);
    CheckIsValidity(k, row, c);
    UpdateKeepsSync(k, row, TargetStatus(c), UpdatesOf(c), c.StartSending?);
  }

  lemma DecidedRow(k: RowKey, row: SqlRow, c: OperatorChange)
    requires RowSound(k, row) && row.columns.dispatchStatus == Uncertain
    ensures var row' := Updated(row, DecisionStatus(c), UpdatesOfDecision(c), false);
      SameIdentity(row, row') && RowSound(k, row') && row'.payload == Resolved(row.payload, c)
  {
    PatchIsDecision(k, row, c);
    UpdateKeepsSync(k, row, DecisionStatus(c), UpdatesOfDecision(c), false);
  }

  /** The in-memory guards on a row's payload, read off its columns. */
  lemma GuardsReadColumns(k: RowKey, row: SqlRow, token: string, c: Change)
    requires RowSound(k, row) && token != ""
    ensures row.columns.claimToken != Some(token) ==> GuardedChange(row.payload, token, c) == Failure(PermissionDenied)
    ensures row.columns.claimToken == Some(token) && row.columns.dispatchStatus != ExpectedStatus(c) ==>
      GuardedChange(row.payload, token, c) == Failure(Conflict)
    ensures row.columns.claimToken == Some(token) && row.columns.dispatchStatus == ExpectedStatus(c) ==>
      GuardedChange(row.payload, token, c)
        == if StateMetadata(Changed(row.payload, c)) then Success(Changed(row.payload, c)) else Failure(InvalidState)
  {}

  // ----- claims and sweeps -----

  function LeaseUpdates(token: string, owner: string, until: Instant): Updates {
    NO_UPDATES.(claimToken := To(Some(token)), claimOwner := To(Some(owner)), claimedUntil := To(Some(until)))
  }

  /** The claim statement's UPDATE: every due row under the token generated for it. */
  function LeasedRows(t: Table, due: seq<RowKey>, token: nat -> string, owner: string, until: Instant): Table {
    map k | k in t ::
      if k in due then Updated(t[k], Status.Claimed, LeaseUpdates(token(IndexOf(due, k)), owner, until), false)
                      else t[k]
  }

  lemma LeasedRow(k: RowKey, row: SqlRow, now: Instant, token: string, owner: string, until: Instant)
    requires RowSound(k, row) && Claimable(row.payload, now) && token != "" && owner != "" && now < until
    ensures var row' := Updated(row, Status.Claimed, LeaseUpdates(token, owner, until), false);
      SameIdentity(row, row') && RowSound(k, row') && row'.payload == ClaimedCopy(row.payload, token, owner, until)
  {
    UpdateKeepsSync(k, row, Status.Claimed, LeaseUpdates(token, owner, until), false);
  }

  lemma LeasesAreClaims(t: Table, tenant: string, eventType: Option<string>, now: Instant, limit: nat, due: seq<RowKey>,
                        token: nat -> string, owner: string, until: Instant)
    requires TableSound(t) && FirstOf(Payloads(t), ClaimableKeys(Payloads(t), tenant, eventType, now), limit, due)
    requires owner != "" && now < until && forall i :: token(i) != ""
    ensures var t' := LeasedRows(t, due, token, owner, until);
      && RowsChanged(t, t')
      && forall i :: 0 <= i < |due| ==>
           due[i] in t && due[i] in t' && t'[due[i]].payload == ClaimedCopy(t[due[i]].payload, token(i), owner, until)
  {
    hide RowSound, ClaimedCopy, Claimable;
    var t' := LeasedRows(t, due, token, owner, until);
    forall k | k in t && k in t' ensures RowSound(k, t'[k]) && SameIdentity(t[k], t'[k]) {
      assert RowSound(k, t[k]);
      if k in due {
        assert k in ClaimableKeys(Payloads(t), tenant, eventType, now);
        LeasedRow(k, t[k], now, token(IndexOf(due, k)), owner, until);
      }
    }
    forall i | 0 <= i < |due|
      ensures due[i] in t && due[i] in t'
      ensures t'[due[i]].payload == ClaimedCopy(t[due[i]].payload, token(i), owner, until)
    {
      assert due[i] in ClaimableKeys(Payloads(t), tenant, eventType, now);
      var j := IndexOf(due, due[i]);
      DistinctChoice(Payloads(t), due, i, j);
      assert RowSound(due[i], t[due[i]]);
      LeasedRow(due[i], t[due[i]], now, token(i), owner, until);
    }
  }

  lemma DistinctChoice(rows: Rows, chosen: seq<RowKey>, i: nat, j: nat)
    requires forall a, b :: 0 <= a < b < |chosen| ==> RowEarlier(rows, chosen[a], chosen[b])
    requires i < |chosen| && j < |chosen| && chosen[i] == chosen[j]
    ensures i == j
  {
    EarlierIsStrict(rows, chosen[i], chosen[j]);
  }

  function SweepUpdates(error: DeliveryError): Updates {
    DROP_CLAIM.(lastError := To(Some(error)))
  }

  lemma SweptRow(k: RowKey, row: SqlRow, now: Instant, error: DeliveryError)
    requires RowSound(k, row) && ExpiredSending(row.payload, now)
    ensures var row' := Updated(row, Uncertain, SweepUpdates(error), false);
      SameIdentity(row, row') && RowSound(k, row') && row'.payload == SweptCopy(row.payload, error)
  {
    UpdateKeepsSync(k, row, Uncertain, SweepUpdates(error), false);
  }

  lemma SweptRowsAreSweeps(t: Table, tenant: string, eventType: Option<string>, now: Instant, limit: nat,
                           expired: seq<RowKey>,
                           error: DeliveryError)
    requires TableSound(t) && FirstOf(Payloads(t), ExpiredKeys(Payloads(t), tenant, eventType, now), limit, expired)
    ensures var t' := UpdatedRows(t, (set k | k in expired), Uncertain, SweepUpdates(error), false);
      && RowsChanged(t, t')
      && forall i :: 0 <= i < |expired| ==>
           expired[i] in t && expired[i] in t' && t'[expired[i]].payload == SweptCopy(t[expired[i]].payload, error)
  {
    hide RowSound, SweptCopy, SweepUpdates, ExpiredSending;
    var t' := UpdatedRows(t, (set k | k in expired), Uncertain, SweepUpdates(error), false);
    forall k | k in t && k in t'
      ensures RowSound(k, t'[k]) && SameIdentity(t[k], t'[k])
      ensures k in expired ==> t'[k].payload == SweptCopy(t[k].payload, error)
    {
      assert RowSound(k, t[k]);
      if k in expired {
        assert k in ExpiredKeys(Payloads(t), tenant, eventType, now);
        SweptRow(k, t[k], now, error);
      }
    }
    forall i | 0 <= i < |expired| ensures expired[i] in t && expired[i] in t' {
      assert expired[i] in ExpiredKeys(Payloads(t), tenant, eventType, now);
    }
  }

  lemma SweepsReturned(t: Table, expired: seq<RowKey>, error: DeliveryError, t': Table, swept: seq<Message>)
    requires t' == UpdatedRows(t, (set k | k in expired), Uncertain, SweepUpdates(error), false)
    requires forall i :: 0 <= i < |expired| ==>
      expired[i] in t && expired[i] in t' && t'[expired[i]].payload == SweptCopy(t[expired[i]].payload, error)
    requires |swept| == |expired| && forall i :: 0 <= i < |swept| ==> swept[i] == t'[expired[i]].payload
    ensures SweepsSoFar(Payloads(t), expired, error, Payloads(t'), swept)
  {}

  // ----- outcomes of a statement on the payloads -----

  lemma NamedOutcome(rows: Rows, tenant: string, id: string, token: string, c: Change, k: RowKey,
                     r: Result<Message, StoreError>, rows': Rows)
    requires IdsUnique(rows) && Names(rows, k, tenant, id) && token != "" && r == GuardedChange(rows[k], token, c)
    requires rows' == if r.Success? then rows[k := r.value] else rows
    ensures TransitionOutcome(rows, tenant, id, token, c, r, rows')
  {
    OnlyOneNamed(rows, tenant, id, k);
  }

  lemma DecidedOutcome(rows: Rows, tenant: string, id: string, c: OperatorChange, k: RowKey,
                       r: Result<Message, StoreError>, rows': Rows)
    requires IdsUnique(rows) && Names(rows, k, tenant, id) && r == OperatorGuardedChange(rows[k], c)
    requires rows' == if r.Success? then rows[k := r.value] else rows
    ensures OperatorOutcome(rows, tenant, id, c, r, rows')
  {
    OnlyOneNamed(rows, tenant, id, k);
  }

  // ----- the class -----

  class PostgresOutbox {
    var table: Table

    ghost predicate Valid()
      reads this
    {
      TableSound(table)
    }

    constructor ()
      ensures Valid() && Held(table) == NOTHING
    {
      table := map[];
    }

    /** One statement: its new rows, unless some row breaks a CHECK, which raises and undoes it. */
    method Execute(after: Table) returns (ok: bool)
      modifies this
      ensures ok <==> forall k :: k in after ==> CheckConstraint(after[k].columns)
      ensures table == if ok then after else old(table)
    {
      ok := forall k :: k in after ==> CheckConstraint(after[k].columns);
      if ok {
        table := after;
      }
    }

    /** A statement whose changed rows are all sound goes through. */
    method ExecuteSound(after: Table)
      requires Valid() && RowsChanged(table, after)
      modifies this
      ensures Valid() && table == after && Fingerprints(table) == old(Fingerprints(table))
    {
      forall k | k in after ensures CheckConstraint(after[k].columns) {
        assert RowSound(k, after[k]);
        SoundRowsPassCheck(k, after[k]);
      }
      ChangesKeepTable(table, after);
      var ok := Execute(after);
    }

    /** `add`: INSERT ... ON CONFLICT DO NOTHING, then the two SELECTs that tell the conflicts apart. */
    method Add(m: Message, w: Write) returns (r: Result<Message, StoreError>)
      requires Valid() && m == NewMessage(m.tenant, m.id, m.event, m.idempotencyKey, m.nextAttemptAt, m.createdAt)
      modifies this
      ensures Valid() && SqlPerforms(old(Held(table)), Op.Add(m, w), One(r), Held(table))
    {
      var k := RowKey(m.tenant, m.idempotencyKey);
      var repeating := Repeating(table, m.tenant, m.id, m.event.id);
      RepeatingClashes(table, m);
      if k !in table && repeating == {} {
        InsertKeepsTable(table, k, m, w);
        table := table[k := InsertedRow(m, w)];
        return Success(m);
      }
      if k !in table {
        return Failure(Conflict);
      }
      if table[k].columns.fingerprint != w {
        return Failure(Conflict);
      }
      r := Success(table[k].payload);
    }

    /** `_transition_delivery_row`, as each token-guarded method calls it. */
    method Transition(tenant: string, id: string, token: string, c: Change) returns (r: Result<Message, StoreError>)
      requires Valid()
      modifies this
      ensures Valid()
      ensures if Blank(token) then r == Failure(InvalidState) && table == old(table)
              else SqlPerforms(old(Held(table)), Op.Transition(tenant, id, token, c), One(r), Held(table))
    {
      if Blank(token) {
        return Failure(InvalidState);
      }
      hide TransitionOutcome, GuardedChange, UpdatesOf;
      MessageIdNames(table, tenant, id);
      var hits := Guarded(table, tenant, id, ExpectedStatus(c), token);
      if hits != {} {
        var k :| k in hits;
        r := UpdateGuarded(k, token, c);
        NamedOutcome(old(Payloads(table)), tenant, id, token, c, k, r, Payloads(table));
        return;
      }
      var existing := WithMessageId(table, tenant, id);
      if existing == {} {
        return Failure(NotFound);
      }
      var k :| k in existing;
      assert RowSound(k, table[k]) && k !in hits;
      GuardsReadColumns(k, table[k], token, c);
      r := Failure(if table[k].columns.claimToken != Some(token) then PermissionDenied else Conflict);
      NamedOutcome(Payloads(table), tenant, id, token, c, k, r, Payloads(table));
    }

    /** The UPDATE of the one matched row; a payload that the validity rule refuses raises and rolls it back. */
    method UpdateGuarded(k: RowKey, token: string, c: Change) returns (r: Result<Message, StoreError>)
      requires Valid() && k in table && token != ""
      requires table[k].columns.dispatchStatus == ExpectedStatus(c) && table[k].columns.claimToken == Some(token)
      modifies this
      ensures Valid() && r == GuardedChange(old(table)[k].payload, token, c)
      ensures Payloads(table) == if r.Success? then old(Payloads(table))[k := r.value] else old(Payloads(table))
      ensures Fingerprints(table) == old(Fingerprints(table))
    {
      assert RowSound(k, table[k]);
      TransitionedRow(k, table[k], c);
      GuardsReadColumns(k, table[k], token, c);
      OneRowUpdated(table, k, TargetStatus(c), UpdatesOf(c), c.StartSending?);
      var after := UpdatedRows(table, {k}, TargetStatus(c), UpdatesOf(c), c.StartSending?);
      var m := after[k].payload;
      if !CheckConstraint(after[k].columns) || !StateMetadata(m) {
        return Failure(InvalidState);
      }
      UpdateOneRow(table, k, after[k]);
      table := after;
      r := Success(m);
    }

    /** `_resolve_uncertain` */
    method Resolve(tenant: string, id: string, c: OperatorChange) returns (r: Result<Message, StoreError>)
      requires Valid()
      modifies this
      ensures Valid() && SqlPerforms(old(Held(table)), Reconcile(tenant, id, c), One(r), Held(table))
    {
      MessageIdNames(table, tenant, id);
      var existing := WithMessageId(table, tenant, id);
      if existing == {} {
        return Failure(NotFound);
      }
      var k :| k in existing;
      assert RowSound(k, table[k]);
      if table[k].columns.dispatchStatus != Uncertain {
        r := Failure(Conflict);
      } else {
        DecidedRow(k, table[k], c);
        var after := table[k := Updated(table[k], DecisionStatus(c), UpdatesOfDecision(c), false)];
        UpdateOneRow(table, k, after[k]);
        table := after;
        r := Success(after[k].payload);
      }
      DecidedOutcome(old(Payloads(table)), tenant, id, c, k, r, Payloads(table));
    }

    /** `claim_due` */
    method ClaimDue(tenant: string, now: Instant, limit: nat, owner: string, leaseSeconds: nat,
                    eventType: Option<string>, newToken: nat -> string)
      returns (r: Result<seq<Message>, StoreError>)
      requires Valid() && limit >= 1 && leaseSeconds >= 1 && owner != ""
      requires forall i :: newToken(i) != ""
      modifies this
      ensures Valid()
      ensures SqlPerforms(old(Held(table)),
                          Claim(tenant, now, limit, owner, leaseSeconds, eventType, newToken), Many(r),
                          Held(table))
      ensures r.Success? ==>
        ClaimedRightly(old(Payloads(table)), tenant, eventType, now, limit, owner, leaseSeconds, newToken, r.value,
                       Payloads(table))
      ensures r.Failure? <==> now + leaseSeconds * 1_000_000 > LAST_DATETIME
      ensures r.Failure? ==> table == old(table)
    {
      hide FirstOf, ClaimOutcome, ClaimableKeys, ClaimedRightly, RowSound;
      var until := LeaseEnd(now, leaseSeconds);
      if until > DATETIME_MAX {
        return Failure(Overflow);
      }
      var claimed, _ := LeaseDue(tenant, now, limit, owner, until, eventType, newToken);
      r := Success(claimed);
      ClaimLaw(old(Held(table)), Claim(tenant, now, limit, owner, leaseSeconds, eventType, newToken), Many(r),
               Held(table));
    }

    method LeaseDue(tenant: string, now: Instant, limit: nat, owner: string, until: Instant,
                    eventType: Option<string>, newToken: nat -> string)
      returns (claimed: seq<Message>, ghost due: seq<RowKey>)
      requires Valid() && limit >= 1 && owner != "" && now < until <= DATETIME_MAX
      requires forall i :: newToken(i) != ""
      modifies this
      ensures Valid() && Fingerprints(table) == old(Fingerprints(table))
      ensures FirstOf(old(Payloads(table)), ClaimableKeys(old(Payloads(table)), tenant, eventType, now), limit, due)
      ensures ClaimOutcome(old(Payloads(table)), due, newToken, owner, until, Success(claimed), Payloads(table))
    {
      SoundTableDescribesPayloads(table);
      SameDueKeys(table, tenant, eventType, now);
      var chosen := SelectFirst(Described(table), tenant, SqlDueKeys(table, tenant, eventType, now), limit);
      due := chosen;
      LeasesAreClaims(table, tenant, eventType, now, limit, due, newToken, owner, until);
      ExecuteSound(LeasedRows(table, chosen, newToken, owner, until));
      claimed := PayloadsOf(chosen);
    }

    /** RETURNING payload */
    method PayloadsOf(keys: seq<RowKey>) returns (messages: seq<Message>)
      requires forall i :: 0 <= i < |keys| ==> keys[i] in table
      ensures |messages| == |keys| && forall i :: 0 <= i < |keys| ==> messages[i] == table[keys[i]].payload
    {
      var t := table;
      messages := seq(|keys|, i requires 0 <= i < |keys| && keys[i] in t => t[keys[i]].payload);
    }

    /** `sweep_expired_sending` */
    method SweepExpiredSending(tenant: string, now: Instant, error: DeliveryError, limit: nat,
                               eventType: Option<string>)
      returns (swept: seq<Message>)
      requires Valid() && limit >= 1
      modifies this
      ensures Valid()
      ensures SqlPerforms(old(Held(table)), Sweep(tenant, now, error, limit, eventType), Many(Success(swept)),
                          Held(table))
      ensures SweptRightly(old(Payloads(table)), tenant, eventType, now, limit, error, swept, Payloads(table))
      ensures forall k :: k in old(table) ==> SendKeptOrLapsed(old(Payloads(table)), Payloads(table), k, now)
    {
      hide FirstOf, SweepsSoFar, ExpiredKeys, SweptRightly, SendKeptOrLapsed, RowSound;
      ghost var expired;
      swept, expired := GiveUpExpired(tenant, now, error, limit, eventType);
      SweepLaw(old(Held(table)), Sweep(tenant, now, error, limit, eventType), Many(Success(swept)), Held(table));
      SendsKeptOrLapsed(old(Payloads(table)), tenant, eventType, now, limit, error, swept, Payloads(table));
    }

    method GiveUpExpired(tenant: string, now: Instant, error: DeliveryError, limit: nat, eventType: Option<string>)
      returns (swept: seq<Message>, ghost chosen: seq<RowKey>)
      requires Valid() && limit >= 1
      modifies this
      ensures Valid() && Fingerprints(table) == old(Fingerprints(table))
      ensures FirstOf(old(Payloads(table)), ExpiredKeys(old(Payloads(table)), tenant, eventType, now), limit, chosen)
      ensures SweepsSoFar(old(Payloads(table)), chosen, error, Payloads(table), swept)
    {
      hide FirstOf, SweepsSoFar, ExpiredKeys, RowSound, SweptCopy;
      SoundTableDescribesPayloads(table);
      SameDueKeys(table, tenant, eventType, now);
      var expired := SelectFirst(Described(table), tenant, SqlExpiredKeys(table, tenant, eventType, now), limit);
      SweptRowsAreSweeps(table, tenant, eventType, now, limit, expired, error);
      ExecuteSound(UpdatedRows(table, (set k | k in expired), Uncertain, SweepUpdates(error), false));
      swept := PayloadsOf(expired);
      SweepsReturned(old(table), expired, error, table, swept);
      chosen := expired;
    }
  }

  /** `ORDER BY created_at, message_id LIMIT n` over the filtered rows. */
  method SelectFirst(rows: Rows, tenant: string, eligible: set<RowKey>, limit: nat) returns (chosen: seq<RowKey>)
    requires IdsUnique(rows) && forall k :: k in eligible ==> k.tenant == tenant && k in rows
    ensures FirstOf(rows, eligible, limit, chosen)
  {
    var keys := SortedKeys(rows);
    chosen := [];
    var n := 0;
    while n < |keys| && |chosen| < limit
      invariant 0 <= n <= |keys| && |chosen| <= limit
      invariant Picked(rows, keys, n, eligible, chosen)
    {
      PickNext(rows, keys, n, tenant, eligible, chosen);
      if keys[n] in eligible {
        chosen := chosen + [keys[n]];
      }
      n := n + 1;
    }
    PickedIsFirst(rows, keys, n, tenant, eligible, limit, chosen);
  }
}
