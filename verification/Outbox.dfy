/** The in-memory outbox: dictionaries updated in place, scans over items, sorted candidates. */
module Outbox {
  import opened Wrappers
  import opened Orders
  import opened Delivery
  import opened OutboxSpec
  import opened OutboxRuns
  import opened OutboxLaws
  import opened RowLaws

  // ----- the order of `sorted(items, key=(created_at, id))` -----

  /** A row with its sort key; ties between tenants, which no caller sees, are broken by the row key. */
  datatype Candidate = Candidate(createdAt: Instant, id: string, k: RowKey)

  predicate CandidateLess(a: Candidate, b: Candidate) {
    || a.createdAt < b.createdAt
    || (a.createdAt == b.createdAt
        && (|| STRING_LESS(a.id, b.id)
            || (a.id == b.id
                && (|| STRING_LESS(a.k.tenant, b.k.tenant)
                    || (a.k.tenant == b.k.tenant && STRING_LESS(a.k.idempotencyKey, b.k.idempotencyKey))))))
  }

  const CANDIDATE_LESS: (Candidate, Candidate) -> bool := (a, b) => CandidateLess(a, b)

  lemma CandidateOrder()
    ensures StrictTotal(CANDIDATE_LESS)
  {
    StringOrder();
  }

  ghost predicate InOrder(rows: Rows, keys: seq<RowKey>) {
    && (forall k :: k in keys <==> k in rows)
    && (forall i, j :: 0 <= i < j < |keys| ==> keys[i] != keys[j])
    && (forall i, j :: 0 <= i < j < |keys| && keys[i].tenant == keys[j].tenant ==> RowEarlier(rows, keys[i], keys[j]))
  }

  method SortedKeys(rows: Rows) returns (keys: seq<RowKey>)
    requires IdsUnique(rows)
    ensures InOrder(rows, keys)
  {
    CandidateOrder();
    var all := set k | k in rows :: Candidate(rows[k].createdAt, rows[k].id, k);
    var candidates := SortedElements(CANDIDATE_LESS, all);
    keys := seq(|candidates|, i requires 0 <= i < |candidates| => candidates[i].k);
    forall k ensures k in keys <==> k in rows {
      if k in rows {
        assert Candidate(rows[k].createdAt, rows[k].id, k) in all;
        var i :| 0 <= i < |candidates| && candidates[i] == Candidate(rows[k].createdAt, rows[k].id, k);
        assert keys[i] == k;
      }
      if k in keys {
        var i :| 0 <= i < |keys| && keys[i] == k;
        assert candidates[i] in candidates;
      }
    }
    forall i, j | 0 <= i < j < |keys|
      ensures keys[i] != keys[j] && (keys[i].tenant == keys[j].tenant ==> RowEarlier(rows, keys[i], keys[j]))
    {
      assert candidates[i] in candidates && candidates[j] in candidates && CANDIDATE_LESS(candidates[i], candidates[j]);
      assert Apart(rows, keys[i], keys[j]);
    }
  }

  // ----- picking the first eligible ones from a sorted list -----

  /** After `n` sorted keys, `chosen` lists the eligible ones among them, all earlier than those to come. */
  ghost predicate Picked(rows: Rows, keys: seq<RowKey>, n: nat, eligible: set<RowKey>, chosen: seq<RowKey>) {
    && (forall i :: 0 <= i < |chosen| ==> chosen[i] in eligible)
    && (forall i, j :: 0 <= i < j < |chosen| ==> RowEarlier(rows, chosen[i], chosen[j]))
    && (forall j :: 0 <= j < n && j < |keys| && keys[j] in eligible ==> keys[j] in chosen)
    && (forall i, j :: 0 <= i < |chosen| && n <= j < |keys| && keys[j] in eligible ==>
          RowEarlier(rows, chosen[i], keys[j]))
  }

  lemma PickNext(rows: Rows, keys: seq<RowKey>, n: nat, tenant: string, eligible: set<RowKey>, chosen: seq<RowKey>)
    requires InOrder(rows, keys) && n < |keys| && Picked(rows, keys, n, eligible, chosen)
    requires forall k :: k in eligible ==> k.tenant == tenant
    ensures keys[n] in eligible ==> Picked(rows, keys, n + 1, eligible, chosen + [keys[n]])
    ensures keys[n] !in eligible ==> Picked(rows, keys, n + 1, eligible, chosen)
    ensures keys[n] in rows && keys[n] !in chosen
  {
    if keys[n] in chosen {
      var i :| 0 <= i < |chosen| && chosen[i] == keys[n];
      EarlierIsStrict(rows, chosen[i], keys[n]);
    }
  }

  lemma PickedIsFirst(rows: Rows, keys: seq<RowKey>, n: nat, tenant: string, eligible: set<RowKey>, limit: nat,
                      chosen: seq<RowKey>)
    requires InOrder(rows, keys) && n <= |keys| && Picked(rows, keys, n, eligible, chosen)
    requires forall k :: k in eligible ==> k.tenant == tenant && k in rows
    requires |chosen| == limit || (|chosen| < limit && n == |keys|)
    ensures FirstOf(rows, eligible, limit, chosen)
  {
    forall i, j | 0 <= i < j < |chosen| ensures chosen[i] != chosen[j] {
      EarlierIsStrict(rows, chosen[i], chosen[j]);
    }
    DistinctCount(chosen);
    var picked := set k | k in chosen;
    assert picked <= eligible;
    SubsetCount(picked, eligible);
    forall k | k in eligible && k !in chosen
      ensures n < |keys| && (forall i :: 0 <= i < |chosen| ==> RowEarlier(rows, chosen[i], k)) {
      var b :| 0 <= b < |keys| && keys[b] == k;
    }
    assert n == |keys| ==> eligible == picked;
  }

  lemma ClaimNext(rows: Rows, chosen: seq<RowKey>, k: RowKey, token: nat -> string, owner: string, until: Instant,
                  stored: Rows, claimed: seq<Message>)
    requires ClaimsSoFar(rows, chosen, token, owner, until, stored, claimed) && k in rows && k !in chosen
    ensures k in stored && stored[k] == rows[k]
    ensures var m := ClaimedCopy(rows[k], token(|claimed|), owner, until);
      ClaimsSoFar(rows, chosen + [k], token, owner, until, stored[k := m], claimed + [m])
  {
  }

  lemma SweepNext(rows: Rows, chosen: seq<RowKey>, k: RowKey, error: DeliveryError, stored: Rows, swept: seq<Message>)
    requires SweepsSoFar(rows, chosen, error, stored, swept) && k in rows && k !in chosen
    ensures k in stored && stored[k] == rows[k]
    ensures SweepsSoFar(rows, chosen + [k], error, stored[k := SweptCopy(rows[k], error)],
                        swept + [SweptCopy(rows[k], error)])
  {
  }

  lemma FirstOfSome(rows: Rows, eligible: set<RowKey>, limit: nat, chosen: seq<RowKey>, k: RowKey)
    requires FirstOf(rows, eligible, limit, chosen) && k in eligible && limit >= 1
    ensures |chosen| > 0
  {}

  // ----- the class -----

  class InMemoryOutbox {
    var messages: Rows
    var keyByMessageId: Index
    var keyByEventId: Index
    var writes: map<RowKey, Write>

    ghost function View(): Store
      reads this
    {
      Store(messages, keyByMessageId, keyByEventId, writes)
    }

    ghost function Holds(): Contents
      reads this
    {
      Contents(messages, writes)
    }

    ghost predicate Valid()
      reads this
    {
      StoreValid(View())
    }

    constructor ()
      ensures Valid() && View() == EMPTY_STORE && Holds() == NOTHING
    {
      messages, keyByMessageId, keyByEventId, writes := map[], map[], map[], map[];
    }

    /** `add`; `freshId` stands for the generated id used when the caller names none. */
    method Add(tenant: string, event: Event, idempotencyKey: string, nextAttemptAt: Option<Instant>,
               messageId: Option<string>, freshId: string, createdAt: Instant)
      returns (r: Result<Message, StoreError>)
      requires Valid()
      modifies this
      ensures Valid()
      ensures var id := if messageId.Some? then messageId.value else freshId;
        (r, View()) == Added(old(View()), NewMessage(tenant, id, event, idempotencyKey, nextAttemptAt, createdAt),
                             Write(event, nextAttemptAt, messageId))
      ensures Performs(old(Holds()), Op.Add(NewMessage(tenant,
                                                       if messageId.Some? then messageId.value else freshId, event,
                                                       idempotencyKey, nextAttemptAt, createdAt),
                                            Write(event, nextAttemptAt, messageId)), One(r), Holds())
      ensures r.Success? && RowKey(tenant, idempotencyKey) !in old(messages) ==>
        && r.value == Message(tenant, if messageId.Some? then messageId.value else freshId, event, idempotencyKey,
                              Pending, None, None, None, nextAttemptAt, 0, createdAt, None, None, None)
        && messages == old(messages)[RowKey(tenant, idempotencyKey) := r.value]
    {
      var k := RowKey(tenant, idempotencyKey);
      var write := Write(event, nextAttemptAt, messageId);
      var m := NewMessage(tenant, if messageId.Some? then messageId.value else freshId, event, idempotencyKey,
                          nextAttemptAt, createdAt);
      AddKeepsStore(View(), m, write);
      AddedByIndex(View(), m, write);
      if k in messages {
        if writes[k] != write {
          return Failure(Conflict);
        }
        return Success(messages[k]);
      }
      if (tenant, m.id) in keyByMessageId && keyByMessageId[(tenant, m.id)] != idempotencyKey {
        return Failure(Conflict);
      }
      if (tenant, event.id) in keyByEventId && keyByEventId[(tenant, event.id)] != idempotencyKey {
        return Failure(Conflict);
      }
      messages := messages[k := m];
      keyByMessageId := keyByMessageId[(tenant, m.id) := idempotencyKey];
      keyByEventId := keyByEventId[(tenant, event.id) := idempotencyKey];
      writes := writes[k := write];
      r := Success(m);
    }

    /** The scan that every transition starts with: the row that carries the id, in whatever order it is met. */
    method FindById(tenant: string, id: string) returns (found: Option<RowKey>)
      ensures found.Some? ==> Names(messages, found.value, tenant, id)
      ensures found.None? ==> forall k :: !Names(messages, k, tenant, id)
    {
      var left := messages.Keys;
      while left != {}
        invariant left <= messages.Keys
        invariant forall k :: k in messages.Keys - left ==> !Names(messages, k, tenant, id)
        decreases left
      {
        var k :| k in left;
        if k.tenant == tenant && messages[k].id == id {
          return Some(k);
        }
        left := left - {k};
      }
      found := None;
    }

    /** `self._messages_by_key[key] = updated` */
    method Put(k: RowKey, m: Message)
      requires StoreValid(View().(messages := messages[k := m]))
      modifies this`messages
      ensures Valid() && messages == old(messages)[k := m]
    {
      messages := messages[k := m];
    }

    /** `_transition` */
    method Transition(tenant: string, id: string, token: string, c: Change) returns (r: Result<Message, StoreError>)
      requires Valid()
      modifies this`messages
      ensures Valid() && Performs(old(Holds()), Op.Transition(tenant, id, token, c), One(r), Holds())
    {
      ExactIndexMakesIdsUnique(View());
      if token == "" {
        return Failure(PermissionDenied);
      }
      var k := FindById(tenant, id);
      if k.None? {
        return Failure(NotFound);
      }
      OnlyOneNamed(messages, tenant, id, k.value);
      r := TransitionRow(k.value, token, c);
    }

    method TransitionRow(k: RowKey, token: string, c: Change) returns (r: Result<Message, StoreError>)
      requires Valid() && k in messages && token != ""
      modifies this`messages
      ensures Valid() && r == GuardedChange(old(messages)[k], token, c)
      ensures messages == if r.Success? then old(messages)[k := r.value] else old(messages)
    {
      var m := messages[k];
      if m.claimToken != Some(token) {
        return Failure(PermissionDenied);
      }
      if m.status != ExpectedStatus(c) {
        return Failure(Conflict);
      }
      var updated := Changed(m, c);
      if !StateMetadata(updated) {
        return Failure(InvalidState);
      }
      TransitionKeepsStore(View(), k, token, c);
      Put(k, updated);
      r := Success(updated);
    }

    /** `_operator_transition` */
    method OperatorTransition(tenant: string, id: string, c: OperatorChange) returns (r: Result<Message, StoreError>)
      requires Valid()
      modifies this`messages
      ensures Valid() && Performs(old(Holds()), Reconcile(tenant, id, c), One(r), Holds())
    {
      ExactIndexMakesIdsUnique(View());
      var k := FindById(tenant, id);
      if k.None? {
        return Failure(NotFound);
      }
      OnlyOneNamed(messages, tenant, id, k.value);
      var m := messages[k.value];
      if m.status != Uncertain {
        return Failure(Conflict);
      }
      var updated := Resolved(m, c);
      if !StateMetadata(updated) {
        return Failure(InvalidState);
      }
      ResolveKeepsStore(View(), k.value, c);
      Put(k.value, updated);
      r := Success(updated);
    }

    /** `claim_due`: leases the first `limit` due messages; the i-th gets the i-th generated token. Raises, and
        changes nothing, when a lease would end past the last datetime. */
    method ClaimDue(tenant: string, now: Instant, limit: nat, owner: string, leaseSeconds: nat,
                    eventType: Option<string>, newToken: nat -> string)
      returns (r: Result<seq<Message>, StoreError>)
      requires Valid() && limit >= 1 && leaseSeconds >= 1 && owner != ""
      requires forall i :: newToken(i) != ""
      modifies this`messages
      ensures Valid()
      ensures Performs(old(Holds()), Claim(tenant, now, limit, owner, leaseSeconds, eventType, newToken),
                       Many(r), Holds())
      ensures r.Success? ==>
        ClaimedRightly(old(messages), tenant, eventType, now, limit, owner, leaseSeconds, newToken, r.value, messages)
      ensures r.Failure? <==>
        && now + leaseSeconds * 1_000_000 > LAST_DATETIME
        && exists k :: k in old(messages) && Concerns(k, old(messages)[k], tenant, eventType)
                       && Due(old(messages)[k], now)
      ensures r.Failure? ==> messages == old(messages)
    {
      hide FirstOf, ClaimOutcome, ClaimableKeys, ClaimedRightly, Concerns, Due, IndexExact, RowsValid;
      ghost var before := View();
      ExactIndexMakesIdsUnique(before);
      var keys := SortedKeys(messages);
      var until := LeaseEnd(now, leaseSeconds);
      ghost var chosen;
      r, chosen := ClaimInOrder(messages, keys, tenant, now, limit, owner, until, eventType, newToken);
      ClaimsKeepStore(before, tenant, eventType, now, chosen, newToken, owner, until, r, messages);
      ghost var op := Claim(tenant, now, limit, owner, leaseSeconds, eventType, newToken);
      ClaimLaw(old(Holds()), op, Many(r), Holds());
      RefusalLaw(old(Holds()), op, Many(r), Holds());
    }

    /** The loop of `claim_due` over its sorted candidates. */
    method ClaimInOrder(ghost rows: Rows, keys: seq<RowKey>, tenant: string, now: Instant, limit: nat, owner: string,
                        until: Instant, eventType: Option<string>, newToken: nat -> string)
      returns (r: Result<seq<Message>, StoreError>, ghost chosen: seq<RowKey>)
      requires rows == messages && InOrder(rows, keys) && limit >= 1
      modifies this`messages
      ensures FirstOf(rows, ClaimableKeys(rows, tenant, eventType, now), limit, chosen)
      ensures ClaimOutcome(rows, chosen, newToken, owner, until, r, messages)
    {
      ghost var eligible := ClaimableKeys(rows, tenant, eventType, now);
      var claimed: seq<Message> := [];
      chosen := [];
      var n := 0;
      while n < |keys| && |claimed| < limit
        invariant 0 <= n <= |keys| && |claimed| <= limit
        invariant (until > DATETIME_MAX ==> |claimed| == 0 && messages == rows)
        invariant Picked(rows, keys, n, eligible, chosen)
        invariant ClaimsSoFar(rows, chosen, newToken, owner, until, messages, claimed)
      {
        var k := keys[n];
        PickNext(rows, keys, n, tenant, eligible, chosen);
        ClaimNext(rows, chosen, k, newToken, owner, until, messages, claimed);
        var m := messages[k];
        if k.tenant == tenant && OfType(m, eventType) && Claimable(m, now) {
          if until > DATETIME_MAX {
            chosen := OnlyChoice(rows, keys, tenant, eligible, limit);
            FirstOfSome(rows, eligible, limit, chosen, k);
            return Failure(Overflow), chosen;
          }
          var updated := ClaimedCopy(m, newToken(|claimed|), owner, until);
          messages := messages[k := updated];
          claimed, chosen := claimed + [updated], chosen + [k];
        }
        n := n + 1;
      }
      PickedIsFirst(rows, keys, n, tenant, eligible, limit, chosen);
      r := Success(claimed);
    }

    /** `sweep_expired_sending` */
    method SweepExpiredSending(tenant: string, now: Instant, error: DeliveryError, limit: nat,
                               eventType: Option<string>)
      returns (swept: seq<Message>)
      requires Valid() && limit >= 1
      modifies this`messages
      ensures Valid()
      ensures Performs(old(Holds()), Sweep(tenant, now, error, limit, eventType), Many(Success(swept)), Holds())
      ensures SweptRightly(old(messages), tenant, eventType, now, limit, error, swept, messages)
      ensures forall k :: k in old(messages) ==> SendKeptOrLapsed(old(messages), messages, k, now)
    {
      hide FirstOf, SweepsSoFar, ExpiredKeys, SweptRightly, SendKeptOrLapsed, IndexExact, RowsValid;
      ghost var before := View();
      ExactIndexMakesIdsUnique(before);
      var keys := SortedKeys(messages);
      ghost var chosen;
      swept, chosen := SweepInOrder(messages, keys, tenant, now, error, limit, eventType);
      SweepsKeepStore(before, tenant, eventType, now, chosen, error, messages, swept);
      SweepLaw(old(Holds()), Sweep(tenant, now, error, limit, eventType), Many(Success(swept)), Holds());
      SendsKeptOrLapsed(old(messages), tenant, eventType, now, limit, error, swept, messages);
    }

    /** The loop of `sweep_expired_sending` over its sorted candidates. */
    method SweepInOrder(ghost rows: Rows, keys: seq<RowKey>, tenant: string, now: Instant, error: DeliveryError,
                        limit: nat,
                        eventType: Option<string>)
      returns (swept: seq<Message>, ghost chosen: seq<RowKey>)
      requires rows == messages && InOrder(rows, keys) && limit >= 1
      modifies this`messages
      ensures FirstOf(rows, ExpiredKeys(rows, tenant, eventType, now), limit, chosen)
      ensures SweepsSoFar(rows, chosen, error, messages, swept)
    {
      ghost var eligible := ExpiredKeys(rows, tenant, eventType, now);
      swept, chosen := [], [];
      var n := 0;
      while n < |keys| && |swept| < limit
        invariant 0 <= n <= |keys| && |swept| <= limit
        invariant Picked(rows, keys, n, eligible, chosen)
        invariant SweepsSoFar(rows, chosen, error, messages, swept)
      {
        var k := keys[n];
        PickNext(rows, keys, n, tenant, eligible, chosen);
        SweepNext(rows, chosen, k, error, messages, swept);
        var m := messages[k];
        if k.tenant == tenant && OfType(m, eventType) && ExpiredSending(m, now) {
          var updated := SweptCopy(m, error);
          messages := messages[k := updated];
          swept, chosen := swept + [updated], chosen + [k];
        }
        n := n + 1;
      }
      PickedIsFirst(rows, keys, n, tenant, eligible, limit, chosen);
    }
  }

  /** The choice a scan would make; it exists for every state. */
  lemma OnlyChoice(rows: Rows, keys: seq<RowKey>, tenant: string, eligible: set<RowKey>,
                   limit: nat) returns (chosen: seq<RowKey>)
    requires InOrder(rows, keys) && forall k :: k in eligible ==> k.tenant == tenant && k in rows
    ensures FirstOf(rows, eligible, limit, chosen)
  {
    chosen := [];
    var n := 0;
    while n < |keys| && |chosen| < limit
      invariant 0 <= n <= |keys| && |chosen| <= limit
      invariant Picked(rows, keys, n, eligible, chosen)
    {
      PickNext(rows, keys, n, tenant, eligible, chosen);
      if keys[n] in eligible {
        chosen := chosen + [keys[n]];
      }
      n := n + 1;
    }
    PickedIsFirst(rows, keys, n, tenant, eligible, limit, chosen);
  }
}
