/** What an operation of either outbox does to its rows, in the rows' own fields. */
module OutboxLaws {
  import opened Wrappers
  import opened Orders
  import opened Delivery
  import opened OutboxSpec
  import opened OutboxRuns
  import opened RowLaws

  lemma EarlierIsBefore(m1: Message, m2: Message)
    ensures Earlier(m1, m2) <==> Before(m1, m2)
  {
    StringOrderIsLexical(m1.id, m2.id);
  }

  /** A row that is eligible and not chosen was left out for the limit. */
  lemma LeftOut(rows: Rows, eligible: set<RowKey>, limit: nat, chosen: seq<RowKey>, k: RowKey)
    requires FirstOf(rows, eligible, limit, chosen) && k in eligible && k !in chosen
    ensures |chosen| == limit
  {
    FirstOfDistinct(rows, eligible, limit, chosen);
    DistinctCount(chosen);
    var picked := set k' | k' in chosen;
    SubsetCount(picked + {k}, eligible);
  }

  lemma ChosenInOrder(rows: Rows, eligible: set<RowKey>, limit: nat, chosen: seq<RowKey>)
    requires FirstOf(rows, eligible, limit, chosen) && forall k :: k in eligible ==> k in rows
    ensures |chosen| <= limit && forall i :: 0 <= i < |chosen| ==> chosen[i] in eligible
    ensures forall i, j :: 0 <= i < j < |chosen| ==>
      chosen[i] in rows && chosen[j] in rows && Before(rows[chosen[i]], rows[chosen[j]])
    ensures forall k :: k in eligible && k !in chosen ==>
      k in rows && |chosen| == limit && forall i :: 0 <= i < |chosen| ==>
        chosen[i] in rows && Before(rows[chosen[i]], rows[k])
  {
    hide Before, Earlier;
    forall i, j | 0 <= i < j < |chosen|
      ensures chosen[i] in rows && chosen[j] in rows && Before(rows[chosen[i]], rows[chosen[j]])
    {
      assert RowEarlier(rows, chosen[i], chosen[j]);
      EarlierIsBefore(rows[chosen[i]], rows[chosen[j]]);
    }
    forall k | k in eligible && k !in chosen
      ensures |chosen| == limit
      ensures forall i :: 0 <= i < |chosen| ==>
        k in rows && chosen[i] in rows && Before(rows[chosen[i]], rows[k])
    {
      LeftOut(rows, eligible, limit, chosen, k);
      forall i | 0 <= i < |chosen| ensures k in rows && chosen[i] in rows && Before(rows[chosen[i]], rows[k]) {
        assert RowEarlier(rows, chosen[i], k);
        EarlierIsBefore(rows[chosen[i]], rows[k]);
      }
    }
  }

  lemma ClaimableIsDue(rows: Rows, tenant: string, eventType: Option<string>, now: Instant)
    ensures forall k :: k in ClaimableKeys(rows, tenant, eventType, now) <==>
      k in rows && Concerns(k, rows[k], tenant, eventType) && Due(rows[k], now)
  {}

  lemma ExpiredIsLapsed(rows: Rows, tenant: string, eventType: Option<string>, now: Instant)
    ensures forall k :: k in ExpiredKeys(rows, tenant, eventType, now) <==>
      k in rows && Concerns(k, rows[k], tenant, eventType) && SendLapsed(rows[k], now)
  {}

  lemma CopyIsLease(m: Message, token: string, owner: string, now: Instant, leaseSeconds: nat)
    ensures Leased(m, ClaimedCopy(m, token, owner, LeaseEnd(now, leaseSeconds)), now, token, owner, leaseSeconds)
  {}

  lemma CopyIsLoss(m: Message, error: DeliveryError)
    ensures LostSight(m, SweptCopy(m, error), error)
  {}

  lemma LeaseLaw(rows: Rows, op: Op, chosen: seq<RowKey>, claimed: seq<Message>, rows': Rows)
    requires op.Claim? && FirstOf(rows, ClaimableKeys(rows, op.tenant, op.eventType, op.now), op.limit, chosen)
    requires ClaimsSoFar(rows, chosen, op.newToken, op.owner, LeaseEnd(op.now, op.leaseSeconds), rows', claimed)
    ensures LeasedFirst(rows, chosen, op.tenant, op.eventType, op.now, op.limit, op.owner, op.leaseSeconds, op.newToken,
                        claimed, rows')
  {
    hide Before, FirstOf, ClaimableKeys, Concerns, Due, Leased, ClaimedCopy, LeaseEnd;
    ClaimableIsDue(rows, op.tenant, op.eventType, op.now);
    ChosenInOrder(rows, ClaimableKeys(rows, op.tenant, op.eventType, op.now), op.limit, chosen);
    forall i | 0 <= i < |chosen|
      ensures Leased(rows[chosen[i]], claimed[i], op.now, op.newToken(i), op.owner, op.leaseSeconds) {
      CopyIsLease(rows[chosen[i]], op.newToken(i), op.owner, op.now, op.leaseSeconds);
    }
  }

  /** A claim leases the first due rows, and refuses only when the lease would end past the last datetime. */
  lemma ClaimLaw(b: Contents, op: Op, reply: Reply, b': Contents)
    requires op.Claim? && (Performs(b, op, reply, b') || SqlPerforms(b, op, reply, b'))
    ensures reply.Many?
    ensures reply.messages.Failure? ==>
      b'.rows == b.rows && op.now + op.leaseSeconds * 1_000_000 > LAST_DATETIME
    ensures reply.messages.Success? ==>
      ClaimedRightly(b.rows, op.tenant, op.eventType, op.now, op.limit, op.owner, op.leaseSeconds, op.newToken,
                     reply.messages.value, b'.rows)
  {
    hide LeasedFirst, ClaimsSoFar, FirstOf, ClaimableKeys;
    if !(SqlPerforms(b, op, reply, b') && LeasePastTheEnd(op)) {
      var due, until := ClaimableKeys(b.rows, op.tenant, op.eventType, op.now), LeaseEnd(op.now, op.leaseSeconds);
      var chosen :| FirstOf(b.rows, due, op.limit, chosen)
                    && ClaimOutcome(b.rows, chosen, op.newToken, op.owner, until, reply.messages, b'.rows);
      if reply.messages.Success? {
        LeaseLaw(b.rows, op, chosen, reply.messages.value, b'.rows);
      }
    }
  }

  /** The in-memory outbox refuses a claim exactly when a row is due and its lease would end past the last datetime. */
  lemma RefusalLaw(b: Contents, op: Op, reply: Reply, b': Contents)
    requires op.Claim? && op.limit >= 1 && Performs(b, op, reply, b')
    ensures reply.Many?
    ensures reply.messages.Failure? <==>
      && op.now + op.leaseSeconds * 1_000_000 > LAST_DATETIME
      && exists k :: k in b.rows && Concerns(k, b.rows[k], op.tenant, op.eventType) && Due(b.rows[k], op.now)
    ensures reply.messages.Failure? ==> reply.messages == Failure(Overflow) && b'.rows == b.rows
  {
    hide FirstOf, ClaimableKeys, ClaimOutcome, Concerns, Due;
    ClaimableIsDue(b.rows, op.tenant, op.eventType, op.now);
    ClaimRefusedExactly(b.rows, op, reply.messages, b'.rows);
  }

  lemma LossLaw(rows: Rows, op: Op, chosen: seq<RowKey>, swept: seq<Message>, rows': Rows)
    requires op.Sweep? && FirstOf(rows, ExpiredKeys(rows, op.tenant, op.eventType, op.now), op.limit, chosen)
    requires SweepsSoFar(rows, chosen, op.error, rows', swept)
    ensures LostFirst(rows, chosen, op.tenant, op.eventType, op.now, op.limit, op.error, swept, rows')
  {
    hide Before, FirstOf, ExpiredKeys, Concerns, SendLapsed, LostSight, SweptCopy;
    ExpiredIsLapsed(rows, op.tenant, op.eventType, op.now);
    ChosenInOrder(rows, ExpiredKeys(rows, op.tenant, op.eventType, op.now), op.limit, chosen);
    forall i | 0 <= i < |chosen| ensures LostSight(rows[chosen[i]], swept[i], op.error) {
      CopyIsLoss(rows[chosen[i]], op.error);
    }
  }

  /** A sweep gives up the first sends whose lease is over, and leaves every other row alone. */
  lemma SweepLaw(b: Contents, op: Op, reply: Reply, b': Contents)
    requires op.Sweep? && (Performs(b, op, reply, b') || SqlPerforms(b, op, reply, b'))
    ensures reply.Many? && reply.messages.Success?
    ensures SweptRightly(b.rows, op.tenant, op.eventType, op.now, op.limit, op.error, reply.messages.value, b'.rows)
  {
    hide LostFirst, SweepsSoFar, FirstOf, ExpiredKeys;
    var expired := ExpiredKeys(b.rows, op.tenant, op.eventType, op.now);
    var chosen :| FirstOf(b.rows, expired, op.limit, chosen)
                  && SweepsSoFar(b.rows, chosen, op.error, b'.rows, reply.messages.value);
    LossLaw(b.rows, op, chosen, reply.messages.value, b'.rows);
  }

  /** A transition under a token, on rows that satisfy the validity rule. */
  lemma TransitionLaw(b: Contents, op: Op, reply: Reply, b': Contents)
    requires op.Transition? && (Performs(b, op, reply, b') || SqlPerforms(b, op, reply, b'))
    requires forall k :: k in b.rows ==> StateMetadata(b.rows[k])
    ensures reply.One? && MovedUnderToken(b.rows, op.tenant, op.id, op.token, op.change, reply.message, b'.rows)
  {
    forall k | IsNamed(b.rows, k, op.tenant, op.id) && op.token != ""
      ensures var m := b.rows[k]; var r := reply.message;
        if m.claimToken != Some(op.token) then r == Failure(PermissionDenied)
        else if !StartsFrom(op.change, m.status) then r == Failure(Conflict)
        else if op.change.FailClaim? && m.attempts > 0 then r == Failure(InvalidState)
        else r.Success? && ChangedTo(m, op.change, r.value) && b'.rows == b.rows[k := r.value]
    {
      assert Names(b.rows, k, op.tenant, op.id);
      ValidityRefusesExactly(b.rows[k], op.token, op.change);
    }
    forall k | Names(b.rows, k, op.tenant, op.id) ensures IsNamed(b.rows, k, op.tenant, op.id) {}
  }

  lemma DecisionLaw(b: Contents, op: Op, reply: Reply, b': Contents)
    requires op.Reconcile? && (Performs(b, op, reply, b') || SqlPerforms(b, op, reply, b'))
    requires forall k :: k in b.rows ==> StateMetadata(b.rows[k])
    ensures reply.One? && Decided(b.rows, op.tenant, op.id, op.decision, reply.message, b'.rows)
  {
    forall k | IsNamed(b.rows, k, op.tenant, op.id)
      ensures reply.message == OperatorGuardedChange(b.rows[k], op.decision)
      ensures reply.message.Success? ==> b'.rows == b.rows[k := reply.message.value]
      ensures reply.message != Failure(InvalidState)
    {
      assert Names(b.rows, k, op.tenant, op.id);
    }
    forall k | Names(b.rows, k, op.tenant, op.id) ensures IsNamed(b.rows, k, op.tenant, op.id) {}
  }
}
