/** What any outbox promises per operation, whichever way it stores its rows, and whole runs of operations. */
module OutboxRuns {
  import opened Wrappers
  import opened Delivery
  import opened OutboxSpec

  /** The rows with what each of their write fingerprints stands for. */
  datatype Contents = Contents(rows: Rows, writes: map<RowKey, Write>)

  const NOTHING := Contents(map[], map[])

  datatype Op =
    | Add(m: Message, write: Write)
    | Transition(tenant: string, id: string, token: string, change: Change)
    | Reconcile(tenant: string, id: string, decision: OperatorChange)
    | Claim(tenant: string, now: Instant, limit: nat, owner: string, leaseSeconds: nat,
            eventType: Option<string>, newToken: nat -> string)
    | Sweep(tenant: string, now: Instant, error: DeliveryError, limit: nat, eventType: Option<string>)

  datatype Reply = One(message: Result<Message, StoreError>) | Many(messages: Result<seq<Message>, StoreError>)

  // ----- adding, by scanning for the ids -----

  ghost predicate HasId(rows: Rows, k: RowKey, tenant: string, id: string, ofEvent: bool) {
    k in rows && k.tenant == tenant && IdOf(rows[k], ofEvent) == id
  }

  ghost predicate Clashes(rows: Rows, m: Message) {
    exists k, ofEvent :: HasId(rows, k, m.tenant, IdOf(m, ofEvent), ofEvent)
  }

  ghost predicate AddOutcome(b: Contents, m: Message, w: Write, r: Result<Message, StoreError>, b': Contents) {
    var k := RowKey(m.tenant, m.idempotencyKey);
    if k in b.rows then
      b' == b && r == if k in b.writes && b.writes[k] == w then Success(b.rows[k]) else Failure(Conflict)
    else if Clashes(b.rows, m) then b' == b && r == Failure(Conflict)
    else r == Success(m) && b' == Contents(b.rows[k := m], b.writes[k := w])
  }

  lemma IndexFindsExactly(rows: Rows, index: Index, ofEvent: bool, tenant: string, id: string)
    requires IndexExact(rows, index, ofEvent)
    ensures (tenant, id) in index <==> exists k :: HasId(rows, k, tenant, id, ofEvent)
    ensures (tenant, id) in index ==> HasId(rows, RowKey(tenant, index[(tenant, id)]), tenant, id, ofEvent)
    ensures forall k :: HasId(rows, k, tenant, id, ofEvent) ==> k == RowKey(tenant, index[(tenant, id)])
  {
    if (tenant, id) in index {
      assert EntryNamesRow(rows, index, ofEvent, (tenant, id));
      assert HasId(rows, RowKey(tenant, index[(tenant, id)]), tenant, id, ofEvent);
    }
    forall k | HasId(rows, k, tenant, id, ofEvent)
      ensures (tenant, id) in index && k == RowKey(tenant, index[(tenant, id)])
    {
      assert RowIndexed(rows, index, ofEvent, k);
    }
  }

  /** The indexed `add` does what scanning all rows for the two ids would do. */
  lemma AddedByIndex(s: Store, m: Message, w: Write)
    requires StoreValid(s)
    ensures var (r, s') := Added(s, m, w);
      AddOutcome(Contents(s.messages, s.writes), m, w, r, Contents(s'.messages, s'.writes))
  {
    var k := RowKey(m.tenant, m.idempotencyKey);
    if k !in s.messages {
      IndexFindsExactly(s.messages, s.keyByMessageId, false, m.tenant, m.id);
      IndexFindsExactly(s.messages, s.keyByEventId, true, m.tenant, m.event.id);
      NoEntryForAbsentKey(s.messages, s.keyByMessageId, false, k, m.id);
      NoEntryForAbsentKey(s.messages, s.keyByEventId, true, k, m.event.id);
      assert IdOf(m, false) == m.id && IdOf(m, true) == m.event.id;
      if Clashes(s.messages, m) {
        var k', ofEvent :| HasId(s.messages, k', m.tenant, IdOf(m, ofEvent), ofEvent);
        assert ofEvent || HasId(s.messages, k', m.tenant, m.id, false);
      }
    }
  }

  // ----- one operation -----

  ghost predicate ClaimDone(rows: Rows, op: Op, r: Result<seq<Message>, StoreError>, rows': Rows)
    requires op.Claim?
  {
    exists chosen ::
      && FirstOf(rows, ClaimableKeys(rows, op.tenant, op.eventType, op.now), op.limit, chosen)
      && ClaimOutcome(rows, chosen, op.newToken, op.owner, LeaseEnd(op.now, op.leaseSeconds), r, rows')
  }

  ghost predicate SweepDone(rows: Rows, op: Op, swept: seq<Message>, rows': Rows)
    requires op.Sweep?
  {
    exists chosen ::
      && FirstOf(rows, ExpiredKeys(rows, op.tenant, op.eventType, op.now), op.limit, chosen)
      && SweepsSoFar(rows, chosen, op.error, rows', swept)
  }

  /** What the in-memory outbox does. */
  ghost predicate Performs(b: Contents, op: Op, reply: Reply, b': Contents) {
    match op
    case Add(m, w) => reply.One? && AddOutcome(b, m, w, reply.message, b')
    case Transition(tenant, id, token, c) =>
      reply.One? && b'.writes == b.writes && TransitionOutcome(b.rows, tenant, id, token, c, reply.message, b'.rows)
    case Reconcile(tenant, id, c) =>
      reply.One? && b'.writes == b.writes && OperatorOutcome(b.rows, tenant, id, c, reply.message, b'.rows)
    case Claim(_, _, _, _, _, _, _) =>
      reply.Many? && b'.writes == b.writes && ClaimDone(b.rows, op, reply.messages, b'.rows)
    case Sweep(_, _, _, _, _) =>
      reply.Many? && b'.writes == b.writes && reply.messages.Success?
      && SweepDone(b.rows, op, reply.messages.value, b'.rows)
  }

  predicate LeasePastTheEnd(op: Op) {
    op.Claim? && LeaseEnd(op.now, op.leaseSeconds) > DATETIME_MAX
  }

  /** What the SQL outbox does: the same, except that it adds the lease to the time before it looks for rows. */
  ghost predicate SqlPerforms(b: Contents, op: Op, reply: Reply, b': Contents) {
    if LeasePastTheEnd(op) then reply == Many(Failure(Overflow)) && b' == b else Performs(b, op, reply, b')
  }

  // ----- operations have one outcome -----

  lemma TransitionIsDetermined(rows: Rows, tenant: string, id: string, token: string, c: Change,
                               r1: Result<Message, StoreError>, rows1: Rows,
                               r2: Result<Message, StoreError>, rows2: Rows)
    requires TransitionOutcome(rows, tenant, id, token, c, r1, rows1)
    requires TransitionOutcome(rows, tenant, id, token, c, r2, rows2)
    ensures r1 == r2 && rows1 == rows2
  {
    if token != "" && exists k :: Names(rows, k, tenant, id) {
      var k :| Names(rows, k, tenant, id);
      assert r1 == GuardedChange(rows[k], token, c) == r2;
    }
  }

  lemma ReconcileIsDetermined(rows: Rows, tenant: string, id: string, c: OperatorChange,
                              r1: Result<Message, StoreError>, rows1: Rows,
                              r2: Result<Message, StoreError>, rows2: Rows)
    requires OperatorOutcome(rows, tenant, id, c, r1, rows1) && OperatorOutcome(rows, tenant, id, c, r2, rows2)
    ensures r1 == r2 && rows1 == rows2
  {
    if exists k :: Names(rows, k, tenant, id) {
      var k :| Names(rows, k, tenant, id);
      assert r1 == OperatorGuardedChange(rows[k], c) == r2;
    }
  }

  lemma SameRows(rows: Rows, chosen: seq<RowKey>, rows1: Rows, rows2: Rows)
    requires UnchangedBut(rows, chosen, rows1) && UnchangedBut(rows, chosen, rows2)
    requires forall i :: 0 <= i < |chosen| ==>
      chosen[i] in rows1 && chosen[i] in rows2 && rows1[chosen[i]] == rows2[chosen[i]]
    ensures rows1 == rows2
  {
    forall k | k in rows ensures rows1[k] == rows2[k] {
      if k in chosen {
        var i :| 0 <= i < |chosen| && chosen[i] == k;
      }
    }
  }

  lemma ClaimIsDetermined(rows: Rows, op: Op, r1: Result<seq<Message>, StoreError>, rows1: Rows,
                          r2: Result<seq<Message>, StoreError>, rows2: Rows)
    requires op.Claim? && ClaimDone(rows, op, r1, rows1) && ClaimDone(rows, op, r2, rows2)
    ensures r1 == r2 && rows1 == rows2
  {
    var due, until := ClaimableKeys(rows, op.tenant, op.eventType, op.now), LeaseEnd(op.now, op.leaseSeconds);
    var c1 :| FirstOf(rows, due, op.limit, c1) && ClaimOutcome(rows, c1, op.newToken, op.owner, until, r1, rows1);
    var c2 :| FirstOf(rows, due, op.limit, c2) && ClaimOutcome(rows, c2, op.newToken, op.owner, until, r2, rows2);
    FirstOfUnique(rows, due, op.limit, c1, c2);
    if r1.Success? {
      SameRows(rows, c1, rows1, rows2);
      assert r1.value == r2.value;
    }
  }

  lemma SweepIsDetermined(rows: Rows, op: Op, s1: seq<Message>, rows1: Rows, s2: seq<Message>, rows2: Rows)
    requires op.Sweep? && SweepDone(rows, op, s1, rows1) && SweepDone(rows, op, s2, rows2)
    ensures s1 == s2 && rows1 == rows2
  {
    var expired := ExpiredKeys(rows, op.tenant, op.eventType, op.now);
    var c1 :| FirstOf(rows, expired, op.limit, c1) && SweepsSoFar(rows, c1, op.error, rows1, s1);
    var c2 :| FirstOf(rows, expired, op.limit, c2) && SweepsSoFar(rows, c2, op.error, rows2, s2);
    FirstOfUnique(rows, expired, op.limit, c1, c2);
    SameSweeps(rows, c1, op.error, rows1, s1, rows2, s2);
  }

  lemma SameSweeps(rows: Rows, chosen: seq<RowKey>, error: DeliveryError,
                   rows1: Rows, s1: seq<Message>, rows2: Rows, s2: seq<Message>)
    requires SweepsSoFar(rows, chosen, error, rows1, s1) && SweepsSoFar(rows, chosen, error, rows2, s2)
    ensures s1 == s2 && rows1 == rows2
  {
    SameRows(rows, chosen, rows1, rows2);
  }

  lemma OneOutcome(b: Contents, op: Op, reply1: Reply, b1: Contents, reply2: Reply, b2: Contents)
    requires Performs(b, op, reply1, b1) && Performs(b, op, reply2, b2)
    ensures reply1 == reply2 && b1 == b2
  {
    match op
    case Add(m, w) =>
    case Transition(tenant, id, token, c) =>
      TransitionIsDetermined(b.rows, tenant, id, token, c, reply1.message, b1.rows, reply2.message, b2.rows);
    case Reconcile(tenant, id, c) =>
      ReconcileIsDetermined(b.rows, tenant, id, c, reply1.message, b1.rows, reply2.message, b2.rows);
    case Claim(_, _, _, _, _, _, _) =>
      ClaimIsDetermined(b.rows, op, reply1.messages, b1.rows, reply2.messages, b2.rows);
    case Sweep(_, _, _, _, _) =>
      SweepIsDetermined(b.rows, op, reply1.messages.value, b1.rows, reply2.messages.value, b2.rows);
  }

  // ----- the two outboxes side by side -----

  ghost predicate NothingToClaim(b: Contents, op: Op) {
    op.Claim? && ClaimableKeys(b.rows, op.tenant, op.eventType, op.now) == {}
  }

  lemma ClaimRefusedExactly(rows: Rows, op: Op, r: Result<seq<Message>, StoreError>, rows': Rows)
    requires op.Claim? && op.limit >= 1 && ClaimDone(rows, op, r, rows')
    ensures r.Failure? <==> LeasePastTheEnd(op) && ClaimableKeys(rows, op.tenant, op.eventType, op.now) != {}
    ensures r.Failure? ==> r == Failure(Overflow) && rows' == rows
  {
    var due, until := ClaimableKeys(rows, op.tenant, op.eventType, op.now), LeaseEnd(op.now, op.leaseSeconds);
    var chosen :| FirstOf(rows, due, op.limit, chosen)
                  && ClaimOutcome(rows, chosen, op.newToken, op.owner, until, r, rows');
    assert due == {} <==> |due| == 0;
  }

  /** From the same contents the two outboxes give the same reply exactly when the operation is not a claim
      whose lease ends past the last datetime while nothing is due; their contents stay the same always. */
  lemma RepliesAgreeExactly(b: Contents, op: Op, reply1: Reply, b1: Contents, reply2: Reply, b2: Contents)
    requires op.Claim? ==> op.limit >= 1
    requires Performs(b, op, reply1, b1) && SqlPerforms(b, op, reply2, b2)
    ensures b1.rows == b2.rows && b1.writes == b2.writes
    ensures reply1 == reply2 <==> !(LeasePastTheEnd(op) && NothingToClaim(b, op))
  {
    if LeasePastTheEnd(op) {
      ClaimRefusedExactly(b.rows, op, reply1.messages, b1.rows);
      if reply1.messages.Success? {
        NothingLeased(b.rows, op, reply1.messages.value, b1.rows);
      }
    } else {
      OneOutcome(b, op, reply1, b1, reply2, b2);
    }
  }

  lemma NothingLeased(rows: Rows, op: Op, claimed: seq<Message>, rows': Rows)
    requires op.Claim? && ClaimDone(rows, op, Success(claimed), rows')
    requires ClaimableKeys(rows, op.tenant, op.eventType, op.now) == {}
    ensures rows' == rows && claimed == []
  {
    var chosen :| FirstOf(rows, {}, op.limit, chosen)
      && ClaimOutcome(rows, chosen, op.newToken, op.owner, LeaseEnd(op.now, op.leaseSeconds), Success(claimed), rows');
  }

  /** An input on which they differ: claiming from nothing with a lease past the last datetime. */
  lemma EmptyClaimDiffers(newToken: nat -> string)
    ensures var op := Claim("t", DATETIME_MAX, 1, "w", 1, None, newToken);
      Performs(NOTHING, op, Many(Success([])), NOTHING) && SqlPerforms(NOTHING, op, Many(Failure(Overflow)), NOTHING)
  {
    var op := Claim("t", DATETIME_MAX, 1, "w", 1, None, newToken);
    assert FirstOf(map[], ClaimableKeys(map[], "t", None, DATETIME_MAX), 1, []);
    assert ClaimOutcome(map[], [], newToken, "w", LeaseEnd(DATETIME_MAX, 1), Success([]), map[]);
    assert ClaimDone(map[], op, Success([]), map[]);
  }

  // ----- whole runs -----

  datatype Step = Step(before: Contents, op: Op, reply: Reply, after: Contents)

  ghost predicate MemoryRun(run: seq<Step>) {
    && (run != [] ==> run[0].before == NOTHING)
    && (forall i :: 0 <= i < |run| ==> Performs(run[i].before, run[i].op, run[i].reply, run[i].after))
    && (forall i :: 0 < i < |run| ==> Follows(run, i))
  }

  ghost predicate SqlRun(run: seq<Step>) {
    && (run != [] ==> run[0].before == NOTHING)
    && (forall i :: 0 <= i < |run| ==> SqlPerforms(run[i].before, run[i].op, run[i].reply, run[i].after))
    && (forall i :: 0 < i < |run| ==> Follows(run, i))
  }

  predicate Follows(run: seq<Step>, i: int)
    requires 0 < i < |run|
  {
    run[i].before == run[i - 1].after
  }

  /** Both outboxes, given the same operations and generated tokens from the start, hold the same rows after
      every one of them, and reply alike except to claims past the last datetime with nothing due. */
  lemma {:induction false} RunsAgree(memory: seq<Step>, sql: seq<Step>, n: nat)
    requires MemoryRun(memory) && SqlRun(sql) && |memory| == |sql| && n < |memory|
    requires forall i :: 0 <= i < |memory| ==>
      memory[i].op == sql[i].op && (memory[i].op.Claim? ==> memory[i].op.limit >= 1)
    ensures memory[n].before == sql[n].before && memory[n].after == sql[n].after
    ensures memory[n].reply == sql[n].reply
            <==> !(LeasePastTheEnd(memory[n].op) && NothingToClaim(memory[n].before, memory[n].op))
  {
    if n > 0 {
      RunsAgree(memory, sql, n - 1);
      assert Follows(memory, n) && Follows(sql, n);
    }
    RepliesAgreeExactly(memory[n].before, memory[n].op, memory[n].reply, memory[n].after, sql[n].reply, sql[n].after);
  }
}
