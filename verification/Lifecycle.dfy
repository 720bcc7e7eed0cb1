/** Creation and delivery together: every reminder that is created becomes one message of the delivery protocol, whose
    assumption about new messages holds for all of them. */
module Lifecycle {
  import opened Wrappers
  import opened Text
  import D = Delivery
  import O = OutboxSpec
  import P = DispatchProtocol
  import R = ReminderCreation
  import S = DispatchSafety
  import T = ReminderTheorems
  import W = WorkflowStates

  type RowKey = D.RowKey

  // ----- ids as text -----

  function Prefix(kind: W.EffectKind): string {
    match kind
    case CalendarEventId => "cal_v2_"
    case ReminderId => "rem_v2_"
    case ReminderCreatedId => "evt_reminder_created_v2_"
    case NotificationRequestedId => "evt_notification_requested_v2_"
    case OutboxMessageId => "out_v2_"
  }

  /** The identity in full where the original has its digest. */
  function IdText(id: W.EffectId): string {
    Prefix(id.kind) + (id.identity.tenant + id.identity.idempotencyKey + ":" + Decimal(|id.identity.tenant|))
  }

  lemma SamePrefix(a: W.EffectId, b: W.EffectId)
    requires IdText(a) == IdText(b)
    ensures a.kind == b.kind
  {
    hide Decimal;
    var p, q := Prefix(a.kind), Prefix(b.kind);
    assert IdText(a)[0] == p[0] && IdText(b)[0] == q[0];
    assert IdText(a)[4] == p[4] && IdText(b)[4] == q[4];
  }

  lemma IdTextInjective(a: W.EffectId, b: W.EffectId)
    requires IdText(a) == IdText(b)
    ensures a == b
  {
    SamePrefix(a, b);
    var n := |Prefix(a.kind)|;
    assert IdText(a)[n..] == IdText(b)[n..];
    var x, y := a.identity, b.identity;
    JoinedNumeralInjective(x.tenant + x.idempotencyKey, y.tenant + y.idempotencyKey, ":", |x.tenant|, |y.tenant|);
    assert x.tenant == (x.tenant + x.idempotencyKey)[..|x.tenant|];
    assert y.tenant == (y.tenant + y.idempotencyKey)[..|y.tenant|];
    assert x.idempotencyKey == (x.tenant + x.idempotencyKey)[|x.tenant|..];
    assert y.idempotencyKey == (y.tenant + y.idempotencyKey)[|y.tenant|..];
  }

  // ----- the message that an outbox row is -----

  function EventOf(o: R.OutboxRow): D.Event {
    D.Event(IdText(o.eventId), D.REMINDER_NOTIFICATION, Some(IdText(o.subject)), Some(o.channel), Some(o.recipient),
            Some(o.body))
  }

  /** `outbox.add`, as the transaction calls it. */
  function MessageOf(k: RowKey, o: R.OutboxRow, createdAt: D.Instant): D.Message {
    O.NewMessage(k.tenant, IdText(o.messageId), EventOf(o), R.OutboxKey(k).idempotencyKey, Some(o.notifyAt), createdAt)
  }

  /** The worker will find the payload usable exactly when the request named one of the two channels, and recipient and
      text are not blank. */
  lemma RequestableExactly(o: R.OutboxRow)
    ensures D.Requestable(EventOf(o)) <==>
            (o.channel == "telegram" || o.channel == "whatsapp") && !Blank(o.recipient) && !Blank(o.body)
  {
    assert |IdText(o.subject)| > 0;
  }

  // ----- the joint system -----

  datatype Joint = Joint(creation: R.Sys, delivery: P.Sys)

  const NOTHING := Joint(R.NO_RUNS, P.EMPTY)

  datatype Action = Creation(creating: R.Action, createdAt: D.Instant) | Delivery(delivering: P.Action)

  /** The creation step commits the four effects of a reminder. */
  predicate Creates(s: R.Sys, a: R.Action) {
    && a.Transact? && R.Enabled(s, a) && R.Lands(a.outcome)
    && R.TransactionOf(s, a).Success? && R.TransactionOf(s, a).value.ended == R.Created
    && R.OutboxKey(s.runs[a.t].q.k) in R.Next(s, a).stores.outbox.rows
  }

  /** What that step is for the delivery protocol: the outbox row it has stored, with its reminder. */
  function Announced(s: R.Sys, a: R.Action, createdAt: D.Instant): P.Action
    requires Creates(s, a)
  {
    var k := s.runs[a.t].q.k;
    P.Create(R.OutboxKey(k), MessageOf(k, R.Next(s, a).stores.outbox.rows[R.OutboxKey(k)], createdAt), true)
  }

  /** Creation steps announce what they create; messages come from nowhere else. */
  function Next(j: Joint, a: Action): Joint {
    match a
    case Creation(b, createdAt) =>
      Joint(R.Next(j.creation, b),
            if Creates(j.creation, b) then P.Next(j.delivery, Announced(j.creation, b, createdAt)) else j.delivery)
    case Delivery(b) => if b.Create? then j else Joint(j.creation, P.Next(j.delivery, b))
  }

  function Run(j: Joint, actions: seq<Action>): Joint
    decreases |actions|
  {
    if actions == [] then j else Run(Next(j, actions[0]), actions[1..])
  }

  // ----- what links the two -----

  function ReminderKeyOf(k: RowKey): P.ReminderKey {
    P.ReminderKey(k.tenant, IdText(W.EffectId(W.ReminderId, k)))
  }

  /** A created reminder is a message of the protocol, under the ids and with the payload of its outbox row. */
  predicate Linked(j: Joint, k: RowKey) {
    T.Finished(j.creation.stores, k) ==>
      && R.OutboxKey(k) in j.creation.stores.outbox.rows && R.OutboxKey(k) in j.delivery.rows
      && var o, m := j.creation.stores.outbox.rows[R.OutboxKey(k)], j.delivery.rows[R.OutboxKey(k)];
         && o.messageId == W.EffectId(W.OutboxMessageId, k) && o.subject == W.EffectId(W.ReminderId, k)
         && m.tenant == k.tenant && m.id == IdText(o.messageId) && m.event == EventOf(o)
         && ReminderKeyOf(k) in j.delivery.reminders
  }

  predicate OfCreated(j: Joint, r: RowKey) {
    T.EndsWith(r, ":outbox") && T.Finished(j.creation.stores, T.Owner(r, ":outbox"))
  }

  ghost predicate ReminderOfCreated(j: Joint, r: P.ReminderKey) {
    exists k :: T.Finished(j.creation.stores, k) && r == ReminderKeyOf(k)
  }

  ghost predicate Inv(j: Joint) {
    && T.Inv(j.creation) && S.Inv(j.delivery)
    && (forall k {:trigger Linked(j, k)} :: Linked(j, k))
    && (forall r {:trigger OfCreated(j, r)} :: r in j.delivery.rows ==> OfCreated(j, r))
    && (forall r {:trigger ReminderOfCreated(j, r)} :: r in j.delivery.reminders ==> ReminderOfCreated(j, r))
  }

  lemma RowOwner(j: Joint, r: RowKey) returns (k: RowKey)
    requires Inv(j) && r in j.delivery.rows
    ensures T.Finished(j.creation.stores, k) && r == R.OutboxKey(k) && Linked(j, k)
  {
    hide P.Next, R.Next, T.Inv, S.Inv;
    assert OfCreated(j, r);
    k := T.Owner(r, ":outbox");
    assert r.idempotencyKey == k.idempotencyKey + ":outbox";
    assert Linked(j, k);
  }

  // ----- a creation is always a step the protocol allows -----

  /** What a creating step has stored for its identity, which had nothing before. */
  lemma CreatedRow(s: R.Sys, a: R.Action)
    requires T.Inv(s) && Creates(s, a)
    ensures var k := s.runs[a.t].q.k; var st' := R.Next(s, a).stores;
      && !T.Finished(s.stores, k) && T.Finished(st', k)
      && st'.outbox.rows[R.OutboxKey(k)].messageId == W.EffectId(W.OutboxMessageId, k)
      && st'.outbox.rows[R.OutboxKey(k)].subject == W.EffectId(W.ReminderId, k)
  {
    hide R.Next, T.StoresOk, R.TransactionOf, T.RegistrationFails, T.Repeats, R.ReplayReport;
    T.TransactNext(s, a);
    T.TransactCommits(s, a);
  }

  /** A new message, unlike every message and reminder there is. */
  lemma NewIsApart(j: Joint, k: RowKey, m: D.Message, o: R.OutboxRow, createdAt: D.Instant)
    requires Inv(j) && !T.Finished(j.creation.stores, k) && m == MessageOf(k, o, createdAt)
    requires o.messageId == W.EffectId(W.OutboxMessageId, k) && o.subject == W.EffectId(W.ReminderId, k)
    ensures P.Creatable(j.delivery, R.OutboxKey(k), m, true)
  {
    hide P.Next, R.Next, T.Inv, S.Inv;
    assert |IdText(o.subject)| > 0;
    if R.OutboxKey(k) in j.delivery.rows {
      var k' := RowOwner(j, R.OutboxKey(k));
      assert k' != k ==> R.OutboxKey(k') != R.OutboxKey(k) by {
        if k' != k {
          T.SuffixedApart(k', k, ":outbox");
        }
      }
    }
    forall r | r in j.delivery.rows
      ensures P.SameTenantDistinctIds(j.delivery.rows[r], m) && P.SubjectsApart(j.delivery.rows[r], m) {
      OtherIsApart(j, k, m, o, createdAt, r);
    }
    if P.SubjectKey(m) in j.delivery.reminders {
      assert ReminderOfCreated(j, P.SubjectKey(m));
      var k' :| T.Finished(j.creation.stores, k') && P.SubjectKey(m) == ReminderKeyOf(k');
      IdTextInjective(o.subject, W.EffectId(W.ReminderId, k'));
    }
  }

  lemma OtherIsApart(j: Joint, k: RowKey, m: D.Message, o: R.OutboxRow, createdAt: D.Instant, r: RowKey)
    requires Inv(j) && !T.Finished(j.creation.stores, k) && m == MessageOf(k, o, createdAt) && r in j.delivery.rows
    requires o.messageId == W.EffectId(W.OutboxMessageId, k) && o.subject == W.EffectId(W.ReminderId, k)
    ensures P.SameTenantDistinctIds(j.delivery.rows[r], m) && P.SubjectsApart(j.delivery.rows[r], m)
  {
    var k' := RowOwner(j, r);
    var o' := j.creation.stores.outbox.rows[R.OutboxKey(k')];
    if IdText(o'.messageId) == IdText(o.messageId) {
      IdTextInjective(o'.messageId, o.messageId);
    }
    if IdText(o'.subject) == IdText(o.subject) {
      IdTextInjective(o'.subject, o.subject);
    }
  }

  lemma CreationIsEnabled(j: Joint, a: R.Action, createdAt: D.Instant)
    requires Inv(j) && Creates(j.creation, a)
    ensures P.Enabled(j.delivery, Announced(j.creation, a, createdAt))
  {
    hide R.Next, P.Next, T.Inv, S.Inv, R.TransactionOf, MessageOf, P.Creatable;
    CreatedRow(j.creation, a);
    var k := j.creation.runs[a.t].q.k;
    var o := R.Next(j.creation, a).stores.outbox.rows[R.OutboxKey(k)];
    NewIsApart(j, k, MessageOf(k, o, createdAt), o, createdAt);
  }

  /** No creation goes unannounced: whatever commits the effects has stored the outbox row. */
  lemma CreatedIsAnnounced(s: R.Sys, a: R.Action)
    requires T.Inv(s) && a.Transact? && R.Enabled(s, a) && R.Lands(a.outcome)
    requires R.TransactionOf(s, a).Success? && R.TransactionOf(s, a).value.ended == R.Created
    ensures Creates(s, a)
  {
    hide R.Next, T.StoresOk, R.TransactionOf, T.RegistrationFails, T.Repeats, R.ReplayReport;
    T.TransactNext(s, a);
    T.TransactCommits(s, a);
  }

  // ----- every step keeps the link -----

  /** Delivery neither adds nor removes a message or reminder, nor touches an id or a payload. */
  lemma DeliveryKeepsIdentity(s: P.Sys, a: P.Action)
    requires S.Inv(s) && !a.Create?
    ensures P.Next(s, a).rows.Keys == s.rows.Keys && P.Next(s, a).reminders.Keys == s.reminders.Keys
    ensures forall k :: k in s.rows ==> S.SameIdentity(s.rows[k], P.Next(s, a).rows[k])
  {
    hide P.Transaction, P.Enabled, S.RowOk, S.TokenFate, S.Inv;
    if P.Enabled(s, a) && P.Transaction(s, a).Success? {
      S.Effect(s, a);
      S.OnlyOwnTask(s, a);
    }
  }

  lemma DeliveryKeepsInv(j: Joint, a: P.Action)
    requires Inv(j) && !a.Create?
    ensures Inv(Joint(j.creation, P.Next(j.delivery, a)))
  {
    hide P.Next, P.Enabled, R.Next, T.Inv, S.Inv;
    var j' := Joint(j.creation, P.Next(j.delivery, a));
    S.KeepsInv(j.delivery, a);
    DeliveryKeepsIdentity(j.delivery, a);
    forall k ensures Linked(j', k) {
      assert Linked(j, k);
    }
    forall r | r in j'.delivery.rows ensures OfCreated(j', r) {
      assert OfCreated(j, r);
    }
    forall r | r in j'.delivery.reminders ensures ReminderOfCreated(j', r) {
      assert ReminderOfCreated(j, r);
      var k :| T.Finished(j.creation.stores, k) && r == ReminderKeyOf(k);
      assert T.Finished(j'.creation.stores, k);
    }
  }

  /** A step that creates nothing completes no identity and leaves the outbox rows alone. */
  lemma OtherCreationSteps(s: R.Sys, a: R.Action)
    requires T.Inv(s) && !Creates(s, a)
    ensures R.Next(s, a).stores.outbox == s.stores.outbox
    ensures forall k :: T.Finished(R.Next(s, a).stores, k) <==> T.Finished(s.stores, k)
  {
    hide R.Next, T.StoresOk, R.TransactionOf, T.Committed, T.RegistrationFails, Creates;
    if a.Transact? && R.Enabled(s, a) {
      TransactsOtherwise(s, a);
    } else {
      T.OnlyStatesMove(s, a);
      forall k ensures T.Finished(R.Next(s, a).stores, k) <==> T.Finished(s.stores, k) {
        T.FinishedOnlyByTransact(s, a, k);
        if T.Finished(s.stores, k) {
          T.StateGoesForward(s, a, k);
        }
      }
    }
  }

  lemma TransactsOtherwise(s: R.Sys, a: R.Action)
    requires T.Inv(s) && !Creates(s, a) && a.Transact? && R.Enabled(s, a)
    ensures R.Next(s, a).stores.outbox == s.stores.outbox
    ensures forall k :: T.Finished(R.Next(s, a).stores, k) <==> T.Finished(s.stores, k)
  {
    hide R.Next, T.StoresOk, R.TransactionOf, T.RegistrationFails, T.RowsAdded, T.Repeats, R.ReplayReport;
    T.TransactNext(s, a);
    T.TransactCommits(s, a);
    if R.TransactionOf(s, a).Success? && R.Lands(a.outcome) && R.TransactionOf(s, a).value.ended == R.Created {
      CreatedIsAnnounced(s, a);
    }
  }

  /** A creating step completes its identity, and leaves the outbox rows of the others alone. */
  lemma CreatingStep(s: R.Sys, a: R.Action, k: RowKey)
    requires T.Inv(s) && Creates(s, a) && k != s.runs[a.t].q.k
    ensures T.Finished(R.Next(s, a).stores, k) <==> T.Finished(s.stores, k)
    ensures R.OutboxKey(k) in s.stores.outbox.rows ==>
      && R.OutboxKey(k) in R.Next(s, a).stores.outbox.rows
      && R.Next(s, a).stores.outbox.rows[R.OutboxKey(k)] == s.stores.outbox.rows[R.OutboxKey(k)]
  {
    hide R.Next, T.StoresOk, R.TransactionOf, T.Committed, T.RegistrationFails;
    var run := s.runs[a.t];
    T.TransactNext(s, a);
    T.TransactCommits(s, a);
    OthersStay(s.stores, run.q, run.extraction, a.body, a.defaultMinutes, R.TransactionOf(s, a).value, k);
  }

  lemma OthersStay(st: R.Stores, q: R.Request, extraction: Option<R.Extraction>, body: string, defaultMinutes: nat,
                   c: R.Commit, k: RowKey)
    requires T.Committed(st, q, extraction, body, defaultMinutes, c) && c.ended == R.Created && k != q.k
    ensures T.Finished(c.stores, k) <==> T.Finished(st, k)
    ensures R.OutboxKey(k) in st.outbox.rows ==>
      R.OutboxKey(k) in c.stores.outbox.rows && c.stores.outbox.rows[R.OutboxKey(k)] == st.outbox.rows[R.OutboxKey(k)]
  {
    hide T.Repeats, R.ReplayReport, T.Startable;
    T.SuffixedApart(k, q.k, ":outbox");
  }

  lemma OtherCreationKeepsInv(j: Joint, a: R.Action)
    requires Inv(j) && !Creates(j.creation, a)
    ensures Inv(Joint(R.Next(j.creation, a), j.delivery))
  {
    hide P.Next, R.Next, T.Inv, S.Inv, Creates;
    var j' := Joint(R.Next(j.creation, a), j.delivery);
    T.StepKeepsInv(j.creation, a);
    OtherCreationSteps(j.creation, a);
    forall k ensures Linked(j', k) {
      assert Linked(j, k);
    }
    forall r | r in j'.delivery.rows ensures OfCreated(j', r) {
      assert OfCreated(j, r);
    }
    forall r | r in j'.delivery.reminders ensures ReminderOfCreated(j', r) {
      assert ReminderOfCreated(j, r);
      var k :| T.Finished(j.creation.stores, k) && r == ReminderKeyOf(k);
      assert T.Finished(j'.creation.stores, k);
    }
  }

  /** The protocol's `Create` adds one row and one reminder. */
  lemma CreateAdds(s: P.Sys, a: P.Action)
    requires a.Create? && a.withReminder && P.Enabled(s, a)
    ensures a.k !in s.rows && P.SubjectKey(a.m) !in s.reminders
    ensures P.Next(s, a).rows == s.rows[a.k := a.m]
    ensures P.Next(s, a).reminders == s.reminders[P.SubjectKey(a.m) := P.FRESH_REMINDER]
  {}

  lemma CreationKeepsLinks(j: Joint, a: R.Action, createdAt: D.Instant, k: RowKey)
    requires Inv(j) && Creates(j.creation, a)
    ensures Linked(Next(j, Creation(a, createdAt)), k)
  {
    hide R.Next, P.Next, P.Enabled, T.Inv, S.Inv, R.TransactionOf, IdText;
    var announced, added := Announced(j.creation, a, createdAt), j.creation.runs[a.t].q.k;
    CreationIsEnabled(j, a, createdAt);
    CreateAdds(j.delivery, announced);
    CreatedRow(j.creation, a);
    assert Linked(j, k);
    if k != added {
      CreatingStep(j.creation, a, k);
      T.SuffixedApart(k, added, ":outbox");
    }
  }

  lemma CreationKeepsOwners(j: Joint, a: R.Action, createdAt: D.Instant)
    requires Inv(j) && Creates(j.creation, a)
    ensures var j' := Next(j, Creation(a, createdAt));
      && (forall r :: r in j'.delivery.rows ==> OfCreated(j', r))
      && (forall r :: r in j'.delivery.reminders ==> ReminderOfCreated(j', r))
  {
    hide R.Next, P.Next, P.Enabled, T.Inv, S.Inv, R.TransactionOf, IdText;
    var j', added := Next(j, Creation(a, createdAt)), j.creation.runs[a.t].q.k;
    CreationIsEnabled(j, a, createdAt);
    CreateAdds(j.delivery, Announced(j.creation, a, createdAt));
    CreatedRow(j.creation, a);
    T.OwnerOfSuffixed(added, ":outbox");
    forall r | r in j'.delivery.rows ensures OfCreated(j', r) {
      if r != R.OutboxKey(added) {
        assert OfCreated(j, r);
        if T.Owner(r, ":outbox") != added {
          CreatingStep(j.creation, a, T.Owner(r, ":outbox"));
        }
      }
    }
    forall r | r in j'.delivery.reminders ensures ReminderOfCreated(j', r) {
      if r in j.delivery.reminders {
        assert ReminderOfCreated(j, r);
        var k :| T.Finished(j.creation.stores, k) && r == ReminderKeyOf(k);
        if k != added {
          CreatingStep(j.creation, a, k);
        }
        assert T.Finished(j'.creation.stores, k);
      } else {
        assert T.Finished(j'.creation.stores, added) && r == ReminderKeyOf(added);
      }
    }
  }

  lemma StepKeepsInv(j: Joint, a: Action)
    requires Inv(j)
    ensures Inv(Next(j, a))
  {
    hide R.Next, P.Next, T.Inv, S.Inv, R.TransactionOf, Announced, Linked, OfCreated, ReminderOfCreated;
    match a
    case Creation(b, createdAt) =>
      if Creates(j.creation, b) {
        T.StepKeepsInv(j.creation, b);
        S.KeepsInv(j.delivery, Announced(j.creation, b, createdAt));
        CreationKeepsOwners(j, b, createdAt);
        forall k ensures Linked(Next(j, a), k) {
          CreationKeepsLinks(j, b, createdAt, k);
        }
      } else {
        OtherCreationKeepsInv(j, b);
      }
    case Delivery(b) =>
      if !b.Create? {
        DeliveryKeepsInv(j, b);
      }
  }

  lemma {:induction false} RunKeepsInv(j: Joint, actions: seq<Action>)
    requires Inv(j)
    ensures Inv(Run(j, actions))
    decreases |actions|
  {
    hide Next, Inv;
    if actions != [] {
      StepKeepsInv(j, actions[0]);
      RunKeepsInv(Next(j, actions[0]), actions[1..]);
    }
  }

  lemma NothingIsOk()
    ensures Inv(NOTHING)
  {
    hide R.Next, P.Next;
  }

  lemma ReachableIsOk(actions: seq<Action>)
    ensures Inv(Run(NOTHING, actions))
  {
    hide Next, Inv;
    NothingIsOk();
    RunKeepsInv(NOTHING, actions);
  }

  // ----- the promises -----

  /** However creation and delivery interleave, a reminder that is created enters the protocol: its message and its
      reminder were not there before, and the step that would do nothing if it were not allowed adds just these two. */
  lemma CreationAlwaysEnters(actions: seq<Action>, a: R.Action, createdAt: D.Instant)
    requires Creates(Run(NOTHING, actions).creation, a)
    ensures var j := Run(NOTHING, actions);
      var c := Announced(j.creation, a, createdAt); var s' := Next(j, Creation(a, createdAt)).delivery;
      && c.k !in j.delivery.rows && s'.rows == j.delivery.rows[c.k := c.m]
      && P.SubjectKey(c.m) !in j.delivery.reminders
      && s'.reminders == j.delivery.reminders[P.SubjectKey(c.m) := P.FRESH_REMINDER]
  {
    hide R.Next, P.Next, Inv, R.TransactionOf, MessageOf, EventOf;
    ReachableIsOk(actions);
    Enters(Run(NOTHING, actions), a, createdAt);
  }

  lemma Enters(j: Joint, a: R.Action, createdAt: D.Instant)
    requires Inv(j) && Creates(j.creation, a)
    ensures var c := Announced(j.creation, a, createdAt); var s' := P.Next(j.delivery, c);
      && c.k !in j.delivery.rows && s'.rows == j.delivery.rows[c.k := c.m]
      && P.SubjectKey(c.m) !in j.delivery.reminders
      && s'.reminders == j.delivery.reminders[P.SubjectKey(c.m) := P.FRESH_REMINDER]
  {
    hide R.Next, P.Next, P.Enabled, Inv, R.TransactionOf, MessageOf, EventOf;
    CreationIsEnabled(j, a, createdAt);
    CreateAdds(j.delivery, Announced(j.creation, a, createdAt));
  }

  /** The messages to deliver are exactly those of the completed identities, each under the ids and with the payload
      that its creation stored, and each with its reminder; and there is no other reminder. */
  lemma DeliveredAreCreated(actions: seq<Action>, k: RowKey)
    ensures var j := Run(NOTHING, actions);
      R.OutboxKey(k) in j.delivery.rows <==> T.Finished(j.creation.stores, k)
    ensures var j := Run(NOTHING, actions);
      ReminderKeyOf(k) in j.delivery.reminders <==> T.Finished(j.creation.stores, k)
    ensures var j := Run(NOTHING, actions);
      T.Finished(j.creation.stores, k) ==>
        && R.OutboxKey(k) in j.creation.stores.outbox.rows
        && var o, m := j.creation.stores.outbox.rows[R.OutboxKey(k)], j.delivery.rows[R.OutboxKey(k)];
           m.tenant == k.tenant && m.id == IdText(o.messageId) && m.event == EventOf(o)
           && P.SubjectKey(m) == ReminderKeyOf(k)
    ensures var j := Run(NOTHING, actions);
      forall r :: r in j.delivery.rows ==> exists k' :: T.Finished(j.creation.stores, k') && r == R.OutboxKey(k')
  {
    hide R.Next, P.Next, Inv;
    ReachableIsOk(actions);
    var j := Run(NOTHING, actions);
    LinkedExactly(j, k);
    forall r | r in j.delivery.rows ensures exists k' :: T.Finished(j.creation.stores, k') && r == R.OutboxKey(k') {
      var k' := RowOwner(j, r);
    }
  }

  lemma LinkedExactly(j: Joint, k: RowKey)
    requires Inv(j)
    ensures R.OutboxKey(k) in j.delivery.rows <==> T.Finished(j.creation.stores, k)
    ensures ReminderKeyOf(k) in j.delivery.reminders <==> T.Finished(j.creation.stores, k)
    ensures Linked(j, k)
  {
    assert Linked(j, k);
    if R.OutboxKey(k) in j.delivery.rows {
      var k' := RowOwner(j, R.OutboxKey(k));
      if k' != k {
        T.SuffixedApart(k', k, ":outbox");
      }
    }
    if ReminderKeyOf(k) in j.delivery.reminders {
      assert ReminderOfCreated(j, ReminderKeyOf(k));
      var k' :| T.Finished(j.creation.stores, k') && ReminderKeyOf(k) == ReminderKeyOf(k');
      IdTextInjective(W.EffectId(W.ReminderId, k), W.EffectId(W.ReminderId, k'));
    }
  }
}
