/** The promises of delivery for runs that begin with creation: what delivery sees of a joint run is a run of its
    own. */
module EndToEnd {
  import opened Text
  import C = CreationLaws
  import D = Delivery
  import H = DispatchHistory
  import L = Lifecycle
  import P = DispatchProtocol
  import R = ReminderCreation
  import S = DispatchSafety
  import T = ReminderTheorems
  import V = DispatchTheorems
  import W = WorkflowStates

  // ----- what delivery sees of a joint run -----

  /** The delivery step that a joint step is, if it is one: a creation is the `Create` of its message and reminder. */
  function StepOf(j: L.Joint, a: L.Action): seq<P.Action> {
    match a
    case Creation(b, createdAt) => if L.Creates(j.creation, b) then [L.Announced(j.creation, b, createdAt)] else []
    case Delivery(b) => if b.Create? then [] else [b]
  }

  function StepsOf(j: L.Joint, actions: seq<L.Action>): seq<P.Action>
    decreases |actions|
  {
    if actions == [] then [] else StepOf(j, actions[0]) + StepsOf(L.Next(j, actions[0]), actions[1..])
  }

  /** Every creation among the steps is one that the protocol allows where it comes. */
  predicate CreationsEnter(s: P.Sys, steps: seq<P.Action>)
    decreases |steps|
  {
    steps == []
    || ((steps[0].Create? ==> P.Enabled(s, steps[0])) && CreationsEnter(P.Next(s, steps[0]), steps[1..]))
  }

  /** What delivery sees of a joint run is the delivery run of these steps, and no creation among them is refused. */
  lemma DeliveryOfJointRuns(actions: seq<L.Action>)
    ensures L.Run(L.NOTHING, actions).delivery == P.Run(P.EMPTY, StepsOf(L.NOTHING, actions))
    ensures CreationsEnter(P.EMPTY, StepsOf(L.NOTHING, actions))
  {
    hide L.Next, L.Inv, P.Next, P.Enabled;
    L.NothingIsOk();
    Projects(L.NOTHING, actions);
  }

  lemma {:induction false} Projects(j: L.Joint, actions: seq<L.Action>)
    requires L.Inv(j)
    ensures L.Run(j, actions).delivery == P.Run(j.delivery, StepsOf(j, actions))
    ensures CreationsEnter(j.delivery, StepsOf(j, actions))
    decreases |actions|
  {
    hide L.Next, L.Inv, P.Next, P.Enabled, StepOf;
    if actions != [] {
      var j', step, rest := L.Next(j, actions[0]), StepOf(j, actions[0]), StepsOf(L.Next(j, actions[0]), actions[1..]);
      StepProjects(j, actions[0]);
      L.StepKeepsInv(j, actions[0]);
      Projects(j', actions[1..]);
      if step == [] {
        assert step + rest == rest;
      } else {
        assert (step + rest)[0] == step[0] && (step + rest)[1..] == rest;
      }
    }
  }

  /** A joint step is at most one delivery step, and what it does to delivery. */
  lemma StepProjects(j: L.Joint, a: L.Action)
    requires L.Inv(j)
    ensures var steps, s' := StepOf(j, a), L.Next(j, a).delivery;
      || (steps == [] && s' == j.delivery)
      || (|steps| == 1 && s' == P.Next(j.delivery, steps[0])
          && (steps[0].Create? ==> P.Enabled(j.delivery, steps[0])))
  {
    hide L.Inv, P.Next, P.Enabled, R.Next, L.Creates, L.Announced;
    if a.Creation? && L.Creates(j.creation, a.creating) {
      L.CreationIsEnabled(j, a.creating, a.createdAt);
    }
  }

  // ----- the promises of delivery, from creation on -----

  /** The message id that a creation derives from its identity. */
  function MessageId(k: L.RowKey): string {
    L.IdText(W.EffectId(W.OutboxMessageId, k))
  }

  lemma DeliveryIsGood(actions: seq<L.Action>)
    ensures V.Good(L.Run(L.NOTHING, actions).delivery)
  {
    hide L.Next, L.Inv, P.Next, V.Good;
    DeliveryOfJointRuns(actions);
    V.ReachableIsGood(StepsOf(L.NOTHING, actions));
  }

  /** Whatever reaches the provider was created: it is one of four attempts for a completed identity, with the
      channel, the recipient and the text of its creation, under its message's id and the number of the attempt. */
  lemma SentIsCreated(actions: seq<L.Action>, i: nat) returns (k: L.RowKey)
    requires i < |L.Run(L.NOTHING, actions).delivery.log| && L.Run(L.NOTHING, actions).delivery.log[i].Sent?
    ensures var j := L.Run(L.NOTHING, actions); var e := j.delivery.log[i];
      && T.Finished(j.creation.stores, k) && e.k == R.OutboxKey(k)
      && k in j.creation.made && j.creation.made[k].q.k == k && IsRequestOf(j.creation.made[k], e)
  {
    hide L.Next, P.Next, T.Inv, IsRequestOf;
    var j := L.Run(L.NOTHING, actions);
    DeliveryIsGood(actions);
    L.ReachableIsOk(actions);
    k := SentOfLinked(j, j.delivery.log[i], i);
  }

  /** The request of a send, for what the identity was created from. */
  predicate IsRequestOf(m: R.Made, e: P.Entry) {
    && e.Sent? && e.request.channel == m.q.channel && e.request.recipient == m.q.recipient && e.request.body == m.body
    && e.request.idempotencyKey == MessageId(m.q.k) + ":attempt:" + Decimal(e.attempt) && 1 <= e.attempt <= 4
  }

  lemma SentOfLinked(j: L.Joint, e: P.Entry, i: nat) returns (k: L.RowKey)
    requires L.Inv(j) && V.Good(j.delivery) && i < |j.delivery.log| && e == j.delivery.log[i] && e.Sent?
    ensures T.Finished(j.creation.stores, k) && e.k == R.OutboxKey(k)
    ensures k in j.creation.made && j.creation.made[k].q.k == k && IsRequestOf(j.creation.made[k], e)
  {
    hide L.Next, P.Next, T.StoresOk, L.IdText, Decimal, C.NoticeAsked, C.StateShows, T.DraftOk, T.PreparedOk;
    assert H.SentOk(j.delivery, e) && S.RowOk(j.delivery, e.k, j.delivery.rows[e.k]);
    k := L.RowOwner(j, e.k);
    assert T.MadeOk(j.creation, k);
  }

  /** No dispatch key reaches the provider twice, whichever tenants the two sends are for. */
  lemma NothingIsSentTwice(actions: seq<L.Action>, i: nat, j: nat)
    requires i < j < |L.Run(L.NOTHING, actions).delivery.log|
    requires var log := L.Run(L.NOTHING, actions).delivery.log; log[i].Sent? && log[j].Sent?
    ensures var log := L.Run(L.NOTHING, actions).delivery.log;
      log[i].request.idempotencyKey != log[j].request.idempotencyKey
  {
    hide L.Next, P.Next, L.Inv, L.IdText;
    var log := L.Run(L.NOTHING, actions).delivery.log;
    var k1 := SentIsCreated(actions, i);
    var k2 := SentIsCreated(actions, j);
    if log[i].request.idempotencyKey == log[j].request.idempotencyKey {
      D.AttemptKeyInjective(MessageId(k1), log[i].attempt, MessageId(k2), log[j].attempt);
      L.IdTextInjective(W.EffectId(W.OutboxMessageId, k1), W.EffectId(W.OutboxMessageId, k2));
      DeliveryOfJointRuns(actions);
      V.NoKeySentTwice(StepsOf(L.NOTHING, actions), i, j);
    }
  }

  /** Two sends for one created reminder are two attempts, and the earlier one was answered known-transient, or an
      operator chose retry for it, before the later one. */
  lemma ResendIsLicensed(actions: seq<L.Action>, i: nat, j: nat)
    requires i < |L.Run(L.NOTHING, actions).delivery.log| && j < |L.Run(L.NOTHING, actions).delivery.log|
    requires var log := L.Run(L.NOTHING, actions).delivery.log;
      log[i].Sent? && log[j].Sent? && log[i].k == log[j].k && log[i].attempt < log[j].attempt
    ensures var log := L.Run(L.NOTHING, actions).delivery.log;
      || P.Answer(log[i].k, log[i].attempt, P.KnownTransient) in log[..j]
      || P.RetryChosen(log[i].k, log[i].attempt) in log[..j]
  {
    hide L.Next, P.Next, L.Inv;
    DeliveryOfJointRuns(actions);
    V.ResendIsLicensed(StepsOf(L.NOTHING, actions), i, j);
  }

  /** After attempt n failed transiently, no claim for the next one comes before both delays are over. */
  lemma BackOffIsKept(actions: seq<L.Action>, i: nat, j: nat)
    requires i < j < |L.Run(L.NOTHING, actions).delivery.log|
    requires var log := L.Run(L.NOTHING, actions).delivery.log;
      log[i].BackedOff? && log[j].ClaimTaken? && log[i].k == log[j].k && log[i].attempt == log[j].attempts
    ensures var log := L.Run(L.NOTHING, actions).delivery.log; var n := log[i].attempt;
      && 1 <= n <= 3
      && log[j].now >= log[i].at + (if n == 1 then 30 else if n == 2 then 120 else 300) * 1_000_000
      && (log[i].retryAfter.Some? ==> log[j].now >= log[i].at + log[i].retryAfter.value * 1_000_000)
  {
    hide L.Next, P.Next, L.Inv;
    DeliveryOfJointRuns(actions);
    V.BackOffIsKept(StepsOf(L.NOTHING, actions), i, j);
  }

  /** Every created reminder shows, in every state, what has become of its message. */
  lemma CreatedIsMirrored(actions: seq<L.Action>, k: L.RowKey)
    requires T.Finished(L.Run(L.NOTHING, actions).creation.stores, k)
    ensures var s := L.Run(L.NOTHING, actions).delivery;
      && R.OutboxKey(k) in s.rows && L.ReminderKeyOf(k) in s.reminders
      && H.Mirrors(s.reminders[L.ReminderKeyOf(k)], s.rows[R.OutboxKey(k)], R.OutboxKey(k) in s.mirrored)
  {
    hide L.Next, P.Next, T.Inv;
    DeliveryIsGood(actions);
    L.ReachableIsOk(actions);
    MirroredWhenLinked(L.Run(L.NOTHING, actions), k);
  }

  lemma MirroredWhenLinked(j: L.Joint, k: L.RowKey)
    requires L.Inv(j) && V.Good(j.delivery) && T.Finished(j.creation.stores, k)
    ensures var s := j.delivery;
      && R.OutboxKey(k) in s.rows && L.ReminderKeyOf(k) in s.reminders
      && H.Mirrors(s.reminders[L.ReminderKeyOf(k)], s.rows[R.OutboxKey(k)], R.OutboxKey(k) in s.mirrored)
  {
    hide L.Next, P.Next, T.Inv, H.Mirrors;
    assert L.Linked(j, k);
    assert |L.IdText(W.EffectId(W.ReminderId, k))| > 0;
    assert H.RowMirrored(j.delivery, R.OutboxKey(k));
  }
}
