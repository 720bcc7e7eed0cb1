/** No reminder is delivered early: nothing is sent before a worker has claimed its message at or after the notice
    time. */
module NoticeTimes {
  import opened Wrappers
  import C = CreationLaws
  import D = Delivery
  import E = EndToEnd
  import H = DispatchHistory
  import L = Lifecycle
  import P = DispatchProtocol
  import R = ReminderCreation
  import S = DispatchSafety
  import T = ReminderTheorems
  import V = DispatchTheorems

  type RowKey = D.RowKey
  type Instant = D.Instant

  // ----- first claims, in delivery -----

  /** A claim of the row for its first attempt. */
  predicate FirstClaim(e: P.Entry, r: RowKey) {
    e.ClaimTaken? && e.k == r && e.attempts == 0
  }

  /** Until its first attempt the row waits for this time, and no claim for that attempt came before it. */
  ghost predicate HeldBack(s: P.Sys, r: RowKey, at: Instant) {
    && (r in s.rows && s.rows[r].attempts == 0 && H.Queued(s.rows[r]) ==>
          s.rows[r].nextAttemptAt.Some? && s.rows[r].nextAttemptAt.value >= at)
    && (forall i :: 0 <= i < |s.log| && FirstClaim(s.log[i], r) ==> s.log[i].now >= at)
  }

  /** A row that is claimed or was attempted had such a claim, and claims are of rows there are. */
  ghost predicate OpenedByClaim(s: P.Sys, r: RowKey) {
    && (r in s.rows && (s.rows[r].attempts >= 1 || s.rows[r].status == D.Claimed) ==>
          exists i :: 0 <= i < |s.log| && FirstClaim(s.log[i], r))
    && (r !in s.rows ==> forall i :: 0 <= i < |s.log| ==> !FirstClaim(s.log[i], r))
  }

  /** So had every row that was sent, before that. */
  ghost predicate SentAfterClaim(log: seq<P.Entry>, i: nat)
    requires i < |log|
  {
    log[i].Sent? ==> exists c :: 0 <= c < i && FirstClaim(log[c], log[i].k)
  }

  ghost predicate ClaimsFirst(s: P.Sys) {
    && (forall r {:trigger OpenedByClaim(s, r)} :: OpenedByClaim(s, r))
    && (forall i {:trigger SentAfterClaim(s.log, i)} :: 0 <= i < |s.log| ==> SentAfterClaim(s.log, i))
  }

  /** Only a claim of the row logs one, and the log only grows. */
  lemma LogAfter(s: P.Sys, a: P.Action)
    requires S.Inv(s)
    ensures s.log <= P.Next(s, a).log
    ensures forall i :: |s.log| <= i < |P.Next(s, a).log| ==>
              var e := P.Next(s, a).log[i];
              && H.Commits(s, a)
              && (e.ClaimTaken? ==> a.Claim? && e == P.ClaimTaken(a.k, s.rows[a.k].attempts, a.now))
              && (e.Sent? ==> a.Send? && e.k == s.tasks[a.t].k)
    ensures H.Commits(s, a) && a.Claim? ==>
              P.Next(s, a).log == s.log + [P.ClaimTaken(a.k, s.rows[a.k].attempts, a.now)]
  {
    hide P.Next, P.Transaction, S.Inv;
    H.LogGrows(s, a);
  }

  lemma StepHoldsBack(s: P.Sys, a: P.Action, r: RowKey, at: Instant)
    requires S.Inv(s) && HeldBack(s, r, at) && !(a.Create? && a.k == r)
    ensures HeldBack(P.Next(s, a), r, at)
  {
    hide P.Next, P.Transaction;
    LogAfter(s, a);
    if !H.Commits(s, a) {
      H.NotCommitted(s, a);
    } else if a.Create? {
      S.CreateNext(s, a);
    } else {
      H.StepMoves(s, a);
      var k := S.RowOf(s, a);
      assert S.RowOk(s, k, s.rows[k]);
    }
  }

  lemma StepOpens(s: P.Sys, a: P.Action, r: RowKey)
    requires S.Inv(s) && OpenedByClaim(s, r)
    ensures OpenedByClaim(P.Next(s, a), r)
  {
    hide P.Next, P.Transaction, S.IdsApart, S.TasksOk, S.TokensApart;
    var s' := P.Next(s, a);
    LogAfter(s, a);
    assert forall i :: 0 <= i < |s.log| ==> s'.log[i] == s.log[i];
    if !H.Commits(s, a) {
      H.NotCommitted(s, a);
    } else if a.Create? {
      S.CreateNext(s, a);
    } else {
      H.StepMoves(s, a);
      assert S.RowOk(s, S.RowOf(s, a), s.rows[S.RowOf(s, a)]);
      if a.Claim? && a.k == r && s.rows[r].attempts == 0 {
        assert FirstClaim(s'.log[|s.log|], r);
      }
    }
  }

  lemma StepSendsAfter(s: P.Sys, a: P.Action, i: nat)
    requires S.Inv(s) && ClaimsFirst(s) && i < |P.Next(s, a).log|
    ensures SentAfterClaim(P.Next(s, a).log, i)
  {
    hide P.Next, P.Transaction, S.IdsApart, S.TokensApart, S.RowsOk;
    var s' := P.Next(s, a);
    LogAfter(s, a);
    assert forall c :: 0 <= c < |s.log| ==> s'.log[c] == s.log[c];
    if i < |s.log| {
      assert SentAfterClaim(s.log, i);
    } else if s'.log[i].Sent? {
      var task := s.tasks[a.t];
      assert S.TaskOk(s, task) && OpenedByClaim(s, task.k);
    }
  }

  lemma StepClaimsFirst(s: P.Sys, a: P.Action)
    requires S.Inv(s) && ClaimsFirst(s)
    ensures ClaimsFirst(P.Next(s, a))
  {
    hide P.Next, S.Inv, OpenedByClaim, SentAfterClaim;
    var s' := P.Next(s, a);
    forall r ensures OpenedByClaim(s', r) {
      assert OpenedByClaim(s, r);
      StepOpens(s, a, r);
    }
    forall i | 0 <= i < |s'.log| ensures SentAfterClaim(s'.log, i) {
      StepSendsAfter(s, a, i);
    }
  }

  // ----- from creation on -----

  /** The notice time that the creation of the identity has stored for delivery. */
  function NoticeOf(st: R.Stores, k: RowKey): Instant
    requires R.OutboxKey(k) in st.outbox.rows
  {
    st.outbox.rows[R.OutboxKey(k)].notifyAt
  }

  ghost predicate WaitsForNotice(j: L.Joint, k: RowKey) {
    T.Finished(j.creation.stores, k) && R.OutboxKey(k) in j.creation.stores.outbox.rows ==>
      HeldBack(j.delivery, R.OutboxKey(k), NoticeOf(j.creation.stores, k))
  }

  ghost predicate Inv(j: L.Joint) {
    && L.Inv(j) && ClaimsFirst(j.delivery)
    && (forall k {:trigger WaitsForNotice(j, k)} :: WaitsForNotice(j, k))
  }

  /** Delivery changes neither the creations nor their notice times. */
  lemma DeliveryKeepsWaiting(j: L.Joint, b: P.Action, k: RowKey)
    requires L.Inv(j) && !b.Create? && WaitsForNotice(j, k)
    ensures WaitsForNotice(L.Next(j, L.Delivery(b)), k)
  {
    hide P.Next, HeldBack, S.Inv, T.Inv;
    if T.Finished(j.creation.stores, k) && R.OutboxKey(k) in j.creation.stores.outbox.rows {
      StepHoldsBack(j.delivery, b, R.OutboxKey(k), NoticeOf(j.creation.stores, k));
    }
  }

  /** A creation makes its own message wait for its notice time, and leaves the others as they wait. */
  lemma CreationKeepsWaiting(j: L.Joint, b: R.Action, createdAt: Instant, k: RowKey)
    requires Inv(j) && L.Creates(j.creation, b)
    ensures WaitsForNotice(L.Next(j, L.Creation(b, createdAt)), k)
  {
    hide R.Next, P.Next, P.Enabled, T.Inv, S.Inv, R.TransactionOf, L.IdText, OpenedByClaim, HeldBack;
    var announced, added := L.Announced(j.creation, b, createdAt), j.creation.runs[b.t].q.k;
    var st' := R.Next(j.creation, b).stores;
    L.CreationIsEnabled(j, b, createdAt);
    L.CreateAdds(j.delivery, announced);
    if k == added {
      NewWaits(j.delivery, announced, st'.outbox.rows[R.OutboxKey(k)].notifyAt);
    } else if T.Finished(st', k) && R.OutboxKey(k) in st'.outbox.rows {
      L.CreatingStep(j.creation, b, k);
      assert WaitsForNotice(j, k) && L.Linked(j, k);
      StepHoldsBack(j.delivery, announced, R.OutboxKey(k), NoticeOf(j.creation.stores, k));
    }
  }

  lemma NewWaits(s: P.Sys, c: P.Action, at: Instant)
    requires S.Inv(s) && ClaimsFirst(s) && c.Create? && P.Enabled(s, c) && c.m.nextAttemptAt == Some(at)
    ensures HeldBack(P.Next(s, c), c.k, at)
  {
    hide P.Next, S.Inv;
    S.CreateNext(s, c);
    assert OpenedByClaim(s, c.k);
  }

  /** Any other step of creation leaves all messages alone. */
  lemma OtherCreationKeepsWaiting(j: L.Joint, b: R.Action, createdAt: Instant, k: RowKey)
    requires L.Inv(j) && !L.Creates(j.creation, b) && WaitsForNotice(j, k)
    ensures WaitsForNotice(L.Next(j, L.Creation(b, createdAt)), k)
  {
    hide R.Next, T.Inv, S.Inv, HeldBack, L.Creates;
    L.OtherCreationSteps(j.creation, b);
  }

  lemma StepKeepsInv(j: L.Joint, a: L.Action)
    requires Inv(j)
    ensures Inv(L.Next(j, a))
  {
    hide R.Next, P.Next, L.Inv, L.Creates, ClaimsFirst, WaitsForNotice;
    L.StepKeepsInv(j, a);
    DeliveryKeepsOrder(j, a);
    forall k ensures WaitsForNotice(L.Next(j, a), k) {
      assert WaitsForNotice(j, k);
      if a.Creation? {
        if L.Creates(j.creation, a.creating) {
          CreationKeepsWaiting(j, a.creating, a.createdAt, k);
        } else {
          OtherCreationKeepsWaiting(j, a.creating, a.createdAt, k);
        }
      } else if !a.delivering.Create? {
        DeliveryKeepsWaiting(j, a.delivering, k);
      } else {
        assert L.Next(j, a) == j;
      }
    }
  }

  lemma DeliveryKeepsOrder(j: L.Joint, a: L.Action)
    requires L.Inv(j) && ClaimsFirst(j.delivery)
    ensures ClaimsFirst(L.Next(j, a).delivery)
  {
    hide R.Next, P.Next, S.Inv, T.Inv, L.Creates, ClaimsFirst;
    if a.Creation? {
      if L.Creates(j.creation, a.creating) {
        StepClaimsFirst(j.delivery, L.Announced(j.creation, a.creating, a.createdAt));
      }
    } else {
      StepClaimsFirst(j.delivery, a.delivering);
    }
  }

  lemma {:induction false} RunKeepsInv(j: L.Joint, actions: seq<L.Action>)
    requires Inv(j)
    ensures Inv(L.Run(j, actions))
    decreases |actions|
  {
    hide L.Next, Inv;
    if actions != [] {
      StepKeepsInv(j, actions[0]);
      RunKeepsInv(L.Next(j, actions[0]), actions[1..]);
    }
  }

  lemma ReachableWaits(actions: seq<L.Action>)
    ensures Inv(L.Run(L.NOTHING, actions))
  {
    hide L.Next, L.Inv;
    L.NothingIsOk();
    RunKeepsInv(L.NOTHING, actions);
  }

  /** Whatever clocks the workers go by, each of them claims a created reminder for its first attempt only at or
      after the notice time of its creation; and nothing reaches the provider before such a claim. */
  lemma NothingIsSentEarly(actions: seq<L.Action>, i: nat) returns (k: RowKey, c: nat, at: Instant)
    requires i < |L.Run(L.NOTHING, actions).delivery.log| && L.Run(L.NOTHING, actions).delivery.log[i].Sent?
    ensures var j := L.Run(L.NOTHING, actions); var log := j.delivery.log;
      && k in j.creation.made && log[i].k == R.OutboxKey(k)
      && C.NoticeAsked(j.creation.made[k].e, j.creation.made[k].defaultMinutes, at)
      && c < i && log[c].ClaimTaken? && log[c].k == log[i].k && log[c].attempts == 0 && log[c].now >= at
    ensures var j := L.Run(L.NOTHING, actions); var log := j.delivery.log;
      forall b :: 0 <= b < |log| && log[b].ClaimTaken? && log[b].k == log[i].k && log[b].attempts == 0 ==>
        log[b].now >= at
  {
    hide L.Next, Inv, C.NoticeAsked;
    ReachableWaits(actions);
    L.ReachableIsOk(actions);
    E.DeliveryIsGood(actions);
    k, c, at := SentAfterNotice(L.Run(L.NOTHING, actions), i);
  }

  lemma SentAfterNotice(j: L.Joint, i: nat) returns (k: RowKey, c: nat, at: Instant)
    requires Inv(j) && V.Good(j.delivery) && i < |j.delivery.log| && j.delivery.log[i].Sent?
    ensures k in j.creation.made && j.delivery.log[i].k == R.OutboxKey(k)
    ensures C.NoticeAsked(j.creation.made[k].e, j.creation.made[k].defaultMinutes, at)
    ensures c < i && FirstClaim(j.delivery.log[c], j.delivery.log[i].k)
    ensures forall b :: 0 <= b < |j.delivery.log| && FirstClaim(j.delivery.log[b], j.delivery.log[i].k) ==>
              j.delivery.log[b].now >= at
  {
    hide T.StoresOk, C.NoticeAsked, C.CalendarShows, C.ReminderShows, C.EventShows, C.MessageShows, C.StateShows;
    assert H.SentOk(j.delivery, j.delivery.log[i]) && SentAfterClaim(j.delivery.log, i);
    k := L.RowOwner(j, j.delivery.log[i].k);
    assert T.MadeOk(j.creation, k) && WaitsForNotice(j, k);
    at := NoticeOf(j.creation.stores, k);
    c :| 0 <= c < i && FirstClaim(j.delivery.log[c], j.delivery.log[i].k);
  }
}
