/** Theorems over whole runs of the delivery protocol, read off the log of provider and operator events. */
module DispatchHistory {
  import opened Wrappers
  import opened Delivery
  import opened DispatchProtocol
  import opened DispatchSafety

  // ----- how one step moves one message -----

  predicate Queued(m: Message) {
    m.status == Pending || m.status == Claimed
  }

  predicate Commits(s: Sys, a: Action) {
    Enabled(s, a) && Transaction(s, a).Success?
  }

  /** A step that does not commit leaves the stores and the log alone. */
  lemma NotCommitted(s: Sys, a: Action)
    requires !Commits(s, a)
    ensures Next(s, a) == s.(tasks := Next(s, a).tasks)
    ensures forall t :: t in Next(s, a).tasks ==> t in s.tasks && Next(s, a).tasks[t] == s.tasks[t]
    ensures forall t :: t in s.tasks && !Steps(a, t) ==> t in Next(s, a).tasks
  {
    hide Transaction;
  }

  /** Every move a committed step can make on the message it touches. */
  predicate Moved(s: Sys, a: Action, m: Message, m': Message)
    requires Enabled(s, a)
  {
    match a
    case Claim(_, _, now, _, _, _) =>
      && Claimable(m, now) && m'.attempts == m.attempts && m'.nextAttemptAt == m.nextAttemptAt
      && (m'.status == Claimed || (m'.status == Failed && m.attempts == 0))
    case Proceed(t, _, _) =>
      && m.status == Claimed
      && (|| (m'.status == Sending && m'.attempts == m.attempts + 1)
          || (m'.status == Failed && m'.attempts == m.attempts == 0)
          || (m'.status == Pending && m'.attempts == m.attempts && m'.nextAttemptAt.Some?
              && NoLaterThan(m.nextAttemptAt, m'.nextAttemptAt.value)))
    case Record(t, clock) =>
      && m.status == Sending && m'.attempts == m.attempts && s.tasks[t].m == m
      && (if m'.status == Pending
          then Verdict(m, s.tasks[t].answer) == KnownTransient && m.attempts < MAX_DELIVERY_ATTEMPTS
               && m'.nextAttemptAt == Some(RetryAt(clock, RetryDelay(m.attempts), s.tasks[t].answer.result.retryAfter))
          else m'.status == Published || m'.status == Failed || m'.status == Uncertain)
    case Sweep(_, _) => m.status == Sending && m'.status == Uncertain && m'.attempts == m.attempts
    case Reconcile(_, retry, _) =>
      && m.status == Uncertain && m'.attempts == m.attempts
      && (if retry then m'.status == Pending && m.attempts < MAX_DELIVERY_ATTEMPTS else m'.status == Published)
    case _ => m' == m
  }

  lemma ClaimMoves(s: Sys, a: Action)
    requires Inv(s) && a.Claim? && Commits(s, a)
    ensures Moved(s, a, s.rows[a.k], ClaimedOrFailed(s, a))
  {
    ClaimValue(s, a);
    ClaimEffect(s, a);
  }

  lemma ProceedMoves(s: Sys, a: Action)
    requires Inv(s) && a.Proceed? && Commits(s, a)
    ensures Moved(s, a, s.tasks[a.t].m, Changed(s.tasks[a.t].m, ProceedChange(s.tasks[a.t], a.approved, a.clock)))
  {
    ProceedEffect(s, a);
    assert TaskOk(s, s.tasks[a.t]);
  }

  lemma RecordMoves(s: Sys, a: Action)
    requires Inv(s) && a.Record? && Commits(s, a)
    ensures Moved(s, a, s.tasks[a.t].m,
                  Changed(s.tasks[a.t].m, RecordedChange(s.tasks[a.t].m, s.tasks[a.t].answer, a.clock)))
  {
    hide RowOk, HasReminder, LegalResult;
    assert TaskOk(s, s.tasks[a.t]);
  }

  lemma StepMoves(s: Sys, a: Action)
    requires Inv(s) && !a.Create? && Commits(s, a)
    ensures var k := RowOf(s, a); var s' := Next(s, a);
      && k in s.rows && k in s'.rows && s'.rows == s.rows[k := s'.rows[k]]
      && Moved(s, a, s.rows[k], s'.rows[k])
  {
    hide RowOk, ClaimRow, ChangeLenient, ChangeStrict, Resolve, RecordedChange, ProceedChange, Changed;
    Effect(s, a);
    if a.Claim? {
      ClaimValue(s, a);
      ClaimMoves(s, a);
    } else if a.Proceed? {
      ProceedEffect(s, a);
      ProceedMoves(s, a);
    } else if a.Record? {
      RecordEffect(s, a);
      RecordMoves(s, a);
    } else if a.Sweep? || a.Reconcile? {
      OperatorEffect(s, a);
    }
  }

  /** The log entries a step appends. */
  function Entries(s: Sys, a: Action): seq<Entry> {
    if !Commits(s, a) then []
    else match a
         case Claim(_, k, now, _, _, _) => [ClaimTaken(k, s.rows[k].attempts, now)]
         case Send(t) =>
           var task := s.tasks[t];
           [Sent(task.k, task.m.attempts, RequestFor(task.m))]
         case Receive(t, answer) => [Answer(s.tasks[t].k, s.tasks[t].m.attempts, Verdict(s.tasks[t].m, answer))]
         case Record(t, clock) => RecordEntries(s.tasks[t].k, s.tasks[t].m, s.tasks[t].answer, clock)
         case Reconcile(k, retry, _) =>
           [if retry then RetryChosen(k, s.rows[k].attempts) else DeliveryChosen(k, s.rows[k].attempts)]
         case _ => []
  }

  lemma LogGrows(s: Sys, a: Action)
    requires Inv(s)
    ensures Next(s, a).log == s.log + Entries(s, a)
  {
    hide Next, Transaction, RecordEntries;
    if Commits(s, a) {
      CommitLogs(s, a);
      if !a.Create? {
        OnlyOwnTask(s, a);
      } else {
        CreateNext(s, a);
      }
    } else {
      NotCommitted(s, a);
    }
  }

  lemma CommitLogs(s: Sys, a: Action)
    requires Inv(s) && Commits(s, a)
    ensures Transaction(s, a).value.log == s.log + Entries(s, a)
  {
    hide Next, ClaimRow, ChangeLenient, ChangeStrict, Resolve, RowOk, TaskOk, MirroredAt;
    if a.Claim? {
      ClaimValue(s, a);
    } else if a.Proceed? {
      ProceedEffect(s, a);
    } else if a.Record? {
      assert TaskOk(s, s.tasks[a.t]);
      RecordLogs(s, a);
    } else if a.Sweep? || a.Reconcile? {
      OperatorEffect(s, a);
    }
  }

  lemma RecordLogs(s: Sys, a: Action)
    requires Inv(s) && a.Record? && Commits(s, a)
    ensures var task := s.tasks[a.t];
      Transaction(s, a).value.log == s.log + RecordEntries(task.k, task.m, task.answer, a.clock)
  {
    hide Transaction, RecordEntries, RowOk, MirroredAt;
    RecordEffect(s, a);
  }

  // ----- every send has its own key, and every resend its licence -----

  /** Attempt `j` of row `k` may be followed by another: it failed transiently, or an operator said retry. */
  predicate Licensed(log: seq<Entry>, k: RowKey, j: int) {
    j >= 0 && (Answer(k, j, KnownTransient) in log || RetryChosen(k, j) in log)
  }

  /** The attempts of a message that are over and may be followed by another. */
  function Settled(m: Message): int {
    if Queued(m) then m.attempts else m.attempts - 1
  }

  ghost predicate RowLicensed(log: seq<Entry>, k: RowKey, m: Message) {
    forall j :: 1 <= j <= Settled(m) ==> Licensed(log, k, j)
  }

  ghost predicate LicencesOk(s: Sys) {
    forall k :: k in s.rows ==> RowLicensed(s.log, k, s.rows[k])
  }

  ghost predicate SendLicensed(log: seq<Entry>, i: nat)
    requires i < |log|
  {
    log[i].Sent? ==> forall j :: 1 <= j < log[i].attempt ==> Licensed(log[..i], log[i].k, j)
  }

  ghost predicate SendsLicensed(s: Sys) {
    forall i :: 0 <= i < |s.log| ==> SendLicensed(s.log, i)
  }

  predicate SentOk(s: Sys, e: Entry) {
    e.Sent? ==>
      && e.k in s.rows && 1 <= e.attempt <= s.rows[e.k].attempts
      && e.request == RequestFor(s.rows[e.k].(attempts := e.attempt))
  }

  predicate SameSend(e1: Entry, e2: Entry) {
    e1.Sent? && e2.Sent? && e1.k == e2.k && e1.attempt == e2.attempt
  }

  predicate AboutToSend(task: Task, e: Entry) {
    task.Confirmed? && e.Sent? && e.k == task.k && e.attempt == task.m.attempts
  }

  predicate SameDispatch(task1: Task, task2: Task) {
    task1.Confirmed? && task2.Confirmed? && task1.k == task2.k && task1.m.attempts == task2.m.attempts
  }

  ghost predicate SendsOk(s: Sys) {
    && (forall i :: 0 <= i < |s.log| ==> SentOk(s, s.log[i]))
    && (forall i, j :: 0 <= i < j < |s.log| ==> !SameSend(s.log[i], s.log[j]))
    && (forall t, i :: t in s.tasks && 0 <= i < |s.log| ==> !AboutToSend(s.tasks[t], s.log[i]))
    && (forall t1, t2 :: t1 in s.tasks && t2 in s.tasks && t1 != t2 ==> !SameDispatch(s.tasks[t1], s.tasks[t2]))
  }

  lemma LicensedStays(log: seq<Entry>, more: seq<Entry>, k: RowKey, j: int)
    requires Licensed(log, k, j)
    ensures Licensed(log + more, k, j)
  {
  }

  lemma KeepsLicences(s: Sys, a: Action)
    requires Inv(s) && LicencesOk(s)
    ensures LicencesOk(Next(s, a))
  {
    hide Transaction, Inv, Moved;
    var s' := Next(s, a);
    LogGrows(s, a);
    if Commits(s, a) {
      if a.Create? {
        CreateNext(s, a);
      } else {
        StepMoves(s, a);
      }
      forall k | k in s'.rows ensures RowLicensed(s'.log, k, s'.rows[k]) {
        forall j | 1 <= j <= Settled(s'.rows[k]) ensures Licensed(s'.log, k, j) {
          if k in s.rows && j <= Settled(s.rows[k]) {
            assert RowLicensed(s.log, k, s.rows[k]);
            LicensedStays(s.log, Entries(s, a), k, j);
          } else {
            NewLicence(s, a, j);
          }
        }
      }
    }
  }

  /** The settled count rises only with a transient answer already logged or an operator's retry. */
  lemma NewLicence(s: Sys, a: Action, j: int)
    requires Inv(s) && LicencesOk(s) && !a.Create? && Commits(s, a)
    requires RowOf(s, a) in s.rows && RowOf(s, a) in Next(s, a).rows
    requires Settled(s.rows[RowOf(s, a)]) < j <= Settled(Next(s, a).rows[RowOf(s, a)]) && 1 <= j
    ensures Licensed(Next(s, a).log, RowOf(s, a), j)
  {
    hide Next, Transaction, LicencesOk, Moved;
    var k := RowOf(s, a);
    StepMoves(s, a);
    LogGrows(s, a);
    SettledRises(s, a, s.rows[k], Next(s, a).rows[k]);
    if a.Record? {
      assert TaskOk(s, s.tasks[a.t]);
      LicensedStays(s.log, Entries(s, a), k, j);
    } else {
      assert Next(s, a).log[|s.log|] == RetryChosen(k, j);
    }
  }

  lemma SettledRises(s: Sys, a: Action, m: Message, m': Message)
    requires Enabled(s, a) && Moved(s, a, m, m') && m.attempts >= 0 && Settled(m) < Settled(m')
    ensures Settled(m') == m.attempts && m'.attempts == m.attempts
    ensures (a.Record? && s.tasks[a.t].m == m && Verdict(m, s.tasks[a.t].answer) == KnownTransient)
            || (a.Reconcile? && a.retry)
  {
  }

  lemma KeepsSendLicences(s: Sys, a: Action)
    requires Inv(s) && LicencesOk(s) && SendsLicensed(s)
    ensures SendsLicensed(Next(s, a))
  {
    var s' := Next(s, a);
    LogGrows(s, a);
    forall i | 0 <= i < |s'.log| ensures SendLicensed(s'.log, i) {
      if i < |s.log| {
        assert SendLicensed(s.log, i) && s'.log[..i] == s.log[..i];
      } else if s'.log[i].Sent? {
        assert s'.log[..i] == s.log;
        assert TaskOk(s, s.tasks[a.t]);
        assert RowLicensed(s.log, s.tasks[a.t].k, s.rows[s.tasks[a.t].k]);
      }
    }
  }

  lemma SendStep(s: Sys, a: Action)
    requires Inv(s) && SendsOk(s) && a.Send? && Commits(s, a)
    ensures SendsOk(Next(s, a))
  {
    var s' := Next(s, a);
    var task := s.tasks[a.t];
    var e := Sent(task.k, task.m.attempts, RequestFor(task.m));
    assert TaskOk(s, task) && s'.log == s.log + [e];
    forall i | 0 <= i < |s'.log| ensures SentOk(s', s'.log[i]) {
      assert i < |s.log| ==> SentOk(s, s.log[i]);
    }
    forall i, j | 0 <= i < j < |s'.log| ensures !SameSend(s'.log[i], s'.log[j]) {
      if j < |s.log| {
        assert !SameSend(s.log[i], s.log[j]);
      } else {
        assert !AboutToSend(task, s.log[i]);
      }
    }
    forall t, i | t in s'.tasks && 0 <= i < |s'.log| ensures !AboutToSend(s'.tasks[t], s'.log[i]) {
      if t != a.t {
        assert !SameDispatch(s.tasks[t], task);
        assert i < |s.log| ==> !AboutToSend(s.tasks[t], s.log[i]);
      }
    }
    forall t1, t2 | t1 in s'.tasks && t2 in s'.tasks && t1 != t2 ensures !SameDispatch(s'.tasks[t1], s'.tasks[t2]) {
      assert t1 != a.t && t2 != a.t ==> !SameDispatch(s.tasks[t1], s.tasks[t2]);
    }
  }

  /** A task that has just been confirmed carries an attempt number above every earlier one. */
  lemma ConfirmedIsNew(s: Sys, a: Action, t: nat)
    requires Inv(s) && !a.Create? && !a.Send? && Commits(s, a)
    requires t in Next(s, a).tasks && Next(s, a).tasks[t].Confirmed?
    ensures KnownOrNewer(s, a, t, Next(s, a).tasks[t])
  {
    hide Verdict, RecordedChange, RowOk, LegalResult;
    OnlyOwnTask(s, a);
    StepMoves(s, a);
  }

  lemma KeepsSends(s: Sys, a: Action)
    requires Inv(s) && SendsOk(s)
    ensures SendsOk(Next(s, a))
  {
    hide Next, Transaction, Inv;
    if !Commits(s, a) {
      NotCommitted(s, a);
    } else if a.Send? {
      SendStep(s, a);
    } else if a.Create? {
      CreateNext(s, a);
      var s' := Next(s, a);
      forall i | 0 <= i < |s'.log| ensures SentOk(s', s'.log[i]) {
        assert SentOk(s, s.log[i]);
      }
    } else {
      QuietStepKeepsSends(s, a);
    }
  }

  lemma QuietStepKeepsSends(s: Sys, a: Action)
    requires Inv(s) && SendsOk(s) && !a.Create? && !a.Send? && Commits(s, a)
    ensures SendsOk(Next(s, a))
  {
    hide Next, Transaction, RowOk, TokenFate;
    var s' := Next(s, a);
    LogGrows(s, a);
    Effect(s, a);
    OnlyOwnTask(s, a);
    forall i | |s.log| <= i < |s'.log| ensures !s'.log[i].Sent? {
      assert s'.log[i] == Entries(s, a)[i - |s.log|];
    }
    forall t | t in s'.tasks && s'.tasks[t].Confirmed? ensures KnownOrNewer(s, a, t, s'.tasks[t]) {
      ConfirmedIsNew(s, a, t);
    }
    QuietDeltaKeepsSends(s, s', a);
  }

  predicate KnownOrNewer(s: Sys, a: Action, t: nat, task: Task) {
    || (t in s.tasks && s.tasks[t] == task && !Steps(a, t))
    || (Steps(a, t) && task.k in s.rows && task.m.attempts > s.rows[task.k].attempts)
  }

  lemma QuietDeltaKeepsSends(s: Sys, s': Sys, a: Action)
    requires TasksOk(s) && SendsOk(s) && Enabled(s, a) && RowDelta(s, s', RowOf(s, a))
    requires forall i :: |s.log| <= i < |s'.log| ==> !s'.log[i].Sent?
    requires forall t :: t in s'.tasks && s'.tasks[t].Confirmed? ==> KnownOrNewer(s, a, t, s'.tasks[t])
    ensures SendsOk(s')
  {
    forall i | 0 <= i < |s'.log| ensures SentOk(s', s'.log[i]) {
      assert i < |s.log| ==> s'.log[i] == s.log[i] && SentOk(s, s.log[i]);
    }
    forall i, j | 0 <= i < j < |s'.log| ensures !SameSend(s'.log[i], s'.log[j]) {
      assert j < |s.log| ==> !SameSend(s.log[i], s.log[j]);
    }
    forall t, i | t in s'.tasks && 0 <= i < |s'.log| ensures !AboutToSend(s'.tasks[t], s'.log[i]) {
      if s'.tasks[t].Confirmed? && i < |s.log| {
        NotYetSent(s, a, t, s'.tasks[t], i);
      }
    }
    forall t1, t2 | t1 in s'.tasks && t2 in s'.tasks && t1 != t2 ensures !SameDispatch(s'.tasks[t1], s'.tasks[t2]) {
      if s'.tasks[t1].Confirmed? && s'.tasks[t2].Confirmed? {
        DispatchesApart(s, a, t1, s'.tasks[t1], t2, s'.tasks[t2]);
      }
    }
  }

  lemma NotYetSent(s: Sys, a: Action, t: nat, task: Task, i: nat)
    requires SendsOk(s) && KnownOrNewer(s, a, t, task) && i < |s.log|
    ensures !AboutToSend(task, s.log[i])
  {
    assert SentOk(s, s.log[i]);
    assert t in s.tasks ==> !AboutToSend(s.tasks[t], s.log[i]);
  }

  lemma DispatchesApart(s: Sys, a: Action, t1: nat, task1: Task, t2: nat, task2: Task)
    requires TasksOk(s) && SendsOk(s) && t1 != t2
    requires task1.Confirmed? && task2.Confirmed? && KnownOrNewer(s, a, t1, task1) && KnownOrNewer(s, a, t2, task2)
    ensures !SameDispatch(task1, task2)
  {
    assert t1 in s.tasks ==> TaskOk(s, s.tasks[t1]);
    assert t2 in s.tasks ==> TaskOk(s, s.tasks[t2]);
    assert t1 in s.tasks && t2 in s.tasks ==> !SameDispatch(s.tasks[t1], s.tasks[t2]);
  }

  // ----- back-off -----

  function Min(x: int, y: int): int {
    if x < y then x else y
  }

  function Earliest(e: Entry): Instant
    requires e.BackedOff? && e.attempt < MAX_DELIVERY_ATTEMPTS
  {
    e.at + BackOff(RetryDelay(e.attempt), e.retryAfter) * SECOND
  }

  /** The row still honours a recorded back-off: it is past that attempt, or waits until it is over. */
  predicate Honours(s: Sys, e: Entry) {
    e.BackedOff? ==>
      && e.k in s.rows && 1 <= e.attempt < MAX_DELIVERY_ATTEMPTS
      && var m := s.rows[e.k];
         || m.attempts > e.attempt
         || (m.attempts == e.attempt && Queued(m) && m.nextAttemptAt.Some?
             && m.nextAttemptAt.value >= Min(Earliest(e), DATETIME_MAX))
  }

  /** A claim for the attempt after a backed-off one comes late enough. */
  predicate InTime(e1: Entry, e2: Entry) {
    e1.BackedOff? && e2.ClaimTaken? && e1.k == e2.k && e1.attempt == e2.attempts
    && e1.attempt < MAX_DELIVERY_ATTEMPTS ==>
      e2.now >= Earliest(e1)
  }

  ghost predicate BackOffOk(s: Sys) {
    && (forall i :: 0 <= i < |s.log| ==> Honours(s, s.log[i]))
    && (forall i, j :: 0 <= i < j < |s.log| ==> InTime(s.log[i], s.log[j]))
  }

  lemma MoveHonours(s: Sys, a: Action, e: Entry)
    requires Inv(s) && Honours(s, e) && Commits(s, a)
    ensures Honours(Next(s, a), e)
  {
    hide Next, Transaction, Earliest;
    if a.Create? {
      CreateNext(s, a);
    } else {
      StepMoves(s, a);
    }
  }

  lemma NewEntryHonoured(s: Sys, a: Action)
    requires Inv(s) && Commits(s, a)
    ensures forall i :: 0 <= i < |Entries(s, a)| ==> Honours(Next(s, a), Entries(s, a)[i])
  {
    hide Next, Transaction, RowOk, MirroredAt, Requestable;
    if a.Record? {
      RecordEffect(s, a);
      OnlyOwnTask(s, a);
      assert TaskOk(s, s.tasks[a.t]);
    }
  }

  lemma ClaimInTime(s: Sys, a: Action, e: Entry)
    requires Inv(s) && Honours(s, e) && a.Claim? && Commits(s, a)
    ensures InTime(e, ClaimTaken(a.k, s.rows[a.k].attempts, a.now))
  {
    ClaimValue(s, a);
  }

  lemma NewEntryInTime(s: Sys, a: Action, i: nat, j: nat)
    requires Inv(s) && Commits(s, a) && j < |Entries(s, a)| && i < |s.log| + j && i < |s.log + Entries(s, a)|
    requires i < |s.log| ==> Honours(s, s.log[i])
    ensures InTime((s.log + Entries(s, a))[i], Entries(s, a)[j])
  {
    hide Next, Transaction, Inv, Honours;
    if a.Claim? && i < |s.log| {
      ClaimInTime(s, a, s.log[i]);
    }
  }

  lemma SameRowsHonour(s: Sys, s': Sys, e: Entry)
    requires Honours(s, e) && s'.rows == s.rows
    ensures Honours(s', e)
  {}

  lemma KeepsBackOff(s: Sys, a: Action)
    requires Inv(s) && BackOffOk(s)
    ensures BackOffOk(Next(s, a))
  {
    hide Next, Transaction, Inv, Honours, InTime;
    var s' := Next(s, a);
    LogGrows(s, a);
    if !Commits(s, a) {
      NotCommitted(s, a);
      forall i | 0 <= i < |s'.log| ensures Honours(s', s'.log[i]) {
        SameRowsHonour(s, s', s.log[i]);
      }
    } else {
      NewEntryHonoured(s, a);
      forall i | 0 <= i < |s'.log| ensures Honours(s', s'.log[i]) {
        if i < |s.log| {
          MoveHonours(s, a, s.log[i]);
        } else {
          assert s'.log[i] == Entries(s, a)[i - |s.log|];
        }
      }
      forall i, j | 0 <= i < j < |s'.log| ensures InTime(s'.log[i], s'.log[j]) {
        if j < |s.log| {
          assert InTime(s.log[i], s.log[j]);
        } else {
          assert s'.log[j] == Entries(s, a)[j - |s.log|];
          NewEntryInTime(s, a, i, j - |s.log|);
        }
      }
    }
  }

  // ----- the scheduler mirror -----

  /** Everything a reminder shows agrees with its message; the next attempt too once it has been mirrored. */
  predicate Mirrors(r: Reminder, m: Message, mirrored: bool) {
    && r.status == m.status && r.attempts == m.attempts && r.sendingAt == m.sendingAt
    && r.publishedAt == m.publishedAt && r.lastError == m.lastError
    && (r.sent <==> m.status != Pending)
    && (mirrored ==> r.nextAttemptAt == m.nextAttemptAt)
  }

  predicate RowMirrored(s: Sys, k: RowKey)
    requires k in s.rows
  {
    Notifies(s.rows[k]) && SubjectKey(s.rows[k]) in s.reminders ==>
      Mirrors(s.reminders[SubjectKey(s.rows[k])], s.rows[k], k in s.mirrored)
  }

  ghost predicate MirrorOk(s: Sys) {
    && (forall k :: k in s.rows ==> RowMirrored(s, k))
    && s.mirrored <= s.rows.Keys
  }

  lemma KeepsMirror(s: Sys, a: Action)
    requires Inv(s) && MirrorOk(s)
    ensures MirrorOk(Next(s, a))
  {
    hide Next, Transaction, Inv;
    if !Commits(s, a) {
      NotCommitted(s, a);
    } else if a.Create? {
      CreateNext(s, a);
      forall k | k in Next(s, a).rows ensures RowMirrored(Next(s, a), k) {
        assert k in s.rows ==> RowMirrored(s, k) && SubjectsApart(s.rows[k], a.m);
      }
    } else {
      StepKeepsMirror(s, a);
    }
  }

  lemma StepKeepsMirror(s: Sys, a: Action)
    requires Inv(s) && MirrorOk(s) && !a.Create? && Commits(s, a)
    ensures MirrorOk(Next(s, a))
  {
    var s' := Transaction(s, a).value;
    var k := RowOf(s, a);
    hide Next, Transaction, Mirrors, RowOk, TokenFate, MirrorOf, Requestable;
    Effect(s, a);
    MirrorEffect(s, a);
    OnlyOwnTask(s, a);
    forall k' | k' in s'.rows ensures RowMirrored(s', k') {
      assert RowMirrored(s, k');
      if k' != k {
        assert SubjectsApart(s.rows[k], s.rows[k']);
      }
    }
  }

  // ----- final statuses are earned -----

  /** What must have happened before a message is published, or failed after it was sent. */
  predicate Earned(log: seq<Entry>, k: RowKey, m: Message) {
    match m.status
    case Published => Answer(k, m.attempts, Delivered) in log || DeliveryChosen(k, m.attempts) in log
    case Failed =>
      || m.attempts == 0
      || Answer(k, m.attempts, Permanent) in log
      || (m.attempts == MAX_DELIVERY_ATTEMPTS && Answer(k, m.attempts, KnownTransient) in log)
    case _ => true
  }

  ghost predicate EndingsOk(s: Sys) {
    forall k {:trigger Earned(s.log, k, s.rows[k])} :: k in s.rows ==> Earned(s.log, k, s.rows[k])
  }

  lemma EarnedStays(log: seq<Entry>, more: seq<Entry>, k: RowKey, m: Message)
    requires Earned(log, k, m)
    ensures Earned(log + more, k, m)
  {}

  lemma RecordEarns(s: Sys, a: Action)
    requires Inv(s) && a.Record? && Commits(s, a)
    ensures RowOf(s, a) in Next(s, a).rows && Earned(s.log, RowOf(s, a), Next(s, a).rows[RowOf(s, a)])
  {
    hide Next, Transaction, StateMetadata, RecordEntries, MirroredAt, Requestable;
    RecordEffect(s, a);
    OnlyOwnTask(s, a);
    assert TaskOk(s, s.tasks[a.t]) && RowOk(s, RowOf(s, a), s.rows[RowOf(s, a)]);
  }

  /** The row a step touches has earned its new status, if it is a final one. */
  lemma StepEarns(s: Sys, a: Action)
    requires Inv(s) && EndingsOk(s) && !a.Create? && Commits(s, a)
    ensures var k, s' := RowOf(s, a), Next(s, a); k in s'.rows && Earned(s'.log, k, s'.rows[k])
  {
    var k, s' := RowOf(s, a), Next(s, a);
    StepMoves(s, a);
    LogGrows(s, a);
    assert Earned(s.log, k, s.rows[k]);
    if a.Record? {
      RecordEarns(s, a);
      EarnedStays(s.log, Entries(s, a), k, s'.rows[k]);
    } else if a.Reconcile? {
      OperatorEffect(s, a);
      assert s'.log[|s.log|] == Entries(s, a)[0];
    } else if !a.Claim? && !a.Proceed? && !a.Sweep? {
      EarnedStays(s.log, Entries(s, a), k, s'.rows[k]);
    }
  }

  lemma KeepsEndings(s: Sys, a: Action)
    requires Inv(s) && EndingsOk(s)
    ensures EndingsOk(Next(s, a))
  {
    hide Next, Transaction, Entries, Inv;
    var s' := Next(s, a);
    LogGrows(s, a);
    if !Commits(s, a) {
      NotCommitted(s, a);
    } else if !a.Create? {
      StepMoves(s, a);
      StepEarns(s, a);
    } else {
      CreateNext(s, a);
    }
    forall k | k in s'.rows ensures Earned(s'.log, k, s'.rows[k]) {
      if k in s.rows && s'.rows[k] == s.rows[k] {
        assert Earned(s.log, k, s.rows[k]);
        EarnedStays(s.log, Entries(s, a), k, s.rows[k]);
      }
    }
  }
}
