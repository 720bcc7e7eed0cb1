/** The promises of durable delivery, each for every run from the empty system. */
module DispatchTheorems {
  import opened Wrappers
  import opened Delivery
  import opened DispatchProtocol
  import opened DispatchSafety
  import opened DispatchHistory

  ghost predicate Good(s: Sys) {
    Inv(s) && LicencesOk(s) && SendsLicensed(s) && SendsOk(s) && BackOffOk(s) && MirrorOk(s) && EndingsOk(s)
  }

  lemma StepKeepsGood(s: Sys, a: Action)
    requires Good(s)
    ensures Good(Next(s, a))
  {
    KeepsInv(s, a);
    KeepsLicences(s, a);
    KeepsSendLicences(s, a);
    KeepsSends(s, a);
    KeepsBackOff(s, a);
    KeepsMirror(s, a);
    KeepsEndings(s, a);
  }

  lemma {:induction false} RunKeepsGood(s: Sys, actions: seq<Action>)
    requires Good(s)
    ensures Good(Run(s, actions))
    decreases |actions|
  {
    if actions != [] {
      StepKeepsGood(s, actions[0]);
      RunKeepsGood(Next(s, actions[0]), actions[1..]);
    }
  }

  lemma ReachableIsGood(actions: seq<Action>)
    ensures Good(Run(EMPTY, actions))
  {
    RunKeepsGood(EMPTY, actions);
  }

  // ----- at most one send per key, and no resend without licence -----

  /** No dispatch key reaches the provider twice for one tenant. */
  lemma NoKeySentTwice(actions: seq<Action>, i: nat, j: nat)
    requires i < j < |Run(EMPTY, actions).log|
    requires var log := Run(EMPTY, actions).log; log[i].Sent? && log[j].Sent? && log[i].k.tenant == log[j].k.tenant
    ensures var log := Run(EMPTY, actions).log; log[i].request.idempotencyKey != log[j].request.idempotencyKey
  {
    var s := Run(EMPTY, actions);
    ReachableIsGood(actions);
    var e1, e2 := s.log[i], s.log[j];
    assert SentOk(s, e1) && SentOk(s, e2) && !SameSend(e1, e2);
    assert RowOk(s, e1.k, s.rows[e1.k]) && RowOk(s, e2.k, s.rows[e2.k]);
    assert e1.k != e2.k ==> SameTenantDistinctIds(s.rows[e1.k], s.rows[e2.k]);
    if e1.request.idempotencyKey == e2.request.idempotencyKey {
      AttemptKeyInjective(s.rows[e1.k].id, e1.attempt, s.rows[e2.k].id, e2.attempt);
    }
  }

  /** Of two sends of one message, the lower-numbered attempt had been answered known-transient, or an
      operator had chosen retry for it, before the higher-numbered one reached the provider. */
  lemma ResendIsLicensed(actions: seq<Action>, i: nat, j: nat)
    requires i < |Run(EMPTY, actions).log| && j < |Run(EMPTY, actions).log|
    requires var log := Run(EMPTY, actions).log;
      log[i].Sent? && log[j].Sent? && log[i].k == log[j].k && log[i].attempt < log[j].attempt
    ensures var log := Run(EMPTY, actions).log;
      Answer(log[i].k, log[i].attempt, KnownTransient) in log[..j] || RetryChosen(log[i].k, log[i].attempt) in log[..j]
  {
    var s := Run(EMPTY, actions);
    ReachableIsGood(actions);
    assert SentOk(s, s.log[i]) && SendLicensed(s.log, j);
    assert Licensed(s.log[..j], s.log[j].k, s.log[i].attempt);
  }

  // ----- validity -----

  /** Every stored message satisfies the validity rule, whatever ran before. */
  lemma StoredMessagesAreValid(actions: seq<Action>, k: RowKey)
    requires k in Run(EMPTY, actions).rows
    ensures StateMetadata(Run(EMPTY, actions).rows[k])
  {
    ReachableIsGood(actions);
    assert RowOk(Run(EMPTY, actions), k, Run(EMPTY, actions).rows[k]);
  }

  /** The validity rule never refuses a dispatcher or operator transaction. */
  lemma ValidityNeverRefuses(actions: seq<Action>, a: Action)
    requires Enabled(Run(EMPTY, actions), a)
    ensures Transaction(Run(EMPTY, actions), a) != Failure(InvalidState)
  {
    ReachableIsGood(actions);
    NoInvalidState(Run(EMPTY, actions), a);
  }

  lemma NoInvalidState(s: Sys, a: Action)
    requires Inv(s) && Enabled(s, a)
    ensures Transaction(s, a) != Failure(InvalidState)
  {
    hide ClaimRow, Resolve, ChangeStrict, ChangeLenient, RowOk, TaskOk, RecordedChange, ProceedChange;
    if a.Claim? {
      ClaimIsValid(s, a);
    } else if a.Proceed? || a.Record? {
      TaskChangeIsValid(s, a);
    } else if a.Reconcile? {
      ReconcileIsValid(s, a);
    }
  }

  lemma ClaimIsValid(s: Sys, a: Action)
    requires Inv(s) && a.Claim? && Enabled(s, a)
    ensures Transaction(s, a) != Failure(InvalidState)
  {
    var c := ClaimedCopy(s.rows[a.k], a.token, a.owner, LeaseEnd(a.now, a.leaseSeconds));
    assert RowOk(s, a.k, s.rows[a.k]) && StateMetadata(c);
    ValidityRefusesExactly(c, a.token, FailClaim(InvalidPayloadError(a.now)));
  }

  lemma TaskChangeIsValid(s: Sys, a: Action)
    requires Inv(s) && (a.Proceed? || a.Record?) && Enabled(s, a)
    ensures Transaction(s, a) != Failure(InvalidState)
  {
    hide StateMetadata, Verdict, Changed, StoreAndMirror;
    var task := s.tasks[a.t];
    assert TaskOk(s, task) && RowOk(s, task.k, s.rows[task.k]);
    if a.Proceed? {
      ValidityRefusesExactly(s.rows[task.k], Token(task), ProceedChange(task, a.approved, a.clock));
    } else {
      ValidityRefusesExactly(s.rows[task.k], Token(task), RecordedChange(task.m, task.answer, a.clock));
    }
  }

  lemma ReconcileIsValid(s: Sys, a: Action)
    requires Inv(s) && a.Reconcile?
    ensures Transaction(s, a) != Failure(InvalidState)
  {
    hide StoreAndMirror, Requestable;
    if a.k in s.rows {
      assert RowOk(s, a.k, s.rows[a.k]);
    }
  }

  /** Failing a claim before I/O, for want of a reminder or of a usable payload, only ever happens to a
      message that was never attempted. */
  lemma ClaimsFailOnlyUnattempted(actions: seq<Action>, a: Action)
    requires Enabled(Run(EMPTY, actions), a)
    ensures var s := Run(EMPTY, actions);
      && (a.Claim? && !HasReminder(s.reminders, s.rows[a.k]) ==> s.rows[a.k].attempts == 0)
      && (a.Proceed? && !Requestable(s.tasks[a.t].m.event) ==> s.tasks[a.t].m.attempts == 0)
  {
    var s := Run(EMPTY, actions);
    ReachableIsGood(actions);
    if a.Claim? {
      assert RowOk(s, a.k, s.rows[a.k]);
    } else if a.Proceed? {
      assert TaskOk(s, s.tasks[a.t]) && RowOk(s, s.tasks[a.t].k, s.rows[s.tasks[a.t].k]);
    }
  }

  // ----- fencing -----

  predicate TokenIsLive(s: Sys, task: Task) {
    task.k in s.rows && s.rows[task.k].claimToken == task.m.claimToken
  }

  /** A worker's result is recorded exactly when its token is still the one on the row. */
  lemma RecordsIffTokenIsLive(actions: seq<Action>, t: nat, clock: Instant)
    requires Enabled(Run(EMPTY, actions), Record(t, clock))
    ensures var s := Run(EMPTY, actions);
      Transaction(s, Record(t, clock)).Success? <==> TokenIsLive(s, s.tasks[t])
  {
    ReachableIsGood(actions);
    var s := Run(EMPTY, actions);
    assert TaskOk(s, s.tasks[t]);
    TaskChangeOutcome(s, t, RecordedChange(s.tasks[t].m, s.tasks[t].answer, clock));
  }

  lemma TaskChangeOutcome(s: Sys, t: nat, c: Change)
    requires Inv(s) && t in s.tasks && ExpectedStatus(c) == s.tasks[t].m.status
    requires c.FailClaim? ==> s.tasks[t].m.attempts == 0
    ensures var task := s.tasks[t];
      Guarded(s, task.k, Token(task), c) ==
        if TokenIsLive(s, task) then Success(Changed(task.m, c)) else Failure(PermissionDenied)
  {
    var task := s.tasks[t];
    assert TaskOk(s, task) && RowOk(s, task.k, s.rows[task.k]);
    ValidityRefusesExactly(s.rows[task.k], Token(task), c);
  }

  /** A worker reaches the provider exactly when its token is still on the row at confirmation. */
  lemma ConfirmsIffTokenIsLive(actions: seq<Action>, t: nat, clock: Instant)
    requires Enabled(Run(EMPTY, actions), Proceed(t, true, clock))
    requires Requestable(Run(EMPTY, actions).tasks[t].m.event)
    ensures var s := Run(EMPTY, actions); var s' := Next(s, Proceed(t, true, clock));
      t in s'.tasks && s'.tasks[t].Confirmed? <==> TokenIsLive(s, s.tasks[t])
  {
    ReachableIsGood(actions);
    var s := Run(EMPTY, actions);
    assert TaskOk(s, s.tasks[t]);
    TaskChangeOutcome(s, t, StartSending(clock));
  }

  predicate Dead(s: Sys, k: RowKey, token: string) {
    k in s.rows && token in s.usedTokens && s.rows[k].claimToken != Some(token)
  }

  lemma DeadStaysDead(s: Sys, a: Action, k: RowKey, token: string)
    requires Inv(s) && Dead(s, k, token)
    ensures Dead(Next(s, a), k, token)
  {
    if Commits(s, a) && !a.Create? {
      Effect(s, a);
      OnlyOwnTask(s, a);
      if a.Proceed? {
        ProceedEffect(s, a);
      }
    }
  }

  /** Once a token is off its row, by reclaim, sweep, release or a final status, no later run puts it back,
      and every transition under it is refused without touching the stores. */
  lemma {:induction false} DeadTokenIsRefusedForever(s: Sys, actions: seq<Action>, k: RowKey, token: string, c: Change)
    requires Good(s) && Dead(s, k, token)
    ensures var s' := Run(s, actions);
      Dead(s', k, token) && Guarded(s', k, token, c) == Failure(PermissionDenied)
    decreases |actions|
  {
    if actions != [] {
      StepKeepsGood(s, actions[0]);
      DeadStaysDead(s, actions[0], k, token);
      DeadTokenIsRefusedForever(Next(s, actions[0]), actions[1..], k, token, c);
    }
  }

  lemma FinalStays(s: Sys, a: Action, k: RowKey)
    requires Inv(s) && k in s.rows && (s.rows[k].status == Published || s.rows[k].status == Failed)
    ensures k in Next(s, a).rows && Next(s, a).rows[k] == s.rows[k]
  {
    hide Next, Transaction, Inv;
    if !Commits(s, a) {
      NotCommitted(s, a);
    } else if a.Create? {
      CreateNext(s, a);
    } else {
      StepMoves(s, a);
    }
  }

  /** `published` and `failed` are final: no later run changes the message in any field. */
  lemma {:induction false} FinalMessagesNeverChange(s: Sys, actions: seq<Action>, k: RowKey)
    requires Good(s) && k in s.rows && (s.rows[k].status == Published || s.rows[k].status == Failed)
    ensures k in Run(s, actions).rows && Run(s, actions).rows[k] == s.rows[k]
    decreases |actions|
  {
    hide Next, Transaction, Inv, LicencesOk, SendsLicensed, SendsOk, BackOffOk, MirrorOk, EndingsOk;
    if actions != [] {
      var a := actions[0];
      FinalStays(s, a, k);
      StepKeepsGood(s, a);
      FinalMessagesNeverChange(Next(s, a), actions[1..], k);
    }
  }

  // ----- attempts and the length of a message's life -----

  /** Attempts never pass 4, and queued messages have at most 3. */
  lemma AttemptsAreBounded(actions: seq<Action>, k: RowKey)
    requires k in Run(EMPTY, actions).rows
    ensures var m := Run(EMPTY, actions).rows[k]; m.attempts <= 4 && (Queued(m) ==> m.attempts <= 3)
  {
    ReachableIsGood(actions);
    assert RowOk(Run(EMPTY, actions), k, Run(EMPTY, actions).rows[k]);
  }

  /** The delay table is only read inside its bounds, without Python's wrap-around. */
  lemma DelayIsInTable(actions: seq<Action>, t: nat, clock: Instant)
    requires Enabled(Run(EMPTY, actions), Record(t, clock))
    requires var task := Run(EMPTY, actions).tasks[t]; RecordedChange(task.m, task.answer, clock).Reschedule?
    ensures 1 <= Run(EMPTY, actions).tasks[t].m.attempts <= 3
  {
    ReachableIsGood(actions);
    assert TaskOk(Run(EMPTY, actions), Run(EMPTY, actions).tasks[t]);
  }

  /** A published message was answered as delivered on its last attempt, or an operator declared it delivered; one that
      failed after being sent was answered as permanently failed, or transiently on the fourth attempt. */
  lemma FinalStatusIsEarned(actions: seq<Action>, k: RowKey)
    requires k in Run(EMPTY, actions).rows
    ensures var log, m := Run(EMPTY, actions).log, Run(EMPTY, actions).rows[k];
      && (m.status == Published ==> Answer(k, m.attempts, Delivered) in log || DeliveryChosen(k, m.attempts) in log)
      && (m.status == Failed && m.attempts >= 1 ==>
            Answer(k, m.attempts, Permanent) in log || (m.attempts == 4 && Answer(k, 4, KnownTransient) in log))
  {
    ReachableIsGood(actions);
    assert Earned(Run(EMPTY, actions).log, k, Run(EMPTY, actions).rows[k]);
  }

  function Rank(status: Status): nat {
    match status
    case Sending => 4
    case Uncertain => 3
    case Pending => 2
    case Claimed => 1
    case Published => 0
    case Failed => 0
  }

  /** Falls at every step that moves a message, reclaims and releases excepted. */
  function Life(m: Message): int {
    6 * (MAX_DELIVERY_ATTEMPTS - m.attempts) + Rank(m.status)
  }

  predicate Reclaims(s: Sys, a: Action) {
    a.Claim? && a.k in s.rows && s.rows[a.k].status == Claimed
  }

  predicate Releases(a: Action) {
    a.Proceed? && !a.approved
  }

  lemma LifeFalls(s: Sys, a: Action)
    requires Inv(s) && !a.Create? && Commits(s, a)
    ensures var k := RowOf(s, a); var s' := Next(s, a);
      && k in s.rows && k in s'.rows && s.rows[k].attempts <= s'.rows[k].attempts
      && (s'.rows[k] != s.rows[k] && !Reclaims(s, a) && !Releases(a) ==> 0 <= Life(s'.rows[k]) < Life(s.rows[k]))
  {
    hide Next, Transaction, StateMetadata, Requestable, LeaseOutlivesBackOff, MirroredAt;
    StepMoves(s, a);
    OnlyOwnTask(s, a);
    Effect(s, a);
    assert RowOk(Transaction(s, a).value, RowOf(s, a), Next(s, a).rows[RowOf(s, a)]);
    if a.Proceed? {
      ProceedEffect(s, a);
    }
  }

  /** The same measure blind to claims and releases. */
  function Rounds(m: Message): int {
    3 * (MAX_DELIVERY_ATTEMPTS - m.attempts)
    + (match m.status
       case Sending => 3
       case Uncertain => 2
       case Pending => 1
       case Claimed => 1
       case Published => 0
       case Failed => 0)
  }

  /** The step moves message `k` otherwise than between pending and claimed. */
  predicate Progresses(s: Sys, a: Action, k: RowKey) {
    && k in s.rows && k in Next(s, a).rows && Next(s, a).rows[k] != s.rows[k]
    && !(Queued(s.rows[k]) && Queued(Next(s, a).rows[k]))
  }

  function ProgressSteps(s: Sys, actions: seq<Action>, k: RowKey): nat
    decreases |actions|
  {
    if actions == [] then 0
    else (if Progresses(s, actions[0], k) then 1 else 0) + ProgressSteps(Next(s, actions[0]), actions[1..], k)
  }

  lemma RoundsFall(s: Sys, a: Action, k: RowKey)
    requires Inv(s) && k in s.rows
    ensures k in Next(s, a).rows && 0 <= Rounds(Next(s, a).rows[k])
    ensures Rounds(Next(s, a).rows[k]) + (if Progresses(s, a, k) then 1 else 0) <= Rounds(s.rows[k])
  {
    hide Next, Transaction, StateMetadata, Requestable, LeaseOutlivesBackOff;
    assert RowOk(s, k, s.rows[k]);
    KeepsInv(s, a);
    if !Commits(s, a) {
      NotCommitted(s, a);
    } else if a.Create? {
      CreateNext(s, a);
    } else {
      StepMoves(s, a);
      assert RowOk(Next(s, a), k, Next(s, a).rows[k]);
    }
  }

  /** Sends, results, sweeps and operator decisions on one message number at most 13 in any run, however
      often its claim expires or is released, and however often an operator retries. */
  lemma {:induction false} LifeIsBounded(s: Sys, actions: seq<Action>, k: RowKey)
    requires Good(s) && k in s.rows
    ensures ProgressSteps(s, actions, k) <= Rounds(s.rows[k]) <= 15
    ensures s.rows[k].attempts == 0 && Queued(s.rows[k]) ==> ProgressSteps(s, actions, k) <= 13
    decreases |actions|
  {
    assert RowOk(s, k, s.rows[k]);
    if actions != [] {
      RoundsFall(s, actions[0], k);
      StepKeepsGood(s, actions[0]);
      LifeIsBounded(Next(s, actions[0]), actions[1..], k);
    }
  }

  // ----- back-off and mirror -----

  /** After attempt n failed transiently at `at`, no claim for attempt n+1 carries a time before both the
      default delay of that attempt and the provider's own delay are over. */
  lemma BackOffIsKept(actions: seq<Action>, i: nat, j: nat)
    requires i < j < |Run(EMPTY, actions).log|
    requires var log := Run(EMPTY, actions).log;
      log[i].BackedOff? && log[j].ClaimTaken? && log[i].k == log[j].k && log[i].attempt == log[j].attempts
    ensures var log := Run(EMPTY, actions).log; var n := log[i].attempt;
      && 1 <= n <= 3
      && log[j].now >= log[i].at + (if n == 1 then 30 else if n == 2 then 120 else 300) * 1_000_000
      && (log[i].retryAfter.Some? ==> log[j].now >= log[i].at + log[i].retryAfter.value * 1_000_000)
  {
    ReachableIsGood(actions);
    var log := Run(EMPTY, actions).log;
    assert Honours(Run(EMPTY, actions), log[i]) && InTime(log[i], log[j]);
  }

  /** After every committed transaction a reminder shows exactly what its message says. */
  lemma MirrorAgrees(actions: seq<Action>, k: RowKey)
    requires var s := Run(EMPTY, actions);
      k in s.rows && Notifies(s.rows[k]) && SubjectKey(s.rows[k]) in s.reminders
    ensures var s := Run(EMPTY, actions);
      Mirrors(s.reminders[SubjectKey(s.rows[k])], s.rows[k], k in s.mirrored)
  {
    ReachableIsGood(actions);
    assert RowMirrored(Run(EMPTY, actions), k);
  }
}
