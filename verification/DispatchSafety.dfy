/** What every reachable state of the delivery protocol satisfies. */
module DispatchSafety {
  import opened Wrappers
  import opened Delivery
  import opened DispatchProtocol

  // ----- rows -----

  predicate AttemptBound(m: Message) {
    m.attempts <= MAX_DELIVERY_ATTEMPTS
    && (m.status == Pending || m.status == Claimed ==> m.attempts < MAX_DELIVERY_ATTEMPTS)
  }

  predicate RowOk(s: Sys, k: RowKey, m: Message) {
    && m.tenant == k.tenant && m.idempotencyKey == k.idempotencyKey
    && StateMetadata(m) && AttemptBound(m) && LeaseOutlivesBackOff(m)
    && (m.claimToken.Some? ==> m.claimToken.value in s.usedTokens)
    && (m.attempts >= 1 ==> Requestable(m.event) && HasReminder(s.reminders, m))
  }

  ghost predicate RowsOk(s: Sys) {
    forall k {:trigger RowOk(s, k, s.rows[k])} :: k in s.rows ==> RowOk(s, k, s.rows[k])
  }

  ghost predicate IdsApart(s: Sys) {
    forall k1, k2 :: k1 in s.rows && k2 in s.rows && k1 != k2 ==>
      SameTenantDistinctIds(s.rows[k1], s.rows[k2]) && SubjectsApart(s.rows[k1], s.rows[k2])
  }

  // ----- tasks -----

  predicate TaskOk(s: Sys, task: Task) {
    && task.k in s.rows
    && Truthy(task.m.claimToken) && task.m.claimToken.value in s.usedTokens
    && task.m.tenant == task.k.tenant && task.m.id == s.rows[task.k].id && task.m.event == s.rows[task.k].event
    && task.m.event.eventType == REMINDER_NOTIFICATION
    && (s.rows[task.k].claimToken == task.m.claimToken ==> s.rows[task.k] == task.m)
    && HasReminder(s.reminders, task.m)
    && (if task.Holding? then task.m.status == Claimed && NoLaterThan(task.m.nextAttemptAt, task.now)
        else task.m.status == Sending && 1 <= task.m.attempts)
    && task.m.attempts <= s.rows[task.k].attempts
    && (task.Replied? ==> Answer(task.k, task.m.attempts, Verdict(task.m, task.answer)) in s.log)
  }

  ghost predicate TasksOk(s: Sys) {
    forall t {:trigger TaskOk(s, s.tasks[t])} :: t in s.tasks ==> TaskOk(s, s.tasks[t])
  }

  ghost predicate TokensApart(s: Sys) {
    forall t1, t2 :: t1 in s.tasks && t2 in s.tasks && t1 != t2 ==> Token(s.tasks[t1]) != Token(s.tasks[t2])
  }

  ghost predicate Inv(s: Sys) {
    RowsOk(s) && IdsApart(s) && TasksOk(s) && TokensApart(s)
  }

  // ----- one step touches one row -----

  predicate SameIdentity(m1: Message, m2: Message) {
    m1.tenant == m2.tenant && m1.id == m2.id && m1.event == m2.event && m1.idempotencyKey == m2.idempotencyKey
  }

  function RowOf(s: Sys, a: Action): RowKey
    requires Enabled(s, a)
  {
    match a
    case Create(k, _, _) => k
    case Claim(_, k, _, _, _, _) => k
    case Sweep(k, _) => k
    case Reconcile(k, _, _) => k
    case Proceed(t, _, _) => s.tasks[t].k
    case Send(t) => s.tasks[t].k
    case Receive(t, _) => s.tasks[t].k
    case Record(t, _) => s.tasks[t].k
    case Crash(t) => s.tasks[t].k
  }

  /** `s'` differs from `s` in at most row `k`, whose identity, message and attempt count it respects. */
  ghost predicate RowDelta(s: Sys, s': Sys, k: RowKey) {
    && k in s.rows && k in s'.rows && s'.rows == s.rows[k := s'.rows[k]]
    && SameIdentity(s.rows[k], s'.rows[k]) && s.rows[k].attempts <= s'.rows[k].attempts
    && s'.reminders.Keys == s.reminders.Keys
    && s.usedTokens <= s'.usedTokens && s.log <= s'.log
  }

  /** After a step the row is unclaimed, unchanged, under a new token, or under the stepping worker's own. */
  predicate TokenFate(s: Sys, m': Message, a: Action)
    requires Enabled(s, a)
  {
    || m'.claimToken.None?
    || (RowOf(s, a) in s.rows && m' == s.rows[RowOf(s, a)])
    || m'.claimToken.value !in s.usedTokens
    || (a.Proceed? && m'.claimToken == s.tasks[a.t].m.claimToken)
  }

  /** The reminders after row `k` was stored and mirrored. */
  ghost predicate MirroredAt(s: Sys, s': Sys, k: RowKey)
    requires k in s'.rows
  {
    if HasReminder(s.reminders, s'.rows[k])
    then s'.reminders == s.reminders[SubjectKey(s'.rows[k]) := MirrorOf(s'.rows[k])] && s'.mirrored == s.mirrored + {k}
    else s'.reminders == s.reminders && s'.mirrored == s.mirrored
  }

  lemma StoreDelta(s: Sys, k: RowKey, m: Message)
    requires k in s.rows && SameIdentity(s.rows[k], m) && s.rows[k].attempts <= m.attempts
    ensures RowDelta(s, StoreAndMirror(s, k, m), k) && StoreAndMirror(s, k, m).rows[k] == m
    ensures MirroredAt(s, StoreAndMirror(s, k, m), k)
  {
    if HasReminder(s.reminders, m) {
      assert s.reminders[SubjectKey(m) := MirrorOf(m)].Keys == s.reminders.Keys;
    }
  }

  lemma GuardedFacts(s: Sys, k: RowKey, token: string, c: Change)
    requires k in s.rows && RowOk(s, k, s.rows[k])
    requires Guarded(s, k, token, c).Success?
    requires c.Release? ==> s.rows[k].attempts < MAX_DELIVERY_ATTEMPTS
    requires c.Reschedule? ==> s.rows[k].attempts < MAX_DELIVERY_ATTEMPTS
    requires c.StartSending? ==> Requestable(s.rows[k].event) && HasReminder(s.reminders, s.rows[k])
    ensures var m := Guarded(s, k, token, c).value;
      && m == Changed(s.rows[k], c)
      && SameIdentity(s.rows[k], m) && s.rows[k].attempts <= m.attempts && RowOk(s, k, m)
      && (m.claimToken.None? || (c.StartSending? && m.claimToken == Some(token)))
  {
  }

  /** The row a claim transaction leaves: claimed, or failed before any I/O when it has no reminder. */
  function ClaimedOrFailed(s: Sys, a: Action): Message
    requires a.Claim? && a.k in s.rows
  {
    var c := ClaimedCopy(s.rows[a.k], a.token, a.owner, LeaseEnd(a.now, a.leaseSeconds));
    if HasReminder(s.reminders, c) then c else Changed(c, FailClaim(InvalidPayloadError(a.now)))
  }

  lemma ClaimValue(s: Sys, a: Action)
    requires Inv(s) && a.Claim? && Enabled(s, a) && Transaction(s, a).Success?
    ensures LeaseEnd(a.now, a.leaseSeconds) <= DATETIME_MAX
    ensures var s' := Transaction(s, a).value; var m := ClaimedOrFailed(s, a);
      && RowDelta(s, s', a.k) && s'.rows[a.k] == m && s'.tasks == s.tasks && MirroredAt(s, s', a.k)
      && s'.usedTokens == s.usedTokens + {a.token}
      && s'.log == s.log + [ClaimTaken(a.k, s.rows[a.k].attempts, a.now)]
  {
    var c := ClaimedCopy(s.rows[a.k], a.token, a.owner, LeaseEnd(a.now, a.leaseSeconds));
    var s1 := s.(usedTokens := s.usedTokens + {a.token}, log := s.log + [ClaimTaken(a.k, c.attempts, a.now)]);
    if HasReminder(s.reminders, c) {
      StoreDelta(s1, a.k, c);
    } else {
      StoreDelta(s1.(rows := s1.rows[a.k := c]), a.k, ClaimedOrFailed(s, a));
    }
  }

  lemma ClaimEffect(s: Sys, a: Action)
    requires Inv(s) && a.Claim? && Enabled(s, a) && Transaction(s, a).Success?
    ensures var s' := Transaction(s, a).value;
      RowDelta(s, s', a.k) && RowOk(s', a.k, s'.rows[a.k]) && s'.tasks == s.tasks && TokenFate(s, s'.rows[a.k], a)
  {
    ClaimValue(s, a);
    assert RowOk(s, a.k, s.rows[a.k]);
    UncheckedCopiesAreValid(s.rows[a.k], a.token, a.owner, a.now, LeaseEnd(a.now, a.leaseSeconds),
                            UnknownError(a.now, None), ResolveRetry(a.now));
  }

  lemma ProceedEffect(s: Sys, a: Action)
    requires Inv(s) && a.Proceed? && Enabled(s, a) && Transaction(s, a).Success?
    ensures var s' := Transaction(s, a).value; var k := RowOf(s, a);
      && RowDelta(s, s', k) && RowOk(s', k, s'.rows[k]) && s'.tasks == s.tasks
      && TokenFate(s, s'.rows[k], a) && MirroredAt(s, s', k)
      && s.rows[k] == s.tasks[a.t].m && s'.log == s.log
      && s'.rows[k] == Changed(s.rows[k], ProceedChange(s.tasks[a.t], a.approved, a.clock))
  {
    hide StateMetadata, Requestable, MirrorOf, LeaseOutlivesBackOff, SubjectKey, Verdict, IdsApart, TokensApart;
    hide Truthy;
    var task := s.tasks[a.t];
    assert TaskOk(s, task) && RowOk(s, task.k, s.rows[task.k]);
    var c := ProceedChange(task, a.approved, a.clock);
    GuardedFacts(s, task.k, Token(task), c);
    StoreDelta(s, task.k, Changed(s.rows[task.k], c));
  }

  function ProceedChange(task: Task, approved: bool, clock: Instant): Change
    requires task.Holding?
  {
    if !approved then Release(Some(task.now + RELEASE_DELAY * SECOND))
    else if !Requestable(task.m.event) then FailClaim(InvalidPayloadError(clock))
    else StartSending(clock)
  }

  lemma RecordEffect(s: Sys, a: Action)
    requires Inv(s) && a.Record? && Enabled(s, a) && Transaction(s, a).Success?
    ensures var s' := Transaction(s, a).value; var k := RowOf(s, a);
      && RowDelta(s, s', k) && RowOk(s', k, s'.rows[k]) && s'.tasks == s.tasks
      && TokenFate(s, s'.rows[k], a) && MirroredAt(s, s', k)
      && s.rows[k] == s.tasks[a.t].m
      && s'.rows[k] == Changed(s.rows[k], RecordedChange(s.rows[k], s.tasks[a.t].answer, a.clock))
      && s'.log == s.log + RecordEntries(k, s.rows[k], s.tasks[a.t].answer, a.clock)
  {
    var task := s.tasks[a.t];
    assert TaskOk(s, task) && RowOk(s, task.k, s.rows[task.k]);
    var c := RecordedChange(task.m, task.answer, a.clock);
    GuardedFacts(s, task.k, Token(task), c);
    StoreDelta(s, task.k, Changed(s.rows[task.k], c));
  }

  lemma OperatorEffect(s: Sys, a: Action)
    requires Inv(s) && (a.Sweep? || a.Reconcile?) && Enabled(s, a) && Transaction(s, a).Success?
    ensures var s' := Transaction(s, a).value; var k := RowOf(s, a);
      && RowDelta(s, s', k) && RowOk(s', k, s'.rows[k]) && s'.tasks == s.tasks
      && TokenFate(s, s'.rows[k], a) && MirroredAt(s, s', k)
      && (a.Sweep? ==> s'.rows[k] == SweptCopy(s.rows[k], UnknownError(a.now, None)) && s'.log == s.log)
      && (a.Reconcile? ==>
            && s.rows[k].status == Uncertain
            && s'.rows[k] == Resolved(s.rows[k], if a.retry then ResolveRetry(a.now) else ResolveDelivered(a.now))
            && (a.retry ==> s.rows[k].attempts < MAX_DELIVERY_ATTEMPTS)
            && s'.log == s.log +
               [if a.retry then RetryChosen(k, s.rows[k].attempts) else DeliveryChosen(k, s.rows[k].attempts)])
  {
    hide Transaction, RowOk, Resolved, SweptCopy;
    if a.Sweep? {
      SweepEffect(s, a);
    } else {
      ReconcileEffect(s, a);
    }
  }

  lemma SweepEffect(s: Sys, a: Action)
    requires Inv(s) && a.Sweep? && Enabled(s, a)
    ensures Transaction(s, a).Success?
    ensures var s' := Transaction(s, a).value;
      && RowDelta(s, s', a.k) && RowOk(s', a.k, s'.rows[a.k]) && s'.tasks == s.tasks && s'.log == s.log
      && MirroredAt(s, s', a.k) && s'.rows[a.k] == SweptCopy(s.rows[a.k], UnknownError(a.now, None))
      && s'.rows[a.k].claimToken.None?
  {
    hide Requestable, MirrorOf;
    assert RowOk(s, a.k, s.rows[a.k]);
    UncheckedCopiesAreValid(s.rows[a.k], "", "", a.now, a.now, UnknownError(a.now, None), ResolveRetry(a.now));
    StoreDelta(s, a.k, SweptCopy(s.rows[a.k], UnknownError(a.now, None)));
  }

  lemma ReconcileEffect(s: Sys, a: Action)
    requires Inv(s) && a.Reconcile? && Enabled(s, a) && Transaction(s, a).Success?
    ensures var s' := Transaction(s, a).value; var k := a.k;
      && RowDelta(s, s', k) && RowOk(s', k, s'.rows[k]) && s'.tasks == s.tasks && MirroredAt(s, s', k)
      && s'.rows[k].claimToken.None? && s.rows[k].status == Uncertain
      && s'.rows[k] == Resolved(s.rows[k], if a.retry then ResolveRetry(a.now) else ResolveDelivered(a.now))
      && (a.retry ==> s.rows[k].attempts < MAX_DELIVERY_ATTEMPTS)
      && s'.log == s.log +
         [if a.retry then RetryChosen(k, s.rows[k].attempts) else DeliveryChosen(k, s.rows[k].attempts)]
  {
    hide Requestable, MirrorOf;
    assert RowOk(s, a.k, s.rows[a.k]);
    StoreDelta(s, a.k, Resolved(s.rows[a.k], if a.retry then ResolveRetry(a.now) else ResolveDelivered(a.now)));
  }

  lemma Effect(s: Sys, a: Action)
    requires Inv(s) && !a.Create? && Enabled(s, a) && Transaction(s, a).Success?
    ensures var s' := Transaction(s, a).value; var k := RowOf(s, a);
      && RowDelta(s, s', k) && RowOk(s', k, s'.rows[k]) && s'.tasks == s.tasks
      && TokenFate(s, s'.rows[k], a)
  {
    hide StateMetadata, Requestable, AttemptBound, LeaseOutlivesBackOff, MirroredAt, Verdict;
    if a.Claim? {
      ClaimEffect(s, a);
    } else if a.Proceed? {
      ProceedEffect(s, a);
    } else if a.Record? {
      RecordEffect(s, a);
    } else if a.Sweep? || a.Reconcile? {
      OperatorEffect(s, a);
    } else {
      assert TaskOk(s, s.tasks[a.t]) && RowOk(s, s.tasks[a.t].k, s.rows[s.tasks[a.t].k]);
    }
  }

  predicate TouchesStores(a: Action) {
    !a.Send? && !a.Receive? && !a.Crash?
  }

  lemma MirrorEffect(s: Sys, a: Action)
    requires Inv(s) && !a.Create? && Enabled(s, a) && Transaction(s, a).Success?
    ensures var s' := Transaction(s, a).value; var k := RowOf(s, a);
      && k in s.rows && k in s'.rows
      && (TouchesStores(a) ==> MirroredAt(s, s', k) && s.rows[k].event.eventType == REMINDER_NOTIFICATION)
  {
    if a.Claim? {
      ClaimValue(s, a);
    } else if a.Proceed? {
      ProceedEffect(s, a);
      assert TaskOk(s, s.tasks[a.t]);
    } else if a.Record? {
      RecordEffect(s, a);
      assert TaskOk(s, s.tasks[a.t]);
    } else if a.Sweep? || a.Reconcile? {
      OperatorEffect(s, a);
    } else {
      assert TaskOk(s, s.tasks[a.t]);
    }
  }

  // ----- the invariant is kept -----

  lemma DeltaKeepsRows(s: Sys, s': Sys, k: RowKey)
    requires RowsOk(s) && IdsApart(s) && RowDelta(s, s', k) && RowOk(s', k, s'.rows[k])
    ensures RowsOk(s') && IdsApart(s')
  {
    forall k' | k' in s'.rows ensures RowOk(s', k', s'.rows[k']) {
      assert RowOk(s, k', s.rows[k']);
    }
    forall k1, k2 | k1 in s'.rows && k2 in s'.rows && k1 != k2
      ensures SameTenantDistinctIds(s'.rows[k1], s'.rows[k2]) && SubjectsApart(s'.rows[k1], s'.rows[k2])
    {
      assert SameTenantDistinctIds(s.rows[k1], s.rows[k2]) && SubjectsApart(s.rows[k1], s.rows[k2]);
    }
  }

  lemma DeltaKeepsTask(s: Sys, s': Sys, k: RowKey, task: Task)
    requires TaskOk(s, task) && RowDelta(s, s', k)
    requires task.k == k && s'.rows[k].claimToken == task.m.claimToken ==> s'.rows[k] == task.m
    ensures TaskOk(s', task)
  {
    assert s'.rows[task.k] == if task.k == k then s'.rows[k] else s.rows[task.k];
  }

  /** The stepping worker's task after a committed step, judged in the committed state. */
  predicate OwnTaskOk(s: Sys, a: Action)
    requires Enabled(s, a) && !a.Create? && !a.Sweep? && !a.Reconcile?
  {
    var s'' := Next(s, a);
    a.t in s''.tasks ==>
      && TaskOk(s'', s''.tasks[a.t])
      && Token(s''.tasks[a.t]) == (if a.Claim? then a.token else Token(s.tasks[a.t]))
  }

  lemma ClaimTaskOk(s: Sys, a: Action)
    requires Inv(s) && a.Claim? && Enabled(s, a) && Transaction(s, a).Success?
    ensures OwnTaskOk(s, a)
  {
    hide Transaction, Requestable, MirrorOf, AttemptBound, LeaseOutlivesBackOff, Verdict, StateMetadata;
    ClaimValue(s, a);
    ClaimEffect(s, a);
    assert RowOk(s, a.k, s.rows[a.k]);
  }

  lemma ProceedTaskOk(s: Sys, a: Action)
    requires Inv(s) && a.Proceed? && Enabled(s, a) && Transaction(s, a).Success?
    ensures OwnTaskOk(s, a)
  {
    hide Transaction, Requestable, MirrorOf, AttemptBound, LeaseOutlivesBackOff, Verdict;
    var task := s.tasks[a.t];
    assert TaskOk(s, task);
    ProceedEffect(s, a);
    assert RowOk(Transaction(s, a).value, task.k, Transaction(s, a).value.rows[task.k]);
  }

  lemma NewTaskOk(s: Sys, a: Action)
    requires Inv(s) && !a.Create? && Enabled(s, a) && Transaction(s, a).Success?
    requires !a.Sweep? && !a.Reconcile?
    ensures OwnTaskOk(s, a)
  {
    hide ClaimRow, ChangeLenient, ChangeStrict, Requestable, Verdict, RecordedChange;
    if a.Claim? {
      ClaimTaskOk(s, a);
    } else if a.Proceed? {
      ProceedTaskOk(s, a);
    } else {
      assert TaskOk(s, s.tasks[a.t]);
    }
  }

  predicate Steps(a: Action, t: nat) {
    !a.Create? && !a.Sweep? && !a.Reconcile? && a.t == t
  }

  /** A committed step leaves the stores as its transaction did and touches no task but its own. */
  lemma OnlyOwnTask(s: Sys, a: Action)
    requires Inv(s) && !a.Create? && Enabled(s, a) && Transaction(s, a).Success?
    ensures var s' := Transaction(s, a).value; var s'' := Next(s, a);
      && s'' == s'.(tasks := s''.tasks)
      && forall t :: !Steps(a, t) ==>
           (t in s''.tasks <==> t in s.tasks) && (t in s.tasks ==> s''.tasks[t] == s.tasks[t])
  {
    hide Transaction, RowOk, RowDelta, TokenFate, Inv;
    Effect(s, a);
  }

  lemma OtherTaskOk(s: Sys, s': Sys, a: Action, t: nat)
    requires Inv(s) && !a.Create? && Enabled(s, a)
    requires RowDelta(s, s', RowOf(s, a)) && TokenFate(s, s'.rows[RowOf(s, a)], a)
    requires t in s.tasks && !Steps(a, t)
    ensures TaskOk(s', s.tasks[t])
  {
    assert TaskOk(s, s.tasks[t]);
    if a.Proceed? {
      assert TaskOk(s, s.tasks[a.t]);
      assert Token(s.tasks[t]) != Token(s.tasks[a.t]);
    }
    DeltaKeepsTask(s, s', RowOf(s, a), s.tasks[t]);
  }

  lemma StepKeepsTokens(s: Sys, a: Action)
    requires Inv(s) && !a.Create? && Enabled(s, a) && Transaction(s, a).Success?
    ensures TokensApart(Next(s, a))
  {
    hide Next, Transaction, StateMetadata, Requestable, Verdict, RowOk;
    var s'' := Next(s, a);
    forall t1, t2 | t1 in s''.tasks && t2 in s''.tasks && t1 != t2
      ensures Token(s''.tasks[t1]) != Token(s''.tasks[t2])
    {
      forall t | t in s''.tasks
        ensures if Steps(a, t) then Token(s''.tasks[t]) == (if a.Claim? then a.token else Token(s.tasks[t]))
                else t in s.tasks && Token(s''.tasks[t]) == Token(s.tasks[t])
        ensures t in s.tasks ==> Token(s.tasks[t]) in s.usedTokens
      {
        assert t in s.tasks ==> TaskOk(s, s.tasks[t]);
        if Steps(a, t) {
          NewTaskOk(s, a);
        } else {
          OnlyOwnTask(s, a);
        }
      }
    }
  }

  lemma StepKeepsInv(s: Sys, a: Action)
    requires Inv(s) && !a.Create? && Enabled(s, a) && Transaction(s, a).Success?
    ensures Inv(Next(s, a))
  {
    hide Next, Transaction, Enabled, StateMetadata, Requestable, Verdict, AttemptBound, LeaseOutlivesBackOff;
    Effect(s, a);
    OnlyOwnTask(s, a);
    var s' := Transaction(s, a).value;
    var s'' := Next(s, a);
    DeltaKeepsRows(s, s', RowOf(s, a));
    forall k | k in s''.rows ensures RowOk(s'', k, s''.rows[k]) {
      assert RowOk(s', k, s'.rows[k]);
    }
    forall t | t in s''.tasks ensures TaskOk(s'', s''.tasks[t]) {
      if Steps(a, t) {
        NewTaskOk(s, a);
      } else {
        OnlyOwnTask(s, a);
        OtherTaskOk(s, s', a, t);
      }
    }
    StepKeepsTokens(s, a);
  }

  lemma KeepsInv(s: Sys, a: Action)
    requires Inv(s)
    ensures Inv(Next(s, a))
  {
    hide Enabled, Transaction, Inv;
    if Enabled(s, a) && Transaction(s, a).Success? {
      if a.Create? {
        CreateKeepsInv(s, a);
      } else {
        StepKeepsInv(s, a);
      }
    } else if Enabled(s, a) {
      AbortKeepsInv(s, a);
    }
  }

  lemma AbortKeepsInv(s: Sys, a: Action)
    requires Inv(s) && Enabled(s, a)
    ensures Inv(Aborted(s, a))
  {
    hide StateMetadata, Requestable, Verdict;
    var s' := Aborted(s, a);
    forall k | k in s'.rows ensures RowOk(s', k, s'.rows[k]) {
      assert RowOk(s, k, s.rows[k]);
    }
    forall t | t in s'.tasks ensures TaskOk(s', s'.tasks[t]) {
      assert TaskOk(s, s.tasks[t]);
    }
  }

  lemma CreateNext(s: Sys, a: Action)
    requires a.Create? && Enabled(s, a)
    ensures var s' := Next(s, a);
      && s' == s.(rows := s.rows[a.k := a.m], reminders := s'.reminders)
      && s'.reminders
         == if a.withReminder then s.reminders[SubjectKey(a.m) := FRESH_REMINDER] else s.reminders
  {
    hide Creatable;
  }

  lemma NewRowOk(s: Sys, a: Action)
    requires a.Create? && Enabled(s, a)
    ensures RowOk(Next(s, a), a.k, a.m)
  {
    hide Next, Requestable;
  }

  lemma CreateKeepsInv(s: Sys, a: Action)
    requires Inv(s) && a.Create? && Enabled(s, a)
    ensures Inv(Next(s, a))
  {
    CreateNext(s, a);
    NewRowOk(s, a);
    hide Next, Transaction, StateMetadata, Requestable, Verdict;
    var s' := Next(s, a);
    forall k | k in s'.rows ensures RowOk(s', k, s'.rows[k]) {
      assert k != a.k ==> RowOk(s, k, s.rows[k]);
    }
    forall k1, k2 | k1 in s'.rows && k2 in s'.rows && k1 != k2
      ensures SameTenantDistinctIds(s'.rows[k1], s'.rows[k2]) && SubjectsApart(s'.rows[k1], s'.rows[k2])
    {
      assert k1 != a.k && k2 != a.k ==>
        SameTenantDistinctIds(s.rows[k1], s.rows[k2]) && SubjectsApart(s.rows[k1], s.rows[k2]);
    }
    forall t | t in s'.tasks ensures TaskOk(s', s'.tasks[t]) {
      assert TaskOk(s, s.tasks[t]);
    }
  }

}
