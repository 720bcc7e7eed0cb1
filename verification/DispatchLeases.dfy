/** Claims and retries in time: a lease protects its worker until it is over, and a retry comes when its delay is. */
module DispatchLeases {
  import opened Wrappers
  import opened Delivery
  import opened DispatchProtocol
  import opened DispatchSafety
  import opened DispatchHistory
  import opened DispatchTheorems
  import opened RowLaws

  // ----- leases -----

  /** The reminder's row is still under this claim. */
  predicate UnderLease(s: Sys, k: RowKey, token: string, until: Instant) {
    && k in s.rows && s.rows[k].event.eventType == "notification.requested"
    && s.rows[k].claimToken == Some(token) && s.rows[k].claimedUntil == Some(until)
    && (s.rows[k].status == Claimed || s.rows[k].status == Sending)
  }

  /** The worker with this token ends its claim: it releases it, fails a malformed message, or records an answer. */
  predicate GivesUp(s: Sys, a: Action, token: string) {
    && (a.Record? || a.Proceed?) && a.t in s.tasks && s.tasks[a.t].m.claimToken == Some(token)
    && (a.Proceed? ==> !a.approved || !Sendable(s.tasks[a.t].m.event))
  }

  /** A sweep or another claim of the row, at or after this time. */
  predicate TakesOver(a: Action, k: RowKey, until: Instant) {
    (a.Sweep? || a.Claim?) && a.k == k && a.now >= until
  }

  /** Until now the claim's own worker has not given it up, and nobody has taken it over after its end. */
  predicate LeftAlone(s: Sys, later: seq<Action>, k: RowKey, token: string, until: Instant)
    decreases |later|
  {
    later == []
    || (!GivesUp(s, later[0], token) && !TakesOver(later[0], k, until)
        && LeftAlone(Next(s, later[0]), later[1..], k, token, until))
  }

  lemma StepKeepsLease(s: Sys, a: Action, k: RowKey, token: string, until: Instant)
    requires Inv(s) && UnderLease(s, k, token, until) && !GivesUp(s, a, token) && !TakesOver(a, k, until)
    ensures UnderLease(Next(s, a), k, token, until)
  {
    hide Next, Transaction, StateMetadata, RecordedChange, Verdict, MirroredAt;
    if !Commits(s, a) {
      NotCommitted(s, a);
    } else if a.Create? {
      CreateNext(s, a);
    } else {
      StepMoves(s, a);
      Effect(s, a);
      OnlyOwnTask(s, a);
      if a.Proceed? {
        ProceedEffect(s, a);
      } else if a.Record? {
        RecordEffect(s, a);
      }
    }
  }

  lemma {:induction false} LeaseHolds(s: Sys, later: seq<Action>, k: RowKey, token: string, until: Instant)
    requires Good(s) && UnderLease(s, k, token, until) && LeftAlone(s, later, k, token, until)
    ensures Good(Run(s, later)) && UnderLease(Run(s, later), k, token, until)
    decreases |later|
  {
    hide Next, LicencesOk, SendsLicensed, SendsOk, BackOffOk, MirrorOk, EndingsOk, UnderLease, GivesUp, TakesOver, Inv;
    if later != [] {
      StepKeepsLease(s, later[0], k, token, until);
      StepKeepsGood(s, later[0]);
      LeaseHolds(Next(s, later[0]), later[1..], k, token, until);
    }
  }

  /** When an expired send may be swept, and when an expired claim may be claimed again. */
  lemma TakenOverFrom(s: Sys, k: RowKey, token: string, until: Instant, now: Instant, c: Action)
    requires Good(s) && UnderLease(s, k, token, until)
    requires c.Claim? && c.k == k && c.now == now && c.t !in s.tasks && c.token != "" && c.token !in s.usedTokens
      && c.owner != "" && c.leaseSeconds >= 1
    ensures Enabled(s, Sweep(k, now)) <==> s.rows[k].status == Sending && until <= now
    ensures Enabled(s, c) <==> s.rows[k].status == Claimed && until <= now
  {
    assert RowOk(s, k, s.rows[k]);
  }

  /** A claim made at `c.now` for `c.leaseSeconds` seconds is its worker's until these are over. Whatever steps are made
      meanwhile, sweeps and claims of that row included, whatever clocks they carry before that end: unless the worker
      itself gives it up, the row stays under its token. A sweep or another claim can take it only when the lease is
      over, and then it can: a sweep if it was being sent, a claim if not. */
  lemma LeaseIsKept(actions: seq<Action>, c: Action, later: seq<Action>, now: Instant, next: Action)
    requires c.Claim? && Enabled(Run(EMPTY, actions), c)
    requires var s := Next(Run(EMPTY, actions), c);
      c.k in s.rows && s.rows[c.k].status == Claimed && s.rows[c.k].claimToken == Some(c.token)
    requires LeftAlone(Next(Run(EMPTY, actions), c), later, c.k, c.token, c.now + c.leaseSeconds * 1_000_000)
    requires var s := Run(Next(Run(EMPTY, actions), c), later);
      && next.Claim? && next.k == c.k && next.now == now && next.t !in s.tasks && next.token != ""
      && next.token !in s.usedTokens && next.owner != "" && next.leaseSeconds >= 1
    ensures var s := Run(Next(Run(EMPTY, actions), c), later); var until := c.now + c.leaseSeconds * 1_000_000;
      && c.k in s.rows && s.rows[c.k].claimToken == Some(c.token) && s.rows[c.k].claimedUntil == Some(until)
      && (s.rows[c.k].status == Claimed || s.rows[c.k].status == Sending)
      && (Enabled(s, Sweep(c.k, now)) <==> s.rows[c.k].status == Sending && until <= now)
      && (Enabled(s, next) <==> s.rows[c.k].status == Claimed && until <= now)
  {
    hide Next, Good, Enabled, LeftAlone;
    var s0, until := Run(EMPTY, actions), c.now + c.leaseSeconds * 1_000_000;
    ReachableIsGood(actions);
    ClaimStarts(s0, c);
    StepKeepsGood(s0, c);
    LeaseHolds(Next(s0, c), later, c.k, c.token, until);
    TakenOverFrom(Run(Next(s0, c), later), c.k, c.token, until, now, next);
  }

  lemma ClaimStarts(s: Sys, c: Action)
    requires Good(s) && c.Claim? && Enabled(s, c)
    requires var s' := Next(s, c);
      c.k in s'.rows && s'.rows[c.k].status == Claimed && s'.rows[c.k].claimToken == Some(c.token)
    ensures UnderLease(Next(s, c), c.k, c.token, c.now + c.leaseSeconds * 1_000_000)
  {
    hide LicencesOk, SendsLicensed, SendsOk, BackOffOk, MirrorOk, EndingsOk, Next, Transaction;
    assert RowOk(s, c.k, s.rows[c.k]);
    if Commits(s, c) {
      ClaimValue(s, c);
      OnlyOwnTask(s, c);
    } else {
      NotCommitted(s, c);
    }
  }

  // ----- retries -----

  /** A pending reminder can be claimed from its next attempt's time on, and not before. */
  lemma PendingIsDue(s: Sys, k: RowKey, now: Instant, c: Action)
    requires k in s.rows && s.rows[k].status == Pending && s.rows[k].event.eventType == "notification.requested"
    requires c.Claim? && c.k == k && c.now == now && c.t !in s.tasks && c.token != "" && c.token !in s.usedTokens
      && c.owner != "" && c.leaseSeconds >= 1
    ensures Enabled(s, c) <==> (s.rows[k].nextAttemptAt.Some? ==> s.rows[k].nextAttemptAt.value <= now)
  {}

  /** What a worker with a live token stores for an answer. */
  lemma AnswerIsRecorded(s: Sys, t: nat, clock: Instant)
    requires Good(s) && Enabled(s, Record(t, clock)) && TokenIsLive(s, s.tasks[t])
    ensures var task, s' := s.tasks[t], Next(s, Record(t, clock));
      && task.k in s'.rows && RecordedAs(task.m, task.answer, clock, s'.rows[task.k])
      && task.m.event.eventType == "notification.requested" && 1 <= task.m.attempts <= 4
  {
    hide LicencesOk, SendsLicensed, SendsOk, BackOffOk, MirrorOk, EndingsOk, Next, RecordedAs, RecordedChange, Changed;
    var task := s.tasks[t];
    assert TaskOk(s, task) && RowOk(s, task.k, s.rows[task.k]);
    NeverFailsClaim(task.m, task.answer, clock);
    TaskChangeOutcome(s, t, RecordedChange(task.m, task.answer, clock));
    RecordEffect(s, Record(t, clock));
    OnlyOwnTask(s, Record(t, clock));
    RecordedChangeShows(task.m, task.answer, clock);
  }

  lemma NeverFailsClaim(m: Message, a: DispatchProtocol.Answer, now: Instant)
    requires m.status == Sending
    ensures !RecordedChange(m, a, now).FailClaim? && ExpectedStatus(RecordedChange(m, a, now)) == m.status
  {}

  /** A transient failure of one of the first three attempts is retried, and in time: the stored next attempt is not
      before the delay of that attempt and the provider's own delay are over, and not after both are (or the last
      datetime); from then on, as long as the row stays as it is, every claim of it is enabled, and none before. */
  lemma TransientIsRetried(actions: seq<Action>, t: nat, clock: Instant, later: seq<Action>, now: Instant, next: Action)
    requires var s := Run(EMPTY, actions); Enabled(s, Record(t, clock)) && TokenIsLive(s, s.tasks[t])
    requires var task := Run(EMPTY, actions).tasks[t];
      Echoes(task.answer, task.m) && task.answer.result.outcome == KnownTransient && task.m.attempts <= 3
    requires var s, s' := Run(EMPTY, actions), Next(Run(EMPTY, actions), Record(t, clock));
      var k := s.tasks[t].k; k in s'.rows && k in Run(s', later).rows && Run(s', later).rows[k] == s'.rows[k]
    requires var s := Run(Next(Run(EMPTY, actions), Record(t, clock)), later);
      && next.Claim? && next.k == Run(EMPTY, actions).tasks[t].k && next.now == now && next.t !in s.tasks
      && next.token != "" && next.token !in s.usedTokens && next.owner != "" && next.leaseSeconds >= 1
    ensures var s := Run(EMPTY, actions); var task := s.tasks[t]; var s' := Next(s, Record(t, clock));
      var own := clock + (if task.m.attempts == 1 then 30 else if task.m.attempts == 2 then 120 else 300) * 1_000_000;
      var asked := if task.answer.result.retryAfter.Some? then clock + task.answer.result.retryAfter.value * 1_000_000
                   else own;
      && s'.rows[task.k].status == Pending && s'.rows[task.k].attempts == task.m.attempts
      && s'.rows[task.k].nextAttemptAt.Some?
      && s'.log == s.log + [BackedOff(task.k, task.m.attempts, clock, task.answer.result.retryAfter)]
      && var v := s'.rows[task.k].nextAttemptAt.value;
         && v <= LAST_DATETIME && (v <= own || v <= asked)
         && (v >= own || v == LAST_DATETIME) && (v >= asked || v == LAST_DATETIME)
         && (Enabled(Run(s', later), next) <==> v <= now)
  {
    hide Next, Good, RecordedAs;
    var s := Run(EMPTY, actions);
    ReachableIsGood(actions);
    var task, s' := s.tasks[t], Next(s, Record(t, clock));
    AnswerIsRecorded(s, t, clock);
    TransientShows(task.m, task.answer, clock, s'.rows[task.k]);
    TransientIsLogged(s, t, clock);
    PendingIsDue(Run(s', later), task.k, now, next);
  }

  lemma TransientIsLogged(s: Sys, t: nat, clock: Instant)
    requires Good(s) && Enabled(s, Record(t, clock)) && TokenIsLive(s, s.tasks[t])
    requires var task := s.tasks[t];
      Echoes(task.answer, task.m) && task.answer.result.outcome == KnownTransient && task.m.attempts <= 3
    ensures var task := s.tasks[t];
      Next(s, Record(t, clock)).log
      == s.log + [BackedOff(task.k, task.m.attempts, clock, task.answer.result.retryAfter)]
  {
    hide LicencesOk, SendsLicensed, SendsOk, BackOffOk, MirrorOk, EndingsOk, Next, Transaction;
    var task := s.tasks[t];
    assert TaskOk(s, task) && RowOk(s, task.k, s.rows[task.k]);
    NeverFailsClaim(task.m, task.answer, clock);
    TaskChangeOutcome(s, t, RecordedChange(task.m, task.answer, clock));
    LogGrows(s, Record(t, clock));
    assert RecordedChange(task.m, task.answer, clock).Reschedule?;
    RecordCommits(s, t, clock);
  }

  lemma RecordCommits(s: Sys, t: nat, clock: Instant)
    requires Enabled(s, Record(t, clock))
    requires var task := s.tasks[t];
      ChangeLenient(s, task.k, Token(task), RecordedChange(task.m, task.answer, clock)).Success?
    ensures Commits(s, Record(t, clock))
  {
    hide RecordedChange, ChangeLenient;
  }

  lemma TransientShows(sending: Message, a: DispatchProtocol.Answer, now: Instant, m': Message)
    requires RecordedAs(sending, a, now, m') && Echoes(a, sending) && a.result.outcome == KnownTransient
    requires 1 <= sending.attempts <= 3
    ensures m'.status == Pending && m'.attempts == sending.attempts && m'.event == sending.event
    ensures m'.nextAttemptAt.Some? && DueAgain(m'.nextAttemptAt.value, sending.attempts, now, a.result.retryAfter)
  {}
}
