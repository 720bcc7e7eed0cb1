/** `DispatchDueReminders` over the in-memory outbox and scheduler: every transaction is a step of the protocol. */
module Dispatcher {
  import opened Wrappers
  import opened Delivery
  import opened OutboxSpec
  import opened Outbox
  import OutboxRuns
  import opened DispatchProtocol
  import opened DispatchSafety
  import opened DispatcherSteps
  import opened RowLaws

  class ReminderScheduler {
    var jobs: map<ReminderKey, Reminder>

    constructor ()
      ensures jobs == map[]
    {
      jobs := map[];
    }

    /** `mirror_delivery`; false where it raises NOT_FOUND. */
    method MirrorDelivery(tenant: string, reminderId: string, m: Message) returns (ok: bool)
      modifies this
      ensures ok == (ReminderKey(tenant, reminderId) in old(jobs))
      ensures jobs == if ok then old(jobs)[ReminderKey(tenant, reminderId) := MirrorOf(m)] else old(jobs)
    {
      var k := ReminderKey(tenant, reminderId);
      ok := k in jobs;
      if ok {
        jobs := jobs[k := MirrorOf(m)];
      }
    }
  }

  /** The notification provider: it keeps every request it gets, and answers the n-th one as it will. */
  class NotificationProvider {
    const replies: nat -> DispatchProtocol.Answer
    var requests: seq<Request>

    constructor (replies: nat -> DispatchProtocol.Answer)
      ensures this.replies == replies && requests == []
    {
      this.replies, requests := replies, [];
    }

    ghost predicate Legal() {
      forall n :: replies(n).Answered? ==> LegalResult(replies(n).result)
    }

    method Send(request: Request) returns (answer: DispatchProtocol.Answer)
      modifies this
      ensures requests == old(requests) + [request] && answer == replies(|old(requests)|)
    {
      answer := replies(|requests|);
      requests := requests + [request];
    }
  }

  /** The request a claimed message is sent with: its next attempt's dispatch key. */
  function RequestOf(message: Message): Option<Request> {
    NotificationRequest(message, AttemptKey(message.id, message.attempts + 1))
  }

  /** What became of one claimed message. */
  datatype Fate = PublishedAs(notificationId: string) | Skipped | LeftUncertain

  datatype DispatchOutcome = DispatchOutcome(
    claimed: seq<string>, published: seq<string>, skipped: seq<string>, uncertain: seq<string>, swept: seq<string>)

  class DispatchDueReminders {
    const outbox: InMemoryOutbox
    const scheduler: ReminderScheduler
    const provider: NotificationProvider
    const owner: string
    const claimLimit: nat
    const leaseSeconds: nat

    constructor (outbox: InMemoryOutbox, scheduler: ReminderScheduler, provider: NotificationProvider, owner: string,
                 claimLimit: nat, leaseSeconds: nat)
      ensures this.outbox == outbox && this.scheduler == scheduler && this.provider == provider
      ensures this.owner == owner && this.claimLimit == claimLimit && this.leaseSeconds == leaseSeconds
    {
      this.outbox, this.scheduler, this.provider := outbox, scheduler, provider;
      this.owner, this.claimLimit, this.leaseSeconds := owner, claimLimit, leaseSeconds;
    }

    /** The stores hold what the protocol state says. */
    ghost predicate Represents(s: Sys)
      reads outbox, scheduler
    {
      outbox.Valid() && outbox.messages == s.rows && scheduler.jobs == s.reminders
    }

    /** The provider has got exactly the sends that the protocol's log records, in order. */
    ghost predicate Told(s: Sys)
      reads provider
    {
      Requests(s.log) == provider.requests
    }

    /** `_mirror`; false where it raises, for want of a subject or of the reminder. */
    method Mirror(m: Message) returns (ok: bool)
      modifies scheduler
      ensures ok == HasReminder(old(scheduler.jobs), m)
      ensures scheduler.jobs == if ok then old(scheduler.jobs)[SubjectKey(m) := MirrorOf(m)] else old(scheduler.jobs)
    {
      if m.event.subject.None? || m.event.subject.value == "" {
        return false;
      }
      ok := scheduler.MirrorDelivery(m.tenant, m.event.subject.value, m);
    }

    /** One transaction: a token-guarded change, its mirror, commit. A strict mirror raises when there is no reminder,
        and whatever raises rolls both stores back. */
    method ChangeAndMirror(message: Message, c: Change, strict: bool, ghost s: Sys, ghost k: RowKey)
      returns (r: Result<Message, StoreError>)
      requires Represents(s) && Names(s.rows, k, message.tenant, message.id)
      modifies outbox`messages, scheduler
      ensures var token := message.claimToken.GetOr("");
        match (if strict then ChangeStrict(s, k, token, c) else ChangeLenient(s, k, token, c))
        case Failure(e) => r == Failure(e) && Represents(s)
        case Success(s') =>
          r == Success(Changed(s.rows[k], c)) && s'.rows == s.rows[k := Changed(s.rows[k], c)] && Represents(s')
    {
      hide TransitionOutcome, Changed, MirrorOf, StateMetadata;
      var messages, jobs := outbox.messages, scheduler.jobs;
      r := outbox.Transition(message.tenant, message.id, message.claimToken.GetOr(""), c);
      TransitionOnRow(s, k, message.id, message.claimToken.GetOr(""), c, r, outbox.messages);
      if r.Success? {
        var mirrored := Mirror(r.value);
        if strict && !mirrored {
          outbox.messages, scheduler.jobs := messages, jobs;
          r := Failure(NotFound);
        }
      }
    }

    /** `_confirm_sending`: the worker may reach the provider exactly when the protocol confirms its task. */
    method ConfirmSending(message: Message, now: Instant, ghost s: Sys, ghost t: nat) returns (r: Result<Message,
                          StoreError>)
      requires Represents(s) && HoldsMessage(s, t, message) && Requestable(message.event)
      modifies outbox`messages, scheduler
      ensures var s' := Next(s, Proceed(t, true, now));
        Represents(s')
        && (if r.Success? then t in s'.tasks && s'.tasks[t] == Confirmed(s.tasks[t].k, r.value) else t !in s'.tasks)
      ensures r.Success? ==> Transaction(s, Proceed(t, true, now)).Success?
                             && r.value == Changed(s.rows[s.tasks[t].k], StartSending(now))
                             && ChangedTo(s.rows[s.tasks[t].k], StartSending(now), r.value)
    {
      r := ChangeAndMirror(message, StartSending(now), true, s, s.tasks[t].k);
    }

    /** `_release_before_io` */
    method ReleaseBeforeIo(message: Message, now: Instant, clock: Instant, ghost s: Sys, ghost t: nat)
      returns (r: Result<Message, StoreError>)
      requires Represents(s) && HoldsMessage(s, t, message) && s.tasks[t].now == now
      modifies outbox`messages, scheduler
      ensures var s' := Next(s, Proceed(t, false, clock)); Represents(s') && t !in s'.tasks
      ensures r.Failure? ==> Represents(s)
      ensures r.Success? ==>
        && Transaction(s, Proceed(t, false, clock)).Success?
        && Next(s, Proceed(t, false, clock)).rows == s.rows[s.tasks[t].k := r.value]
        && ChangedTo(s.rows[s.tasks[t].k], Release(Some(now + 30_000_000)), r.value)
    {
      hide StateMetadata, MirrorOf;
      var until := now + RELEASE_DELAY * SECOND;
      if until > DATETIME_MAX {
        return Failure(Overflow);
      }
      r := ChangeAndMirror(message, Release(Some(until)), true, s, s.tasks[t].k);
    }

    /** `_record_malformed` */
    method RecordMalformed(message: Message, now: Instant, ghost s: Sys, ghost t: nat) returns (r: Result<Message,
                           StoreError>)
      requires Represents(s) && HoldsMessage(s, t, message) && !Requestable(message.event)
      modifies outbox`messages, scheduler
      ensures var s' := Next(s, Proceed(t, true, now)); Represents(s') && t !in s'.tasks
      ensures r.Success? ==>
        && Transaction(s, Proceed(t, true, now)).Success?
        && Next(s, Proceed(t, true, now)).rows == s.rows[s.tasks[t].k := r.value]
        && ChangedTo(s.rows[s.tasks[t].k], FailClaim(DeliveryError(Internal, InternalError, None, now)), r.value)
    {
      r := ChangeAndMirror(message, FailClaim(InvalidPayloadError(now)), false, s, s.tasks[t].k);
    }

    /** `_record_unknown` and `_record_result`: what the worker does with an answer, or with none. */
    method RecordAnswer(sending: Message, answer: DispatchProtocol.Answer, now: Instant, ghost s: Sys, ghost t: nat)
      returns (r: Result<Message, StoreError>)
      requires Represents(s) && Inv(s) && t in s.tasks && s.tasks[t] == Replied(s.tasks[t].k, sending, answer)
      requires Names(s.rows, s.tasks[t].k, sending.tenant, sending.id)
      modifies outbox`messages, scheduler
      ensures var s' := Next(s, Record(t, now));
        && Represents(s') && t !in s'.tasks && (r.Failure? ==> Represents(s))
        && (r.Success? ==>
              && s'.rows == s.rows[s.tasks[t].k := r.value]
              && r.value == Changed(s.rows[s.tasks[t].k], RecordedChange(sending, answer, now))
              && RecordedAs(sending, answer, now, r.value))
    {
      hide Changed, StateMetadata, RecordEntries, LegalResult, RecordedAs, Inv;
      ChangesTheSending(s, t, now);
      RecordedChangeShows(sending, answer, now);
      var c: Change;
      if answer.Raised? {
        c := LoseTrack(UnknownError(now, None));
      } else if answer.result.idempotencyKey != AttemptKey(sending.id, sending.attempts)
                || Some(answer.result.channel) != sending.event.channel {
        c := LoseTrack(UnknownError(now, None));
      } else {
        c := ResultChange(sending, answer.result, now);
      }
      assert c == RecordedChange(sending, answer, now);
      r := ChangeAndMirror(sending, c, false, s, s.tasks[t].k);
    }

    /** The branches of `_record_result`. */
    method ResultChange(sending: Message, result: NotificationResult, now: Instant) returns (c: Change)
      requires result.idempotencyKey == AttemptKey(sending.id, sending.attempts)
      requires Some(result.channel) == sending.event.channel
      ensures c == RecordedChange(sending, Answered(result), now)
    {
      match result.outcome
      case Delivered => c := Publish(now);
      case KnownTransient =>
        var error := KnownError(true, result.providerCode, now);
        if sending.attempts >= MAX_DELIVERY_ATTEMPTS {
          c := Fail(error);
        } else {
          c := Reschedule(RetryAt(now, RetryDelay(sending.attempts), result.retryAfter), error);
        }
      case Permanent => c := Fail(KnownError(false, result.providerCode, now));
      case OutcomeUnknown => c := LoseTrack(UnknownError(now, result.providerCode));
    }

    /** The stores after the protocol's `Resolve`, which is all that the `Reconcile` step does. */
    ghost predicate ResolvedAs(s: Sys, k: RowKey, retry: bool, now: Instant, r: Result<Message, StoreError>)
      reads outbox, scheduler
    {
      match Resolve(s, k, retry, now)
      case Failure(e) => r == Failure(e) && Represents(s)
      case Success(s') => r.Success? && k in s'.rows && r.value == s'.rows[k] && Represents(s')
    }

    /** `resolve_uncertain` by message id. */
    method ResolveUncertain(tenant: string, id: string, retry: bool, now: Instant, ghost s: Sys)
      returns (r: Result<Message, StoreError>, ghost k: RowKey)
      requires Represents(s)
      modifies outbox`messages, scheduler
      ensures if exists k' :: Names(s.rows, k', tenant, id) then Names(s.rows, k, tenant, id)
              else r == Failure(NotFound)
      ensures Names(s.rows, k, tenant, id) ==> ResolvedAs(s, k, retry, now, r)
      ensures Names(s.rows, k, tenant, id) ==>
        && (r.Success? <==> Decidable(s.rows[k], retry))
        && (r.Success? ==> DecidedAs(s.rows[k], retry, now, r.value) && outbox.messages == s.rows[k := r.value])
      ensures r.Failure? ==> Represents(s)
    {
      k := RowKey("", "");
      var current := outbox.FindById(tenant, id);
      if current.None? {
        return Failure(NotFound), k;
      }
      k := current.value;
      r := ResolveFound(current.value, id, retry, now, s);
    }

    method ResolveFound(k: RowKey, id: string, retry: bool, now: Instant, ghost s: Sys) returns (r: Result<Message,
                        StoreError>)
      requires Represents(s) && Names(s.rows, k, k.tenant, id)
      modifies outbox`messages, scheduler
      ensures ResolvedAs(s, k, retry, now, r)
      ensures r.Success? <==> Decidable(s.rows[k], retry)
      ensures r.Success? ==> DecidedAs(s.rows[k], retry, now, r.value) && outbox.messages == s.rows[k := r.value]
    {
      DecisionShows(outbox.View(), k, retry, now);
      var message := outbox.messages[k];
      if message.event.eventType != REMINDER_NOTIFICATION {
        return Failure(Refused);
      }
      if retry && message.attempts >= MAX_DELIVERY_ATTEMPTS {
        return Failure(Refused);
      }
      var c := if retry then ResolveRetry(now) else ResolveDelivered(now);
      r := outbox.OperatorTransition(k.tenant, id, c);
      DecisionOnRow(s, k, id, c, r, outbox.messages);
      if r.Success? {
        var mirrored := Mirror(r.value);
      }
    }

    /** `_sweep_expired_sending`: the first `claimLimit` expired rows, oldest first. */
    method SweepExpired(tenant: string, now: Instant, ghost s: Sys)
      returns (swept: seq<string>, ghost chosen: seq<RowKey>, ghost steps: seq<Action>)
      requires Represents(s) && claimLimit >= 1
      modifies outbox`messages, scheduler
      ensures FirstOf(s.rows, ExpiredKeys(s.rows, tenant, Some(REMINDER_NOTIFICATION), now), claimLimit, chosen)
      ensures SweepsOf(steps, chosen, now) && Represents(Run(s, steps)) && |swept| == |chosen|
      ensures forall i :: 0 <= i < |chosen| ==> chosen[i] in s.rows && swept[i] == s.rows[chosen[i]].id
      ensures Run(s, steps).tasks == s.tasks && Run(s, steps).usedTokens == s.usedTokens
      ensures exists messages ::
        && SweptRightly(s.rows, tenant, Some("notification.requested"), now, claimLimit,
                        DeliveryError(UnknownCategory, UnknownCode, None, now), messages, Run(s, steps).rows)
        && swept == Ids(messages)
      ensures forall k :: k in s.rows ==> SendKeptOrLapsed(s.rows, Run(s, steps).rows, k, now)
    {
      hide Run, FirstOf, SweptUpTo, SweepsSoFar, ExpiredKeys, SweptRightly, SendKeptOrLapsed;
      var error := UnknownError(now, None);
      var messages := outbox.SweepExpiredSending(tenant, now, error, claimLimit, Some(REMINDER_NOTIFICATION));
      ghost var eligible := ExpiredKeys(s.rows, tenant, Some(REMINDER_NOTIFICATION), now);
      chosen :| FirstOf(s.rows, eligible, claimLimit, chosen)
                && SweepsSoFar(s.rows, chosen, error, outbox.messages, messages);
      SweepSetup(s, tenant, claimLimit, now, chosen, outbox.messages, messages);
      swept, steps := MirrorSwept(messages, chosen, now, s);
      AllSwept(s, Run(s, steps), chosen, error, outbox.messages, messages);
    }

    /** `_mirror_terminal` on each swept message. */
    method MirrorSwept(messages: seq<Message>, ghost chosen: seq<RowKey>, now: Instant, ghost s: Sys)
      returns (swept: seq<string>, ghost steps: seq<Action>)
      requires scheduler.jobs == s.reminders && |messages| == |chosen|
      requires AllDifferent(chosen) && SweptUpTo(s, s, chosen, 0, UnknownError(now, None))
      requires forall i {:trigger Sweepable(s, chosen, messages, now, i)} :: 0 <= i < |chosen| ==>
        Sweepable(s, chosen, messages, now, i)
      modifies scheduler
      ensures scheduler.jobs == Run(s, steps).reminders && SweepsOf(steps, chosen, now) && swept == Ids(messages)
      ensures SweptUpTo(s, Run(s, steps), chosen, |chosen|, UnknownError(now, None))
      ensures Run(s, steps).tasks == s.tasks && Run(s, steps).usedTokens == s.usedTokens
    {
      hide Next, SweptUpTo, ExpiredSending, StoreAndMirror;
      swept, steps := [], [];
      ghost var si := s;
      while |swept| < |messages|
        invariant |swept| <= |messages| && swept == Ids(messages)[..|swept|] && si == Run(s, steps)
        invariant SweepsOf(steps, chosen[..|swept|], now)
        invariant SweptUpTo(s, si, chosen, |swept|, UnknownError(now, None)) && scheduler.jobs == si.reminders
        invariant si.tasks == s.tasks && si.usedTokens == s.usedTokens
      {
        ghost var a := Sweep(chosen[|swept|], now);
        assert Sweepable(s, chosen, messages, now, |swept|);
        SweepStep(s, si, chosen, messages, |swept|, now);
        MirroredStores(si, chosen[|swept|], messages[|swept|]);
        RunAppend(s, steps, a);
        var mirrored := Mirror(messages[|swept|]);
        si, steps := Next(si, a), steps + [a];
        swept := swept + [messages[|swept|].id];
      }
    }

    /** One claimed message in the loop of `_claim`: mirrored, or failed for want of a reminder to mirror to. */
    method ClaimOne(message: Message, now: Instant, ghost s: Sys, ghost a: Action)
      returns (dispatchable: bool, final: Message)
      requires outbox.Valid() && scheduler.jobs == s.reminders && Inv(s) && a.Claim? && Enabled(s, a) && a.now == now
      requires LeaseEnd(now, a.leaseSeconds) <= DATETIME_MAX
      requires Names(outbox.messages, a.k, message.tenant, message.id) && outbox.messages[a.k] == message
      requires message == ClaimedCopy(s.rows[a.k], a.token, a.owner, LeaseEnd(now, a.leaseSeconds))
      modifies outbox`messages, scheduler
      ensures outbox.Valid() && scheduler.jobs == Next(s, a).reminders
      ensures outbox.messages == old(outbox.messages)[a.k := final]
      ensures ClaimedAs(s, a, message, dispatchable, final)
    {
      hide Next, Transaction, Inv, StateMetadata, Claimable;
      ClaimStep(s, a);
      dispatchable := Mirror(message);
      if dispatchable {
        final := message;
        assert outbox.messages == outbox.messages[a.k := message];
      } else {
        var c := FailClaim(InvalidPayloadError(now));
        var r := outbox.Transition(message.tenant, message.id, message.claimToken.GetOr(""), c);
        assert r == GuardedChange(message, a.token, c);
        final := r.value;
        var mirrored := Mirror(final);
      }
    }

    /** The loop of `_claim`: after it the store holds what claiming the rows one by one leaves. */
    method ClaimEach(messages: seq<Message>, now: Instant, ghost s: Sys, ghost c: Claims)
      returns (dispatchable: seq<Message>, prefailed: seq<Message>, ghost l: Loop)
      requires outbox.Valid() && scheduler.jobs == s.reminders && c.now == now && |messages| == |c.chosen|
      requires Claiming(s, c, messages, Loop(0, s, outbox.messages, [], []))
      requires forall i :: 0 <= i < |messages| ==>
        c.chosen[i] in s.rows
        && messages[i] == ClaimedCopy(s.rows[c.chosen[i]], c.token(i), c.owner, LeaseEnd(now, c.leaseSeconds))
      modifies outbox`messages, scheduler
      ensures outbox.Valid() && |messages| == l.i && l.dispatchable == dispatchable
      ensures DealtOut(messages, |messages|, dispatchable, prefailed)
      ensures scheduler.jobs == l.si.reminders && outbox.messages == l.rows && Claiming(s, c, messages, l)
    {
      hide Next, Transaction, Inv, Claiming, DealtOut;
      DealNone(messages);
      dispatchable, prefailed := [], [];
      l := Loop(0, s, outbox.messages, [], []);
      var i := 0;
      while i < |messages|
        invariant 0 <= i == l.i <= |messages| && outbox.Valid() && scheduler.jobs == l.si.reminders
        invariant outbox.messages == l.rows
        invariant Claiming(s, c, messages, l)
        invariant DealtOut(messages, i, dispatchable, prefailed) && l.dispatchable == dispatchable
      {
        var ok, final;
        ok, final, l := ClaimNext(messages, i, now, s, c, l);
        DealNext(messages, i, dispatchable, prefailed, if ok then messages[i] else final);
        if ok {
          dispatchable := dispatchable + [messages[i]];
        } else {
          prefailed := prefailed + [final];
        }
        i := i + 1;
      }
    }

    method ClaimNext(messages: seq<Message>, i: nat, now: Instant, ghost s: Sys, ghost c: Claims, ghost l: Loop)
      returns (ok: bool, final: Message, ghost l': Loop)
      requires outbox.Valid() && scheduler.jobs == l.si.reminders && outbox.messages == l.rows
      requires Claiming(s, c, messages, l) && i == l.i < |messages| == |c.chosen| && c.now == now
      requires forall j :: 0 <= j < |messages| ==>
        c.chosen[j] in s.rows
        && messages[j] == ClaimedCopy(s.rows[c.chosen[j]], c.token(j), c.owner, LeaseEnd(now, c.leaseSeconds))
      modifies outbox`messages, scheduler
      ensures l' == Advanced(c, l, messages[i], ok, final) && Claiming(s, c, messages, l')
      ensures outbox.Valid() && scheduler.jobs == l'.si.reminders && outbox.messages == l'.rows
      ensures final.id == messages[i].id
    {
      hide Next, Transaction, Inv, Enabled, Claiming, StateMetadata;
      NextClaim(s, c, messages, l);
      ok, final := ClaimOne(messages[i], now, l.si, c.Step(i));
      ClaimingNext(s, c, messages, l, ok, final);
      l' := Advanced(c, l, messages[i], ok, final);
    }

    method LeaseDue(tenant: string, now: Instant, newToken: nat -> string, ghost s: Sys, ghost none: Claims)
      returns (claimed: Result<seq<Message>, StoreError>)
      requires Represents(s) && claimLimit >= 1 && leaseSeconds >= 1 && owner != "" && none.Ready(s)
      requires none == Claims([], now, newToken, owner, leaseSeconds, none.firstTask)
      modifies outbox`messages
      ensures outbox.Valid()
      ensures OutboxRuns.ClaimDone(s.rows, ClaimOp(tenant, none, claimLimit), claimed, outbox.messages)
      ensures claimed.Failure? ==> claimed == Failure(Overflow) && Represents(s)
    {
      TokensAreUsable(none, s);
      claimed := outbox.ClaimDue(tenant, now, claimLimit, owner, leaseSeconds, Some(REMINDER_NOTIFICATION), newToken);
      if claimed.Failure? {
        FailedClaim(s, tenant, none, claimLimit, claimed, outbox.messages);
      }
    }

    /** `_claim`: leases the first `claimLimit` due rows, oldest first, under this owner; it raises only when the lease
        would end past the last datetime. */
    method ClaimMessages(tenant: string, now: Instant, newToken: nat -> string, ghost s: Sys, ghost firstTask: nat)
      returns (r: Result<(seq<Message>, seq<Message>), StoreError>, ghost h: Handover)
      requires Represents(s) && Inv(s) && owner != "" && claimLimit >= 1 && leaseSeconds >= 1
      requires Claims([], now, newToken, owner, leaseSeconds, firstTask).Ready(s)
      modifies outbox`messages, scheduler
      ensures h.claims == Claims(h.claims.chosen, now, newToken, owner, leaseSeconds, firstTask)
      ensures r.Failure? ==> r == Failure(Overflow) && Represents(s) && h.claims.chosen == []
      ensures r.Success? ==>
        && FirstOf(s.rows, ClaimableKeys(s.rows, tenant, Some(REMINDER_NOTIFICATION), now), claimLimit, h.claims.chosen)
        && Represents(h.si) && Inv(h.si) && Handed(s, h, now) && r.value.0 == h.messages
        && ClaimedFrom(s, h.claims.chosen, r.value.0, r.value.1)
    {
      ghost var none := Claims([], now, newToken, owner, leaseSeconds, firstTask);
      h := Handover(s, none, [], []);
      var claimed := LeaseDue(tenant, now, newToken, s, none);
      if claimed.Failure? {
        return Failure(claimed.error), h;
      }
      ghost var c := ClaimSetup(s, tenant, none, claimLimit, claimed.value, outbox.messages);
      var dispatchable, prefailed;
      dispatchable, prefailed, h := ClaimAll(claimed.value, now, s, c);
      r := Success((dispatchable, prefailed));
    }

    method ClaimAll(messages: seq<Message>, now: Instant, ghost s: Sys, ghost c: Claims)
      returns (dispatchable: seq<Message>, prefailed: seq<Message>, ghost h: Handover)
      requires outbox.Valid() && scheduler.jobs == s.reminders && c.now == now && |messages| == |c.chosen|
      requires Claiming(s, c, messages, Loop(0, s, outbox.messages, [], []))
      requires forall i :: 0 <= i < |messages| ==>
        c.chosen[i] in s.rows
        && messages[i] == ClaimedCopy(s.rows[c.chosen[i]], c.token(i), c.owner, LeaseEnd(now, c.leaseSeconds))
      modifies outbox`messages, scheduler
      ensures Represents(h.si) && Inv(h.si) && Handed(s, h, now) && dispatchable == h.messages && h.claims == c
      ensures ClaimedFrom(s, c.chosen, dispatchable, prefailed)
    {
      hide Next, Transaction, Inv, Claiming, Handed, DealtOut, ClaimedFrom;
      ghost var l;
      dispatchable, prefailed, l := ClaimEach(messages, now, s, c);
      h := ClaimFinish(s, c, messages, l);
      AllDealt(s, c, messages, dispatchable, prefailed);
    }

    /** The loop body of `dispatch` for one claimed message: release, fail, or confirm, send and record. The provider
        gets at most one request for it, its next attempt's, and none unless it is approved and well formed. */
    method DispatchOne(message: Message, now: Instant, approved: bool, confirmedAt: Instant, recordedAt: Instant,
                       ghost s: Sys, ghost t: nat)
      returns (r: Result<Fate, StoreError>, ghost p: Part)
      requires Represents(s) && Inv(s) && HoldsMessage(s, t, message) && s.tasks[t].now == now && provider.Legal()
      modifies outbox`messages, scheduler, provider
      ensures Represents(p.after) && Inv(p.after) && TaskPart(s, p, t)
      ensures provider.requests == old(provider.requests) + p.sent
      ensures |p.sent| <= 1 && forall request :: request in p.sent ==>
        approved && Sendable(message.event) && Carries(request, message)
      ensures r.Success? ==>
        && (p.sent != [] <==> approved && Sendable(message.event)) && (p.sent == [] ==> r.value == Skipped)
        && FateShows(r.value, p.after.rows[s.tasks[t].k].status)
      ensures r.Success? ==>
        DealtWith(message, approved, now, confirmedAt, recordedAt, provider.replies(|old(provider.requests)|),
                  p.after.rows[s.tasks[t].k])
      ensures r.Success? && r.value.PublishedAs? ==>
        PublishedUnder(provider.replies(|old(provider.requests)|), r.value.notificationId)
      ensures p.steps == StepsFor(t, approved, confirmedAt, p.sent == [], provider.replies(|old(provider.requests)|),
                                  recordedAt)
    {
      hide Next, Transaction, Inv, TaskPart, FateShows, LegalResult, RequestOf, Carries;
      hide ChangedTo, RecordedAs, Sendable, PublishedUnder;
      RequestCarries(message);
      var request := RequestOf(message);
      p := FirstPart(s, Proceed(t, approved, confirmedAt), t);
      SkippedShows(s, Proceed(t, approved, confirmedAt), message);
      if !approved {
        var released := ReleaseBeforeIo(message, now, confirmedAt, s, t);
        if released.Success? {
          SendingCounts(s, t, message, Proceed(t, false, confirmedAt));
        }
        r := if released.Success? then Success(Skipped) else Failure(released.error);
      } else if request.None? {
        var failed := RecordMalformed(message, confirmedAt, s, t);
        if failed.Success? {
          SendingCounts(s, t, message, Proceed(t, true, confirmedAt));
        }
        r := if failed.Success? then Success(Skipped) else Failure(failed.error);
      } else {
        r, p := ConfirmAndSend(message, request.value, confirmedAt, recordedAt, s, t);
      }
    }

    method ConfirmAndSend(message: Message, request: Request, confirmedAt: Instant, recordedAt: Instant,
                          ghost s: Sys, ghost t: nat)
      returns (r: Result<Fate, StoreError>, ghost p: Part)
      requires Represents(s) && Inv(s) && HoldsMessage(s, t, message) && provider.Legal()
      requires RequestOf(message) == Some(request)
      modifies outbox`messages, scheduler, provider
      ensures Represents(p.after) && Inv(p.after) && TaskPart(s, p, t)
      ensures provider.requests == old(provider.requests) + p.sent && (p.sent == [] || p.sent == [request])
      ensures r.Success? ==> FateShows(r.value, p.after.rows[s.tasks[t].k].status) && p.sent == [request]
      ensures r.Success? ==>
        RecordedAs(message.(status := Sending, sendingAt := Some(confirmedAt), attempts := message.attempts + 1),
                   provider.replies(|old(provider.requests)|), recordedAt, p.after.rows[s.tasks[t].k])
      ensures r.Success? && r.value.PublishedAs? ==>
        PublishedUnder(provider.replies(|old(provider.requests)|), r.value.notificationId)
      ensures p.steps == StepsFor(t, true, confirmedAt, p.sent == [], provider.replies(|old(provider.requests)|),
                                  recordedAt)
    {
      hide Next, Transaction, Inv, TaskPart, FateShows, LegalResult, RequestOf, RequestFor, Changed;
      hide ChangedTo, RecordedAs, PublishedUnder;
      RequestCarries(message);
      p := FirstPart(s, Proceed(t, true, confirmedAt), t);
      var sending := ConfirmSending(message, confirmedAt, s, t);
      if sending.Failure? {
        return Failure(sending.error), p;
      }
      SendingCounts(s, t, message, Proceed(t, true, confirmedAt));
      RequestIsNextAttempt(message, request, sending.value, confirmedAt);
      ghost var confirmed, q := p, p;
      r, q := SendAndRecord(sending.value, request, recordedAt, confirmed.after, t);
      TaskPartsJoined(s, confirmed, q, t);
      p := Joined(confirmed, q);
    }

    method SendAndRecord(sending: Message, request: Request, recordedAt: Instant, ghost s: Sys, ghost t: nat)
      returns (r: Result<Fate, StoreError>, ghost p: Part)
      requires Represents(s) && Inv(s) && t in s.tasks && s.tasks[t].Confirmed? && s.tasks[t].m == sending
      requires request == RequestFor(sending) && Some(request.channel) == sending.event.channel && provider.Legal()
      modifies outbox`messages, scheduler, provider
      ensures Represents(p.after) && Inv(p.after) && TaskPart(s, p, t)
      ensures p.sent == [request] && provider.requests == old(provider.requests) + [request]
      ensures r.Success? ==> FateShows(r.value, p.after.rows[s.tasks[t].k].status)
      ensures r.Success? ==>
        RecordedAs(sending, provider.replies(|old(provider.requests)|), recordedAt, p.after.rows[s.tasks[t].k])
      ensures r.Success? && r.value.PublishedAs? ==>
        PublishedUnder(provider.replies(|old(provider.requests)|), r.value.notificationId)
      ensures p.steps == [Send(t), Receive(t, provider.replies(|old(provider.requests)|)), Record(t, recordedAt)]
    {
      hide Next, Transaction, Inv, TaskPart, FateShows, Report, RecordedChange, Changed, RecordedAs, PublishedUnder;
      var answer := provider.Send(request);
      ghost var sent := SentPart(s, t, request, answer);
      var final := RecordAnswer(sending, answer, recordedAt, sent.after, t);
      ghost var recorded := FirstPart(sent.after, Record(t, recordedAt), t);
      TaskPartsJoined(s, sent, recorded, t);
      p := Joined(sent, recorded);
      if final.Failure? {
        return Failure(final.error), p;
      }
      ReportShows(request, sending, answer, recordedAt, sent.after.rows[s.tasks[t].k], final.value);
      r := Success(Report(request, answer, final.value.status));
    }

    /** `dispatch`: sweep, claim, then each claimed message in turn; an exception ends it where it is. By itself it is a
        run of the protocol that sweeps, claims under this owner, and steps the tasks it has claimed; the provider gets
        requests of claimed messages only; and each message's fate is the status it is stored with. */
    method Dispatch(tenant: string, now: Instant, approve: Message -> bool, clock: nat -> Instant,
                    newToken: nat -> string, ghost s: Sys, ghost firstTask: nat)
      returns (r: Result<DispatchOutcome, StoreError>, ghost d: Dispatched)
      requires Represents(s) && Inv(s) && owner != "" && claimLimit >= 1 && leaseSeconds >= 1 && provider.Legal()
      requires Claims([], now, newToken, owner, leaseSeconds, firstTask).Ready(s)
      modifies outbox`messages, scheduler, provider
      ensures Represents(d.work.part.after) && Inv(d.work.part.after)
      ensures Run(s, d.sweeps + d.work.Steps()) == d.work.part.after
      ensures SweptFirst(s, d, tenant, now, claimLimit)
      ensures d.work.claims == Claims(d.work.claims.chosen, now, newToken, owner, leaseSeconds, firstTask)
      ensures WorkOk(Run(s, d.sweeps), d.work, approve)
      ensures provider.requests == old(provider.requests) + d.work.part.sent
      ensures (old(Told(s)) ==> Told(d.work.part.after))
      ensures r.Success? ==>
        && WorkDone(Run(s, d.sweeps), d.work, tenant, now, claimLimit)
        && r.value == Collect(Ids(d.work.dispatchable), Ids(d.work.prefailed), d.work.fates, d.swept)
    {
      var swept, chosen, sweeps := SweepExpired(tenant, now, s);
      ghost var s1 := Run(s, sweeps);
      SweepsAreQuiet(s, s1, chosen, sweeps, Claims([], now, newToken, owner, leaseSeconds, firstTask));
      var dispatchable, prefailed, fates;
      ghost var w;
      fates, dispatchable, prefailed, w := DispatchDue(tenant, now, approve, clock, newToken, s1, firstTask);
      d := Dispatched(swept, chosen, sweeps, w);
      RunConcat(s, sweeps, w.Steps());
      if fates.Failure? {
        return Failure(fates.error), d;
      }
      r := Success(Collect(Ids(dispatchable), Ids(prefailed), fates.value, swept));
    }

    /** The claim and the loop of `dispatch`. */
    method DispatchDue(tenant: string, now: Instant, approve: Message -> bool, clock: nat -> Instant,
                       newToken: nat -> string, ghost s: Sys, ghost firstTask: nat)
      returns (r: Result<seq<Fate>, StoreError>, dispatchable: seq<Message>, prefailed: seq<Message>, ghost w: Work)
      requires Represents(s) && Inv(s) && owner != "" && claimLimit >= 1 && leaseSeconds >= 1 && provider.Legal()
      requires Claims([], now, newToken, owner, leaseSeconds, firstTask).Ready(s)
      modifies outbox`messages, scheduler, provider
      ensures Represents(w.part.after) && Inv(w.part.after)
      ensures w.claims == Claims(w.claims.chosen, now, newToken, owner, leaseSeconds, firstTask)
      ensures WorkOk(s, w, approve) && provider.requests == old(provider.requests) + w.part.sent
      ensures w.dispatchable == dispatchable && w.prefailed == prefailed
      ensures r.Success? ==> WorkDone(s, w, tenant, now, claimLimit) && w.fates == r.value
    {
      dispatchable, prefailed := [], [];
      w := Work(Claims([], now, newToken, owner, leaseSeconds, firstTask), [], [], [], Part(s, [], []), []);
      NoWork(s, w, approve);
      var claims, h := ClaimMessages(tenant, now, newToken, s, firstTask);
      if claims.Failure? {
        return Failure(claims.error), dispatchable, prefailed, w;
      }
      dispatchable, prefailed := claims.value.0, claims.value.1;
      HandedWork(s, tenant, now, claimLimit, h, dispatchable, prefailed);
      ghost var p;
      r, p := DispatchAll(dispatchable, now, approve, clock, h);
      w := Work(h.claims, dispatchable, prefailed, h.held, p, if r.Success? then r.value else []);
      WorkIsOk(s, h, w, now, approve);
    }

    /** The loop of `dispatch`. */
    method DispatchAll(messages: seq<Message>, now: Instant, approve: Message -> bool, clock: nat -> Instant,
                       ghost h: Handover)
      returns (r: Result<seq<Fate>, StoreError>, ghost p: Part)
      requires Represents(h.si) && Inv(h.si) && provider.Legal() && NoRepeats(Ids(messages))
      requires RestHeld(h.si, h.held, messages, now, h.claims.firstTask, h.Bound(), 0)
      modifies outbox`messages, scheduler, provider
      ensures Represents(p.after) && Inv(p.after) && StepsOfSome(h.si, p, h.held, messages, approve)
      ensures provider.requests == old(provider.requests) + p.sent
      ensures r.Success? ==> FatesStored(p.after.rows, messages, r.value) && |r.value| == |messages|
    {
      var fates: seq<Fate> := [];
      p := DispatchingStarts(h, now, approve, messages);
      while |fates| < |messages|
        invariant |fates| <= |messages| && Represents(p.after) && Inv(p.after)
        invariant Dispatching(h, now, approve, messages, fates, p)
        invariant provider.requests == old(provider.requests) + p.sent
      {
        var fate;
        ghost var q;
        fate, q := DispatchNext(messages, |fates|, now, approve, clock, p.after, h);
        DispatchingNext(h, now, approve, messages, fates, p, q, fate);
        Regroup(old(provider.requests), p.sent, q.sent);
        p := Joined(p, q);
        if fate.Failure? {
          return Failure(fate.error), p;
        }
        fates := fates + [fate.value];
      }
      r := Success(fates);
    }

    method DispatchNext(messages: seq<Message>, i: nat, now: Instant, approve: Message -> bool, clock: nat -> Instant,
                        ghost s: Sys, ghost h: Handover)
      returns (r: Result<Fate, StoreError>, ghost p: Part)
      requires Represents(s) && Inv(s) && provider.Legal() && i < |messages| == |h.held|
      requires RestHeld(s, h.held, messages, now, h.claims.firstTask, h.Bound(), i)
      modifies outbox`messages, scheduler, provider
      ensures Represents(p.after) && Inv(p.after) && StepsOfOne(s, p, h.held[i], messages[i], messages, approve)
      ensures provider.requests == old(provider.requests) + p.sent
      ensures r.Success? ==> FateStored(p.after.rows, messages[i], r.value)
    {
      assert HeldAt(s, h.held, messages, now, h.claims.firstTask, h.Bound(), i);
      r, p := DispatchOne(messages[i], now, approve(messages[i]), clock(2 * i), clock(2 * i + 1), s, h.held[i]);
      if r.Success? {
        FateIsStored(s, p.after, h.held[i], messages[i], r.value);
      }
      OnlyItsRequest(p.sent, messages, i, approve);
    }
  }

  // ----- what a dispatch has done -----

  /** A part of a dispatch: where it ends, its steps, and what the provider was sent. */
  datatype Part = Part(after: Sys, steps: seq<Action>, sent: seq<Request>)

  function Joined(p: Part, q: Part): Part {
    Part(q.after, p.steps + q.steps, p.sent + q.sent)
  }

  /** The log's new sends are the requests made. */
  predicate SentAsLogged(s: Sys, p: Part) {
    Requests(p.after.log) == Requests(s.log) + p.sent
  }

  /** A part that belongs to one task. */
  ghost predicate TaskPart(s: Sys, p: Part, t: nat) {
    && t in s.tasks && TaskDelta(s, p.after, t, s.tasks[t].k) && p.after == Run(s, p.steps)
    && (forall i :: 0 <= i < |p.steps| ==> OfTask(p.steps[i], t)) && SentAsLogged(s, p)
  }

  /** The claims of a dispatch, and what it did with the messages it claimed. */
  datatype Work = Work(claims: Claims, dispatchable: seq<Message>, prefailed: seq<Message>, held: seq<nat>, part: Part,
                       fates: seq<Fate>)
  {
    function Steps(): seq<Action> {
      claims.Steps(|claims.chosen|) + part.steps
    }
  }

  datatype Dispatched = Dispatched(swept: seq<string>, sweptRows: seq<RowKey>, sweeps: seq<Action>, work: Work)

  /** The first steps sweep the first expired rows. */
  ghost predicate SweptFirst(s: Sys, d: Dispatched, tenant: string, now: Instant, limit: nat) {
    && SweepsOf(d.sweeps, d.sweptRows, now) && |d.swept| == |d.sweptRows|
    && FirstOf(s.rows, ExpiredKeys(s.rows, tenant, Some(REMINDER_NOTIFICATION), now), limit, d.sweptRows)
    && forall i :: 0 <= i < |d.sweptRows| ==> d.sweptRows[i] in s.rows && d.swept[i] == s.rows[d.sweptRows[i]].id
  }

  /** After the claims, every step is one of the tasks that these claims have handed out, and the provider is sent what
      the log says: requests of claimed and approved messages. */
  ghost predicate WorkOk(s: Sys, w: Work, approve: Message -> bool) {
    && w.part.after == Run(s, w.Steps())
    && (forall i :: 0 <= i < |w.held| ==> w.claims.firstTask <= w.held[i] < w.claims.firstTask + |w.claims.chosen|)
    && (forall i :: 0 <= i < |w.part.steps| ==> OfSome(w.part.steps[i], w.held))
    && SentAsLogged(s, w.part) && RequestsOf(w.part.sent, w.dispatchable, approve)
  }

  /** The claimed messages are the first due ones, each dealt out once, to be dispatched or to fail without a reminder;
      and each dispatched one has a fate, which is the status it is stored with. */
  ghost predicate WorkDone(s: Sys, w: Work, tenant: string, now: Instant, limit: nat) {
    && FirstOf(s.rows, ClaimableKeys(s.rows, tenant, Some(REMINDER_NOTIFICATION), now), limit, w.claims.chosen)
    && ClaimedFrom(s, w.claims.chosen, w.dispatchable, w.prefailed)
    && NoRepeats(Ids(w.dispatchable) + Ids(w.prefailed))
    && |w.fates| == |w.dispatchable| && FatesStored(w.part.after.rows, w.dispatchable, w.fates)
  }

  /** Every request is that of an approved one of these messages. */
  ghost predicate RequestsOf(sent: seq<Request>, messages: seq<Message>, approve: Message -> bool) {
    forall i :: 0 <= i < |sent| ==> IsRequestOf(sent[i], messages, approve)
  }

  ghost predicate IsRequestOf(request: Request, messages: seq<Message>, approve: Message -> bool) {
    exists m :: m in messages && approve(m) && Sendable(m.event) && Carries(request, m)
  }

  /** The row that carries the message's id has the status that the fate reports. */
  ghost predicate FateStored(rows: Rows, m: Message, fate: Fate) {
    exists k :: Names(rows, k, m.tenant, m.id) && FateShows(fate, rows[k].status)
  }

  ghost predicate FatesStored(rows: Rows, messages: seq<Message>, fates: seq<Fate>) {
    |fates| <= |messages| && forall i :: 0 <= i < |fates| ==> FateStored(rows, messages[i], fates[i])
  }

  lemma FateIsStored(s: Sys, s': Sys, t: nat, message: Message, fate: Fate)
    requires HoldsMessage(s, t, message) && TaskDelta(s, s', t, s.tasks[t].k)
    requires FateShows(fate, s'.rows[s.tasks[t].k].status)
    ensures FateStored(s'.rows, message, fate)
  {
    assert Names(s'.rows, s.tasks[t].k, message.tenant, message.id);
  }

  lemma OnlyItsRequest(sent: seq<Request>, messages: seq<Message>, i: nat, approve: Message -> bool)
    requires i < |messages|
    requires forall request :: request in sent ==>
      approve(messages[i]) && Sendable(messages[i].event) && Carries(request, messages[i])
    ensures RequestsOf(sent, messages, approve)
  {
    forall j | 0 <= j < |sent| ensures IsRequestOf(sent[j], messages, approve) {
      assert messages[i] in messages && sent[j] in sent;
    }
  }

  ghost predicate StepsOfOne(s: Sys, p: Part, t: nat, message: Message, messages: seq<Message>,
                             approve: Message -> bool) {
    HoldsMessage(s, t, message) && TaskPart(s, p, t) && RequestsOf(p.sent, messages, approve)
  }

  ghost predicate StepsOfSome(s: Sys, p: Part, held: seq<nat>, messages: seq<Message>, approve: Message -> bool) {
    && p.after == Run(s, p.steps) && (forall i :: 0 <= i < |p.steps| ==> OfSome(p.steps[i], held))
    && SentAsLogged(s, p) && RequestsOf(p.sent, messages, approve)
  }

  /** The loop of `dispatch` after as many messages as there are fates. */
  ghost predicate Dispatching(h: Handover, now: Instant, approve: Message -> bool, messages: seq<Message>,
                              fates: seq<Fate>, p: Part)
  {
    && StepsOfSome(h.si, p, h.held, messages, approve) && FatesStored(p.after.rows, messages, fates)
    && RestHeld(p.after, h.held, messages, now, h.claims.firstTask, h.Bound(), |fates|)
  }

  lemma Regroup(a: seq<Request>, b: seq<Request>, c: seq<Request>)
    ensures (a + b) + c == a + (b + c)
  {}

  lemma DispatchingStarts(h: Handover, now: Instant, approve: Message -> bool, messages: seq<Message>) returns (p: Part)
    requires RestHeld(h.si, h.held, messages, now, h.claims.firstTask, h.Bound(), 0)
    ensures p == Part(h.si, [], []) && Dispatching(h, now, approve, messages, [], p)
  {
    p := Part(h.si, [], []);
  }

  lemma SentJoined(s: Sys, p: Part, q: Part)
    requires SentAsLogged(s, p) && SentAsLogged(p.after, q)
    ensures SentAsLogged(s, Joined(p, q))
  {
    assert Requests(s.log) + (p.sent + q.sent) == (Requests(s.log) + p.sent) + q.sent;
  }

  lemma FirstPart(s: Sys, a: Action, t: nat) returns (p: Part)
    requires Inv(s) && OfTask(a, t) && Enabled(s, a) && !a.Send?
    ensures p == Part(Next(s, a), [a], []) && TaskPart(s, p, t) && Inv(p.after)
  {
    p := Part(Next(s, a), [a], []);
    TaskStep(s, a, t);
    StepSends(s, a);
    RunAppend(s, [], a);
  }

  lemma SentPart(s: Sys, t: nat, request: Request, answer: DispatchProtocol.Answer) returns (p: Part)
    requires Inv(s) && t in s.tasks && s.tasks[t].Confirmed? && (answer.Answered? ==> LegalResult(answer.result))
    requires request == RequestFor(s.tasks[t].m)
    ensures p.steps == [Send(t), Receive(t, answer)]
    ensures TaskPart(s, p, t) && Inv(p.after) && p.sent == [request]
    ensures p.after.rows == s.rows && p.after.reminders == s.reminders
    ensures t in p.after.tasks && p.after.tasks[t] == Replied(s.tasks[t].k, s.tasks[t].m, answer)
    ensures Names(p.after.rows, s.tasks[t].k, s.tasks[t].m.tenant, s.tasks[t].m.id)
  {
    var s2 := SendAndReceive(s, t, answer);
    p := Part(s2, [Send(t), Receive(t, answer)], [request]);
  }

  lemma TaskPartsJoined(s: Sys, p: Part, q: Part, t: nat)
    requires TaskPart(s, p, t) && TaskPart(p.after, q, t) && p.after.tasks[t].k == s.tasks[t].k
    ensures TaskPart(s, Joined(p, q), t)
  {
    SentJoined(s, p, q);
    RunConcat(s, p.steps, q.steps);
    TaskSteps(s, p.after, q.after, t, s.tasks[t].k);
    forall i | 0 <= i < |p.steps + q.steps| ensures OfTask((p.steps + q.steps)[i], t) {
      assert (p.steps + q.steps)[i] == if i < |p.steps| then p.steps[i] else q.steps[i - |p.steps|];
    }
  }

  lemma StepsJoined(s: Sys, p: Part, q: Part, t: nat, message: Message, held: seq<nat>, messages: seq<Message>,
                    approve: Message -> bool)
    requires StepsOfSome(s, p, held, messages, approve) && StepsOfOne(p.after, q, t, message, messages, approve)
    requires t in held
    ensures StepsOfSome(s, Joined(p, q), held, messages, approve)
  {
    SentJoined(s, p, q);
    RunConcat(s, p.steps, q.steps);
    forall i | 0 <= i < |p.steps + q.steps| ensures OfSome((p.steps + q.steps)[i], held) {
      assert (p.steps + q.steps)[i] == if i < |p.steps| then p.steps[i] else q.steps[i - |p.steps|];
    }
    forall i | 0 <= i < |p.sent + q.sent| ensures IsRequestOf((p.sent + q.sent)[i], messages, approve) {
      assert (p.sent + q.sent)[i] == if i < |p.sent| then p.sent[i] else q.sent[i - |p.sent|];
    }
  }

  lemma DispatchingNext(h: Handover, now: Instant, approve: Message -> bool, messages: seq<Message>, fates: seq<Fate>,
                        p: Part, q: Part, fate: Result<Fate, StoreError>)
    requires Dispatching(h, now, approve, messages, fates, p) && |fates| < |messages| == |h.held|
    requires StepsOfOne(p.after, q, h.held[|fates|], messages[|fates|], messages, approve) && NoRepeats(Ids(messages))
    requires fate.Success? ==> FateStored(q.after.rows, messages[|fates|], fate.value)
    ensures StepsOfSome(h.si, Joined(p, q), h.held, messages, approve)
    ensures fate.Success? ==> Dispatching(h, now, approve, messages, fates + [fate.value], Joined(p, q))
  {
    var t := h.held[|fates|];
    StepsJoined(h.si, p, q, t, messages[|fates|], h.held, messages, approve);
    OthersKeepFate(p.after, q.after, t, messages, fates);
    RestStillHeld(p.after, q.after, h.held, messages, now, h.claims.firstTask, h.Bound(), |fates|, p.after.tasks[t].k);
  }

  /** A step of one message's task leaves the fates of the messages before it. */
  lemma OthersKeepFate(s: Sys, s': Sys, t: nat, messages: seq<Message>, fates: seq<Fate>)
    requires FatesStored(s.rows, messages, fates) && |fates| < |messages| && NoRepeats(Ids(messages))
    requires HoldsMessage(s, t, messages[|fates|]) && TaskDelta(s, s', t, s.tasks[t].k)
    ensures FatesStored(s'.rows, messages, fates)
  {
    forall i | 0 <= i < |fates| ensures FateStored(s'.rows, messages[i], fates[i]) {
      assert FateStored(s.rows, messages[i], fates[i]);
      var k :| Names(s.rows, k, messages[i].tenant, messages[i].id) && FateShows(fates[i], s.rows[k].status);
      assert Ids(messages)[i] != Ids(messages)[|fates|];
      assert Names(s'.rows, k, messages[i].tenant, messages[i].id);
    }
  }

  /** No message is claimed twice. */
  lemma ClaimedIdsDiffer(s: Sys, tenant: string, now: Instant, limit: nat, chosen: seq<RowKey>,
                         dispatchable: seq<Message>,
                         prefailed: seq<Message>)
    requires IdsUnique(s.rows) && ClaimedFrom(s, chosen, dispatchable, prefailed)
    requires FirstOf(s.rows, ClaimableKeys(s.rows, tenant, Some(REMINDER_NOTIFICATION), now), limit, chosen)
    ensures NoRepeats(Ids(dispatchable) + Ids(prefailed)) && NoRepeats(Ids(dispatchable))
  {
    ChosenIdsDiffer(s.rows, ClaimableKeys(s.rows, tenant, Some(REMINDER_NOTIFICATION), now), limit, chosen, tenant);
    RearrangedHasNoRepeats(Ids(dispatchable) + Ids(prefailed), IdsOf(s.rows, chosen));
    forall i, j | 0 <= i < j < |Ids(dispatchable)| ensures Ids(dispatchable)[i] != Ids(dispatchable)[j] {
      assert (Ids(dispatchable) + Ids(prefailed))[i] != (Ids(dispatchable) + Ids(prefailed))[j];
    }
  }

  lemma SweepsAreQuiet(s: Sys, s1: Sys, chosen: seq<RowKey>, sweeps: seq<Action>, none: Claims)
    requires Inv(s) && SweepsOf(sweeps, chosen, none.now) && s1 == Run(s, sweeps)
    requires s1.tasks == s.tasks && s1.usedTokens == s.usedTokens && none.Ready(s) && none.chosen == []
    ensures Inv(s1) && none.Ready(s1) && Requests(s1.log) == Requests(s.log)
  {
    RunKeepsInv(s, sweeps);
    QuietRun(s, sweeps);
    StillReady(s, s1, none);
  }

  lemma NoWork(s: Sys, w: Work, approve: Message -> bool)
    requires w.claims.chosen == [] && w.dispatchable == [] && w.held == [] && w.part == Part(s, [], [])
    ensures WorkOk(s, w, approve)
  {
    assert w.Steps() == [];
  }

  lemma HandedWork(s: Sys, tenant: string, now: Instant, limit: nat, h: Handover, dispatchable: seq<Message>,
                   prefailed: seq<Message>)
    requires Inv(s) && ClaimedFrom(s, h.claims.chosen, dispatchable, prefailed)
    requires FirstOf(s.rows, ClaimableKeys(s.rows, tenant, Some(REMINDER_NOTIFICATION), now), limit, h.claims.chosen)
    ensures NoRepeats(Ids(dispatchable) + Ids(prefailed)) && NoRepeats(Ids(dispatchable))
  {
    forall k1, k2 | k1 in s.rows && k2 in s.rows ensures Apart(s.rows, k1, k2) {
      assert RowOk(s, k1, s.rows[k1]) && RowOk(s, k2, s.rows[k2]);
      assert k1 != k2 ==> SameTenantDistinctIds(s.rows[k1], s.rows[k2]);
    }
    ClaimedIdsDiffer(s, tenant, now, limit, h.claims.chosen, dispatchable, prefailed);
  }

  lemma WorkIsOk(s: Sys, h: Handover, w: Work, now: Instant, approve: Message -> bool)
    requires Inv(s) && Handed(s, h, now) && h.messages == w.dispatchable && h.claims == w.claims && h.held == w.held
    requires StepsOfSome(h.si, w.part, w.held, w.dispatchable, approve)
    ensures WorkOk(s, w, approve)
  {
    var claims := h.claims.Steps(|h.claims.chosen|);
    QuietRun(s, claims);
    RunConcat(s, claims, w.part.steps);
    forall i | 0 <= i < |w.held| ensures w.claims.firstTask <= w.held[i] < w.claims.firstTask + |w.claims.chosen| {
      assert HeldAt(h.si, h.held, h.messages, now, h.claims.firstTask, h.Bound(), i);
    }
  }

  // ----- the lists of the outcome -----

  /** The ids whose fate is the given one, in order. */
  function Listed(ids: seq<string>, fates: seq<Fate>, fate: Fate): seq<string>
    requires |fates| == |ids|
  {
    if ids == [] then []
    else
      var n := |ids| - 1;
      Listed(ids[..n], fates[..n], fate) + if fates[n] == fate then [ids[n]] else []
  }

  function PublishedIds(fates: seq<Fate>): seq<string> {
    if fates == [] then []
    else
      var n := |fates| - 1;
      PublishedIds(fates[..n]) + if fates[n].PublishedAs? then [fates[n].notificationId] else []
  }

  /** The outcome's lists, each in the order of the claims; what failed in the claim transaction counts as skipped. */
  function Collect(dispatchable: seq<string>, prefailed: seq<string>, fates: seq<Fate>, swept: seq<string>)
    : DispatchOutcome
    requires |fates| == |dispatchable|
  {
    DispatchOutcome(dispatchable + prefailed, PublishedIds(fates), prefailed + Listed(dispatchable, fates, Skipped),
                    Listed(dispatchable, fates, LeftUncertain), swept)
  }

  predicate HasFate(ids: seq<string>, fates: seq<Fate>, i: nat, x: string, fate: Fate)
    requires |fates| == |ids|
  {
    i < |ids| && ids[i] == x && fates[i] == fate
  }

  lemma {:induction false} ListedExactly(ids: seq<string>, fates: seq<Fate>, fate: Fate)
    requires |fates| == |ids|
    ensures forall x :: x in Listed(ids, fates, fate) <==> exists i :: HasFate(ids, fates, i, x, fate)
    decreases |ids|
  {
    if ids != [] {
      var n := |ids| - 1;
      ListedExactly(ids[..n], fates[..n], fate);
      forall x ensures x in Listed(ids, fates, fate) <==> exists i :: HasFate(ids, fates, i, x, fate) {
        if i: nat :| HasFate(ids, fates, i, x, fate) {
          assert i < n ==> HasFate(ids[..n], fates[..n], i, x, fate);
        }
        if i: nat :| HasFate(ids[..n], fates[..n], i, x, fate) {
          assert HasFate(ids, fates, i, x, fate);
        }
        assert fates[n] == fate && x == ids[n] ==> HasFate(ids, fates, n, x, fate);
      }
    }
  }

  lemma {:induction false} ListedOnce(ids: seq<string>, fates: seq<Fate>, fate: Fate)
    requires |fates| == |ids| && NoRepeats(ids)
    ensures NoRepeats(Listed(ids, fates, fate))
    decreases |ids|
  {
    if ids != [] {
      var n := |ids| - 1;
      ListedOnce(ids[..n], fates[..n], fate);
      ListedExactly(ids[..n], fates[..n], fate);
      forall i: nat ensures !HasFate(ids[..n], fates[..n], i, ids[n], fate) {
        assert i < n ==> ids[i] != ids[n];
      }
      JoinedHasNoRepeats(Listed(ids[..n], fates[..n], fate), [ids[n]]);
    }
  }

  lemma {:induction false} EachFateCounted(ids: seq<string>, fates: seq<Fate>)
    requires |fates| == |ids|
    ensures |PublishedIds(fates)| + |Listed(ids, fates, Skipped)| + |Listed(ids, fates, LeftUncertain)| == |fates|
    decreases |ids|
  {
    if ids != [] {
      EachFateCounted(ids[..|ids| - 1], fates[..|ids| - 1]);
    }
  }

  /** How many of the first `n` messages have this fate. */
  function CountBefore(fates: seq<Fate>, n: nat, fate: Fate): nat
    requires n <= |fates|
  {
    if n == 0 then 0 else CountBefore(fates, n - 1, fate) + if fates[n - 1] == fate then 1 else 0
  }

  /** How many of the first `n` were published. */
  function PublishedBefore(fates: seq<Fate>, n: nat): nat
    requires n <= |fates|
  {
    if n == 0 then 0 else PublishedBefore(fates, n - 1) + if fates[n - 1].PublishedAs? then 1 else 0
  }

  lemma {:induction false} CountsOfPrefix(fates: seq<Fate>, m: nat, n: nat, fate: Fate)
    requires n <= m <= |fates|
    ensures CountBefore(fates[..m], n, fate) == CountBefore(fates, n, fate)
    ensures PublishedBefore(fates[..m], n) == PublishedBefore(fates, n)
    decreases n
  {
    if n > 0 {
      CountsOfPrefix(fates, m, n - 1, fate);
    }
  }

  /** A message stands in the list of its fate after those that were claimed before it. */
  lemma {:induction false} ListedInOrder(ids: seq<string>, fates: seq<Fate>, fate: Fate, i: nat)
    requires |fates| == |ids| && i <= |ids|
    ensures |Listed(ids, fates, fate)| == CountBefore(fates, |fates|, fate)
    ensures i < |ids| && fates[i] == fate ==>
      CountBefore(fates, i, fate) < |Listed(ids, fates, fate)|
      && Listed(ids, fates, fate)[CountBefore(fates, i, fate)] == ids[i]
    decreases |ids|
  {
    if ids != [] {
      var n := |ids| - 1;
      ListedInOrder(ids[..n], fates[..n], fate, if i < n then i else n);
      CountsOfPrefix(fates, n, n, fate);
      if i < n {
        CountsOfPrefix(fates, n, i, fate);
      }
    }
  }

  lemma {:induction false} PublishedInOrder(fates: seq<Fate>, i: nat)
    requires i <= |fates|
    ensures |PublishedIds(fates)| == PublishedBefore(fates, |fates|)
    ensures i < |fates| && fates[i].PublishedAs? ==>
      PublishedBefore(fates, i) < |PublishedIds(fates)|
      && PublishedIds(fates)[PublishedBefore(fates, i)] == fates[i].notificationId
    decreases |fates|
  {
    if fates != [] {
      var n := |fates| - 1;
      PublishedInOrder(fates[..n], if i < n then i else n);
      CountsOfPrefix(fates, n, n, Skipped);
      if i < n {
        CountsOfPrefix(fates, n, i, Skipped);
      }
    }
  }

  lemma JoinedHasNoRepeats(a: seq<string>, b: seq<string>)
    requires NoRepeats(a) && NoRepeats(b) && forall x :: x in a ==> x !in b
    ensures NoRepeats(a + b)
  {
    forall i, j | 0 <= i < j < |a + b| ensures (a + b)[i] != (a + b)[j] {
      assert i < |a| ==> (a + b)[i] == a[i] && a[i] in a;
      assert j >= |a| ==> (a + b)[j] == b[j - |a|] && b[j - |a|] in b;
    }
  }

  /** The message stands in its list after the earlier ones with its fate: under the provider's id if it was published,
      and behind the prefailed ones if it was skipped. */
  predicate InItsPlace(o: DispatchOutcome, id: string, prefailed: nat, fates: seq<Fate>, i: nat)
    requires i < |fates|
  {
    match fates[i]
    case PublishedAs(notificationId) =>
      PublishedBefore(fates, i) < |o.published| && o.published[PublishedBefore(fates, i)] == notificationId
    case Skipped =>
      var n := prefailed + CountBefore(fates, i, Skipped); n < |o.skipped| && o.skipped[n] == id
    case LeftUncertain =>
      CountBefore(fates, i, LeftUncertain) < |o.uncertain| && o.uncertain[CountBefore(fates, i, LeftUncertain)] == id
  }

  lemma PlacedInOrder(dispatchable: seq<string>, prefailed: seq<string>, fates: seq<Fate>, swept: seq<string>, i: nat)
    requires |fates| == |dispatchable| && i < |fates|
    ensures InItsPlace(Collect(dispatchable, prefailed, fates, swept), dispatchable[i], |prefailed|, fates, i)
  {
    ListedInOrder(dispatchable, fates, fates[i], i);
    PublishedInOrder(fates, i);
  }

  lemma PartsDiffer(a: seq<string>, b: seq<string>)
    requires NoRepeats(a + b)
    ensures NoRepeats(a) && NoRepeats(b) && forall x :: x in a ==> x !in b
  {
    var all := a + b;
    forall i, j | 0 <= i < j < |a| ensures a[i] != a[j] {
      assert all[i] != all[j];
    }
    forall i, j | 0 <= i < j < |b| ensures b[i] != b[j] {
      assert all[|a| + i] != all[|a| + j];
    }
    forall i, j | 0 <= i < |a| && 0 <= j < |b| ensures a[i] != b[j] {
      assert all[i] != all[|a| + j];
    }
  }

  /** A list holds the messages with its fate, each once. */
  lemma ListedMembers(ids: seq<string>, fates: seq<Fate>, fate: Fate)
    requires |fates| == |ids| && NoRepeats(ids)
    ensures forall i :: 0 <= i < |ids| ==> (ids[i] in Listed(ids, fates, fate) <==> fates[i] == fate)
    ensures forall x :: x in Listed(ids, fates, fate) ==> x in ids
    ensures NoRepeats(Listed(ids, fates, fate))
  {
    ListedExactly(ids, fates, fate);
    ListedOnce(ids, fates, fate);
    hide Listed;
    forall i | 0 <= i < |ids| ensures ids[i] in Listed(ids, fates, fate) <==> fates[i] == fate {
      assert fates[i] == fate ==> HasFate(ids, fates, i, ids[i], fate);
    }
  }

  /** Every claimed message is in exactly one list. What failed in the claim is skipped; of the others, the one at each
      position is skipped or uncertain exactly if that is its fate, and otherwise its notification is published; no
      message is listed twice, nothing else is listed, and every list keeps the order of the claims. */
  lemma CollectSplits(dispatchable: seq<string>, prefailed: seq<string>, fates: seq<Fate>, swept: seq<string>)
    requires |fates| == |dispatchable| && NoRepeats(dispatchable + prefailed)
    ensures var o := Collect(dispatchable, prefailed, fates, swept);
      && (forall i :: 0 <= i < |dispatchable| ==>
            && (dispatchable[i] in o.skipped <==> fates[i] == Skipped)
            && (dispatchable[i] in o.uncertain <==> fates[i] == LeftUncertain))
      && (forall x :: x in prefailed ==> x in o.skipped && x !in o.uncertain)
      && (forall x :: x in o.skipped || x in o.uncertain ==> x in o.claimed)
      && NoRepeats(o.skipped) && NoRepeats(o.uncertain)
      && |o.published| + |o.skipped| + |o.uncertain| == |o.claimed|
      && o.claimed == dispatchable + prefailed && o.swept == swept && prefailed <= o.skipped
      && |o.published| == PublishedBefore(fates, |fates|)
      && |o.uncertain| == CountBefore(fates, |fates|, LeftUncertain)
      && |o.skipped| == |prefailed| + CountBefore(fates, |fates|, Skipped)
    ensures forall i :: 0 <= i < |fates| ==>
      InItsPlace(Collect(dispatchable, prefailed, fates, swept), dispatchable[i], |prefailed|, fates, i)
  {
    hide Listed, PublishedIds, NoRepeats, CountBefore, PublishedBefore, InItsPlace;
    PartsDiffer(dispatchable, prefailed);
    ListedMembers(dispatchable, fates, Skipped);
    ListedMembers(dispatchable, fates, LeftUncertain);
    JoinedHasNoRepeats(prefailed, Listed(dispatchable, fates, Skipped));
    EachFateCounted(dispatchable, fates);
    forall i | 0 <= i < |fates|
      ensures InItsPlace(Collect(dispatchable, prefailed, fates, swept), dispatchable[i], |prefailed|, fates, i) {
      PlacedInOrder(dispatchable, prefailed, fates, swept, i);
    }
    ListedInOrder(dispatchable, fates, Skipped, |fates|);
    ListedInOrder(dispatchable, fates, LeftUncertain, |fates|);
    PublishedInOrder(fates, |fates|);
  }

  /** The list of the dispatch outcome a sent message ends up in. */
  function Report(request: Request, answer: DispatchProtocol.Answer, status: Status): Fate {
    if answer.Raised? || answer.result.idempotencyKey != request.idempotencyKey
       || answer.result.channel != request.channel
    then LeftUncertain
    else if status == Published then PublishedAs(answer.result.notificationId.GetOr(""))
    else if status == Uncertain then LeftUncertain
    else Skipped
  }

  lemma ReportShows(request: Request, sending: Message, answer: DispatchProtocol.Answer, now: Instant, m: Message,
                    final: Message)
    requires final == Changed(m, RecordedChange(sending, answer, now))
    requires request.idempotencyKey == AttemptKey(sending.id, sending.attempts)
    requires Some(request.channel) == sending.event.channel
    requires answer.Answered? ==> LegalResult(answer.result)
    ensures FateShows(Report(request, answer, final.status), final.status)
    ensures Report(request, answer, final.status).PublishedAs? ==>
      PublishedUnder(answer, Report(request, answer, final.status).notificationId)
  {}

  /** The provider has answered with this notification id. */
  predicate PublishedUnder(answer: DispatchProtocol.Answer, notificationId: string) {
    answer.Answered? && answer.result.outcome == Delivered && answer.result.notificationId == Some(notificationId)
  }

  /** The steps of one message's task: to the confirmation, or through the send to its record. */
  function StepsFor(t: nat, approved: bool, confirmedAt: Instant, unsent: bool, answer: DispatchProtocol.Answer,
                    recordedAt: Instant): seq<Action>
  {
    [Proceed(t, approved, confirmedAt)] + if unsent then [] else [Send(t), Receive(t, answer), Record(t, recordedAt)]
  }

  lemma DecisionShows(store: Store, k: RowKey, retry: bool, now: Instant)
    requires StoreValid(store) && k in store.messages
    ensures var m := store.messages[k];
      var r := OperatorGuardedChange(m, if retry then ResolveRetry(now) else ResolveDelivered(now));
      && (r.Success? <==> m.status == Uncertain) && (r.Success? ==> DecidedAs(m, retry, now, r.value))
  {
    assert RowValid(store.messages, k);
  }

  /** A recorded answer changes the message that the worker was sending. */
  lemma ChangesTheSending(s: Sys, t: nat, now: Instant)
    requires Inv(s) && t in s.tasks && s.tasks[t].Replied?
    ensures Transaction(s, Record(t, now)).Success? ==> s.rows[s.tasks[t].k] == s.tasks[t].m
  {
    hide Transaction, RowOk;
    if Transaction(s, Record(t, now)).Success? {
      RecordEffect(s, Record(t, now));
    }
  }

  /** The request built before the confirmation is that of the confirmed message. */
  lemma RequestIsNextAttempt(message: Message, request: Request, sending: Message, at: Instant)
    requires RequestOf(message) == Some(request) && sending == Changed(message, StartSending(at))
    ensures request == RequestFor(sending) && Some(request.channel) == sending.event.channel
    ensures sending == message.(status := Sending, sendingAt := Some(at), attempts := message.attempts + 1)
  {}

  lemma RequestCarries(message: Message)
    ensures RequestOf(message).Some? <==> Sendable(message.event)
    ensures RequestOf(message).Some? <==> Requestable(message.event)
    ensures RequestOf(message).Some? ==> Carries(RequestOf(message).value, message)
  {}

  /** A message that is released, or failed before any I/O, is stored as skipped. */
  lemma SkippedShows(s: Sys, a: Action, message: Message)
    requires Inv(s) && a.Proceed? && HoldsMessage(s, a.t, message)
    ensures var k := s.tasks[a.t].k; var s' := Next(s, a);
      Transaction(s, a).Success? && (!a.approved || !Requestable(message.event)) ==>
        k in s'.rows && FateShows(Skipped, s'.rows[k].status)
  {
    hide Next, Transaction, Inv, Requestable;
    ProceedOutcome(s, a, message);
  }

  // ----- the loops of the claim and of the sweep -----

  lemma SweepSetup(s: Sys, tenant: string, limit: nat, now: Instant, chosen: seq<RowKey>, rows: Rows,
                   messages: seq<Message>)
    requires FirstOf(s.rows, ExpiredKeys(s.rows, tenant, Some(REMINDER_NOTIFICATION), now), limit, chosen)
    requires SweepsSoFar(s.rows, chosen, UnknownError(now, None), rows, messages)
    ensures |messages| == |chosen| && AllDifferent(chosen) && SweptUpTo(s, s, chosen, 0, UnknownError(now, None))
    ensures forall i {:trigger Sweepable(s, chosen, messages, now, i)} :: 0 <= i < |chosen| ==>
      Sweepable(s, chosen, messages, now, i)
    ensures forall i :: 0 <= i < |chosen| ==> chosen[i] in s.rows && Ids(messages)[i] == s.rows[chosen[i]].id
  {
    var eligible := ExpiredKeys(s.rows, tenant, Some(REMINDER_NOTIFICATION), now);
    FirstOfDistinct(s.rows, eligible, limit, chosen);
    forall i | 0 <= i < |chosen|
      ensures Sweepable(s, chosen, messages, now, i) && RowSwept(s, s, chosen, 0, UnknownError(now, None), i)
    {
      assert chosen[i] in eligible;
    }
    forall i | 0 <= i < |chosen| ensures chosen[i] in s.rows && Ids(messages)[i] == s.rows[chosen[i]].id {
      assert Sweepable(s, chosen, messages, now, i);
    }
  }

  lemma MirroredStores(s: Sys, k: RowKey, m: Message)
    ensures var s' := StoreAndMirror(s, k, m);
      && s' == s.(rows := s.rows[k := m], reminders := s'.reminders, mirrored := s'.mirrored)
      && s'.reminders == if HasReminder(s.reminders, m) then s.reminders[SubjectKey(m) := MirrorOf(m)] else s.reminders
  {}

  lemma DealNone(messages: seq<Message>)
    ensures DealtOut(messages, 0, [], [])
  {
    assert Ids([]) == [] && Ids(messages[..0]) == [];
  }

  lemma AllDealt(s: Sys, c: Claims, messages: seq<Message>, dispatchable: seq<Message>, prefailed: seq<Message>)
    requires DealtOut(messages, |messages|, dispatchable, prefailed) && |messages| == |c.chosen|
    requires forall i :: 0 <= i < |messages| ==> c.chosen[i] in s.rows && messages[i].id == s.rows[c.chosen[i]].id
    ensures ClaimedFrom(s, c.chosen, dispatchable, prefailed)
  {
    assert messages[..|messages|] == messages && Ids(messages) == IdsOf(s.rows, c.chosen);
  }

  /** What a worker reports about a message is what the store says about it. */
  predicate FateShows(fate: Fate, status: Status) {
    match fate
    case PublishedAs(_) => status == Published
    case LeftUncertain => status == Uncertain
    case Skipped => status == Pending || status == Failed
  }
}
