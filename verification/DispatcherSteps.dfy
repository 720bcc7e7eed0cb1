/** The dispatcher's transactions as steps of the protocol: what sweeping and claiming several messages at once, and
    dispatching one after the other, amount to. */
module DispatcherSteps {
  import opened Wrappers
  import opened Delivery
  import opened OutboxSpec
  import OutboxRuns
  import opened DispatchProtocol
  import opened DispatchSafety
  import opened DispatchHistory

  /** A transition by message id is the protocol's transition on the row with that id. */
  lemma TransitionOnRow(s: Sys, k: RowKey, id: string, token: string, c: Change, r: Result<Message, StoreError>,
                        rows': Rows)
    requires Names(s.rows, k, k.tenant, id) && TransitionOutcome(s.rows, k.tenant, id, token, c, r, rows')
    ensures r == Guarded(s, k, token, c)
    ensures rows' == if r.Success? then s.rows[k := r.value] else s.rows
  {
    if token != "" {
      assert r == GuardedChange(s.rows[k], token, c);
    }
  }

  lemma DecisionOnRow(s: Sys, k: RowKey, id: string, c: OperatorChange, r: Result<Message, StoreError>, rows': Rows)
    requires Names(s.rows, k, k.tenant, id) && OperatorOutcome(s.rows, k.tenant, id, c, r, rows')
    ensures r == OperatorGuardedChange(s.rows[k], c)
    ensures rows' == if r.Success? then s.rows[k := r.value] else s.rows
  {}

  lemma {:induction false} RunAppend(s: Sys, steps: seq<Action>, a: Action)
    ensures Run(s, steps + [a]) == Next(Run(s, steps), a)
    decreases |steps|
  {
    if steps == [] {
      assert steps + [a] == [a];
    } else {
      assert (steps + [a])[1..] == steps[1..] + [a];
      RunAppend(Next(s, steps[0]), steps[1..], a);
    }
  }

  // ----- sweeping several rows is sweeping them one by one -----

  predicate SameRow(si: Sys, rows: Rows, k: RowKey) {
    k in rows && k in si.rows && rows[k] == si.rows[k]
  }

  predicate AllDifferent(chosen: seq<RowKey>) {
    forall a, b :: 0 <= a < b < |chosen| ==> chosen[a] != chosen[b]
  }

  predicate RowSwept(s: Sys, si: Sys, chosen: seq<RowKey>, i: nat, error: DeliveryError, j: nat)
    requires j < |chosen|
  {
    && chosen[j] in s.rows && chosen[j] in si.rows
    && si.rows[chosen[j]] == if j < i then SweptCopy(s.rows[chosen[j]], error) else s.rows[chosen[j]]
  }

  /** The protocol after the first `i` of the chosen rows were swept. */
  ghost predicate SweptUpTo(s: Sys, si: Sys, chosen: seq<RowKey>, i: nat, error: DeliveryError) {
    && i <= |chosen| && si.rows.Keys == s.rows.Keys
    && (forall j {:trigger RowSwept(s, si, chosen, i, error, j)} ::
         0 <= j < |chosen| ==> RowSwept(s, si, chosen, i, error, j))
    && (forall k {:trigger SameRow(s, si.rows, k)} :: k in s.rows && k !in chosen ==> SameRow(s, si.rows, k))
  }

  predicate Sweepable(s: Sys, chosen: seq<RowKey>, messages: seq<Message>, now: Instant, i: nat)
    requires i < |chosen| == |messages|
  {
    && chosen[i] in s.rows && s.rows[chosen[i]].event.eventType == REMINDER_NOTIFICATION
    && ExpiredSending(s.rows[chosen[i]], now) && messages[i] == SweptCopy(s.rows[chosen[i]], UnknownError(now, None))
  }

  lemma SweepStep(s: Sys, si: Sys, chosen: seq<RowKey>, messages: seq<Message>, i: nat, now: Instant)
    requires SweptUpTo(s, si, chosen, i, UnknownError(now, None)) && i < |chosen| == |messages| && AllDifferent(chosen)
    requires Sweepable(s, chosen, messages, now, i)
    ensures var s' := Next(si, Sweep(chosen[i], now));
      && SweptUpTo(s, s', chosen, i + 1, UnknownError(now, None))
      && s' == StoreAndMirror(si, chosen[i], messages[i])
  {
    hide ExpiredSending, SubjectKey, Truthy;
    var error, i' := UnknownError(now, None), i + 1;
    assert RowSwept(s, si, chosen, i, error, i);
    assert Enabled(si, Sweep(chosen[i], now));
    var s' := Next(si, Sweep(chosen[i], now));
    forall j | 0 <= j < |chosen| ensures RowSwept(s, s', chosen, i', error, j) {
      assert RowSwept(s, si, chosen, i, error, j);
    }
    forall k | k in s.rows && k !in chosen ensures SameRow(s, s'.rows, k) {
      assert SameRow(s, si.rows, k);
    }
  }

  lemma AllSwept(s: Sys, si: Sys, chosen: seq<RowKey>, error: DeliveryError, rows: Rows, swept: seq<Message>)
    requires SweptUpTo(s, si, chosen, |chosen|, error) && SweepsSoFar(s.rows, chosen, error, rows, swept)
    ensures si.rows == rows
  {
    forall i | 0 <= i < |chosen|
      ensures chosen[i] in si.rows && chosen[i] in rows && si.rows[chosen[i]] == rows[chosen[i]] {
      assert RowSwept(s, si, chosen, |chosen|, error, i);
    }
    forall k | k in s.rows && k !in chosen ensures si.rows[k] == s.rows[k] {
      assert SameRow(s, si.rows, k);
    }
    OutboxRuns.SameRows(s.rows, chosen, si.rows, rows);
  }

  predicate SweepsOf(steps: seq<Action>, chosen: seq<RowKey>, now: Instant) {
    |steps| == |chosen| && forall i :: 0 <= i < |steps| ==> steps[i] == Sweep(chosen[i], now)
  }

  // ----- claiming several rows is claiming them one by one -----

  /** The first `i` claimed rows have been mirrored or failed; on the others the store is ahead of the protocol. */
  predicate RowAhead(s: Sys, si: Sys, rows: Rows, chosen: seq<RowKey>, i: nat, copy: seq<Message>, j: nat)
    requires j < |chosen| == |copy|
  {
    && chosen[j] in si.rows && chosen[j] in rows
    && if j < i then rows[chosen[j]] == si.rows[chosen[j]]
       else chosen[j] in s.rows && si.rows[chosen[j]] == s.rows[chosen[j]] && rows[chosen[j]] == copy[j]
  }

  ghost predicate ClaimedAhead(s: Sys, si: Sys, rows: Rows, chosen: seq<RowKey>, i: nat, copy: seq<Message>) {
    && i <= |chosen| == |copy| && rows.Keys == si.rows.Keys
    && (forall j {:trigger RowAhead(s, si, rows, chosen, i, copy, j)} ::
         0 <= j < |chosen| ==> RowAhead(s, si, rows, chosen, i, copy, j))
    && (forall k {:trigger SameRow(si, rows, k)} :: k in rows && k !in chosen ==> SameRow(si, rows, k))
  }

  lemma AheadNext(s: Sys, si: Sys, rows: Rows, chosen: seq<RowKey>, i: nat, copy: seq<Message>, m: Message, si': Sys)
    requires ClaimedAhead(s, si, rows, chosen, i, copy) && i < |chosen| && AllDifferent(chosen)
    requires si'.rows == si.rows[chosen[i] := m]
    ensures ClaimedAhead(s, si', rows[chosen[i] := m], chosen, i + 1, copy)
  {
    var rows', i' := rows[chosen[i] := m], i + 1;
    assert RowAhead(s, si, rows, chosen, i, copy, i);
    forall j | 0 <= j < |chosen| ensures RowAhead(s, si', rows', chosen, i', copy, j) {
      assert RowAhead(s, si, rows, chosen, i, copy, j);
    }
    forall k | k in rows' && k !in chosen ensures SameRow(si', rows', k) {
      assert SameRow(si, rows, k);
    }
  }

  lemma AheadAtStart(s: Sys, rows: Rows, chosen: seq<RowKey>, token: nat -> string, owner: string, until: Instant,
                     claimed: seq<Message>)
    requires ClaimsSoFar(s.rows, chosen, token, owner, until, rows, claimed)
    ensures ClaimedAhead(s, s, rows, chosen, 0, claimed)
  {
    forall j | 0 <= j < |chosen| ensures RowAhead(s, s, rows, chosen, 0, claimed, j) {
      assert chosen[j] in s.rows;
    }
  }

  lemma AheadAtEnd(s: Sys, si: Sys, rows: Rows, chosen: seq<RowKey>, copy: seq<Message>)
    requires ClaimedAhead(s, si, rows, chosen, |chosen|, copy)
    ensures si.rows == rows
  {
    forall k | k in rows ensures rows[k] == si.rows[k] {
      if k in chosen {
        var j :| 0 <= j < |chosen| && chosen[j] == k;
        assert RowAhead(s, si, rows, chosen, |chosen|, copy, j);
      } else {
        assert SameRow(si, rows, k);
      }
    }
  }

  /** One row's claim: mirrored and handed to a new task, or failed when there is nothing to mirror to. */
  lemma ClaimStep(s: Sys, a: Action)
    requires Inv(s) && a.Claim? && Enabled(s, a) && LeaseEnd(a.now, a.leaseSeconds) <= DATETIME_MAX
    ensures var s' := Next(s, a); var c := ClaimedCopy(s.rows[a.k], a.token, a.owner, LeaseEnd(a.now, a.leaseSeconds));
      && Inv(s') && s'.usedTokens == s.usedTokens + {a.token}
      && (if HasReminder(s.reminders, c) then
            && s'.rows == s.rows[a.k := c] && s'.reminders == s.reminders[SubjectKey(c) := MirrorOf(c)]
            && s'.tasks == s.tasks[a.t := Holding(a.k, c, a.now)]
          else
            && s'.rows == s.rows[a.k := Changed(c, FailClaim(InvalidPayloadError(a.now)))]
            && s'.reminders == s.reminders && s'.tasks == s.tasks
            && GuardedChange(c, a.token, FailClaim(InvalidPayloadError(a.now)))
               == Success(Changed(c, FailClaim(InvalidPayloadError(a.now)))))
  {
    var c := ClaimedCopy(s.rows[a.k], a.token, a.owner, LeaseEnd(a.now, a.leaseSeconds));
    assert RowOk(s, a.k, s.rows[a.k]);
    KeepsInv(s, a);
    if !HasReminder(s.reminders, c) {
      ValidityRefusesExactly(c, a.token, FailClaim(InvalidPayloadError(a.now)));
      assert s.rows[a.k := c][a.k := Changed(c, FailClaim(InvalidPayloadError(a.now)))]
             == s.rows[a.k := Changed(c, FailClaim(InvalidPayloadError(a.now)))];
    }
  }

  /** The worker's claimed message is the one its task holds, and names its row. */
  ghost predicate HoldsMessage(s: Sys, t: nat, message: Message) {
    && t in s.tasks && s.tasks[t].Holding? && s.tasks[t].m == message
    && Names(s.rows, s.tasks[t].k, message.tenant, message.id)
  }

  /** The claim transaction's steps: the i-th chosen row by the i-th task under the i-th token. */
  datatype Claims = Claims(chosen: seq<RowKey>, now: Instant, token: nat -> string, owner: string, leaseSeconds: nat,
                           firstTask: nat) {
    function Step(i: nat): Action
      requires i < |chosen|
    {
      Action.Claim(firstTask + i, chosen[i], now, token(i), owner, leaseSeconds)
    }

    function Steps(n: nat): seq<Action>
      requires n <= |chosen|
    {
      seq(n, i requires 0 <= i < |chosen| => Step(i))
    }

    predicate RowReady(s: Sys, i: nat)
      requires i < |chosen|
    {
      chosen[i] in s.rows && s.rows[chosen[i]].event.eventType == REMINDER_NOTIFICATION
      && Claimable(s.rows[chosen[i]], now)
    }

    predicate TokenNew(s: Sys, i: nat) {
      token(i) != "" && token(i) !in s.usedTokens
    }

    predicate TokensDiffer(i: nat, j: nat) {
      i != j ==> token(i) != token(j)
    }

    predicate TaskBefore(i: nat, t: nat) {
      t < firstTask + i
    }

    /** The chosen rows can be claimed, and the tokens and tasks are new. */
    ghost predicate Ready(s: Sys) {
      && owner != "" && leaseSeconds >= 1 && AllDifferent(chosen)
      && (|chosen| > 0 ==> LeaseEnd(now, leaseSeconds) <= DATETIME_MAX)
      && (forall i {:trigger RowReady(s, i)} :: 0 <= i < |chosen| ==> RowReady(s, i))
      && (forall i, j {:trigger TokensDiffer(i, j)} :: TokensDiffer(i, j))
      && After(s, s, 0)
    }

    /** After the first `i` of them: later tokens and tasks are still new. */
    ghost predicate After(s: Sys, si: Sys, i: nat) {
      && i <= |chosen| && Inv(si) && si == Run(s, Steps(i))
      && (forall j {:trigger TokenNew(si, j)} :: i <= j ==> TokenNew(si, j))
      && (forall t {:trigger TaskBefore(i, t)} :: t in si.tasks ==> TaskBefore(i, t))
    }

    lemma NextIsEnabled(s: Sys, si: Sys, i: nat)
      requires Ready(s) && After(s, si, i) && i < |chosen|
      requires chosen[i] in si.rows && chosen[i] in s.rows && si.rows[chosen[i]] == s.rows[chosen[i]]
      ensures Enabled(si, Step(i))
    {
      assert RowReady(s, i) && TokenNew(si, i);
      assert firstTask + i in si.tasks ==> TaskBefore(i, firstTask + i);
    }

    lemma NextIsAfter(s: Sys, si: Sys, i: nat, s': Sys)
      requires Ready(s) && After(s, si, i) && i < |chosen| && s' == Next(si, Step(i))
      requires Inv(s') && s'.usedTokens == si.usedTokens + {token(i)}
      requires forall t :: t in s'.tasks ==> t in si.tasks || t == firstTask + i
      ensures After(s, s', i + 1)
    {
      assert Steps(i + 1) == Steps(i) + [Step(i)];
      RunAppend(s, Steps(i), Step(i));
      forall j | i + 1 <= j ensures TokenNew(s', j) {
        assert TokenNew(si, j) && TokensDiffer(i, j);
      }
      forall t | t in s'.tasks ensures TaskBefore(i + 1, t) {
        assert t in si.tasks ==> TaskBefore(i, t);
      }
    }
  }

  /** A message is in the hands of its own task, one of a range of tasks. */
  ghost predicate HeldAt(s: Sys, held: seq<nat>, messages: seq<Message>, now: Instant, first: nat, bound: nat, j: nat)
    requires j < |held| == |messages|
  {
    HoldsMessage(s, held[j], messages[j]) && s.tasks[held[j]].now == now && first <= held[j] < bound
  }

  predicate TasksDiffer(held: seq<nat>, i: nat, j: nat)
    requires i < |held| && j < |held|
  {
    i != j ==> held[i] != held[j]
  }

  ghost predicate AllHeld(s: Sys, held: seq<nat>, messages: seq<Message>, now: Instant, first: nat, bound: nat) {
    && |held| == |messages|
    && (forall j {:trigger HeldAt(s, held, messages, now, first, bound, j)} ::
         0 <= j < |held| ==> HeldAt(s, held, messages, now, first, bound, j))
    && (forall i, j {:trigger TasksDiffer(held, i, j)} ::
         0 <= i < |held| && 0 <= j < |held| ==> TasksDiffer(held, i, j))
  }

  /** A step on another task, which leaves the ids of rows alone, leaves these tasks holding their messages. */
  lemma StillAllHeld(s: Sys, s': Sys, held: seq<nat>, messages: seq<Message>, now: Instant, first: nat, bound: nat,
                     bound': nat,
                     k: RowKey, final: Message)
    requires AllHeld(s, held, messages, now, first, bound) && k in s.rows && final.id == s.rows[k].id
    requires s'.rows == s.rows[k := final]
    requires forall t :: t < bound && t in s.tasks ==> t in s'.tasks && s'.tasks[t] == s.tasks[t]
    requires bound <= bound'
    ensures AllHeld(s', held, messages, now, first, bound')
  {
    forall j | 0 <= j < |held| ensures HeldAt(s', held, messages, now, first, bound', j) {
      assert HeldAt(s, held, messages, now, first, bound, j);
    }
  }

  lemma OneMoreHeld(s: Sys, held: seq<nat>, messages: seq<Message>, now: Instant, first: nat, t: nat,
                    m: Message)
    requires AllHeld(s, held, messages, now, first, t) && HoldsMessage(s, t, m) && s.tasks[t].now == now && first <= t
    ensures AllHeld(s, held + [t], messages + [m], now, first, t + 1)
  {
    var bound := t + 1;
    forall j | 0 <= j < |held + [t]| ensures HeldAt(s, held + [t], messages + [m], now, first, bound, j) {
      assert j < |held| ==> HeldAt(s, held, messages, now, first, t, j);
    }
    forall i, j | 0 <= i < |held + [t]| && 0 <= j < |held + [t]| ensures TasksDiffer(held + [t], i, j) {
      assert i < |held| && j < |held| ==> TasksDiffer(held, i, j);
      assert i < |held| ==> HeldAt(s, held, messages, now, first, t, i);
      assert j < |held| ==> HeldAt(s, held, messages, now, first, t, j);
    }
  }

  /** What claiming one message has done to the protocol. */
  ghost predicate ClaimedAs(s: Sys, a: Action, message: Message, dispatchable: bool, final: Message)
    requires a.Claim?
  {
    var s' := Next(s, a);
    && s'.rows == s.rows[a.k := final] && final.id == message.id && Inv(s')
    && s'.usedTokens == s.usedTokens + {a.token}
    && s'.tasks == if dispatchable then s.tasks[a.t := Holding(a.k, message, a.now)] else s.tasks
  }

  /** The loop of `_claim` after `i` messages, with the protocol's state and the tasks it has handed out. */
  datatype Loop = Loop(i: nat, si: Sys, rows: Rows, held: seq<nat>, dispatchable: seq<Message>)

  function Advanced(c: Claims, l: Loop, message: Message, ok: bool, final: Message): Loop
    requires l.i < |c.chosen|
  {
    var si, rows := Next(l.si, c.Step(l.i)), l.rows[c.chosen[l.i] := final];
    if ok then Loop(l.i + 1, si, rows, l.held + [c.firstTask + l.i], l.dispatchable + [message])
    else Loop(l.i + 1, si, rows, l.held, l.dispatchable)
  }

  ghost predicate Claiming(s: Sys, c: Claims, copy: seq<Message>, l: Loop) {
    && c.Ready(s) && c.After(s, l.si, l.i) && ClaimedAhead(s, l.si, l.rows, c.chosen, l.i, copy)
    && AllHeld(l.si, l.held, l.dispatchable, c.now, c.firstTask, c.firstTask + l.i)
  }

  /** The next message is the claimed copy of the row that the protocol is about to claim. */
  lemma NextClaim(s: Sys, c: Claims, copy: seq<Message>, l: Loop)
    requires Claiming(s, c, copy, l) && l.i < |c.chosen|
    ensures Inv(l.si) && Enabled(l.si, c.Step(l.i)) && LeaseEnd(c.now, c.leaseSeconds) <= DATETIME_MAX
    ensures var k := c.chosen[l.i];
      k in s.rows && k in l.si.rows && l.si.rows[k] == s.rows[k] && k in l.rows && l.i < |copy|
      && l.rows[k] == copy[l.i]
      && k.tenant == s.rows[k].tenant
  {
    var k := c.chosen[l.i];
    assert RowAhead(s, l.si, l.rows, c.chosen, l.i, copy, l.i);
    c.NextIsEnabled(s, l.si, l.i);
    assert RowOk(l.si, k, l.si.rows[k]);
  }

  lemma ClaimingNext(s: Sys, c: Claims, copy: seq<Message>, l: Loop, ok: bool, final: Message)
    requires Claiming(s, c, copy, l) && l.i < |c.chosen| == |copy|
    requires ClaimedAs(l.si, c.Step(l.i), copy[l.i], ok, final)
    requires c.chosen[l.i] in l.si.rows && copy[l.i].id == l.si.rows[c.chosen[l.i]].id
    requires copy[l.i].tenant == c.chosen[l.i].tenant
    ensures Claiming(s, c, copy, Advanced(c, l, copy[l.i], ok, final))
  {
    hide Next, Inv, Claims.Ready, Claims.After, ClaimedAhead, AllHeld, ClaimedAs;
    AheadAfterClaim(s, c, copy, l, ok, final);
    HeldAfterClaim(c, l, copy[l.i], ok, final);
  }

  lemma AheadAfterClaim(s: Sys, c: Claims, copy: seq<Message>, l: Loop, ok: bool, final: Message)
    requires c.Ready(s) && c.After(s, l.si, l.i) && ClaimedAhead(s, l.si, l.rows, c.chosen, l.i, copy)
    requires l.i < |c.chosen|
    requires ClaimedAs(l.si, c.Step(l.i), copy[l.i], ok, final)
    ensures var l' := Advanced(c, l, copy[l.i], ok, final);
      c.After(s, l'.si, l'.i) && ClaimedAhead(s, l'.si, l'.rows, c.chosen, l'.i, copy)
  {
    var s' := Next(l.si, c.Step(l.i));
    AheadNext(s, l.si, l.rows, c.chosen, l.i, copy, final, s');
    c.NextIsAfter(s, l.si, l.i, s');
  }

  lemma HeldAfterClaim(c: Claims, l: Loop, message: Message, ok: bool, final: Message)
    requires l.i < |c.chosen| && ClaimedAs(l.si, c.Step(l.i), message, ok, final)
    requires AllHeld(l.si, l.held, l.dispatchable, c.now, c.firstTask, c.firstTask + l.i)
    requires c.chosen[l.i] in l.si.rows && message.id == l.si.rows[c.chosen[l.i]].id
    requires message.tenant == c.chosen[l.i].tenant
    ensures var l' := Advanced(c, l, message, ok, final);
      AllHeld(l'.si, l'.held, l'.dispatchable, c.now, c.firstTask, c.firstTask + l'.i)
  {
    hide Next, Inv, HeldAt, TasksDiffer;
    var s', k, t := Next(l.si, c.Step(l.i)), c.chosen[l.i], c.firstTask + l.i;
    if ok {
      StillAllHeld(l.si, s', l.held, l.dispatchable, c.now, c.firstTask, t, t, k, final);
      OneMoreHeld(s', l.held, l.dispatchable, c.now, c.firstTask, t, message);
    } else {
      StillAllHeld(l.si, s', l.held, l.dispatchable, c.now, c.firstTask, t, t + 1, k, final);
    }
  }

  /** The messages after the `i`-th are still in the hands of their tasks once the `i`-th has been dispatched. */
  ghost predicate RestHeld(s: Sys, held: seq<nat>, messages: seq<Message>, now: Instant, first: nat, bound: nat,
                           i: nat) {
    && i <= |held| == |messages|
    && (forall j {:trigger HeldAt(s, held, messages, now, first, bound, j)} ::
         i <= j < |held| ==> HeldAt(s, held, messages, now, first, bound, j))
    && (forall i, j {:trigger TasksDiffer(held, i, j)} ::
         0 <= i < |held| && 0 <= j < |held| ==> TasksDiffer(held, i, j))
  }

  /** The protocol after the claims, and the tasks that hold the messages to dispatch. */
  datatype Handover = Handover(si: Sys, claims: Claims, held: seq<nat>, messages: seq<Message>) {
    /** The first task number that no claim has used. */
    function Bound(): nat {
      claims.firstTask + |claims.chosen|
    }
  }

  ghost predicate Handed(s: Sys, h: Handover, now: Instant) {
    && h.si == Run(s, h.claims.Steps(|h.claims.chosen|))
    && RestHeld(h.si, h.held, h.messages, now, h.claims.firstTask, h.Bound(), 0)
  }

  // ----- one worker's steps leave the other tasks alone -----

  ghost predicate OtherTaskKept(s: Sys, s': Sys, t: nat) {
    t in s.tasks ==> t in s'.tasks && s'.tasks[t] == s.tasks[t]
  }

  /** From `s` to `s'` only task `t` and row `k` have moved, and the row has kept its id. */
  ghost predicate TaskDelta(s: Sys, s': Sys, t: nat, k: RowKey) {
    && k in s.rows && k in s'.rows && s'.rows == s.rows[k := s'.rows[k]] && s'.rows[k].id == s.rows[k].id
    && forall t' {:trigger OtherTaskKept(s, s', t')} :: t' != t ==> OtherTaskKept(s, s', t')
  }

  predicate OfTask(a: Action, t: nat) {
    (a.Proceed? || a.Send? || a.Receive? || a.Record?) && a.t == t
  }

  /** The steps belong to one of these tasks. */
  predicate OfSome(a: Action, tasks: seq<nat>) {
    (a.Proceed? || a.Send? || a.Receive? || a.Record?) && a.t in tasks
  }

  lemma TaskStep(s: Sys, a: Action, t: nat)
    requires Inv(s) && OfTask(a, t) && Enabled(s, a)
    ensures TaskDelta(s, Next(s, a), t, s.tasks[t].k) && Inv(Next(s, a))
  {
    hide Next, Transaction, RowOk, TokenFate, Verdict, Requestable;
    KeepsInv(s, a);
    assert TaskOk(s, s.tasks[t]);
    if Transaction(s, a).Success? {
      Effect(s, a);
      OnlyOwnTask(s, a);
    } else {
      NotCommitted(s, a);
    }
  }

  lemma TaskSteps(s: Sys, s1: Sys, s2: Sys, t: nat, k: RowKey)
    requires TaskDelta(s, s1, t, k) && TaskDelta(s1, s2, t, k)
    ensures TaskDelta(s, s2, t, k)
  {
    forall t' | t' != t ensures OtherTaskKept(s, s2, t') {
      assert OtherTaskKept(s, s1, t') && OtherTaskKept(s1, s2, t');
    }
  }

  lemma RestStillHeld(s: Sys, s': Sys, held: seq<nat>, messages: seq<Message>, now: Instant, first: nat, bound: nat,
                      i: nat, k: RowKey)
    requires RestHeld(s, held, messages, now, first, bound, i) && i < |held| && TaskDelta(s, s', held[i], k)
    ensures RestHeld(s', held, messages, now, first, bound, i + 1)
  {
    forall j | i + 1 <= j < |held| ensures HeldAt(s', held, messages, now, first, bound, j) {
      assert HeldAt(s, held, messages, now, first, bound, j) && TasksDiffer(held, i, j)
             && OtherTaskKept(s, s', held[j]);
    }
  }

  lemma {:induction false} RunKeepsInv(s: Sys, steps: seq<Action>)
    requires Inv(s)
    ensures Inv(Run(s, steps))
    decreases |steps|
  {
    if steps != [] {
      KeepsInv(s, steps[0]);
      RunKeepsInv(Next(s, steps[0]), steps[1..]);
    }
  }

  /** Sweeping uses no token and starts no task. */
  lemma StillReady(s: Sys, s1: Sys, none: Claims)
    requires none.Ready(s) && none.chosen == [] && Inv(s1) && s1.tasks == s.tasks && s1.usedTokens == s.usedTokens
    ensures none.Ready(s1)
  {
    forall j: nat ensures none.TokenNew(s1, j) {
      assert none.TokenNew(s, j);
    }
    forall t | t in s1.tasks ensures none.TaskBefore(0, t) {
      assert none.TaskBefore(0, t);
    }
  }

  lemma {:induction false} RunConcat(s: Sys, a: seq<Action>, b: seq<Action>)
    ensures Run(s, a + b) == Run(Run(s, a), b)
    decreases |a|
  {
    if a == [] {
      assert a + b == b;
    } else {
      assert (a + b)[1..] == a[1..] + b;
      RunConcat(Next(s, a[0]), a[1..], b);
    }
  }

  /** The status in which a worker's first transaction leaves the row, when it commits. */
  lemma ProceedOutcome(s: Sys, a: Action, message: Message)
    requires Inv(s) && a.Proceed? && HoldsMessage(s, a.t, message)
    ensures var k := s.tasks[a.t].k; var s' := Next(s, a);
      Transaction(s, a).Success? ==>
        && k in s'.rows && s'.rows[k] == Changed(message, ProceedChange(s.tasks[a.t], a.approved, a.clock))
        && (a.approved && Requestable(message.event) ==> s'.rows[k].attempts == message.attempts + 1)
  {
    if Transaction(s, a).Success? {
      ProceedEffect(s, a);
    }
  }

  lemma SendingCounts(s: Sys, t: nat, message: Message, a: Action)
    requires Inv(s) && HoldsMessage(s, t, message) && a.Proceed? && a.t == t && Transaction(s, a).Success?
    ensures s.rows[s.tasks[t].k] == message
  {
    ProceedEffect(s, a);
  }

  lemma SendNext(s: Sys, t: nat)
    requires t in s.tasks && s.tasks[t].Confirmed?
    ensures var task := s.tasks[t];
      Next(s, Send(t)) == s.(tasks := s.tasks[t := Awaiting(task.k, task.m)],
                             log := s.log + [Sent(task.k, task.m.attempts, RequestFor(task.m))])
  {}

  lemma ReceiveNext(s: Sys, t: nat, answer: DispatchProtocol.Answer)
    requires t in s.tasks && s.tasks[t].Awaiting? && (answer.Answered? ==> LegalResult(answer.result))
    ensures var task := s.tasks[t];
      Next(s, Receive(t, answer)) == s.(tasks := s.tasks[t := Replied(task.k, task.m, answer)],
        log := s.log + [Entry.Answer(task.k, task.m.attempts, Verdict(task.m, answer))])
  {}

  /** Sending and hearing back touch no store. */
  lemma SendAndReceive(s: Sys, t: nat, answer: DispatchProtocol.Answer) returns (s2: Sys)
    requires Inv(s) && t in s.tasks && s.tasks[t].Confirmed? && (answer.Answered? ==> LegalResult(answer.result))
    ensures s2 == Run(s, [Send(t), Receive(t, answer)]) && Inv(s2) && TaskDelta(s, s2, t, s.tasks[t].k)
    ensures s2.rows == s.rows && s2.reminders == s.reminders
    ensures Requests(s2.log) == Requests(s.log) + [RequestFor(s.tasks[t].m)]
    ensures t in s2.tasks && s2.tasks[t] == Replied(s.tasks[t].k, s.tasks[t].m, answer)
    ensures Names(s2.rows, s.tasks[t].k, s.tasks[t].m.tenant, s.tasks[t].m.id)
  {
    hide Next, Transaction, RowOk, TaskDelta, Requests, Verdict;
    SendNext(s, t);
    var s1 := Next(s, Send(t));
    ReceiveNext(s1, t, answer);
    s2 := Next(s1, Receive(t, answer));
    assert TaskOk(s, s.tasks[t]);
    TaskStep(s, Send(t), t);
    TaskStep(s1, Receive(t, answer), t);
    TaskSteps(s, s1, s2, t, s.tasks[t].k);
    StepSends(s, Send(t));
    StepSends(s1, Receive(t, answer));
    RunAppend(s, [], Send(t));
    RunAppend(s, [Send(t)], Receive(t, answer));
  }

  function ClaimOp(tenant: string, none: Claims, limit: nat): OutboxRuns.Op {
    OutboxRuns.Op.Claim(tenant, none.now, limit, none.owner, none.leaseSeconds, Some(REMINDER_NOTIFICATION), none.token)
  }

  lemma TokensAreUsable(none: Claims, s: Sys)
    requires none.Ready(s)
    ensures forall i :: none.token(i) != ""
  {
    forall i: nat ensures none.token(i) != "" {
      assert none.TokenNew(s, i);
    }
  }

  lemma FailedClaim(s: Sys, tenant: string, none: Claims, limit: nat, r: Result<seq<Message>, StoreError>, rows: Rows)
    requires OutboxRuns.ClaimDone(s.rows, ClaimOp(tenant, none, limit), r, rows) && r.Failure?
    ensures rows == s.rows && r == Failure(Overflow)
  {}

  /** The claimed messages as claims of the protocol, none of them made yet. */
  lemma ClaimSetup(s: Sys, tenant: string, none: Claims, limit: nat, messages: seq<Message>,
                   rows: Rows) returns (c: Claims)
    requires OutboxRuns.ClaimDone(s.rows, ClaimOp(tenant, none, limit), Success(messages), rows)
    requires none.Ready(s) && none.chosen == []
    ensures c == none.(chosen := c.chosen) && |messages| == |c.chosen|
    ensures FirstOf(s.rows, ClaimableKeys(s.rows, tenant, Some(REMINDER_NOTIFICATION), none.now), limit, c.chosen)
    ensures Claiming(s, c, messages, Loop(0, s, rows, [], []))
    ensures forall i :: 0 <= i < |messages| ==>
      c.chosen[i] in s.rows
      && messages[i] == ClaimedCopy(s.rows[c.chosen[i]], c.token(i), c.owner, LeaseEnd(c.now, c.leaseSeconds))
  {
    var eligible := ClaimableKeys(s.rows, tenant, Some(REMINDER_NOTIFICATION), none.now);
    var until := LeaseEnd(none.now, none.leaseSeconds);
    var chosen :| FirstOf(s.rows, eligible, limit, chosen)
                  && ClaimOutcome(s.rows, chosen, none.token, none.owner, until, Success(messages), rows);
    c := none.(chosen := chosen);
    ChosenAreReady(s, c, tenant, limit);
    AheadAtStart(s, rows, chosen, c.token, c.owner, until, messages);
  }

  lemma ClaimFinish(s: Sys, c: Claims, messages: seq<Message>, l: Loop) returns (h: Handover)
    requires Claiming(s, c, messages, l) && l.i == |c.chosen|
    ensures h == Handover(l.si, c, l.held, l.dispatchable)
    ensures l.si.rows == l.rows && Inv(l.si) && Handed(s, h, c.now)
  {
    AheadAtEnd(s, l.si, l.rows, c.chosen, messages);
    h := Handover(l.si, c, l.held, l.dispatchable);
  }

  lemma ChosenAreReady(s: Sys, c: Claims, tenant: string, limit: nat)
    requires Claims([], c.now, c.token, c.owner, c.leaseSeconds, c.firstTask).Ready(s)
    requires FirstOf(s.rows, ClaimableKeys(s.rows, tenant, Some(REMINDER_NOTIFICATION), c.now), limit, c.chosen)
    requires |c.chosen| > 0 ==> LeaseEnd(c.now, c.leaseSeconds) <= DATETIME_MAX
    ensures c.Ready(s) && AllHeld(s, [], [], c.now, c.firstTask, c.firstTask)
  {
    var none := Claims([], c.now, c.token, c.owner, c.leaseSeconds, c.firstTask);
    FirstOfDistinct(s.rows, ClaimableKeys(s.rows, tenant, Some(REMINDER_NOTIFICATION), c.now), limit, c.chosen);
    forall i | 0 <= i < |c.chosen| ensures c.RowReady(s, i) {
      assert c.chosen[i] in ClaimableKeys(s.rows, tenant, Some(REMINDER_NOTIFICATION), c.now);
    }
    forall i, j ensures c.TokensDiffer(i, j) {
      assert none.TokensDiffer(i, j);
    }
    forall j: nat ensures c.TokenNew(s, j) {
      assert none.TokenNew(s, j);
    }
    forall t | t in s.tasks ensures c.TaskBefore(0, t) {
      assert none.TaskBefore(0, t);
    }
  }

  // ----- ids -----

  function Ids(messages: seq<Message>): seq<string> {
    seq(|messages|, i requires 0 <= i < |messages| => messages[i].id)
  }

  function IdsOf(rows: Rows, chosen: seq<RowKey>): seq<string>
    requires forall i :: 0 <= i < |chosen| ==> chosen[i] in rows
  {
    seq(|chosen|, i requires 0 <= i < |chosen| => rows[chosen[i]].id)
  }

  predicate NoRepeats(s: seq<string>) {
    forall i, j :: 0 <= i < j < |s| ==> s[i] != s[j]
  }

  lemma RearrangedHasNoRepeats(a: seq<string>, b: seq<string>)
    requires multiset(a) == multiset(b) && NoRepeats(b)
    ensures NoRepeats(a)
  {
    forall i, j | 0 <= i < j < |a| ensures a[i] != a[j] {
      if a[i] == a[j] {
        assert a == a[..j] + a[j..];
        assert a[i] in a[..j] && a[j] in a[j..];
        assert multiset(a) == multiset(a[..j]) + multiset(a[j..]);
        AtMostOnce(b, a[i]);
      }
    }
  }

  lemma {:induction false} AtMostOnce(b: seq<string>, x: string)
    requires NoRepeats(b)
    ensures multiset(b)[x] <= 1
  {
    if b != [] {
      var n := |b| - 1;
      AtMostOnce(b[..n], x);
      assert b == b[..n] + [b[n]];
      assert x in b[..n] ==> b[n] != x;
    }
  }

  /** The messages so far have been dealt out to the two lists. */
  ghost predicate DealtOut(messages: seq<Message>, i: nat, a: seq<Message>, b: seq<Message>) {
    i <= |messages| && multiset(Ids(a) + Ids(b)) == multiset(Ids(messages[..i]))
  }

  lemma DealNext(messages: seq<Message>, i: nat, a: seq<Message>, b: seq<Message>, m: Message)
    requires DealtOut(messages, i, a, b) && i < |messages| && m.id == messages[i].id
    ensures DealtOut(messages, i + 1, a + [m], b) && DealtOut(messages, i + 1, a, b + [m])
  {
    assert messages[..i + 1] == messages[..i] + [messages[i]];
    assert Ids(messages[..i + 1]) == Ids(messages[..i]) + [m.id];
    assert Ids(a + [m]) == Ids(a) + [m.id] && Ids(b + [m]) == Ids(b) + [m.id];
    assert Ids(a) + (Ids(b) + [m.id]) == (Ids(a) + Ids(b)) + [m.id];
  }

  /** The claimed messages, each of a different row, are dealt out between the two lists. */
  ghost predicate ClaimedFrom(s: Sys, chosen: seq<RowKey>, dispatchable: seq<Message>, prefailed: seq<Message>) {
    && (forall i :: 0 <= i < |chosen| ==> chosen[i] in s.rows)
    && multiset(Ids(dispatchable) + Ids(prefailed)) == multiset(IdsOf(s.rows, chosen))
  }

  /** The ids of different rows of one tenant differ. */
  lemma ChosenIdsDiffer(rows: Rows, eligible: set<RowKey>, limit: nat, chosen: seq<RowKey>, tenant: string)
    requires IdsUnique(rows) && FirstOf(rows, eligible, limit, chosen)
    requires forall k :: k in eligible ==> k in rows && k.tenant == tenant
    ensures forall i :: 0 <= i < |chosen| ==> chosen[i] in rows
    ensures NoRepeats(IdsOf(rows, chosen))
  {
    FirstOfDistinct(rows, eligible, limit, chosen);
    forall i, j | 0 <= i < j < |chosen| ensures IdsOf(rows, chosen)[i] != IdsOf(rows, chosen)[j] {
      assert Apart(rows, chosen[i], chosen[j]);
    }
  }

  // ----- what the provider was sent -----

  /** The requests in a log, in order. */
  function Requests(log: seq<Entry>): seq<Request> {
    if log == [] then []
    else
      var last := log[|log| - 1];
      Requests(log[..|log| - 1]) + if last.Sent? then [last.request] else []
  }

  lemma {:induction false} RequestsConcat(a: seq<Entry>, b: seq<Entry>)
    ensures Requests(a + b) == Requests(a) + Requests(b)
    decreases |b|
  {
    if b == [] {
      assert a + b == a;
    } else {
      var n := |b| - 1;
      RequestsConcat(a, b[..n]);
      assert (a + b)[..|a + b| - 1] == a + b[..n];
    }
  }

  /** Only a `Send` step adds a send to the log, and it adds its task's request. */
  lemma StepSends(s: Sys, a: Action)
    requires Inv(s)
    ensures Requests(Next(s, a).log) == Requests(s.log) +
      if a.Send? && Enabled(s, a) then [RequestFor(s.tasks[a.t].m)] else []
  {
    LogGrows(s, a);
    var e := Entries(s, a);
    RequestsConcat(s.log, e);
    assert |e| <= 1;
    if |e| == 1 {
      assert e[..0] == [];
    }
  }

  lemma {:induction false} QuietRun(s: Sys, steps: seq<Action>)
    requires Inv(s) && forall i :: 0 <= i < |steps| ==> !steps[i].Send?
    ensures Requests(Run(s, steps).log) == Requests(s.log)
    decreases |steps|
  {
    if steps != [] {
      StepSends(s, steps[0]);
      KeepsInv(s, steps[0]);
      QuietRun(Next(s, steps[0]), steps[1..]);
    }
  }
}
