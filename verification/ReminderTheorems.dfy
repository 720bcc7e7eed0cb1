/** What reminder creation promises over every interleaving of runs, aborts and uncertain commits. */
module ReminderTheorems {
  import opened Wrappers
  import opened WorkflowStates
  import opened ReminderCreation
  import opened CreationLaws
  import Delivery

  // ----- none or all four effects -----

  function Done(st: Store): set<RowKey> {
    set k | k in st.states && st.states[k].status == Completed
  }

  predicate EndsWith(k: RowKey, suffix: string) {
    |k.idempotencyKey| >= |suffix| && k.idempotencyKey[|k.idempotencyKey| - |suffix|..] == suffix
  }

  /** The identity whose effect a suffixed key belongs to. */
  function Owner(k: RowKey, suffix: string): RowKey
    requires EndsWith(k, suffix)
  {
    Delivery.RowKey(k.tenant, k.idempotencyKey[..|k.idempotencyKey| - |suffix|])
  }

  lemma OwnerOfSuffixed(k: RowKey, suffix: string)
    ensures EndsWith(Suffixed(k, suffix), suffix) && Owner(Suffixed(k, suffix), suffix) == k
  {
    var key := k.idempotencyKey + suffix;
    assert key[..|key| - |suffix|] == k.idempotencyKey;
  }

  predicate OwnedBy(done: set<RowKey>, suffix: string, k: RowKey) {
    EndsWith(k, suffix) && Owner(k, suffix) in done
  }

  /** A store holds exactly one row for each finished identity, under that identity's key, and no other row. */
  ghost predicate OneRowEach<V>(shelf: Shelf<V>, done: set<RowKey>, suffix: string) {
    && (forall k {:trigger Suffixed(k, suffix)} :: k in done ==> Suffixed(k, suffix) in shelf.rows)
    && (forall k {:trigger OwnedBy(done, suffix, k)} :: k in shelf.rows ==> OwnedBy(done, suffix, k))
  }

  ghost predicate Indexed<V>(shelf: Shelf<V>, suffix: string) {
    forall id :: id in shelf.keyById ==> shelf.keyById[id] == Suffixed(id.identity, suffix)
  }

  /** The stored reply goes with the stored reason. */
  predicate NamesReply(data: Data) {
    var reason := StoredReason(data);
    && Get(data, "clarification_reason") == Some(Text(ReasonText(reason)))
    && Get(data, "clarification_reply_id") == Some(Text(ReplyId(reason)))
    && Get(data, "clarification_reply_version") == Some(Text(REPLY_VERSION))
  }

  /** A state is at one of the four stages of a run, with the data that a replay reports. */
  predicate Stage(s: WorkflowState) {
    match s.status
    case Running => s.step == CLASSIFY
    case WaitingApproval => s.step == APPROVAL_REQUIRED || (s.step == NEEDS_CLARIFICATION && NamesReply(s.data))
    case Completed => ReplayReport(s) == Some(CreatedReport(KeyOf(s), true))
    case _ => false
  }

  lemma ClarificationStage(s: WorkflowState, reason: Reason)
    requires s.status == WaitingApproval && s.step == NEEDS_CLARIFICATION
    requires forall field :: field in ClarificationData(reason) ==>
      field in s.data && s.data[field] == ClarificationData(reason)[field]
    ensures Stage(s) && ReplayReport(s) == Some(ClarificationReport(reason, true))
  {
    ReasonRoundTrip(reason);
    var data := ClarificationData(reason);
    assert "clarification_reason" in data && "clarification_reply_id" in data && "clarification_reply_version" in data;
    var needs, required := NEEDS_CLARIFICATION, APPROVAL_REQUIRED;
    assert needs[0] != required[0];
  }

  predicate StageOk(st: Store, k: RowKey)
    requires k in st.states
  {
    KeyOf(st.states[k]) == k && Stage(st.states[k])
  }

  ghost predicate StatesOk(st: Store) {
    Valid(st) && forall k {:trigger StageOk(st, k)} :: k in st.states ==> StageOk(st, k)
  }

  ghost predicate EffectsMatch(st: Stores, done: set<RowKey>) {
    && OneRowEach(st.calendar, done, ":calendar") && Indexed(st.calendar, ":calendar")
    && OneRowEach(st.scheduler, done, ":notify") && Indexed(st.scheduler, ":notify")
    && OneRowEach(st.events, done, ":created") && Indexed(st.events, ":created")
    && OneRowEach(st.outbox, done, ":outbox") && Indexed(st.outbox, ":outbox")
  }

  ghost predicate StoresOk(st: Stores) {
    StatesOk(st.states) && EffectsMatch(st, Done(st.states))
  }

  /** A finished identity's row is there, an unfinished one's is not. */
  lemma RowIffDone<V>(shelf: Shelf<V>, done: set<RowKey>, suffix: string, k: RowKey)
    requires OneRowEach(shelf, done, suffix)
    ensures Suffixed(k, suffix) in shelf.rows <==> k in done
  {
    OwnerOfSuffixed(k, suffix);
    if Suffixed(k, suffix) in shelf.rows {
      assert OwnedBy(done, suffix, Suffixed(k, suffix));
    }
  }

  /** The first write for an identity always succeeds and adds its one row. */
  lemma PlaceFresh<V>(shelf: Shelf<V>, done: set<RowKey>, suffix: string, k: RowKey, ids: set<EffectId>, v: V)
    requires OneRowEach(shelf, done, suffix) && Indexed(shelf, suffix) && k !in done
    requires forall id :: id in ids ==> id.identity == k
    ensures var r := Placed(shelf, Suffixed(k, suffix), ids, v);
      && r.Success? && r.value.rows == shelf.rows[Suffixed(k, suffix) := v]
      && OneRowEach(r.value, done + {k}, suffix) && Indexed(r.value, suffix)
  {
    RowIffDone(shelf, done, suffix, k);
    OwnerOfSuffixed(k, suffix);
    var shelf' := Placed(shelf, Suffixed(k, suffix), ids, v).value;
    forall k' | k' in shelf'.rows ensures OwnedBy(done + {k}, suffix, k') {
      assert k' in shelf.rows ==> OwnedBy(done, suffix, k');
    }
  }

  /** Just the four rows of one creation were added. */
  ghost predicate RowsAdded(st: Stores, st': Stores, q: Request, e: Extraction, body: string, minutes: nat) {
    && st'.calendar.rows == st.calendar.rows[CalendarKey(q.k) := CalendarRow(q, e)]
    && st'.scheduler.rows == st.scheduler.rows[NotifyKey(q.k) := ReminderRow(q, e, body, minutes)]
    && st'.events.rows == st.events.rows[CreatedKey(q.k) := CreatedRow(q, e, minutes)]
    && st'.outbox.rows == st.outbox.rows[OutboxKey(q.k) := MessageRow(q, e, body, minutes)]
  }

  /** An identity without effects gets all four: no write of the transaction can meet a conflict. */
  lemma EffectsSucceed(st: Stores, done: set<RowKey>, q: Request, e: Extraction, body: string, minutes: nat)
    requires EffectsMatch(st, done) && q.k !in done
    ensures var r := Effects(st, q, e, body, minutes);
      && r.Success? && EffectsMatch(r.value, done + {q.k}) && r.value.states == st.states
      && RowsAdded(st, r.value, q, e, body, minutes)
  {
    PlaceFresh(st.calendar, done, ":calendar", q.k, {EffectId(CalendarEventId, q.k)}, CalendarRow(q, e));
    PlaceFresh(st.scheduler, done, ":notify", q.k, {EffectId(ReminderId, q.k)}, ReminderRow(q, e, body, minutes));
    PlaceFresh(st.events, done, ":created", q.k, {EffectId(ReminderCreatedId, q.k)}, CreatedRow(q, e, minutes));
    PlaceFresh(st.outbox, done, ":outbox", q.k,
               {EffectId(OutboxMessageId, q.k), EffectId(NotificationRequestedId, q.k)},
               MessageRow(q, e, body, minutes));
  }

  // ----- registering and upserting a reminder state -----

  /** The stored state of an identity, if any. */
  function At(st: Store, k: RowKey): Option<WorkflowState> {
    if k in st.states then Some(st.states[k]) else None
  }

  /** A registration is fresh on a missing state, resumes a draft waiting for approval, and otherwise replays. */
  lemma RegistrationCases(st: Store, q: Request, resume: Option<string>, now: Instant)
    requires StatesOk(st) && (resume == None || resume == Some(APPROVAL_REQUIRED))
    ensures var (r, st') := Registered(st, q.k.tenant, InitialState(q, now), resume, now);
      r.Success? ==>
        && Valid(st') && st'.states == st.states[q.k := r.value.state]
        && KeyOf(r.value.state) == q.k && r.value.state.payloadFingerprint == Some(q.fingerprint)
        && (if At(st, q.k).None? then !ReplayEnds(r.value) && r.value.state == InitialState(q, now)
            else if resume.Some? && AtApproval(st.states[q.k]) then
              !ReplayEnds(r.value) && r.value.state == Transitioned(st.states[q.k], Some(Running), None, map[], now)
            else ReplayEnds(r.value) && st' == st && r.value.state == st.states[q.k])
  {
    var op := Register(q.k.tenant, InitialState(q, now), resume, now);
    ApplyEffect(st, op);
    assert q.k in st.states ==> StageOk(st, q.k);
  }

  /** An unfinished state may be replaced under its own identity. */
  lemma UpsertOwn(st: Store, s: WorkflowState)
    requires Valid(st) && KeyOf(s) in st.states
    requires var existing := st.states[KeyOf(s)];
      !Terminal(existing) && existing.workflowId == s.workflowId && existing.workflowType == s.workflowType
      && existing.payloadFingerprint == s.payloadFingerprint
    ensures var (r, st') := Upserted(st, s.tenant, s);
      r == Success(s) && st'.states == st.states[KeyOf(s) := s] && Valid(st')
  {
    assert StateIndexed(st, KeyOf(s));
    PutKeepsValid(st, s);
  }

  lemma PutKeepsStages(st: Store, k: RowKey, s: WorkflowState, st': Store)
    requires StatesOk(st) && Valid(st') && st'.states == st.states[k := s] && KeyOf(s) == k && Stage(s)
    ensures StatesOk(st')
    ensures s.status == Completed ==> Done(st') == Done(st) + {k}
    ensures s.status != Completed && k !in Done(st) ==> Done(st') == Done(st)
  {
    forall k' | k' in st'.states ensures StageOk(st', k') {
      assert k' in st.states ==> StageOk(st, k');
    }
  }

  // ----- the transaction -----

  /** What a transaction that gets through has done to its identity, and that it has done nothing else. */
  ghost predicate Committed(st: Stores, q: Request, extraction: Option<Extraction>, body: string, defaultMinutes: nat,
                            c: Commit)
  {
    match c.ended
    case Replayed(status) =>
      c.stores == st && At(st.states, q.k).Some? && !AtApproval(st.states.states[q.k])
      && st.states.states[q.k].status == status && ReplayReport(st.states.states[q.k]) == Some(c.report)
    case Clarified =>
      && extraction.None? && Startable(st, q.k) && c.stores == st.(states := c.stores.states)
      && q.k in c.stores.states.states && c.stores.states.states == st.states.states[q.k := c.stores.states.states[q.k]]
      && c.stores.states.states[q.k].status == WaitingApproval
      && c.stores.states.states[q.k].step == NEEDS_CLARIFICATION && Repeats(c.stores.states.states[q.k], c.report)
    case Created =>
      && extraction.Some? && Startable(st, q.k)
      && q.k in c.stores.states.states && c.stores.states.states == st.states.states[q.k := c.stores.states.states[q.k]]
      && c.stores.states.states[q.k].status == Completed && Repeats(c.stores.states.states[q.k], c.report)
      && var minutes := NoticeMinutes(extraction.value, defaultMinutes);
         && RowsAdded(st, c.stores, q, extraction.value, body, minutes)
         && StateShows(c.stores.states.states[q.k], q, extraction.value, extraction.value.startsAt - minutes * MINUTE)
  }

  /** A replay of the state will report the same again, marked as reused. */
  predicate Repeats(s: WorkflowState, report: Report) {
    !report.reused && ReplayReport(s) == Some(report.(reused := true))
  }

  predicate Startable(st: Stores, k: RowKey) {
    k !in st.states.states || AtApproval(st.states.states[k])
  }

  predicate RegistrationFails(st: Stores, q: Request, now: Instant) {
    Registered(st.states, q.k.tenant, InitialState(q, now), Some(APPROVAL_REQUIRED), now).0.Failure?
  }

  /** What a registration that lets the run go on leaves to it. */
  ghost predicate Ready(st: Stores, q: Request, st1: Stores, state: WorkflowState) {
    && StoresOk(st) && Startable(st, q.k) && st1 == st.(states := st1.states) && Valid(st1.states)
    && st1.states.states == st.states.states[q.k := state] && KeyOf(state) == q.k && !Terminal(state)
  }

  lemma ReadyUpserts(st: Stores, q: Request, st1: Stores, state: WorkflowState, s: WorkflowState)
    requires Ready(st, q, st1, state) && Stage(s) && KeyOf(s) == q.k
    requires s.workflowId == state.workflowId && s.workflowType == state.workflowType
      && s.payloadFingerprint == state.payloadFingerprint
    ensures var (r, states) := Upserted(st1.states, s.tenant, s);
      && r == Success(s) && states.states == st.states.states[q.k := s] && StatesOk(states)
      && Done(states) == if s.status == Completed then Done(st.states) + {q.k} else Done(st.states)
  {
    UpsertOwn(st1.states, s);
    PutKeepsStages(st.states, q.k, s, Upserted(st1.states, s.tenant, s).1);
  }

  lemma ClarifyCommits(st: Stores, q: Request, st1: Stores, state: WorkflowState, reason: Reason, body: string,
                       defaultMinutes: nat, now: Instant)
    requires Ready(st, q, st1, state)
    ensures var r := Clarify(st1, state, reason, now);
      r.Success? && StoresOk(r.value.stores) && Committed(st, q, None, body, defaultMinutes, r.value)
  {
    var waiting := Transitioned(state, Some(WaitingApproval), Some(NEEDS_CLARIFICATION), ClarificationData(reason),
                                now);
    ClarificationStage(waiting, reason);
    ReadyUpserts(st, q, st1, state, waiting);
  }

  lemma CompletedStage(q: Request, e: Extraction, state: WorkflowState, minutes: nat, now: Instant)
    requires KeyOf(state) == q.k
    ensures var s := CompletedState(q, e, state, minutes, now);
      && s.status == Completed && KeyOf(s) == q.k && Stage(s) && ReplayReport(s) == Some(CreatedReport(q.k, true))
      && s.workflowId == state.workflowId && s.workflowType == state.workflowType
      && s.payloadFingerprint == state.payloadFingerprint
  {
    var data := CompletedData(q, e, e.startsAt - minutes * MINUTE);
    assert "calendar_event_id" in data && "reminder_id" in data;
  }

  lemma CreateCommits(st: Stores, q: Request, e: Extraction, st1: Stores, state: WorkflowState, body: string,
                      defaultMinutes: nat, now: Instant)
    requires Ready(st, q, st1, state)
    ensures var r := CreateAll(st1, q, e, state, body, NoticeMinutes(e, defaultMinutes), now);
      r.Success? && StoresOk(r.value.stores) && Committed(st, q, Some(e), body, defaultMinutes, r.value)
  {
    hide NoticeMinutes, StateShows, CompletedState, Effects, OneRowEach, Indexed, Stage, ReplayReport;
    var minutes := NoticeMinutes(e, defaultMinutes);
    EffectsSucceed(st1, Done(st.states), q, e, body, minutes);
    RowIffDone(st1.calendar, Done(st.states), ":calendar", q.k);
    CompletedStage(q, e, state, minutes, now);
    StateIsShown(q, e, state, minutes, now);
    ReadyUpserts(st, q, st1, state, CompletedState(q, e, state, minutes, now));
  }

  /** A registration either ends the run with a report and changes nothing, or leaves its state ready for the writes. */
  lemma RegistrationReadies(st: Stores, q: Request, now: Instant)
    requires StoresOk(st) && !RegistrationFails(st, q, now)
    ensures var (r, states) := Registered(st.states, q.k.tenant, InitialState(q, now), Some(APPROVAL_REQUIRED), now);
      if ReplayEnds(r.value)
      then states == st.states && At(st.states, q.k) == Some(r.value.state) && !AtApproval(r.value.state)
           && ReplayReport(r.value.state).Some?
      else Ready(st, q, st.(states := states), r.value.state)
  {
    RegistrationCases(st.states, q, Some(APPROVAL_REQUIRED), now);
    assert q.k in st.states.states ==> StageOk(st.states, q.k);
    hide EffectsMatch, Registered, NamesReply, ExtractionOf;
  }

  /** A transaction fails only in its registration or in the reply scan, never in a write; otherwise it keeps every
      identity at none or all four effects. */
  lemma TransactionKeepsStores(st: Stores, q: Request, extraction: Option<Extraction>, reason: Reason, body: string,
                               blocked: bool, defaultMinutes: nat, now: Instant)
    requires StoresOk(st)
    ensures var r := Transaction(st, q, extraction, reason, body, blocked, defaultMinutes, now);
      && (r.Failure? <==> RegistrationFails(st, q, now) || blocked)
      && (r.Success? ==> StoresOk(r.value.stores) && Committed(st, q, extraction, body, defaultMinutes, r.value))
  {
    hide Registered, InitialState, CreateAll, Clarify, Ready, StoresOk, RowsAdded, Startable, ReplayReport, AtApproval;
    if !RegistrationFails(st, q, now) && !blocked {
      RegistrationReadies(st, q, now);
      var (r, states) := Registered(st.states, q.k.tenant, InitialState(q, now), Some(APPROVAL_REQUIRED), now);
      if !ReplayEnds(r.value) {
        if extraction.None? {
          ClarifyCommits(st, q, st.(states := states), r.value.state, reason, body, defaultMinutes, now);
        } else {
          CreateCommits(st, q, extraction.value, st.(states := states), r.value.state, body, defaultMinutes, now);
        }
      }
    }
  }

  // ----- what every step keeps -----

  /** States only move forward: started, waiting for approval, waiting for clarification, completed. */
  function Rank(s: WorkflowState): nat {
    match s.status
    case Pending => 0
    case Running => 0
    case WaitingApproval => if s.step == APPROVAL_REQUIRED then 1 else 2
    case Completed => 3
    case Failed => 3
  }

  /** An elected run still finds the state it registered. */
  predicate ElectedOk(s: Sys, t: nat)
    requires t in s.runs
  {
    s.runs[t].Elected? ==>
      At(s.stores.states, s.runs[t].q.k) == Some(s.runs[t].state) && s.runs[t].state.status == Running
  }

  predicate ElectedApart(s: Sys, t1: nat, t2: nat)
    requires t1 in s.runs && t2 in s.runs
  {
    s.runs[t1].Elected? && s.runs[t2].Elected? && s.runs[t1].q.k == s.runs[t2].q.k ==> t1 == t2
  }

  /** The pre-read state of a prepared run is still there, or has moved forward. */
  predicate PreparedOk(s: Sys, t: nat)
    requires t in s.runs
  {
    s.runs[t].Prepared? && s.runs[t].seen.Some? ==>
      var k := s.runs[t].q.k; var seen := s.runs[t].seen.value;
      && k in s.stores.states.states
      && (s.stores.states.states[k] == seen || Rank(s.stores.states.states[k]) > Rank(seen))
      && s.runs[t].extraction == ReadExtraction(Some(seen), None)
      && (AtApproval(seen) ==> s.runs[t].extraction.Some?)
  }

  /** A recorded draft is the one the state still waits with, if it still waits for approval. */
  predicate DraftOk(s: Sys, k: RowKey) {
    && (k in s.drafts ==> k in s.stores.states.states && Rank(s.stores.states.states[k]) >= 1)
    && (k in s.stores.states.states && AtApproval(s.stores.states.states[k]) ==>
          k in s.drafts && ExtractionOf(s.stores.states.states[k].data) == Some(s.drafts[k]))
  }

  predicate Finished(st: Stores, k: RowKey) {
    k in st.states.states && st.states.states[k].status == Completed
  }

  predicate MadeOk(s: Sys, k: RowKey) {
    Finished(s.stores, k) ==> k in s.made && WrittenAs(s.stores, k, s.made[k])
  }

  ghost predicate Inv(s: Sys) {
    && StoresOk(s.stores)
    && (forall k {:trigger MadeOk(s, k)} :: MadeOk(s, k))
    && (forall t {:trigger ElectedOk(s, t)} :: t in s.runs ==> ElectedOk(s, t))
    && (forall t1, t2 {:trigger ElectedApart(s, t1, t2)} :: t1 in s.runs && t2 in s.runs ==> ElectedApart(s, t1, t2))
    && (forall t {:trigger PreparedOk(s, t)} :: t in s.runs ==> PreparedOk(s, t))
    && (forall k {:trigger DraftOk(s, k)} :: DraftOk(s, k))
  }

  predicate Writes(s: Sys, a: Action) {
    Enabled(s, a) && (a.Transact? || a.RegisterUnapproved? || a.FinishUnapproved?)
  }

  /** The identity a writing step is about. */
  function Subject(s: Sys, a: Action): RowKey
    requires Writes(s, a)
  {
    if a.RegisterUnapproved? then a.q.k else s.runs[a.t].q.k
  }

  /** One state moved forward, a started one only by the run that was elected for it. */
  predicate MovesForward(st: Store, st': Store, k: RowKey, byElected: bool) {
    && k in st'.states && st'.states == st.states[k := st'.states[k]]
    && (k in st.states ==> Rank(st'.states[k]) > Rank(st.states[k]) && (byElected <==> st.states[k].status == Running))
  }

  /** The next state of a transaction is its commit, if it lands. */
  lemma TransactNext(s: Sys, a: Action)
    requires a.Transact? && Enabled(s, a)
    ensures var s' := Next(s, a); var run := s.runs[a.t];
      if TransactionOf(s, a).Success? && Lands(a.outcome)
      then var c := TransactionOf(s, a).value;
           s' == WithoutRun(s.(stores := c.stores, made := s'.made), a.t)
           && s'.made == if c.ended.Created? && run.extraction.Some?
                         then s.made[run.q.k := Made(run.q, run.extraction.value, a.body, a.defaultMinutes)]
                         else s.made
      else s' == WithoutRun(s, a.t)
  {
    hide TransactionOf;
  }

  /** A transaction that gets through keeps the stores, and did what commits do. */
  lemma TransactCommits(s: Sys, a: Action)
    requires Inv(s) && a.Transact? && Enabled(s, a)
    ensures var run := s.runs[a.t]; var r := TransactionOf(s, a);
      && (r.Failure? <==> RegistrationFails(s.stores, run.q, a.now) || a.blocked)
      && (r.Success? ==> StoresOk(r.value.stores)
                         && Committed(s.stores, run.q, run.extraction, a.body, a.defaultMinutes, r.value))
  {
    hide Transaction, StoresOk, Committed, RegistrationFails;
    var run := s.runs[a.t];
    TransactionKeepsStores(s.stores, run.q, run.extraction, a.reason, a.body, a.blocked, a.defaultMinutes, a.now);
  }

  lemma TransactEffect(s: Sys, a: Action)
    requires Inv(s) && a.Transact? && Enabled(s, a)
    ensures var s' := Next(s, a); var k := Subject(s, a);
      && StoresOk(s'.stores)
      && (s'.stores == s.stores || MovesForward(s.stores.states, s'.stores.states, k, false))
      && (s'.stores == s.stores || Rank(s'.stores.states.states[k]) >= 2)
  {
    hide Next, TransactionOf, StoresOk, Committed, RegistrationFails;
    var run := s.runs[a.t];
    TransactNext(s, a);
    TransactCommits(s, a);
    if TransactionOf(s, a).Success? {
      CommitMoves(s.stores, run.q, run.extraction, a.body, a.defaultMinutes, TransactionOf(s, a).value);
    }
  }

  lemma CommitMoves(st: Stores, q: Request, extraction: Option<Extraction>, body: string, defaultMinutes: nat,
                    c: Commit)
    requires Committed(st, q, extraction, body, defaultMinutes, c)
    ensures c.stores == st
            || (MovesForward(st.states, c.stores.states, q.k, false) && Rank(c.stores.states.states[q.k]) >= 2)
  {}

  /** The next state of a registration: the registered store, if it lands, and the elected run, if it goes on. */
  lemma RegisterNext(s: Sys, a: Action)
    requires a.RegisterUnapproved? && Enabled(s, a)
    ensures var s' := Next(s, a);
      var (r, states) := Registered(s.stores.states, a.q.k.tenant, InitialState(a.q, a.now), None, a.now);
      && s' == s.(stores := s'.stores, runs := s'.runs)
      && s'.stores == (if r.Success? && Lands(a.outcome) then s.stores.(states := states) else s.stores)
      && s'.runs == (if r.Success? && a.outcome.Applied? && !ReplayEnds(r.value)
                     then s.runs[a.t := Elected(a.q, r.value.state)] else s.runs)
  {
    hide Registered, InitialState;
  }

  /** A registration starts a missing state and elects a run for it, or changes nothing. */
  lemma RegisterEffect(s: Sys, a: Action)
    requires Inv(s) && a.RegisterUnapproved? && Enabled(s, a)
    ensures var s' := Next(s, a); var started := InitialState(a.q, a.now);
      && StoresOk(s'.stores) && s' == s.(stores := s'.stores, runs := s'.runs)
      && s'.stores == s.stores.(states := s'.stores.states)
      && (s'.stores.states == s.stores.states
          || (a.q.k !in s.stores.states.states && s'.stores.states.states == s.stores.states.states[a.q.k := started]))
      && (s'.runs == s.runs
          || (At(s'.stores.states, a.q.k) == Some(started) && s'.runs == s.runs[a.t := Elected(a.q, started)]
              && a.q.k !in s.stores.states.states))
  {
    RegisterNext(s, a);
    RegistrationCases(s.stores.states, a.q, None, a.now);
    var started := InitialState(a.q, a.now);
    var (r, states) := Registered(s.stores.states, a.q.k.tenant, started, None, a.now);
    if r.Success? && !ReplayEnds(r.value) {
      PutKeepsStages(s.stores.states, a.q.k, started, states);
    }
    hide Next, Registered, ReplayEnds, EffectsMatch, StatesOk;
  }

  /** A started identity is running and at its first step. */
  lemma StartedIsRunning(q: Request, now: Instant)
    ensures var s := InitialState(q, now); KeyOf(s) == q.k && Stage(s) && s.status == Running && Rank(s) == 0
  {}

  /** What the run that was elected may store finds its state and moves it on. */
  lemma WaitingStage(run: InFlight, llm: Option<Extraction>, reason: Reason, now: Instant)
    requires run.Elected?
    ensures var s := WaitingState(run, llm, reason, now);
      && Stage(s) && s.status == WaitingApproval && Rank(s) >= 1 && KeyOf(s) == KeyOf(run.state)
      && s.workflowId == run.state.workflowId && s.workflowType == run.state.workflowType
      && s.payloadFingerprint == run.state.payloadFingerprint
      && (if llm.None? then s.step == NEEDS_CLARIFICATION && Rank(s) == 2
                            && ReplayReport(s) == Some(ClarificationReport(reason, true))
          else AtApproval(s) && ExtractionOf(s.data) == llm)
  {
    if llm.None? {
      ClarificationStage(WaitingState(run, llm, reason, now), reason);
    } else {
      DraftRoundTrip(run.state.data, llm.value);
    }
    hide NamesReply, ReplayReport, ClarificationData, DraftData, ExtractionOf;
  }

  lemma FinishNext(s: Sys, a: Action)
    requires a.FinishUnapproved? && Enabled(s, a)
    ensures var s' := Next(s, a); var k := Subject(s, a);
      var r := UpsertState(s.stores, WaitingState(s.runs[a.t], a.llm, a.reason, a.now));
      if r.Success? && Lands(a.outcome)
      then s' == WithoutRun(s.(stores := r.value,
                               drafts := if a.llm.Some? then s.drafts[k := a.llm.value] else s.drafts), a.t)
      else s' == WithoutRun(s, a.t)
  {
    hide UpsertState, WaitingState;
  }

  /** An elected run still finds its state, so its upsert succeeds. */
  lemma FinishUpserts(s: Sys, a: Action)
    requires Inv(s) && a.FinishUnapproved? && Enabled(s, a)
    ensures var k := Subject(s, a); var w := WaitingState(s.runs[a.t], a.llm, a.reason, a.now);
      var r := UpsertState(s.stores, w);
      && r.Success? && StoresOk(r.value) && r.value == s.stores.(states := r.value.states)
      && r.value.states.states == s.stores.states.states[k := w]
      && At(s.stores.states, k) == Some(s.runs[a.t].state) && s.runs[a.t].state.status == Running
  {
    hide WaitingState, Upserted, OneRowEach, Indexed, PreparedOk, DraftOk, MadeOk, ElectedApart;
    var run, k := s.runs[a.t], Subject(s, a);
    assert ElectedOk(s, a.t);
    var w := WaitingState(run, a.llm, a.reason, a.now);
    assert StageOk(s.stores.states, k);
    WaitingStage(run, a.llm, a.reason, a.now);
    UpsertOwn(s.stores.states, w);
    PutKeepsStages(s.stores.states, k, w, Upserted(s.stores.states, w.tenant, w).1);
  }

  /** An elected run that finishes moves its own state on, and stores its draft if it has one. */
  lemma FinishEffect(s: Sys, a: Action)
    requires Inv(s) && a.FinishUnapproved? && Enabled(s, a)
    ensures var s' := Next(s, a); var k := Subject(s, a);
      && StoresOk(s'.stores) && s' == s.(stores := s'.stores, runs := s.runs - {a.t}, drafts := s'.drafts)
      && s'.stores == s.stores.(states := s'.stores.states)
      && (|| (s'.stores == s.stores && s'.drafts == s.drafts)
          || (&& MovesForward(s.stores.states, s'.stores.states, k, true)
              && s'.stores.states.states[k] == WaitingState(s.runs[a.t], a.llm, a.reason, a.now)
              && s'.drafts == if a.llm.Some? then s.drafts[k := a.llm.value] else s.drafts))
  {
    hide Next, UpsertState, WaitingState, Stage, EffectsMatch, StatesOk, AtApproval;
    WaitingStage(s.runs[a.t], a.llm, a.reason, a.now);
    FinishUpserts(s, a);
    FinishNext(s, a);
  }

  /** Any other step leaves the stores and the history alone; only a read makes a run of another kind. */
  lemma QuietNext(s: Sys, a: Action)
    requires !Writes(s, a)
    ensures var s' := Next(s, a);
      && s' == s.(runs := s'.runs, granted := s'.granted)
      && forall t :: t in s'.runs ==>
           || (t in s.runs && s'.runs[t] == s.runs[t])
           || (s'.runs[t].Approved? && a.StartApproved? && s'.runs[t].q.k in s.granted)
           || (a.Read? && a.t == t && Enabled(s, a) && s'.runs[t].Prepared? && s' == ReadStep(s, t, a.llm))
  {
    hide TransactStep, RegisterStep, FinishStep, ReadExtraction, ExtractionOf, AtApproval;
  }

  /** No step loses the invariant of the stores, and states only move forward. */
  lemma StepEffect(s: Sys, a: Action)
    requires Inv(s)
    ensures var s' := Next(s, a);
      && StoresOk(s'.stores)
      && (|| s'.stores == s.stores
          || (Writes(s, a) && MovesForward(s.stores.states, s'.stores.states, Subject(s, a), a.FinishUnapproved?)))
  {
    hide Next, StoresOk, WaitingState, InitialState;
    if !Writes(s, a) {
      QuietNext(s, a);
    } else if a.Transact? {
      TransactEffect(s, a);
    } else if a.RegisterUnapproved? {
      StartedIsRunning(a.q, a.now);
      RegisterEffect(s, a);
    } else {
      FinishEffect(s, a);
    }
  }

  /** A stored state stays or moves forward; a started one stays unless its own elected run finishes. */
  lemma StateGoesForward(s: Sys, a: Action, k: RowKey)
    requires Inv(s) && k in s.stores.states.states
    ensures k in Next(s, a).stores.states.states
    ensures var x, x' := s.stores.states.states[k], Next(s, a).stores.states.states[k];
      && (x' == x || Rank(x') > Rank(x))
      && (x.status == Running && x' != x ==> Writes(s, a) && a.FinishUnapproved? && Subject(s, a) == k)
  {
    hide Next, Inv, StoresOk;
    StepEffect(s, a);
  }

  /** Where the runs of the next state come from. */
  lemma RunsEffect(s: Sys, a: Action, t: nat)
    requires Inv(s) && t in Next(s, a).runs
    ensures var run := Next(s, a).runs[t];
      || (t in s.runs && run == s.runs[t] && !(Writes(s, a) && a.FinishUnapproved? && a.t == t))
      || (run.Approved? && a.StartApproved? && run.q.k in s.granted)
      || (a.Read? && a.t == t && run.Prepared? && Enabled(s, a) && run == ReadStep(s, t, a.llm).runs[t])
      || (a.RegisterUnapproved? && Enabled(s, a) && a.t == t && run.Elected? && run.q == a.q
          && a.q.k !in s.stores.states.states && At(Next(s, a).stores.states, a.q.k) == Some(run.state)
          && run.state.status == Running)
  {
    hide Next, Inv, StoresOk, ReadStep, MovesForward, WaitingState, TransactionOf;
    if !Writes(s, a) {
      QuietNext(s, a);
    } else if a.Transact? {
      TransactNext(s, a);
    } else if a.RegisterUnapproved? {
      RegisterEffect(s, a);
    } else {
      FinishEffect(s, a);
    }
  }

  lemma KeepsElected(s: Sys, a: Action, t: nat)
    requires Inv(s) && t in Next(s, a).runs
    ensures ElectedOk(Next(s, a), t)
  {
    hide Next, StoresOk, ReadStep;
    RunsEffect(s, a, t);
    if t in s.runs && Next(s, a).runs[t] == s.runs[t] && s.runs[t].Elected? {
      assert ElectedOk(s, t);
      StateGoesForward(s, a, s.runs[t].q.k);
      if a.FinishUnapproved? && Enabled(s, a) {
        assert ElectedApart(s, a.t, t);
      }
    }
  }

  lemma KeepsElectedApart(s: Sys, a: Action, t1: nat, t2: nat)
    requires Inv(s) && t1 in Next(s, a).runs && t2 in Next(s, a).runs
    ensures ElectedApart(Next(s, a), t1, t2)
  {
    hide Next, StoresOk, ReadStep;
    RunsEffect(s, a, t1);
    RunsEffect(s, a, t2);
    assert t1 in s.runs ==> ElectedOk(s, t1);
    assert t2 in s.runs ==> ElectedOk(s, t2);
    assert t1 in s.runs && t2 in s.runs ==> ElectedApart(s, t1, t2);
  }

  /** What a run has just read is what is stored. */
  lemma JustRead(s: Sys, t: nat, llm: Option<Extraction>)
    requires t in s.runs && s.runs[t].Approved? && t in ReadStep(s, t, llm).runs
    requires ReadStep(s, t, llm).runs[t].Prepared?
    ensures var run := ReadStep(s, t, llm).runs[t];
      && run.q == s.runs[t].q && run.seen == At(s.stores.states, run.q.k)
      && run.extraction == ReadExtraction(run.seen, llm)
      && (run.seen.Some? ==> run.seen.value.payloadFingerprint == Some(run.q.fingerprint))
      && (run.seen.Some? && AtApproval(run.seen.value) ==> run.extraction.Some?)
  {
    hide ExtractionOf, AtApproval;
  }

  lemma KeepsPrepared(s: Sys, a: Action, t: nat)
    requires Inv(s) && t in Next(s, a).runs
    ensures PreparedOk(Next(s, a), t)
  {
    hide Next, StoresOk, ReadStep, AtApproval, ExtractionOf;
    RunsEffect(s, a, t);
    var run := Next(s, a).runs[t];
    if run.Prepared? && run.seen.Some? {
      if t in s.runs && run == s.runs[t] {
        assert PreparedOk(s, t);
        StateGoesForward(s, a, run.q.k);
      } else {
        QuietNext(s, a);
        JustRead(s, t, a.llm);
      }
    }
  }

  lemma KeepsDrafts(s: Sys, a: Action, k: RowKey)
    requires Inv(s)
    ensures DraftOk(Next(s, a), k)
  {
    hide Next, StoresOk, WaitingState, ExtractionOf, InitialState, TransactionOf;
    assert DraftOk(s, k);
    if !Writes(s, a) {
      QuietNext(s, a);
    } else if a.Transact? {
      TransactEffect(s, a);
      TransactNext(s, a);
    } else if a.RegisterUnapproved? {
      StartedIsRunning(a.q, a.now);
      RegisterEffect(s, a);
    } else {
      WaitingStage(s.runs[a.t], a.llm, a.reason, a.now);
      FinishEffect(s, a);
    }
  }

  lemma SuffixedApart(k1: RowKey, k2: RowKey, suffix: string)
    requires k1 != k2
    ensures Suffixed(k1, suffix) != Suffixed(k2, suffix)
  {
    OwnerOfSuffixed(k1, suffix);
    OwnerOfSuffixed(k2, suffix);
  }

  lemma OtherRowsStay(st: Stores, st': Stores, q: Request, e: Extraction, body: string, minutes: nat, k: RowKey,
                      m: Made)
    requires RowsAdded(st, st', q, e, body, minutes) && WrittenAs(st, k, m) && k != q.k
    requires k in st'.states.states && st'.states.states[k] == st.states.states[k]
    ensures WrittenAs(st', k, m)
  {
    hide CalendarShows, ReminderShows, EventShows, MessageShows, StateShows, NoticeAsked;
    SuffixedApart(k, q.k, ":calendar");
    SuffixedApart(k, q.k, ":notify");
    SuffixedApart(k, q.k, ":created");
    SuffixedApart(k, q.k, ":outbox");
  }

  lemma TransactKeepsMade(s: Sys, a: Action, k: RowKey)
    requires Inv(s) && a.Transact? && Enabled(s, a)
    ensures MadeOk(Next(s, a), k)
  {
    hide Next, TransactionOf, StoresOk, Committed, RegistrationFails, WrittenAs;
    assert MadeOk(s, k);
    TransactNext(s, a);
    TransactCommits(s, a);
    if TransactionOf(s, a).Success? {
      CommitKeepsMade(s, a, TransactionOf(s, a).value, k);
    }
  }

  /** A commit shows what it was created from, if it creates, and leaves the rows of other identities alone. */
  lemma CommitKeepsMade(s: Sys, a: Action, c: Commit, k: RowKey)
    requires a.Transact? && Enabled(s, a) && MadeOk(s, k)
    requires var run := s.runs[a.t]; Committed(s.stores, run.q, run.extraction, a.body, a.defaultMinutes, c)
    ensures var run := s.runs[a.t];
      && (c.ended.Created? ==> run.extraction.Some?)
      && (Finished(c.stores, k) ==>
            if c.ended.Created? && k == run.q.k
            then WrittenAs(c.stores, k, Made(run.q, run.extraction.value, a.body, a.defaultMinutes))
            else k in s.made && WrittenAs(c.stores, k, s.made[k]))
  {
    hide Next, Repeats, ReplayReport, NoticeMinutes, WrittenAs, RowsAdded, StateShows;
    var run := s.runs[a.t];
    if c.ended.Created? && k != run.q.k && Finished(s.stores, k) {
      OtherRowsStay(s.stores, c.stores, run.q, run.extraction.value, a.body,
                    NoticeMinutes(run.extraction.value, a.defaultMinutes), k, s.made[k]);
    } else if c.ended.Created? && k == run.q.k {
      CommitIsWritten(s.stores, run.q, run.extraction.value, a.body, a.defaultMinutes, c);
    }
    if Finished(s.stores, k) && !c.ended.Created? {
      StaysWritten(s.stores, c.stores, k, s.made[k]);
    }
  }

  lemma CommitIsWritten(st: Stores, q: Request, e: Extraction, body: string, defaultMinutes: nat, c: Commit)
    requires Committed(st, q, Some(e), body, defaultMinutes, c) && c.ended == Created
    ensures WrittenAs(c.stores, q.k, Made(q, e, body, defaultMinutes))
  {
    hide Repeats, NoticeMinutes, Startable, CalendarRow, ReminderRow, CreatedRow, MessageRow, NoticeAsked, StateShows;
    hide CalendarShows, ReminderShows, EventShows, MessageShows;
    RowsShow(q, e, body, defaultMinutes);
  }

  lemma StaysWritten(st: Stores, st': Stores, k: RowKey, m: Made)
    requires WrittenAs(st, k, m) && st' == st.(states := st'.states) && At(st'.states, k) == At(st.states, k)
    ensures WrittenAs(st', k, m)
  {
    hide CalendarShows, ReminderShows, EventShows, MessageShows, StateShows, NoticeAsked;
  }

  lemma KeepsMade(s: Sys, a: Action, k: RowKey)
    requires Inv(s)
    ensures MadeOk(Next(s, a), k)
  {
    hide Next, StoresOk, WrittenAs;
    assert MadeOk(s, k);
    if a.Transact? && Enabled(s, a) {
      TransactKeepsMade(s, a, k);
    } else {
      OnlyStatesMove(s, a);
      FinishedOnlyByTransact(s, a, k);
      if Finished(s.stores, k) {
        StateGoesForward(s, a, k);
        StaysWritten(s.stores, Next(s, a).stores, k, s.made[k]);
      }
    }
  }

  /** Outside the transaction no effect is written. */
  lemma OnlyStatesMove(s: Sys, a: Action)
    requires Inv(s) && !(a.Transact? && Enabled(s, a))
    ensures Next(s, a).stores == s.stores.(states := Next(s, a).stores.states) && Next(s, a).made == s.made
  {
    hide Next, Inv, StoresOk, WaitingState, InitialState, MovesForward;
    if !Writes(s, a) {
      QuietNext(s, a);
    } else if a.RegisterUnapproved? {
      RegisterEffect(s, a);
    } else {
      FinishEffect(s, a);
    }
  }

  lemma FinishedOnlyByTransact(s: Sys, a: Action, k: RowKey)
    requires Inv(s) && !(a.Transact? && Enabled(s, a))
    ensures Finished(Next(s, a).stores, k) ==> Finished(s.stores, k)
  {
    hide Next, Inv, StoresOk, WaitingState, InitialState;
    if !Writes(s, a) {
      QuietNext(s, a);
    } else if a.RegisterUnapproved? {
      StartedIsRunning(a.q, a.now);
      RegisterEffect(s, a);
    } else {
      WaitingStage(s.runs[a.t], a.llm, a.reason, a.now);
      FinishEffect(s, a);
    }
  }

  lemma StepKeepsInv(s: Sys, a: Action)
    requires Inv(s)
    ensures Inv(Next(s, a))
  {
    hide Next, StoresOk;
    StepEffect(s, a);
    var s' := Next(s, a);
    forall t | t in s'.runs ensures ElectedOk(s', t) && PreparedOk(s', t) {
      KeepsElected(s, a, t);
      KeepsPrepared(s, a, t);
    }
    forall t1, t2 | t1 in s'.runs && t2 in s'.runs ensures ElectedApart(s', t1, t2) {
      KeepsElectedApart(s, a, t1, t2);
    }
    forall k ensures DraftOk(s', k) && MadeOk(s', k) {
      KeepsDrafts(s, a, k);
      KeepsMade(s, a, k);
    }
  }

  lemma {:induction false} RunKeepsInv(s: Sys, actions: seq<Action>)
    requires Inv(s)
    ensures Inv(RunAll(s, actions))
    decreases |actions|
  {
    hide Next, Inv;
    if actions != [] {
      StepKeepsInv(s, actions[0]);
      RunKeepsInv(Next(s, actions[0]), actions[1..]);
    }
  }
}
