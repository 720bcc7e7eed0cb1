/** What runs report, and what becomes of a retry: duplicates repeat the first report, and a retry after a lost commit
    does all of its work again. */
module ReminderReports {
  import opened Wrappers
  import opened WorkflowStates
  import opened ReminderCreation
  import opened CreationLaws
  import opened ReminderTheorems
  import opened ReminderPromises

  // ----- what a step reports -----

  /** The result that the step's run returns; None where it raises, goes on, or cannot tell how its commit ended. */
  function ReportOf(s: Sys, a: Action): Option<Report>
    requires Writes(s, a)
  {
    if a.outcome != Applied then None
    else if a.Transact? then
      (match TransactionOf(s, a)
       case Failure(_) => None
       case Success(c) => Some(c.report))
    else if a.FinishUnapproved? then
      (match UpsertState(s.stores, WaitingState(s.runs[a.t], a.llm, a.reason, a.now))
       case Failure(_) => None
       case Success(_) =>
         Some(if a.llm.Some? then ApprovalReport(a.llm.value.title, false) else ClarificationReport(a.reason, false)))
    else
      match Registered(s.stores.states, a.q.k.tenant, InitialState(a.q, a.now), None, a.now).0
      case Failure(_) => None
      case Success(r) => if ReplayEnds(r) then ReplayReport(r.state) else None
  }

  /** Every report of a writing step is a fresh one, which replays of the state that it leaves repeat, or itself such
      a replay, of a state that it leaves alone. */
  lemma ReportsTheState(s: Sys, a: Action)
    requires Inv(s) && Writes(s, a) && ReportOf(s, a).Some?
    ensures var r, k, s' := ReportOf(s, a).value, Subject(s, a), Next(s, a);
      && k in s'.stores.states.states && ReplayReport(s'.stores.states.states[k]) == Some(r.(reused := true))
      && (r.reused <==> s'.stores.states == s.stores.states)
  {
    hide Next, StoresOk;
    if a.Transact? {
      TransactionReports(s, a);
    } else if a.FinishUnapproved? {
      FinishReports(s, a);
    } else {
      RegistrationReports(s, a);
    }
  }

  lemma TransactionReports(s: Sys, a: Action)
    requires Inv(s) && a.Transact? && Enabled(s, a) && ReportOf(s, a).Some?
    ensures var r, k, s' := ReportOf(s, a).value, Subject(s, a), Next(s, a);
      && k in s'.stores.states.states && ReplayReport(s'.stores.states.states[k]) == Some(r.(reused := true))
      && (r.reused <==> s'.stores.states == s.stores.states)
  {
    hide Next, StoresOk, TransactionOf, RegistrationFails, Committed;
    var run := s.runs[a.t];
    TransactNext(s, a);
    TransactCommits(s, a);
    CommitReportsState(s.stores, run.q, run.extraction, a.body, a.defaultMinutes, TransactionOf(s, a).value);
  }

  lemma CommitReportsState(st: Stores, q: Request, extraction: Option<Extraction>, body: string, defaultMinutes: nat,
                           c: Commit)
    requires Committed(st, q, extraction, body, defaultMinutes, c)
    ensures q.k in c.stores.states.states
    ensures ReplayReport(c.stores.states.states[q.k]) == Some(c.report.(reused := true))
    ensures c.report.reused <==> c.stores.states == st.states
  {
    hide RowsAdded, ExtractionOf, StoredReason;
  }

  lemma FinishReports(s: Sys, a: Action)
    requires Inv(s) && a.FinishUnapproved? && Enabled(s, a) && ReportOf(s, a).Some?
    ensures var r, k, s' := ReportOf(s, a).value, Subject(s, a), Next(s, a);
      && k in s'.stores.states.states && ReplayReport(s'.stores.states.states[k]) == Some(r.(reused := true))
      && !r.reused && s'.stores.states != s.stores.states
  {
    hide Next, StoresOk, UpsertState, WaitingState, ExtractionOf, StoredReason;
    FinishNext(s, a);
    FinishUpserts(s, a);
    WaitingStage(s.runs[a.t], a.llm, a.reason, a.now);
  }

  lemma RegistrationReports(s: Sys, a: Action)
    requires Inv(s) && a.RegisterUnapproved? && Enabled(s, a) && ReportOf(s, a).Some?
    ensures var r, k, s' := ReportOf(s, a).value, Subject(s, a), Next(s, a);
      && k in s'.stores.states.states && ReplayReport(s'.stores.states.states[k]) == Some(r.(reused := true))
      && r.reused && s'.stores.states == s.stores.states
  {
    hide Next, EffectsMatch, Registered, ReplayEnds, ExtractionOf, StoredReason, StatesOk;
    RegisterNext(s, a);
    RegistrationCases(s.stores.states, a.q, None, a.now);
  }

  // ----- first reports -----

  /** Field by field, what a run reports that does the work itself. With an extraction the transaction creates, and
      names the ids of the event and the reminder. */
  predicate ReportsCreated(r: Report, k: RowKey) {
    && r.status == AgentCompleted && r.calendarEventId == Some(Id(EffectId(CalendarEventId, k)))
    && r.reminderId == Some(Id(EffectId(ReminderId, k))) && r.asksFor == None && r.draftTitle == None
  }

  /** Without one it asks back for its own reason. */
  predicate ReportsAsking(r: Report, reason: Reason) {
    r.status == NeedsClarification && r.asksFor == Some(reason) && r.draftTitle == None && NamesNothing(r)
  }

  /** An unapproved run with an extraction asks to approve it. */
  predicate ReportsDraft(r: Report, title: string) {
    r.status == Escalated && r.asksFor == None && r.draftTitle == Some(title) && NamesNothing(r)
  }

  /** While another run is at it, there is nothing to say. */
  predicate ReportsRunning(r: Report) {
    r.status == Escalated && r.asksFor == None && r.draftTitle == None && NamesNothing(r)
  }

  predicate NamesNothing(r: Report) {
    r.calendarEventId == None && r.reminderId == None
  }

  /** The state waits, and says what for. */
  predicate WaitsFor(s: WorkflowState, reason: Reason) {
    && s.status == WaitingApproval && s.step == "needs_clarification"
    && Holds(s.data, "clarification_reason", Text(ReasonText(reason)))
    && Holds(s.data, "clarification_reply_id", Text("reminder_" + ReasonText(reason)))
    && Holds(s.data, "clarification_reply_version", Text("v1"))
  }

  /** What a transaction reports that does not replay, and what it leaves. */
  lemma FreshTransaction(st: Stores, q: Request, extraction: Option<Extraction>, reason: Reason, body: string,
                         blocked: bool, defaultMinutes: nat, now: Instant)
    requires StoresOk(st)
    requires var r := Transaction(st, q, extraction, reason, body, blocked, defaultMinutes, now);
      r.Success? && !r.value.report.reused
    ensures var c := Transaction(st, q, extraction, reason, body, blocked, defaultMinutes, now).value;
      if extraction.Some? then
        && ReportsCreated(c.report, q.k)
        && WrittenAs(c.stores, q.k, Made(q, extraction.value, body, defaultMinutes))
      else
        && ReportsAsking(c.report, reason) && c.stores == st.(states := c.stores.states)
        && q.k in c.stores.states.states && WaitsFor(c.stores.states.states[q.k], reason)
  {
    hide StoresOk, Registered, InitialState, CreateAll, Clarify, RowsAdded, Startable, WrittenAs;
    TransactionKeepsStores(st, q, extraction, reason, body, blocked, defaultMinutes, now);
    var c := Transaction(st, q, extraction, reason, body, blocked, defaultMinutes, now).value;
    RegistrationReadies(st, q, now);
    var (r, states) := Registered(st.states, q.k.tenant, InitialState(q, now), Some(APPROVAL_REQUIRED), now);
    assert ReplayReport(r.value.state).Some? ==> ReplayReport(r.value.state).value.reused;
    assert !ReplayEnds(r.value);
    if extraction.Some? {
      CreatedReports(st.(states := states), q, extraction.value, r.value.state, body,
                     NoticeMinutes(extraction.value, defaultMinutes), now);
      CommitIsWritten(st, q, extraction.value, body, defaultMinutes, c);
    } else {
      AskingWaits(st, q, st.(states := states), r.value.state, reason, now);
    }
  }

  lemma CreatedReports(st: Stores, q: Request, e: Extraction, state: WorkflowState, body: string, minutes: nat,
                       now: Instant)
    ensures var r := CreateAll(st, q, e, state, body, minutes, now);
      r.Success? ==> r.value.ended == Created && ReportsCreated(r.value.report, q.k)
  {
    hide Effects, UpsertState, CompletedState;
  }

  lemma AskingWaits(st: Stores, q: Request, st1: Stores, state: WorkflowState, reason: Reason, now: Instant)
    requires Ready(st, q, st1, state)
    ensures var r := Clarify(st1, state, reason, now);
      r.Success? ==>
        && ReportsAsking(r.value.report, reason) && r.value.stores == st.(states := r.value.stores.states)
        && q.k in r.value.stores.states.states && WaitsFor(r.value.stores.states.states[q.k], reason)
  {
    hide StoresOk, Valid, ReasonText, IdTaken;
    var data := ClarificationData(reason);
    assert "clarification_reason" in data && "clarification_reply_id" in data && "clarification_reply_version" in data;
  }

  /** A first report is just this; what repeats it later is `DuplicatesRepeatTheReport`. */
  lemma FirstReports(s: Sys, a: Action)
    requires Inv(s) && Writes(s, a) && ReportOf(s, a).Some? && !ReportOf(s, a).value.reused
    ensures var r, k := ReportOf(s, a).value, Subject(s, a);
      && !a.RegisterUnapproved?
      && if a.Transact? then
           if s.runs[a.t].extraction.Some? then ReportsCreated(r, k) else ReportsAsking(r, a.reason)
         else if a.llm.Some? then ReportsDraft(r, a.llm.value.title)
         else ReportsAsking(r, a.reason)
  {
    hide StoresOk, Transaction, UpsertState, WaitingState, Registered, InitialState, ReplayEnds;
    if a.Transact? {
      var run := s.runs[a.t];
      FreshTransaction(s.stores, run.q, run.extraction, a.reason, a.body, a.blocked, a.defaultMinutes, a.now);
    }
  }

  /** A duplicate that meets a run still at work reports only that. */
  lemma DuplicateOfRunning(s: Sys, a: Action)
    requires Inv(s) && Writes(s, a) && ReportOf(s, a).Some?
    requires At(s.stores.states, Subject(s, a)).Some? && s.stores.states.states[Subject(s, a)].status == Running
    requires !a.FinishUnapproved?
    ensures ReportsRunning(ReportOf(s, a).value) && ReportOf(s, a).value.reused
  {
    hide Next, StoresOk, ReportOf, StoredReason, ExtractionOf;
    var k := Subject(s, a);
    StateGoesForward(s, a, k);
    ReplaysAreReused(s, a);
    ReportsTheState(s, a);
  }

  // ----- what an approved run works with -----

  /** The pre-read leaves an approved run with the waiting draft, with its own extraction where nothing is stored, and
      otherwise with nothing; it ends the run only where another payload is stored under its key. */
  lemma ReadUses(actions: seq<Action>, a: Action)
    requires a.Read? && Enabled(RunAll(NO_RUNS, actions), a)
    ensures var s := RunAll(NO_RUNS, actions);
      var s', k, stored := Next(s, a), s.runs[a.t].q.k, s.stores.states.states;
      if k in stored && stored[k].payloadFingerprint != Some(s.runs[a.t].q.fingerprint) then a.t !in s'.runs
      else
        && a.t in s'.runs && s'.runs[a.t].Prepared? && s'.runs[a.t].q == s.runs[a.t].q
        && if k !in stored then s'.runs[a.t].extraction == a.llm
           else if stored[k].status == WaitingApproval && stored[k].step == "approval_required" then
             k in s.drafts && s'.runs[a.t].extraction == Some(s.drafts[k])
           else s'.runs[a.t].extraction == None
  {
    hide RunAll;
    ReachableIsOk(actions);
    ReadsDraft(RunAll(NO_RUNS, actions), a);
  }

  lemma ReadsDraft(s: Sys, a: Action)
    requires Inv(s) && a.Read? && Enabled(s, a)
    ensures var s', k, stored := Next(s, a), s.runs[a.t].q.k, s.stores.states.states;
      if k in stored && stored[k].payloadFingerprint != Some(s.runs[a.t].q.fingerprint) then a.t !in s'.runs
      else
        && a.t in s'.runs && s'.runs[a.t].Prepared? && s'.runs[a.t].q == s.runs[a.t].q
        && if k !in stored then s'.runs[a.t].extraction == a.llm
           else if stored[k].status == WaitingApproval && stored[k].step == "approval_required" then
             k in s.drafts && s'.runs[a.t].extraction == Some(s.drafts[k])
           else s'.runs[a.t].extraction == None
  {
    hide StoresOk, ExtractionOf, PreparedOk, ElectedOk, ElectedApart, MadeOk;
    assert DraftOk(s, s.runs[a.t].q.k);
  }

  /** The state that a registration enters for a new identity, field by field. */
  lemma RegistrationStores(s: Sys, a: Action)
    requires Inv(s) && a.RegisterUnapproved? && Enabled(s, a) && a.q.k !in s.stores.states.states
    requires a.q.k in Next(s, a).stores.states.states
    ensures var x, q := Next(s, a).stores.states.states[a.q.k], a.q;
      && x.workflowId == q.workflowId && x.workflowType == "reminder.create" && x.tenant == q.k.tenant
      && x.idempotencyKey == q.k.idempotencyKey && x.payloadFingerprint == Some(q.fingerprint)
      && x.status == Running && x.step == "classify" && x.createdAt == x.updatedAt == a.now
      && x.data == map["message_id" := Text(q.messageId), "source_event_id" := Text(q.sourceEventId),
                       "channel" := Text(q.channel), "conversation_id" := Text(q.conversationId),
                       "timezone" := Text(q.timezone)]
  {
    hide Next, StoresOk;
    RegisterEffect(s, a);
  }

  // ----- duplicates repeat the report -----

  /** A state that waits for clarification or is completed never changes again. */
  lemma {:induction false} SettledForever(s: Sys, actions: seq<Action>, k: RowKey)
    requires Inv(s) && k in s.stores.states.states && Rank(s.stores.states.states[k]) >= 2
    ensures At(RunAll(s, actions).stores.states, k) == At(s.stores.states, k)
    decreases |actions|
  {
    hide Next, Inv, Rank;
    if actions != [] {
      SettledStays(s, actions[0], k);
      StepKeepsInv(s, actions[0]);
      SettledForever(Next(s, actions[0]), actions[1..], k);
    }
  }

  lemma SettledStays(s: Sys, a: Action, k: RowKey)
    requires Inv(s) && k in s.stores.states.states && Rank(s.stores.states.states[k]) >= 2
    ensures At(Next(s, a).stores.states, k) == At(s.stores.states, k)
  {
    hide Next, StoresOk, WaitingState, InitialState, TransactionOf;
    if !Writes(s, a) {
      QuietNext(s, a);
    } else if a.Transact? {
      TransactSettles(s, a, k);
    } else if a.RegisterUnapproved? {
      RegisterEffect(s, a);
    } else {
      FinishEffect(s, a);
    }
  }

  lemma TransactSettles(s: Sys, a: Action, k: RowKey)
    requires Inv(s) && a.Transact? && Enabled(s, a)
    requires k in s.stores.states.states && Rank(s.stores.states.states[k]) >= 2
    ensures At(Next(s, a).stores.states, k) == At(s.stores.states, k)
  {
    hide Next, StoresOk, TransactionOf, RegistrationFails, RowsAdded, Repeats, ReplayReport;
    TransactNext(s, a);
    TransactCommits(s, a);
  }

  /** A run's first report of a creation, or of why it asks back, is what every later run of the identity reports that
      gets through, marked as reused: approved or not, whatever ran in between. */
  lemma DuplicatesRepeatTheReport(actions: seq<Action>, a: Action, later: seq<Action>, b: Action)
    requires var s := RunAll(NO_RUNS, actions);
      Writes(s, a) && ReportOf(s, a).Some? && (ReportOf(s, a).value.status == AgentCompleted
                                               || ReportOf(s, a).value.status == NeedsClarification)
    requires var s := RunAll(NO_RUNS, actions); var s' := RunAll(Next(s, a), later);
      Writes(s', b) && Subject(s', b) == Subject(s, a) && ReportOf(s', b).Some?
    ensures var s := RunAll(NO_RUNS, actions); var s' := RunAll(Next(s, a), later);
      ReportOf(s', b).value == ReportOf(s, a).value.(reused := true)
  {
    hide Next, Inv, ReportOf;
    var s := RunAll(NO_RUNS, actions);
    ReachableIsOk(actions);
    StepKeepsInv(s, a);
    RepeatsTheReport(s, a, Next(s, a), later, b);
  }

  lemma RepeatsTheReport(s: Sys, a: Action, s1: Sys, later: seq<Action>, b: Action)
    requires Inv(s) && Writes(s, a) && ReportOf(s, a).Some? && s1 == Next(s, a) && Inv(s1)
    requires ReportOf(s, a).value.status == AgentCompleted || ReportOf(s, a).value.status == NeedsClarification
    requires var s' := RunAll(s1, later);
      Writes(s', b) && Subject(s', b) == Subject(s, a) && ReportOf(s', b).Some?
    ensures ReportOf(RunAll(s1, later), b).value == ReportOf(s, a).value.(reused := true)
  {
    hide Next, Inv, ReportOf, ExtractionOf, StoredReason;
    var k, s' := Subject(s, a), RunAll(s1, later);
    ReportsTheState(s, a);
    SettledForever(s1, later, k);
    RunKeepsInv(s1, later);
    SettledStays(s', b, k);
    ReportsTheState(s', b);
    ReplaysAreReused(s', b);
  }

  /** A step that leaves its identity's state as it was reports a replay. */
  lemma ReplaysAreReused(s: Sys, a: Action)
    requires Inv(s) && Writes(s, a) && ReportOf(s, a).Some?
    requires At(Next(s, a).stores.states, Subject(s, a)) == At(s.stores.states, Subject(s, a))
    ensures ReportOf(s, a).value.reused
  {
    hide Next, StoresOk, ReportOf, ReplayReport, WaitingState, InitialState, TransactionOf;
    ReportsTheState(s, a);
    StepEffect(s, a);
  }

  /** What a duplicate of a completed run names are the stored rows, which name each other. */
  lemma DuplicateNamesTheRows(actions: seq<Action>, k: RowKey)
    requires Finished(RunAll(NO_RUNS, actions).stores, k)
    ensures var st := RunAll(NO_RUNS, actions).stores;
      && AllFour(st, k)
      && var c, r, v, o := st.calendar.rows[CalendarKey(k)], st.scheduler.rows[NotifyKey(k)],
                           st.events.rows[CreatedKey(k)], st.outbox.rows[OutboxKey(k)];
         && ReplayReport(st.states.states[k])
            == Some(Report(AgentCompleted, Some(Id(c.eventId)), Some(Id(r.reminderId)), None, None, true))
         && r.calendarEventId == v.calendarEventId == o.calendarEventId == c.eventId
         && v.subject == o.subject == r.reminderId && o.causationId == v.id
  {
    hide Next, EffectsMatch;
    var s := RunAll(NO_RUNS, actions);
    ReachableIsOk(actions);
    assert MadeOk(s, k) && StageOk(s.stores.states, k);
  }

  /** While a draft waits for approval, every unapproved duplicate asks to approve that draft. */
  lemma DuplicateAsksForTheDraft(actions: seq<Action>, a: Action)
    requires var s := RunAll(NO_RUNS, actions);
      a.RegisterUnapproved? && Enabled(s, a) && ReportOf(s, a).Some?
      && a.q.k in s.stores.states.states && AtApproval(s.stores.states.states[a.q.k])
    ensures var s := RunAll(NO_RUNS, actions);
      a.q.k in s.drafts && ReportsDraft(ReportOf(s, a).value, s.drafts[a.q.k].title) && ReportOf(s, a).value.reused
  {
    hide Next, Inv, ReportOf, ExtractionOf;
    var s := RunAll(NO_RUNS, actions);
    ReachableIsOk(actions);
    DraftWaits(s, a.q.k);
    RegistrationReports(s, a);
  }

  // ----- a retry after a commit that was not applied -----

  /** No step of the run writes for the identity. */
  predicate LeavesAlone(s: Sys, actions: seq<Action>, k: RowKey)
    decreases |actions|
  {
    actions == []
    || (!(Writes(s, actions[0]) && Subject(s, actions[0]) == k) && LeavesAlone(Next(s, actions[0]), actions[1..], k))
  }

  /** If run `t` is prepared for the identity, then it has read this state, under its fingerprint. */
  predicate HasRead(s: Sys, t: nat, k: RowKey, state: Option<WorkflowState>) {
    t in s.runs && s.runs[t].Prepared? && s.runs[t].q.k == k ==>
      && s.runs[t].seen == state
      && (state.Some? ==> state.value.payloadFingerprint == Some(s.runs[t].q.fingerprint))
  }

  lemma StepLeavesAlone(s: Sys, a: Action, t: nat, k: RowKey)
    requires Inv(s) && !(Writes(s, a) && Subject(s, a) == k) && HasRead(s, t, k, At(s.stores.states, k))
    ensures At(Next(s, a).stores.states, k) == At(s.stores.states, k)
    ensures HasRead(Next(s, a), t, k, At(s.stores.states, k))
  {
    hide Next, Inv, StoresOk, ReadExtraction, ReadStep, AtApproval, WaitingState;
    StepEffect(s, a);
    if t in Next(s, a).runs {
      RunsEffect(s, a, t);
      if a.Read? && a.t == t && Enabled(s, a) && Next(s, a).runs[t].Prepared? {
        ReadNext(s, a);
      }
    }
  }

  lemma {:induction false} RunLeavesAlone(s: Sys, actions: seq<Action>, t: nat, k: RowKey)
    requires Inv(s) && LeavesAlone(s, actions, k) && HasRead(s, t, k, At(s.stores.states, k))
    ensures At(RunAll(s, actions).stores.states, k) == At(s.stores.states, k)
    ensures HasRead(RunAll(s, actions), t, k, At(s.stores.states, k))
    decreases |actions|
  {
    hide Next, Inv, HasRead, Writes;
    if actions != [] {
      StepLeavesAlone(s, actions[0], t, k);
      StepKeepsInv(s, actions[0]);
      RunLeavesAlone(Next(s, actions[0]), actions[1..], t, k);
    }
  }

  /** A prepared run whose identity is still in the state that it read is not replayed. */
  lemma RetryCommits(s: Sys, b: Action, k: RowKey)
    requires Inv(s) && b.Transact? && Enabled(s, b) && s.runs[b.t].q.k == k && Startable(s.stores, k)
    requires HasRead(s, b.t, k, At(s.stores.states, k))
    ensures TransactionOf(s, b).Success? ==>
      TransactionOf(s, b).value.ended == if s.runs[b.t].extraction.Some? then Created else Clarified
    ensures k in s.stores.states.states ==>
      && k in s.drafts && s.runs[b.t].extraction == Some(s.drafts[k])
      && (TransactionOf(s, b).Failure? <==> RegistrationFails(s.stores, s.runs[b.t].q, b.now) || b.blocked)
  {
    hide Next, StoresOk, TransactionOf, RegistrationFails, RowsAdded, Repeats, ReplayReport, ExtractionOf;
    TransactCommits(s, b);
    assert PreparedOk(s, b.t) && DraftOk(s, k);
  }

  /** A waiting state under the same fingerprint is registered again without refusal. */
  lemma RegistersAgain(st: Stores, q1: Request, now1: Instant, st': Stores, q2: Request, now2: Instant)
    requires q1.k == q2.k && q1.k in st.states.states && At(st'.states, q1.k) == At(st.states, q1.k)
    requires st.states.states[q1.k].payloadFingerprint == Some(q2.fingerprint) && !RegistrationFails(st, q1, now1)
    ensures !RegistrationFails(st', q2, now2)
  {}

  /** Transaction `b` on `s'` does what `a` could not do on `s`. */
  predicate MakesUpFor(s: Sys, a: Action, s': Sys, b: Action)
    requires a.Transact? && Enabled(s, a) && b.Transact? && Enabled(s', b)
  {
    var k, run := s.runs[a.t].q.k, s'.runs[b.t];
    && (TransactionOf(s', b).Success? ==>
          && TransactionOf(s', b).value.ended == (if run.extraction.Some? then Created else Clarified)
          && (run.extraction.Some? && Lands(b.outcome) ==>
                && AllFour(Next(s', b).stores, k) && k in Next(s', b).made
                && Next(s', b).made[k] == Made(run.q, run.extraction.value, b.body, b.defaultMinutes)
                && WrittenAs(Next(s', b).stores, k, Next(s', b).made[k])))
    && (k in s.stores.states.states ==>
          && k in s.drafts && run.extraction == Some(s.drafts[k])
          && (TransactionOf(s', b).Success? <==> !b.blocked))
  }

  /** A creation whose commit was not applied without the run knowing it is made up for by the next run of the identity,
      started later. That run is elected again: it asks back only if it has no extraction, and else creates all four
      effects from it. If a draft was waiting, it is that draft, and only a blocked reply can stop the run. */
  lemma LostCommitIsRetried(actions: seq<Action>, a: Action, later: seq<Action>, b: Action)
    requires var s := RunAll(NO_RUNS, actions);
      && a.Transact? && Enabled(s, a) && a.outcome == UnknownNotApplied
      && TransactionOf(s, a).Success? && TransactionOf(s, a).value.ended == Created
      && b.Transact? && b.t !in Next(s, a).runs && LeavesAlone(Next(s, a), later, s.runs[a.t].q.k)
    requires var s := RunAll(NO_RUNS, actions); var s' := RunAll(Next(s, a), later);
      Enabled(s', b) && s'.runs[b.t].q.k == s.runs[a.t].q.k
    ensures var s := RunAll(NO_RUNS, actions); MakesUpFor(s, a, RunAll(Next(s, a), later), b)
  {
    hide Next, Inv, TransactionOf, LeavesAlone, WrittenAs;
    var s := RunAll(NO_RUNS, actions);
    ReachableIsOk(actions);
    StepKeepsInv(s, a);
    RetriesLater(s, a, Next(s, a), later, b);
  }

  lemma RetriesLater(s: Sys, a: Action, s1: Sys, later: seq<Action>, b: Action)
    requires Inv(s) && a.Transact? && Enabled(s, a) && a.outcome == UnknownNotApplied
    requires TransactionOf(s, a).Success? && TransactionOf(s, a).value.ended == Created
    requires s1 == Next(s, a) && Inv(s1) && b.Transact? && b.t !in s1.runs && LeavesAlone(s1, later, s.runs[a.t].q.k)
    requires var s' := RunAll(s1, later); Enabled(s', b) && s'.runs[b.t].q.k == s.runs[a.t].q.k
    ensures MakesUpFor(s, a, RunAll(s1, later), b)
  {
    hide Next, Inv, StoresOk, TransactionOf, LeavesAlone, RegistrationFails, ExtractionOf, AtApproval;
    hide WrittenAs, RunAll;
    var s', k := RunAll(s1, later), s.runs[a.t].q.k;
    TransactNext(s, a);
    CreatedFromStart(s, a);
    RunLeavesAlone(s1, later, b.t, k);
    RunKeepsInv(s1, later);
    RetryCommits(s', b, k);
    if k in s.stores.states.states {
      SameDraft(s, s', k);
      RegistersAgain(s.stores, s.runs[a.t].q, a.now, s'.stores, s'.runs[b.t].q, b.now);
    }
    if TransactionOf(s', b).Success? && s'.runs[b.t].extraction.Some? && Lands(b.outcome) {
      CreatesAll(s', b);
    }
  }

  /** A creation had to start from a missing or a waiting state. */
  lemma CreatedFromStart(s: Sys, a: Action)
    requires Inv(s) && a.Transact? && Enabled(s, a) && TransactionOf(s, a).Success?
    requires TransactionOf(s, a).value.ended == Created
    ensures Startable(s.stores, s.runs[a.t].q.k) && !RegistrationFails(s.stores, s.runs[a.t].q, a.now)
  {
    hide TransactionOf, StoresOk, RegistrationFails, RowsAdded, Repeats, Startable;
    TransactCommits(s, a);
  }

  /** The recorded draft of a waiting state is the one that the state holds. */
  lemma SameDraft(s: Sys, s': Sys, k: RowKey)
    requires Inv(s) && Inv(s') && k in s.stores.states.states && AtApproval(s.stores.states.states[k])
    requires At(s'.stores.states, k) == At(s.stores.states, k)
    ensures k in s.drafts && k in s'.drafts && s.drafts[k] == s'.drafts[k]
  {
    hide StoresOk, ExtractionOf;
    assert DraftOk(s, k) && DraftOk(s', k);
  }

  /** A creation that lands leaves all four effects, written as the run asked. */
  lemma CreatesAll(s: Sys, a: Action)
    requires Inv(s) && a.Transact? && Enabled(s, a) && Lands(a.outcome) && TransactionOf(s, a).Success?
    requires TransactionOf(s, a).value.ended == Created && s.runs[a.t].extraction.Some?
    ensures var s', run := Next(s, a), s.runs[a.t];
      var made := Made(run.q, run.extraction.value, a.body, a.defaultMinutes);
      AllFour(s'.stores, run.q.k) && run.q.k in s'.made && s'.made[run.q.k] == made
      && WrittenAs(s'.stores, run.q.k, made)
  {
    hide Next, StoresOk, TransactionOf, NoticeMinutes, AtApproval, RegistrationFails;
    TransactReports(s, a);
    TransactNext(s, a);
    StepKeepsInv(s, a);
    assert MadeOk(Next(s, a), s.runs[a.t].q.k);
  }
}
