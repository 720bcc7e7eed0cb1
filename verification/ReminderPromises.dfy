/** The promises of reminder creation, each for every run from empty stores. */
module ReminderPromises {
  import opened Wrappers
  import opened WorkflowStates
  import opened ReminderCreation
  import opened CreationLaws
  import opened ReminderTheorems
  import Delivery

  lemma ReachableIsOk(actions: seq<Action>)
    ensures Inv(RunAll(NO_RUNS, actions))
  {
    hide Next;
    RunKeepsInv(NO_RUNS, actions);
  }

  /** All four effects of an identity are there. */
  predicate AllFour(st: Stores, k: RowKey) {
    && CalendarKey(k) in st.calendar.rows && NotifyKey(k) in st.scheduler.rows
    && CreatedKey(k) in st.events.rows && OutboxKey(k) in st.outbox.rows
  }

  lemma FourOrNone(st: Stores, k: RowKey)
    requires StoresOk(st)
    ensures CalendarKey(k) in st.calendar.rows <==> Finished(st, k)
    ensures NotifyKey(k) in st.scheduler.rows <==> Finished(st, k)
    ensures CreatedKey(k) in st.events.rows <==> Finished(st, k)
    ensures OutboxKey(k) in st.outbox.rows <==> Finished(st, k)
  {
    var done := Done(st.states);
    RowIffDone(st.calendar, done, ":calendar", k);
    RowIffDone(st.scheduler, done, ":notify", k);
    RowIffDone(st.events, done, ":created", k);
    RowIffDone(st.outbox, done, ":outbox", k);
  }

  /** Whatever runs, aborts and uncertain commits came before: an identity has its calendar event, its reminder, its
      event and its outbox message all together, exactly when its workflow state is completed. */
  lemma AllFourOrNone(actions: seq<Action>, k: RowKey)
    ensures var st := RunAll(NO_RUNS, actions).stores;
      && (CalendarKey(k) in st.calendar.rows <==> Finished(st, k))
      && (NotifyKey(k) in st.scheduler.rows <==> Finished(st, k))
      && (CreatedKey(k) in st.events.rows <==> Finished(st, k))
      && (OutboxKey(k) in st.outbox.rows <==> Finished(st, k))
  {
    ReachableIsOk(actions);
    FourOrNone(RunAll(NO_RUNS, actions).stores, k);
  }

  /** And no store holds a row that is not the one effect of some completed identity. */
  lemma NoOtherRows(actions: seq<Action>, r: RowKey)
    ensures var st := RunAll(NO_RUNS, actions).stores;
      && (r in st.calendar.rows ==> exists k :: Finished(st, k) && r == CalendarKey(k))
      && (r in st.scheduler.rows ==> exists k :: Finished(st, k) && r == NotifyKey(k))
      && (r in st.events.rows ==> exists k :: Finished(st, k) && r == CreatedKey(k))
      && (r in st.outbox.rows ==> exists k :: Finished(st, k) && r == OutboxKey(k))
  {
    ReachableIsOk(actions);
    var st := RunAll(NO_RUNS, actions).stores;
    OwnedRow(st.calendar, st, ":calendar", r);
    OwnedRow(st.scheduler, st, ":notify", r);
    OwnedRow(st.events, st, ":created", r);
    OwnedRow(st.outbox, st, ":outbox", r);
  }

  lemma OwnedRow<V>(shelf: Shelf<V>, st: Stores, suffix: string, r: RowKey)
    requires OneRowEach(shelf, Done(st.states), suffix)
    ensures r in shelf.rows ==> exists k :: Finished(st, k) && r == Suffixed(k, suffix)
  {
    if r in shelf.rows {
      assert OwnedBy(Done(st.states), suffix, r);
      var k := Owner(r, suffix);
      assert Finished(st, k) && r.idempotencyKey == k.idempotencyKey + suffix;
    }
  }

  /** No write of a transaction ever meets a conflict: a transaction is refused exactly when its registration is, or
      when a reply is blocked. */
  lemma OnlyRegistrationRefuses(actions: seq<Action>, a: Action)
    requires a.Transact? && Enabled(RunAll(NO_RUNS, actions), a)
    ensures var s := RunAll(NO_RUNS, actions);
      TransactionOf(s, a).Failure? <==> RegistrationFails(s.stores, s.runs[a.t].q, a.now) || a.blocked
  {
    ReachableIsOk(actions);
    TransactCommits(RunAll(NO_RUNS, actions), a);
  }

  /** The four rows of a completed identity and its state belong together: one request, one extraction and one text made
      them, with each other's ids and one notice time. */
  lemma EffectsBelongTogether(actions: seq<Action>, k: RowKey)
    requires Finished(RunAll(NO_RUNS, actions).stores, k)
    ensures var s := RunAll(NO_RUNS, actions); k in s.made && WrittenAs(s.stores, k, s.made[k])
  {
    ReachableIsOk(actions);
    assert MadeOk(RunAll(NO_RUNS, actions), k);
  }

  /** In particular, a reminder for which no notice time was asked is due the default number of minutes before the
      start: so say the reminder, its event, its message and the completed state. */
  lemma DefaultNoticeIsKept(actions: seq<Action>, k: RowKey)
    requires var s := RunAll(NO_RUNS, actions);
      Finished(s.stores, k) && (k in s.made ==> s.made[k].e.notifyAt.None?)
    ensures var s := RunAll(NO_RUNS, actions);
      && k in s.made && AllFour(s.stores, k)
      && var at := s.made[k].e.startsAt - s.made[k].defaultMinutes * 60_000_000;
         && s.stores.scheduler.rows[NotifyKey(k)].notifyAt == at
         && s.stores.events.rows[CreatedKey(k)].notifyAt == at
         && s.stores.outbox.rows[OutboxKey(k)].notifyAt == at
         && Holds(s.stores.states.states[k].data, "notify_at", Time(at))
  {
    EffectsBelongTogether(actions, k);
  }

  predicate ReportsCreation(ended: Ended) {
    ended == Created || ended == Replayed(Completed)
  }

  lemma CommitReports(st: Stores, q: Request, extraction: Option<Extraction>, body: string, defaultMinutes: nat,
                      c: Commit)
    requires Committed(st, q, extraction, body, defaultMinutes, c)
    ensures ReportsCreation(c.ended) <==> Finished(c.stores, q.k)
    ensures Finished(st, q.k) ==> c.ended == Replayed(Completed) && c.stores == st
  {
    hide RowsAdded, ReplayReport, ExtractionOf;
  }

  lemma TransactReports(s: Sys, a: Action)
    requires Inv(s) && a.Transact? && Enabled(s, a) && TransactionOf(s, a).Success?
    ensures var c := TransactionOf(s, a).value; var k := s.runs[a.t].q.k;
      && StoresOk(c.stores) && (ReportsCreation(c.ended) <==> Finished(c.stores, k))
      && (Finished(s.stores, k) ==> c.ended == Replayed(Completed) && c.stores == s.stores)
  {
    hide TransactionOf, Committed, StoresOk;
    var run := s.runs[a.t];
    TransactCommits(s, a);
    CommitReports(s.stores, run.q, run.extraction, a.body, a.defaultMinutes, TransactionOf(s, a).value);
  }

  lemma CommitLands(s: Sys, a: Action)
    requires a.Transact? && Enabled(s, a) && TransactionOf(s, a).Success?
    ensures Next(s, a).stores == if Lands(a.outcome) then TransactionOf(s, a).value.stores else s.stores
  {
    hide Next, TransactionOf;
    TransactNext(s, a);
  }

  /** A run that commits reports the reminder as created, or as a duplicate of a completed one, exactly when all four
      effects are there afterwards. */
  lemma ReportsAreExact(actions: seq<Action>, a: Action)
    requires a.Transact? && a.outcome == Applied && Enabled(RunAll(NO_RUNS, actions), a)
    requires TransactionOf(RunAll(NO_RUNS, actions), a).Success?
    ensures var s := RunAll(NO_RUNS, actions);
      ReportsCreation(TransactionOf(s, a).value.ended) <==> AllFour(Next(s, a).stores, s.runs[a.t].q.k)
  {
    ReachableIsOk(actions);
    var s := RunAll(NO_RUNS, actions);
    TransactReports(s, a);
    CommitLands(s, a);
    FourOrNone(TransactionOf(s, a).value.stores, s.runs[a.t].q.k);
  }

  /** A commit of unknown outcome is settled by the next run that gets through. If it was applied, that run reports the
      completed duplicate and changes nothing; if it was not, nothing of it is in the stores. */
  lemma UnknownOutcomeIsSettled(s: Sys, a: Action, later: seq<Action>, b: Action)
    requires Inv(s) && a.Transact? && Enabled(s, a) && TransactionOf(s, a).Success?
    requires TransactionOf(s, a).value.ended == Created
    requires var s' := RunAll(Next(s, a), later);
      b.Transact? && Enabled(s', b) && TransactionOf(s', b).Success? && s'.runs[b.t].q.k == s.runs[a.t].q.k
    ensures a.outcome == UnknownApplied ==>
      var s' := RunAll(Next(s, a), later);
      TransactionOf(s', b).value.ended == Replayed(Completed) && Next(s', b).stores == s'.stores
    ensures a.outcome == UnknownNotApplied ==> Next(s, a).stores == s.stores
  {
    CommitLands(s, a);
    if a.outcome == UnknownApplied {
      TransactReports(s, a);
      StepKeepsInv(s, a);
      FinishedReplays(Next(s, a), later, s.runs[a.t].q.k, b);
    }
  }

  lemma FinishedReplays(s: Sys, later: seq<Action>, k: RowKey, b: Action)
    requires Inv(s) && Finished(s.stores, k)
    requires var s' := RunAll(s, later);
      b.Transact? && Enabled(s', b) && TransactionOf(s', b).Success? && s'.runs[b.t].q.k == k
    ensures var s' := RunAll(s, later);
      TransactionOf(s', b).value.ended == Replayed(Completed) && Next(s', b).stores == s'.stores
  {
    RunKeepsInv(s, later);
    FinishedForever(s, later, k);
    TransactReports(RunAll(s, later), b);
    CommitLands(RunAll(s, later), b);
  }

  /** A completed identity stays completed in every later run. */
  lemma {:induction false} FinishedForever(s: Sys, actions: seq<Action>, k: RowKey)
    requires Inv(s) && Finished(s.stores, k)
    ensures Finished(RunAll(s, actions).stores, k)
    decreases |actions|
  {
    hide Next, Inv;
    if actions != [] {
      StateGoesForward(s, actions[0], k);
      StepKeepsInv(s, actions[0]);
      FinishedForever(Next(s, actions[0]), actions[1..], k);
    }
  }

  // ----- drafts -----

  /** Grants are only ever given for identities that have reached approval. */
  predicate Disciplined(s: Sys, actions: seq<Action>)
    decreases |actions|
  {
    actions == []
    || ((actions[0].Grant? ==> actions[0].k in s.drafts) && Disciplined(Next(s, actions[0]), actions[1..]))
  }

  /** The state waits for approval, or was completed with the recorded draft. */
  predicate DraftKept(s: Sys, k: RowKey) {
    && (k in s.drafts ==>
          && k in s.stores.states.states
          && (AtApproval(s.stores.states.states[k]) || s.stores.states.states[k].status == Completed))
    && (Finished(s.stores, k) ==> k in s.drafts && k in s.made && s.made[k].e == s.drafts[k])
  }

  /** The stored rows show the draft: its title, start and time zone in the calendar, and in the reminder, the event,
      the message and the completed state the notice time that it asks for, to the minute, or the default before its
      start when it asks for none. */
  predicate ShowsDraft(st: Stores, k: RowKey, draft: Extraction, defaultMinutes: nat) {
    && k in st.states.states && CalendarKey(k) in st.calendar.rows && NotifyKey(k) in st.scheduler.rows
    && CreatedKey(k) in st.events.rows && OutboxKey(k) in st.outbox.rows
    && var c, r, v, o := st.calendar.rows[CalendarKey(k)], st.scheduler.rows[NotifyKey(k)],
                         st.events.rows[CreatedKey(k)], st.outbox.rows[OutboxKey(k)];
       && c.title == draft.title && c.startsAt == v.startsAt == draft.startsAt
       && c.timezone == r.timezone == v.timezone == o.timezone == draft.timezone
       && r.notifyAt == v.notifyAt == o.notifyAt && Holds(st.states.states[k].data, "notify_at", Time(r.notifyAt))
       && if draft.notifyAt.None? then r.notifyAt == draft.startsAt - defaultMinutes * 60_000_000
          else if draft.notifyAt.value < draft.startsAt then
            && draft.notifyAt.value <= r.notifyAt < draft.notifyAt.value + 60_000_000 && r.notifyAt <= draft.startsAt
            && (draft.startsAt - r.notifyAt) % 60_000_000 == 0
          else r.notifyAt == draft.startsAt
  }

  /** An approved run was granted after the draft was stored, so its pre-read sees it waiting or completed. */
  predicate RunSeesDraft(s: Sys, t: nat)
    requires t in s.runs
  {
    && (!s.runs[t].Elected? ==> s.runs[t].q.k in s.drafts)
    && (s.runs[t].Prepared? ==>
          s.runs[t].seen.Some? && (AtApproval(s.runs[t].seen.value) || s.runs[t].seen.value.status == Completed))
  }

  ghost predicate DraftInv(s: Sys) {
    && Inv(s) && s.granted <= s.drafts.Keys
    && (forall k {:trigger DraftKept(s, k)} :: DraftKept(s, k))
    && (forall t {:trigger RunSeesDraft(s, t)} :: t in s.runs ==> RunSeesDraft(s, t))
  }

  /** What a run knows of the state it read: it is still there, or has moved forward. */
  predicate ReadEarlier(now: WorkflowState, seen: Option<WorkflowState>, extraction: Option<Extraction>) {
    seen.Some? ==> (now == seen.value || Rank(now) > Rank(seen.value)) && extraction == ReadExtraction(seen, None)
  }

  lemma CommitUsesDraft(st: Stores, q: Request, seen: Option<WorkflowState>, extraction: Option<Extraction>,
                        body: string, defaultMinutes: nat, draft: Extraction, c: Commit)
    requires Committed(st, q, extraction, body, defaultMinutes, c)
    requires q.k in st.states.states && AtApproval(st.states.states[q.k])
    requires ExtractionOf(st.states.states[q.k].data) == Some(draft)
    requires ReadEarlier(st.states.states[q.k], seen, extraction)
    ensures c.ended == Created && extraction == Some(draft)
            <==> (seen.Some? && AtApproval(seen.value)) || (seen.None? && extraction == Some(draft))
    ensures c.ended == Clarified <==> extraction.None?
  {
    hide RowsAdded, ReplayReport;
  }

  lemma KnowsWhatItRead(s: Sys, a: Action)
    requires Inv(s) && a.Transact? && Enabled(s, a) && s.runs[a.t].q.k in s.stores.states.states
    ensures ReadEarlier(s.stores.states.states[s.runs[a.t].q.k], s.runs[a.t].seen, s.runs[a.t].extraction)
  {
    hide StoresOk, ExtractionOf;
    assert PreparedOk(s, a.t);
  }

  lemma DraftWaits(s: Sys, k: RowKey)
    requires Inv(s) && k in s.stores.states.states && AtApproval(s.stores.states.states[k])
    ensures k in s.drafts && ExtractionOf(s.stores.states.states[k].data) == Some(s.drafts[k])
  {
    hide StoresOk, ExtractionOf;
    assert DraftOk(s, k);
  }

  lemma HasDraft(s: Sys, a: Action)
    requires DraftInv(s) && a.Transact? && Enabled(s, a)
    ensures var run := s.runs[a.t]; var k := run.q.k;
      && k in s.drafts && k in s.stores.states.states
      && (AtApproval(s.stores.states.states[k]) || s.stores.states.states[k].status == Completed)
      && run.seen.Some? && (AtApproval(run.seen.value) || run.seen.value.status == Completed)
  {
    hide Inv;
    assert RunSeesDraft(s, a.t) && DraftKept(s, s.runs[a.t].q.k);
  }

  /** A transaction about an identity with a draft either replays or completes it with that draft. */
  lemma TransactUsesDraft(s: Sys, a: Action)
    requires DraftInv(s) && a.Transact? && Enabled(s, a) && TransactionOf(s, a).Success?
    ensures var c := TransactionOf(s, a).value; var run := s.runs[a.t];
      && run.q.k in s.drafts
      && (c.stores == s.stores || (c.ended == Created && run.extraction == Some(s.drafts[run.q.k])))
  {
    hide Inv, TransactionOf, ExtractionOf, StoresOk, Committed;
    var run := s.runs[a.t];
    HasDraft(s, a);
    TransactCommits(s, a);
    KnowsWhatItRead(s, a);
    if AtApproval(s.stores.states.states[run.q.k]) {
      DraftWaits(s, run.q.k);
      CommitUsesDraft(s.stores, run.q, run.seen, run.extraction, a.body, a.defaultMinutes, s.drafts[run.q.k],
                    TransactionOf(s, a).value);
    } else {
      TransactReports(s, a);
    }
  }

  lemma CommitKeepsOthers(st: Stores, q: Request, extraction: Option<Extraction>, body: string, defaultMinutes: nat,
                          c: Commit)
    requires Committed(st, q, extraction, body, defaultMinutes, c) && c.ended == Created
    ensures Finished(c.stores, q.k)
    ensures forall k :: k != q.k && k in st.states.states ==>
      k in c.stores.states.states && c.stores.states.states[k] == st.states.states[k]
    ensures forall k :: k != q.k && k in c.stores.states.states ==> k in st.states.states
  {
    hide RowsAdded, Repeats, AtApproval;
  }

  lemma TransactKeepsDraft(s: Sys, a: Action, k: RowKey)
    requires DraftInv(s) && a.Transact? && Enabled(s, a)
    ensures DraftKept(Next(s, a), k)
  {
    hide Next, Inv, StoresOk, TransactionOf, Committed, RegistrationFails, AtApproval;
    var run := s.runs[a.t];
    assert DraftKept(s, k);
    TransactNext(s, a);
    if TransactionOf(s, a).Success? {
      TransactReports(s, a);
    }
    if TransactionOf(s, a).Success? && TransactionOf(s, a).value.stores != s.stores {
      TransactUsesDraft(s, a);
      TransactCommits(s, a);
      CommitKeepsOthers(s.stores, run.q, run.extraction, a.body, a.defaultMinutes, TransactionOf(s, a).value);
    }
  }

  lemma KeepsDraftKept(s: Sys, a: Action, k: RowKey)
    requires DraftInv(s)
    ensures DraftKept(Next(s, a), k)
  {
    hide Next, StoresOk, WaitingState, InitialState, ExtractionOf;
    assert DraftKept(s, k);
    if !Writes(s, a) {
      QuietNext(s, a);
    } else if a.Transact? {
      TransactKeepsDraft(s, a, k);
    } else if a.RegisterUnapproved? {
      StartedIsRunning(a.q, a.now);
      RegisterEffect(s, a);
    } else {
      WaitingStage(s.runs[a.t], a.llm, a.reason, a.now);
      FinishEffect(s, a);
      assert ElectedOk(s, a.t) && DraftKept(s, s.runs[a.t].q.k);
    }
  }

  lemma DraftsOnlyGrow(s: Sys, a: Action)
    requires Inv(s)
    ensures s.drafts.Keys <= Next(s, a).drafts.Keys
  {
    hide Next, Inv, StoresOk, TransactionOf, WaitingState, MovesForward;
    if !Writes(s, a) {
      QuietNext(s, a);
    } else if a.Transact? {
      TransactNext(s, a);
    } else if a.RegisterUnapproved? {
      RegisterEffect(s, a);
    } else {
      FinishEffect(s, a);
    }
  }

  lemma OnlyGrantsGrant(s: Sys, a: Action)
    ensures Next(s, a).granted == if a.Grant? then s.granted + {a.k} else s.granted
  {
    hide TransactionOf, Registered, InitialState, UpsertState, WaitingState, ReadExtraction, ExtractionOf;
  }

  lemma KeepsRunSeesDraft(s: Sys, a: Action, t: nat)
    requires DraftInv(s) && t in Next(s, a).runs
    ensures RunSeesDraft(Next(s, a), t)
  {
    hide Next, Inv, StoresOk, ReadStep, AtApproval, ExtractionOf, Writes;
    DraftsOnlyGrow(s, a);
    RunsEffect(s, a, t);
    if t in s.runs {
      assert RunSeesDraft(s, t);
      assert DraftKept(s, s.runs[t].q.k);
    }
    if a.Read? && t == a.t && Enabled(s, a) && Next(s, a).runs[t].Prepared? {
      ReadNext(s, a);
    }
  }

  lemma ReadNext(s: Sys, a: Action)
    requires a.Read? && Enabled(s, a) && a.t in Next(s, a).runs && Next(s, a).runs[a.t].Prepared?
    ensures var run := Next(s, a).runs[a.t];
      && run.q == s.runs[a.t].q && run.seen == At(s.stores.states, run.q.k)
      && run.extraction == ReadExtraction(run.seen, a.llm)
      && (run.seen.Some? ==> run.seen.value.payloadFingerprint == Some(run.q.fingerprint))
      && (run.seen.Some? && AtApproval(run.seen.value) ==> run.extraction.Some?)
  {
    hide Next, ReadStep, ReadExtraction, AtApproval;
    QuietNext(s, a);
    JustRead(s, a.t, a.llm);
  }

  lemma {:induction false} RunKeepsDrafts(s: Sys, actions: seq<Action>)
    requires DraftInv(s) && Disciplined(s, actions)
    ensures DraftInv(RunAll(s, actions))
    decreases |actions|
  {
    hide Next, Inv, DraftKept, RunSeesDraft;
    if actions != [] {
      var s' := Next(s, actions[0]);
      StepKeepsInv(s, actions[0]);
      DraftsOnlyGrow(s, actions[0]);
      OnlyGrantsGrant(s, actions[0]);
      forall k ensures DraftKept(s', k) {
        KeepsDraftKept(s, actions[0], k);
      }
      forall t | t in s'.runs ensures RunSeesDraft(s', t) {
        KeepsRunSeesDraft(s, actions[0], t);
      }
      RunKeepsDrafts(s', actions[1..]);
    }
  }

  /** When grants exist only once approval was reached, no run ever loses a draft: in every reachable state an identity
      that reached approval still waits with its draft, or is completed with rows that show it, notice time included. */
  lemma DraftIsNeverLost(actions: seq<Action>, k: RowKey)
    requires Disciplined(NO_RUNS, actions) && k in RunAll(NO_RUNS, actions).drafts
    ensures var s := RunAll(NO_RUNS, actions);
      && k in s.stores.states.states
      && if Finished(s.stores, k)
         then k in s.made && ShowsDraft(s.stores, k, s.drafts[k], s.made[k].defaultMinutes)
         else AtApproval(s.stores.states.states[k])
              && ExtractionOf(s.stores.states.states[k].data) == Some(s.drafts[k])
  {
    hide Next, ShowsDraft, ExtractionOf;
    RunKeepsDrafts(NO_RUNS, actions);
    DraftWaitsOrShows(RunAll(NO_RUNS, actions), k);
  }

  lemma DraftWaitsOrShows(s: Sys, k: RowKey)
    requires DraftInv(s) && k in s.drafts
    ensures k in s.stores.states.states
    ensures if Finished(s.stores, k)
            then k in s.made && ShowsDraft(s.stores, k, s.drafts[k], s.made[k].defaultMinutes)
            else AtApproval(s.stores.states.states[k])
                 && ExtractionOf(s.stores.states.states[k].data) == Some(s.drafts[k])
  {
    hide StoresOk, ExtractionOf;
    assert DraftKept(s, k) && DraftOk(s, k) && MadeOk(s, k);
  }

  /** So a notice time that the draft asks for is met by the stored reminder and message, from above by less than a
      minute, or by the start if it is not before that. */
  lemma StoredNoticeIsPunctual(actions: seq<Action>, k: RowKey)
    requires Disciplined(NO_RUNS, actions) && k in RunAll(NO_RUNS, actions).drafts
    requires var s := RunAll(NO_RUNS, actions); Finished(s.stores, k) && s.drafts[k].notifyAt.Some?
    ensures var s := RunAll(NO_RUNS, actions); var draft := s.drafts[k];
      && NotifyKey(k) in s.stores.scheduler.rows && OutboxKey(k) in s.stores.outbox.rows
      && var at := s.stores.scheduler.rows[NotifyKey(k)].notifyAt;
         && s.stores.outbox.rows[OutboxKey(k)].notifyAt == at
         && if draft.notifyAt.value < draft.startsAt
            then draft.notifyAt.value <= at < draft.notifyAt.value + 60_000_000 && at <= draft.startsAt
            else at == draft.startsAt
  {
    DraftIsNeverLost(actions, k);
  }

  /** Without that assumption, exactly when: a transaction that finds a draft waiting completes with it if and only if
      its pre-read had seen it waiting, or had seen nothing and extracted the very same reminder itself. */
  lemma DraftUsedExactly(actions: seq<Action>, a: Action)
    requires a.Transact? && Enabled(RunAll(NO_RUNS, actions), a)
    requires var s := RunAll(NO_RUNS, actions);
      var k := s.runs[a.t].q.k; k in s.stores.states.states && AtApproval(s.stores.states.states[k])
    requires TransactionOf(RunAll(NO_RUNS, actions), a).Success?
    ensures var s := RunAll(NO_RUNS, actions); var run := s.runs[a.t]; var c := TransactionOf(s, a).value;
      && run.q.k in s.drafts
      && (c.ended == Created && run.extraction == Some(s.drafts[run.q.k])
          <==> (run.seen.Some? && AtApproval(run.seen.value))
               || (run.seen.None? && run.extraction == Some(s.drafts[run.q.k])))
      && (c.ended == Clarified <==> run.extraction.None?)
  {
    hide Inv, StoresOk, TransactionOf, Committed, ReadEarlier, RegistrationFails, ExtractionOf;
    ReachableIsOk(actions);
    var s := RunAll(NO_RUNS, actions);
    var run := s.runs[a.t];
    TransactCommits(s, a);
    KnowsWhatItRead(s, a);
    DraftWaits(s, run.q.k);
    CommitUsesDraft(s.stores, run.q, run.seen, run.extraction, a.body, a.defaultMinutes, s.drafts[run.q.k],
                    TransactionOf(s, a).value);
  }

  const SOME_KEY := Delivery.RowKey("t", "k")
  const SOME_REQUEST := Request(SOME_KEY, "f", "s", "telegram", "r", "c", "m", "UTC", "w")
  const SOME_DRAFT := Extraction("call", "UTC", 0, None, 0.86)

  /** The approved run reads while the unapproved one is still extracting, and commits after it has stored its draft. */
  const OVERTAKING_RUN: seq<Action> := [
    RegisterUnapproved(0, SOME_REQUEST, 0, Applied), Grant(SOME_KEY), StartApproved(1, SOME_REQUEST), Read(1, None),
    FinishUnapproved(0, Some(SOME_DRAFT), MissingDatetime, 1, Applied),
    Transact(1, MissingDatetime, "", false, 30, 2, Applied)]

  /** Both runs as they are after the pre-read: it saw the registered state, which holds no draft yet. */
  const BOTH_RUNS := Sys(NO_STORES.(states := Saved(WorkflowStates.EMPTY, InitialState(SOME_REQUEST, 0))),
    map[0 := Elected(SOME_REQUEST, InitialState(SOME_REQUEST, 0)),
        1 := Prepared(SOME_REQUEST, Some(InitialState(SOME_REQUEST, 0)), None)],
    {SOME_KEY}, map[], map[])

  lemma ReadsTooEarly()
    ensures Next(Next(Next(Next(NO_RUNS, OVERTAKING_RUN[0]), OVERTAKING_RUN[1]), OVERTAKING_RUN[2]), OVERTAKING_RUN[3])
            == BOTH_RUNS
  {
    var s1 := Next(NO_RUNS, OVERTAKING_RUN[0]);
    assert s1.runs == map[0 := Elected(SOME_REQUEST, InitialState(SOME_REQUEST, 0))];
    var s3 := Next(Next(s1, OVERTAKING_RUN[1]), OVERTAKING_RUN[2]);
    assert s3.runs == s1.runs[1 := Approved(SOME_REQUEST)];
  }

  /** After the unapproved run has stored its draft. */
  const DRAFT_STORED := Sys(
    NO_STORES.(states := Saved(BOTH_RUNS.stores.states,
      Transitioned(InitialState(SOME_REQUEST, 0), Some(WaitingApproval), Some(APPROVAL_REQUIRED),
                   DraftData(SOME_DRAFT), 1))),
    map[1 := Prepared(SOME_REQUEST, Some(InitialState(SOME_REQUEST, 0)), None)],
    {SOME_KEY}, map[SOME_KEY := SOME_DRAFT],
    map[])

  lemma UpsertsDraft()
    ensures UpsertState(BOTH_RUNS.stores, WaitingState(BOTH_RUNS.runs[0], Some(SOME_DRAFT), MissingDatetime, 1))
            == Success(DRAFT_STORED.stores)
  {}

  lemma StoresDraft()
    ensures Next(BOTH_RUNS, OVERTAKING_RUN[4]) == DRAFT_STORED
  {
    hide Next, UpsertState, WaitingState, Transitioned, InitialState;
    UpsertsDraft();
    FinishNext(BOTH_RUNS, OVERTAKING_RUN[4]);
    assert Next(BOTH_RUNS, OVERTAKING_RUN[4]).runs == DRAFT_STORED.runs;
  }

  /** The approved run registers again and takes over the waiting state. */
  const RESUMED := Transitioned(DRAFT_STORED.stores.states.states[SOME_KEY], Some(Running), None, map[], 2)

  lemma ResumesDraft()
    ensures var st := DRAFT_STORED.stores.states;
      Registered(st, "t", InitialState(SOME_REQUEST, 2), Some(APPROVAL_REQUIRED), 2)
      == (Success(Registration(RESUMED, false, true)), st.(states := st.states[SOME_KEY := RESUMED]))
  {
    assert AtApproval(DRAFT_STORED.stores.states.states[SOME_KEY]);
  }

  /** Having no extraction of its own it asks back. */
  lemma ClarifiesDraft()
    ensures var st := DRAFT_STORED.stores;
      var r := Clarify(st.(states := st.states.(states := st.states.states[SOME_KEY := RESUMED])), RESUMED,
                       MissingDatetime, 2);
      && r.Success? && SOME_KEY in r.value.stores.states.states
      && r.value.stores.states.states[SOME_KEY].status == WaitingApproval
      && r.value.stores.states.states[SOME_KEY].step == NEEDS_CLARIFICATION
  {}

  lemma OverwritesDraft()
    ensures var st := Next(DRAFT_STORED, OVERTAKING_RUN[5]).stores.states.states;
      SOME_KEY in st && st[SOME_KEY].status == WaitingApproval && st[SOME_KEY].step == NEEDS_CLARIFICATION
  {
    hide Next, Registered, InitialState, Clarify, Transitioned;
    ResumesDraft();
    ClarifiesDraft();
    TransactNext(DRAFT_STORED, OVERTAKING_RUN[5]);
  }

  lemma RunTail(s: Sys, a: seq<Action>, i: nat)
    requires i < |a|
    ensures RunAll(s, a[i..]) == RunAll(Next(s, a[i]), a[i + 1..])
  {
    assert a[i..][1..] == a[i + 1..];
  }

  lemma RunOfSix(s: Sys, a: seq<Action>)
    requires |a| == 6
    ensures RunAll(s, a) == Next(Next(Next(Next(Next(Next(s, a[0]), a[1]), a[2]), a[3]), a[4]), a[5])
  {
    var s1 := Next(s, a[0]);
    var s2 := Next(s1, a[1]);
    var s3 := Next(s2, a[2]);
    var s4 := Next(s3, a[3]);
    var s5 := Next(s4, a[4]);
    RunTail(s, a, 0);
    RunTail(s1, a, 1);
    RunTail(s2, a, 2);
    RunTail(s3, a, 3);
    RunTail(s4, a, 4);
    RunTail(s5, a, 5);
    assert a[0..] == a;
  }

  /** So the assumption is needed: with a grant given early, this run stores a draft and then loses it. */
  lemma EarlyGrantLosesDraft()
    ensures var s := RunAll(NO_RUNS, OVERTAKING_RUN);
      && SOME_KEY in s.drafts && SOME_KEY in s.stores.states.states
      && s.stores.states.states[SOME_KEY].status == WaitingApproval
      && s.stores.states.states[SOME_KEY].step == NEEDS_CLARIFICATION
  {
    ReadsTooEarly();
    StoresDraft();
    OverwritesDraft();
    RunOfSix(NO_RUNS, OVERTAKING_RUN);
  }
}
