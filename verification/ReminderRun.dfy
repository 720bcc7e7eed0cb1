/** The approved part of `ReminderWorkflow.run`, writing the five stores one after the other inside a transaction. */
module ReminderRun {
  import opened Wrappers
  import opened WorkflowStates
  import opened ReminderCreation
  import opened Transactions
  import L = CreationLaws
  import R = ReminderReports
  import T = ReminderTheorems

  /** The data of one participant: a store's rows with its indexes. */
  datatype StoreData =
    | Calendar(calendar: Shelf<CalendarEvent>)
    | Scheduler(scheduler: Shelf<ScheduledReminder>)
    | Events(events: Shelf<ReminderCreated>)
    | Messages(outbox: Shelf<OutboxRow>)
    | States(states: Store)

  /** The participants in their lock order. */
  function InOrder(st: Stores): seq<StoreData> {
    [Calendar(st.calendar), Scheduler(st.scheduler), Events(st.events), Messages(st.outbox), States(st.states)]
  }

  type Tx = InMemoryReminderTransaction<StoreData>

  /** A transaction over the five stores as they are. */
  method Begin(st: Stores) returns (tx: Tx)
    ensures fresh(tx) && tx.Fresh() && tx.Holds(InOrder(st)) && tx.Held([0, 0, 0, 0, 0], 0)
  {
    var calendar := new Participant(Calendar(st.calendar));
    var scheduler := new Participant(Scheduler(st.scheduler));
    var events := new Participant(Events(st.events));
    var outbox := new Participant(Messages(st.outbox));
    var states := new Participant(States(st.states));
    tx := new InMemoryReminderTransaction([calendar, scheduler, events, outbox, states]);
  }

  /** The transaction is open, uncommitted, and its stores hold `st`. */
  ghost predicate Open(tx: Tx, st: Stores, entry: Stores, depths: seq<nat>)
    reads tx, tx.participants
  {
    && tx.Active() && tx.Holds(InOrder(st)) && tx.Held(depths, STORES) && tx.snapshots == InOrder(entry)
    && !tx.committed && !tx.rolledBack
  }

  /** `transaction.states.upsert` */
  method UpsertIn(tx: Tx, s: WorkflowState, ghost st: Stores, ghost entry: Stores, ghost depths: seq<nat>)
    returns (r: Result<(), Problem>)
    requires Open(tx, st, entry, depths)
    modifies tx.participants
    ensures match UpsertState(st, s)
            case Failure(p) => r == Failure(p) && Open(tx, st, entry, depths)
            case Success(st') => r == Success(()) && Open(tx, st', entry, depths)
  {
    assert tx.participants[4].data == States(st.states);
    var (saved, states) := Upserted(tx.participants[4].data.states, s.tenant, s);
    if saved.Failure? {
      return Failure(StateProblem(saved.error));
    }
    tx.participants[4].data := States(states);
    r := Success(());
  }

  /** The calendar event, the reminder, its event and its message; a conflict leaves the earlier ones behind. Returns
      whether the calendar event was there already. */
  method WriteEffects(tx: Tx, q: Request, e: Extraction, body: string, minutes: nat,
                      ghost st: Stores, ghost entry: Stores, ghost depths: seq<nat>)
    returns (r: Result<bool, Problem>, ghost left: Stores)
    requires Open(tx, st, entry, depths)
    modifies tx.participants
    ensures Open(tx, left, entry, depths)
    ensures match Effects(st, q, e, body, minutes)
            case Failure(p) => r == Failure(p)
            case Success(st') => r == Success(CalendarKey(q.k) in st.calendar.rows) && left == st'
  {
    hide Placed, CalendarRow, ReminderRow, CreatedRow, MessageRow, Suffixed;
    left := st;
    assert tx.participants[0].data == Calendar(st.calendar);
    var reused := CalendarKey(q.k) in tx.participants[0].data.calendar.rows;
    var calendar := Placed(tx.participants[0].data.calendar, CalendarKey(q.k),
                           {EffectId(CalendarEventId, q.k)}, CalendarRow(q, e));
    if calendar.Failure? {
      return Failure(calendar.error), left;
    }
    tx.participants[0].data := Calendar(calendar.value);
    left := left.(calendar := calendar.value);

    assert tx.participants[1].data == Scheduler(st.scheduler);
    var scheduler := Placed(tx.participants[1].data.scheduler, NotifyKey(q.k), {EffectId(ReminderId, q.k)},
                            ReminderRow(q, e, body, minutes));
    if scheduler.Failure? {
      return Failure(scheduler.error), left;
    }
    tx.participants[1].data := Scheduler(scheduler.value);
    left := left.(scheduler := scheduler.value);

    assert tx.participants[2].data == Events(st.events);
    var events := Placed(tx.participants[2].data.events, CreatedKey(q.k), {EffectId(ReminderCreatedId, q.k)},
                         CreatedRow(q, e, minutes));
    if events.Failure? {
      return Failure(events.error), left;
    }
    tx.participants[2].data := Events(events.value);
    left := left.(events := events.value);

    assert tx.participants[3].data == Messages(st.outbox);
    var outbox := Placed(tx.participants[3].data.outbox, OutboxKey(q.k),
                         {EffectId(OutboxMessageId, q.k), EffectId(NotificationRequestedId, q.k)},
                         MessageRow(q, e, body, minutes));
    if outbox.Failure? {
      return Failure(outbox.error), left;
    }
    tx.participants[3].data := Messages(outbox.value);
    left := left.(outbox := outbox.value);
    r := Success(reused);
  }

  /** The body of the transaction's `with` block, up to its commit. */
  method RunBody(tx: Tx, q: Request, extraction: Option<Extraction>, reason: Reason, body: string, blocked: bool,
                 defaultMinutes: nat, now: Instant, ghost st: Stores, ghost depths: seq<nat>)
    returns (r: Result<Report, Problem>, ghost left: Stores)
    requires Open(tx, st, st, depths)
    modifies tx.participants
    ensures Open(tx, left, st, depths)
    ensures match Transaction(st, q, extraction, reason, body, blocked, defaultMinutes, now)
            case Failure(p) => r == Failure(p)
            case Success(c) => r == Success(c.report) && left == c.stores
  {
    hide Registered, InitialState, Effects, Upserted, CompletedState, ReplayReport, ReplayEnds, NoticeMinutes;
    left := st;
    assert tx.participants[4].data == States(st.states);
    var (registration, states) := Registered(tx.participants[4].data.states, q.k.tenant, InitialState(q, now),
                                             Some(APPROVAL_REQUIRED), now);
    if registration.Failure? {
      return Failure(StateProblem(registration.error)), left;
    }
    tx.participants[4].data := States(states);
    left := left.(states := states);
    var state := registration.value.state;
    var replays, replay := ReplayEnds(registration.value), ReplayReport(state);
    if replays && replay.None? {
      return Failure(DraftUnreadable), left;
    }
    if blocked {
      return Failure(ReplyBlocked), left;
    }
    if replays {
      return Success(replay.value), left;
    }
    if extraction.None? {
      var waiting := Transitioned(state, Some(WaitingApproval), Some(NEEDS_CLARIFICATION),
                                  ClarificationData(reason), now);
      var upserted := UpsertIn(tx, waiting, left, st, depths);
      if upserted.Failure? {
        return Failure(upserted.error), left;
      }
      left := UpsertState(left, waiting).value;
      return Success(ClarificationReport(reason, false)), left;
    }
    var minutes := NoticeMinutes(extraction.value, defaultMinutes);
    var written;
    written, left := WriteEffects(tx, q, extraction.value, body, minutes, left, st, depths);
    if written.Failure? {
      return Failure(written.error), left;
    }
    var completed := CompletedState(q, extraction.value, state, minutes, now);
    var upserted := UpsertIn(tx, completed, left, st, depths);
    if upserted.Failure? {
      return Failure(upserted.error), left;
    }
    left := UpsertState(left, completed).value;
    r := Success(CreatedReport(q.k, written.value));
  }

  /** The whole transaction: all of its effect or, when anything raises, the stores as they were; no lock stays held.
      A run that reports a creation of its own has left the four rows and the completed state of that creation, and
      one that asks back has left a state waiting for its reason. */
  method RunTransaction(tx: Tx, q: Request, extraction: Option<Extraction>, reason: Reason, body: string, blocked: bool,
                        defaultMinutes: nat, now: Instant, ghost st: Stores, ghost depths: seq<nat>)
    returns (r: Result<Report, Problem>, ghost left: Stores)
    requires tx.Fresh() && tx.Holds(InOrder(st)) && tx.Held(depths, 0)
    modifies tx, tx.participants
    ensures tx.locks == [] && tx.Held(depths, 0) && tx.Holds(InOrder(left))
    ensures match Transaction(st, q, extraction, reason, body, blocked, defaultMinutes, now)
            case Failure(p) => r == Failure(p) && left == st
            case Success(c) => r == Success(c.report) && left == c.stores
    ensures T.StoresOk(st) && r.Success? && !r.value.reused ==>
              if extraction.Some? then
                && R.ReportsCreated(r.value, q.k)
                && L.WrittenAs(left, q.k, Made(q, extraction.value, body, defaultMinutes))
              else
                && R.ReportsAsking(r.value, reason) && left == st.(states := left.states)
                && q.k in left.states.states && R.WaitsFor(left.states.states[q.k], reason)
  {
    hide Transaction, T.StoresOk, L.WrittenAs, R.WaitsFor, R.ReportsCreated, R.ReportsAsking;
    var entered := tx.Enter(None, InOrder(st), depths);
    r, left := RunBody(tx, q, extraction, reason, body, blocked, defaultMinutes, now, st, depths);
    if r.Success? {
      var committed := tx.RequestCommit();
    }
    tx.Exit(r.Failure?, InOrder(left), depths);
    left := if r.Failure? then st else left;
    if T.StoresOk(st) && r.Success? && !r.value.reused {
      R.FreshTransaction(st, q, extraction, reason, body, blocked, defaultMinutes, now);
    }
  }
}
