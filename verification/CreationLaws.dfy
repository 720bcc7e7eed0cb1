/** What a creation leaves behind, field by field. */
module CreationLaws {
  import opened Wrappers
  import opened WorkflowStates
  import opened ReminderCreation

  // ----- the rows and the completed state -----

  /** The time of the notice: the default before the start where none was asked for; otherwise the asked one, rounded
      up to whole minutes before the start, or the start itself where it is not before that. */
  predicate NoticeAsked(e: Extraction, defaultMinutes: nat, at: Instant) {
    if e.notifyAt.None? then at == e.startsAt - defaultMinutes * 60_000_000
    else if e.notifyAt.value < e.startsAt then
      e.notifyAt.value <= at < e.notifyAt.value + 60_000_000 && at <= e.startsAt && (e.startsAt - at) % 60_000_000 == 0
    else at == e.startsAt
  }

  predicate CalendarShows(c: CalendarEvent, q: Request, e: Extraction) {
    && c.eventId == EffectId(CalendarEventId, q.k)
    && c.title == e.title && c.startsAt == e.startsAt && c.timezone == e.timezone
    && c.sourceEventId == q.sourceEventId && c.fingerprint == q.fingerprint
  }

  predicate ReminderShows(r: ScheduledReminder, q: Request, e: Extraction, body: string) {
    && r.reminderId == EffectId(ReminderId, q.k) && r.calendarEventId == EffectId(CalendarEventId, q.k)
    && r.timezone == e.timezone && r.sourceEventId == q.sourceEventId && r.fingerprint == q.fingerprint
    && r.channel == q.channel && r.recipient == q.recipient && r.body == body
  }

  predicate EventShows(v: ReminderCreated, q: Request, e: Extraction) {
    && v.id == EffectId(ReminderCreatedId, q.k) && v.subject == EffectId(ReminderId, q.k)
    && v.calendarEventId == EffectId(CalendarEventId, q.k)
    && v.startsAt == e.startsAt && v.timezone == e.timezone
    && v.sourceEventId == q.sourceEventId && v.fingerprint == q.fingerprint
  }

  predicate MessageShows(o: OutboxRow, q: Request, e: Extraction, body: string) {
    && o.messageId == EffectId(OutboxMessageId, q.k) && o.eventId == EffectId(NotificationRequestedId, q.k)
    && o.subject == EffectId(ReminderId, q.k) && o.calendarEventId == EffectId(CalendarEventId, q.k)
    && o.causationId == EffectId(ReminderCreatedId, q.k)
    && o.channel == q.channel && o.recipient == q.recipient && o.body == body
    && o.timezone == e.timezone && o.sourceEventId == q.sourceEventId && o.fingerprint == q.fingerprint
  }

  predicate Holds(data: Data, field: string, value: Value) {
    field in data && data[field] == value
  }

  predicate StateShows(s: WorkflowState, q: Request, e: Extraction, notifyAt: Instant) {
    && s.status == Completed && s.step == "completed"
    && Holds(s.data, "calendar_event_id", Id(EffectId(CalendarEventId, q.k)))
    && Holds(s.data, "reminder_id", Id(EffectId(ReminderId, q.k)))
    && Holds(s.data, "notify_at", Time(notifyAt)) && Holds(s.data, "timezone", Text(e.timezone))
    && Holds(s.data, "source_event_id", Text(q.sourceEventId))
  }

  /** The four rows of an identity and its completed state are those of one creation: each other's ids, one request, one
      extraction, one text, and one notice time in the reminder, the event, the message and the state. */
  predicate WrittenAs(st: Stores, k: RowKey, m: Made) {
    && m.q.k == k && k in st.states.states
    && CalendarKey(k) in st.calendar.rows && NotifyKey(k) in st.scheduler.rows
    && CreatedKey(k) in st.events.rows && OutboxKey(k) in st.outbox.rows
    && var c, r, v, o := st.calendar.rows[CalendarKey(k)], st.scheduler.rows[NotifyKey(k)],
                         st.events.rows[CreatedKey(k)], st.outbox.rows[OutboxKey(k)];
       && CalendarShows(c, m.q, m.e) && ReminderShows(r, m.q, m.e, m.body)
       && EventShows(v, m.q, m.e) && MessageShows(o, m.q, m.e, m.body)
       && NoticeAsked(m.e, m.defaultMinutes, r.notifyAt) && r.notifyAt == v.notifyAt == o.notifyAt
       && StateShows(st.states.states[k], m.q, m.e, r.notifyAt)
  }

  /** The rows as they are made show what they are made from. */
  lemma RowsShow(q: Request, e: Extraction, body: string, defaultMinutes: nat)
    ensures var minutes := NoticeMinutes(e, defaultMinutes); var at := e.startsAt - minutes * MINUTE;
      && CalendarShows(CalendarRow(q, e), q, e) && ReminderShows(ReminderRow(q, e, body, minutes), q, e, body)
      && EventShows(CreatedRow(q, e, minutes), q, e) && MessageShows(MessageRow(q, e, body, minutes), q, e, body)
      && ReminderRow(q, e, body, minutes).notifyAt == CreatedRow(q, e, minutes).notifyAt
         == MessageRow(q, e, body, minutes).notifyAt == at
      && NoticeAsked(e, defaultMinutes, at)
  {}

  /** So does the completed state, whatever data it had. */
  lemma StateIsShown(q: Request, e: Extraction, state: WorkflowState, minutes: nat, now: Instant)
    ensures StateShows(CompletedState(q, e, state, minutes, now), q, e, e.startsAt - minutes * MINUTE)
  {
    var data := CompletedData(q, e, e.startsAt - minutes * MINUTE);
    assert "calendar_event_id" in data && "reminder_id" in data && "notify_at" in data && "timezone" in data
           && "source_event_id" in data;
  }

  // ----- drafts -----

  /** A draft can be read exactly when it has a title and a start, and whatever else it has is of the right kind;
      without them the time zone is UTC, there is no notice time, and the confidence is 0.86. */
  lemma DraftIsReadable(data: Data)
    ensures ExtractionOf(data).Some? <==>
      && "title" in data && data["title"].Text? && "starts_at" in data && data["starts_at"].Time?
      && ("timezone" in data ==> data["timezone"].Text?)
      && ("notify_at" in data ==> data["notify_at"].Null? || data["notify_at"].Time?)
      && ("confidence" in data ==> data["confidence"].Number?)
    ensures ExtractionOf(data).Some? ==>
      var e := ExtractionOf(data).value;
      && Holds(data, "title", Text(e.title)) && Holds(data, "starts_at", Time(e.startsAt))
      && (Holds(data, "timezone", Text(e.timezone)) || ("timezone" !in data && e.timezone == "UTC"))
      && (if e.notifyAt.Some? then Holds(data, "notify_at", Time(e.notifyAt.value))
          else Holds(data, "notify_at", Null) || "notify_at" !in data)
      && (Holds(data, "confidence", Number(e.confidence)) || ("confidence" !in data && e.confidence == 0.86))
  {}

  /** The stored reason is the one whose text is stored, and a missing date and time where there is no such text. */
  lemma StoredReasonExactly(data: Data, reason: Reason)
    ensures StoredReason(data) == reason <==>
            || Holds(data, "clarification_reason", Text(ReasonText(reason)))
            || (reason == MissingDatetime && forall r :: !Holds(data, "clarification_reason", Text(ReasonText(r))))
  {
    if "clarification_reason" in data && data["clarification_reason"].Text? {
      var text := data["clarification_reason"].text;
      ReasonRoundTrip(reason);
      forall r ensures text == ReasonText(r) ==> StoredReason(data) == r {
        ReasonRoundTrip(r);
      }
      if StoredReason(data) != MissingDatetime {
        assert text == ReasonText(StoredReason(data));
      }
    }
  }

  // ----- the effect stores -----

  /** A write that succeeds stores the row under its key and ids and changes no other row or id; one that is refused met
      another row under its key, or one of its ids under another key. */
  lemma PlacedKeeps<V>(shelf: Shelf<V>, k: RowKey, ids: set<EffectId>, v: V)
    requires forall id :: id in shelf.keyById ==> shelf.keyById[id] in shelf.rows
    ensures match Placed(shelf, k, ids, v)
            case Success(shelf') =>
              && shelf'.rows.Keys == shelf.rows.Keys + {k} && shelf'.rows[k] == v
              && (forall r :: r in shelf.rows ==> shelf'.rows[r] == shelf.rows[r])
              && (forall id :: id in shelf.keyById ==> id in shelf'.keyById && shelf'.keyById[id] == shelf.keyById[id])
              && (k !in shelf.rows ==>
                    && shelf'.keyById.Keys == shelf.keyById.Keys + ids
                    && forall id :: id in ids ==> shelf'.keyById[id] == k)
            case Failure(p) =>
              && p == EffectConflict
              && if k in shelf.rows then shelf.rows[k] != v else exists id :: id in ids && id in shelf.keyById
  {
    if k !in shelf.rows && Placed(shelf, k, ids, v).Success? {
      assert forall id :: id in ids ==> id !in shelf.keyById;
    }
  }
}
