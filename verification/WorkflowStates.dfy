/** `InMemoryWorkflowStateStore`: one executor is elected for each workflow identity, and identities never change. */
module WorkflowStates {
  import opened Wrappers
  import Delivery

  type Instant = Delivery.Instant
  type RowKey = Delivery.RowKey

  datatype WorkflowStatus = Pending | Running | WaitingApproval | Completed | Failed

  /** What `reminder_effect_ids` derives from an identity: one id per effect, never shared. */
  datatype EffectKind = CalendarEventId | ReminderId | ReminderCreatedId | NotificationRequestedId | OutboxMessageId
  datatype EffectId = EffectId(kind: EffectKind, identity: RowKey)

  /** A JSON value of the workflow data; times are ISO strings and ids are text, read back without loss. */
  datatype Value = Null | Text(text: string) | Time(time: Instant) | Number(number: real) | Id(id: EffectId)

  type Data = map<string, Value>

  datatype WorkflowState = WorkflowState(
    workflowId: string, tenant: string, workflowType: string, status: WorkflowStatus, step: string,
    idempotencyKey: string, payloadFingerprint: Option<string>, data: Data,
    createdAt: Instant, updatedAt: Instant)

  /** `WorkflowState.transition`; an empty step, like none, keeps the current one. */
  function Transitioned(s: WorkflowState, status: Option<WorkflowStatus>, step: Option<string>, data: Data,
                        now: Instant): WorkflowState {
    s.(status := status.GetOr(s.status), step := if step.GetOr("") != "" then step.value else s.step,
       data := s.data + data, updatedAt := now)
  }

  datatype Registration = Registration(state: WorkflowState, replayed: bool, resumed: bool)

  datatype StateError = TenantMismatch | FingerprintRequired | PayloadConflict | IdentityImmutable | TerminalImmutable

  type States = map<RowKey, WorkflowState>
  type WorkflowIndex = map<(string, string), string>

  datatype Store = Store(states: States, keyByWorkflowId: WorkflowIndex)

  const EMPTY := Store(map[], map[])

  function KeyOf(s: WorkflowState): RowKey {
    Delivery.RowKey(s.tenant, s.idempotencyKey)
  }

  function IdKey(s: WorkflowState): (string, string) {
    (s.tenant, s.workflowId)
  }

  predicate IdTaken(st: Store, s: WorkflowState) {
    IdKey(s) in st.keyByWorkflowId && st.keyByWorkflowId[IdKey(s)] != s.idempotencyKey
  }

  function Saved(st: Store, s: WorkflowState): Store {
    Store(st.states[KeyOf(s) := s], st.keyByWorkflowId[IdKey(s) := s.idempotencyKey])
  }

  predicate Resumable(existing: WorkflowState, resumeFromStep: Option<string>) {
    resumeFromStep.Some? && existing.status == WaitingApproval && existing.step == resumeFromStep.value
  }

  /** `register_or_replay` */
  function Registered(st: Store, tenant: string, s: WorkflowState, resumeFromStep: Option<string>, now: Instant)
    : (Result<Registration, StateError>, Store)
  {
    if s.tenant != tenant then (Failure(TenantMismatch), st)
    else if s.payloadFingerprint.None? then (Failure(FingerprintRequired), st)
    else if KeyOf(s) in st.states then
      var existing := st.states[KeyOf(s)];
      if existing.payloadFingerprint != s.payloadFingerprint then (Failure(PayloadConflict), st)
      else if existing.workflowType != s.workflowType then (Failure(IdentityImmutable), st)
      else if Resumable(existing, resumeFromStep) then
        var resumed := Transitioned(existing, Some(Running), None, map[], now);
        (Success(Registration(resumed, false, true)), st.(states := st.states[KeyOf(s) := resumed]))
      else (Success(Registration(existing, true, false)), st)
    else if IdTaken(st, s) then (Failure(IdentityImmutable), st)
    else (Success(Registration(s, false, false)), Saved(st, s))
  }

  predicate Terminal(s: WorkflowState) {
    s.status == Completed || s.status == Failed
  }

  /** `upsert` */
  function Upserted(st: Store, tenant: string, s: WorkflowState): (Result<WorkflowState, StateError>, Store) {
    if s.tenant != tenant then (Failure(TenantMismatch), st)
    else if IdTaken(st, s) then (Failure(IdentityImmutable), st)
    else if KeyOf(s) in st.states then
      var existing := st.states[KeyOf(s)];
      if existing.workflowId != s.workflowId || existing.workflowType != s.workflowType
      then (Failure(IdentityImmutable), st)
      else if existing.payloadFingerprint != s.payloadFingerprint then (Failure(PayloadConflict), st)
      else if Terminal(existing) && s != existing then (Failure(TerminalImmutable), st)
      else (Success(s), Saved(st, s))
    else (Success(s), Saved(st, s))
  }

  // ----- the index -----

  predicate StateIndexed(st: Store, k: RowKey)
    requires k in st.states
  {
    var s := st.states[k];
    KeyOf(s) == k && IdKey(s) in st.keyByWorkflowId && st.keyByWorkflowId[IdKey(s)] == k.idempotencyKey
  }

  predicate EntryNamesState(st: Store, p: (string, string))
    requires p in st.keyByWorkflowId
  {
    var k := Delivery.RowKey(p.0, st.keyByWorkflowId[p]);
    k in st.states && IdKey(st.states[k]) == p
  }

  /** The workflow-id index names exactly the stored states. */
  ghost predicate Valid(st: Store) {
    && (forall k {:trigger StateIndexed(st, k)} :: k in st.states ==> StateIndexed(st, k))
    && (forall p {:trigger EntryNamesState(st, p)} :: p in st.keyByWorkflowId ==> EntryNamesState(st, p))
  }

  /** Replacing a state under its own id, or entering one under a free id, keeps the index exact. */
  lemma PutKeepsValid(st: Store, s: WorkflowState)
    requires Valid(st) && !IdTaken(st, s)
    requires KeyOf(s) in st.states ==> st.states[KeyOf(s)].workflowId == s.workflowId
    ensures Valid(Saved(st, s))
    ensures KeyOf(s) in st.states ==> Saved(st, s).keyByWorkflowId == st.keyByWorkflowId
  {
    var st' := Saved(st, s);
    assert KeyOf(s) in st.states ==> StateIndexed(st, KeyOf(s));
    forall k | k in st'.states ensures StateIndexed(st', k) {
      assert k != KeyOf(s) ==> StateIndexed(st, k);
    }
    forall p | p in st'.keyByWorkflowId ensures EntryNamesState(st', p) {
      assert p != IdKey(s) ==> EntryNamesState(st, p);
    }
  }

  // ----- the two operations, field by field -----

  /** Some stored state of the tenant has this workflow id. */
  ghost predicate IdStored(st: Store, tenant: string, workflowId: string) {
    exists k :: k in st.states && st.states[k].tenant == tenant && st.states[k].workflowId == workflowId
  }

  /** The stored state under the key agrees with the given one in what identifies a workflow. */
  predicate SameWorkflow(x: WorkflowState, s: WorkflowState) {
    x.payloadFingerprint == s.payloadFingerprint && x.workflowType == s.workflowType
  }

  /** A registration gets through exactly for a state of the caller's tenant with a fingerprint that meets the same
      workflow under its key, or an unused workflow id. It enters the state as it is; or hands a state that waits at the
      asked step back to running, all its data kept; or returns what is stored and changes nothing. */
  ghost predicate RegisteredRightly(st: Store, tenant: string, s: WorkflowState, resumeFromStep: Option<string>,
                                    now: Instant, r: Result<Registration, StateError>, st': Store)
  {
    var k := Delivery.RowKey(s.tenant, s.idempotencyKey);
    && (r.Success? <==>
          && s.tenant == tenant && s.payloadFingerprint.Some?
          && if k in st.states then SameWorkflow(st.states[k], s) else !IdStored(st, s.tenant, s.workflowId))
    && (r.Failure? ==>
          && st' == st
          && r.error == if s.tenant != tenant then TenantMismatch
                        else if s.payloadFingerprint.None? then FingerprintRequired
                        else if k in st.states && st.states[k].payloadFingerprint != s.payloadFingerprint
                        then PayloadConflict else IdentityImmutable)
    && (r.Success? ==>
          if k !in st.states then r.value == Registration(s, false, false) && st'.states == st.states[k := s]
          else if resumeFromStep == Some(st.states[k].step) && st.states[k].status == WaitingApproval then
            var x := st.states[k].(status := Running, updatedAt := now);
            r.value == Registration(x, false, true) && st'.states == st.states[k := x]
          else r.value == Registration(st.states[k], true, false) && st' == st)
  }

  lemma RegistrationLaw(st: Store, tenant: string, s: WorkflowState, resumeFromStep: Option<string>, now: Instant)
    requires Valid(st)
    ensures var (r, st') := Registered(st, tenant, s, resumeFromStep, now);
      Valid(st') && RegisteredRightly(st, tenant, s, resumeFromStep, now, r, st')
  {
    ApplyEffect(st, Register(tenant, s, resumeFromStep, now));
    IdTakenExactly(st, s);
    var k := KeyOf(s);
    assert k in st.states ==> StateIndexed(st, k);
    assert k in st.states ==> st.states[k].data + map[] == st.states[k].data;
  }

  /** The index knows a workflow id exactly when a state of the tenant has it. */
  lemma IdTakenExactly(st: Store, s: WorkflowState)
    requires Valid(st)
    ensures KeyOf(s) !in st.states ==> (IdTaken(st, s) <==> IdStored(st, s.tenant, s.workflowId))
    ensures KeyOf(s) in st.states && st.states[KeyOf(s)].workflowId == s.workflowId ==> !IdTaken(st, s)
  {
    assert KeyOf(s) in st.states ==> StateIndexed(st, KeyOf(s));
    if IdKey(s) in st.keyByWorkflowId {
      assert EntryNamesState(st, IdKey(s));
    }
    if IdStored(st, s.tenant, s.workflowId) {
      var k :| k in st.states && st.states[k].tenant == s.tenant && st.states[k].workflowId == s.workflowId;
      assert StateIndexed(st, k);
    }
  }

  /** An upsert gets through exactly for a state of the caller's tenant that meets the same workflow, under the same id,
      under its key, unfinished or equal to it, or an unused workflow id; and then it is stored. */
  ghost predicate UpsertedRightly(st: Store, tenant: string, s: WorkflowState, r: Result<WorkflowState, StateError>,
                                  st': Store)
  {
    var k := Delivery.RowKey(s.tenant, s.idempotencyKey);
    && (r.Success? <==>
          && s.tenant == tenant
          && if k in st.states then
               && SameWorkflow(st.states[k], s) && st.states[k].workflowId == s.workflowId
               && (st.states[k].status == Completed || st.states[k].status == Failed ==> s == st.states[k])
             else !IdStored(st, s.tenant, s.workflowId))
    && (r.Failure? ==>
          && st' == st
          && r.error == if s.tenant != tenant then TenantMismatch
                        else if k !in st.states || st.states[k].workflowId != s.workflowId
                                || st.states[k].workflowType != s.workflowType then IdentityImmutable
                        else if st.states[k].payloadFingerprint != s.payloadFingerprint then PayloadConflict
                        else TerminalImmutable)
    && (r.Success? ==> r.value == s && st'.states == st.states[k := s])
  }

  lemma UpsertLaw(st: Store, tenant: string, s: WorkflowState)
    requires Valid(st)
    ensures var (r, st') := Upserted(st, tenant, s); Valid(st') && UpsertedRightly(st, tenant, s, r, st')
  {
    ApplyEffect(st, Upsert(tenant, s));
    IdTakenExactly(st, s);
  }

  // ----- operations and runs -----

  datatype Op =
    | Register(tenant: string, s: WorkflowState, resumeFromStep: Option<string>, now: Instant)
    | Upsert(tenant: string, s: WorkflowState)

  function Apply(st: Store, op: Op): Store {
    match op
    case Register(tenant, s, resumeFromStep, now) => Registered(st, tenant, s, resumeFromStep, now).1
    case Upsert(tenant, s) => Upserted(st, tenant, s).1
  }

  function Run(st: Store, ops: seq<Op>): Store
    decreases |ops|
  {
    if ops == [] then st else Run(Apply(st, ops[0]), ops[1..])
  }

  predicate Rejected(st: Store, op: Op) {
    match op
    case Register(tenant, s, resumeFromStep, now) => Registered(st, tenant, s, resumeFromStep, now).0.Failure?
    case Upsert(tenant, s) => Upserted(st, tenant, s).0.Failure?
  }

  /** What one operation may do to the store: nothing, or one state under an unchanged identity. */
  lemma ApplyEffect(st: Store, op: Op)
    requires Valid(st)
    ensures var st' := Apply(st, op); var k := KeyOf(op.s);
      && Valid(st') && (Rejected(st, op) ==> st' == st)
      && (st' != st ==> st'.states.Keys == st.states.Keys + {k} && st'.states == st.states[k := st'.states[k]])
      && (k in st.states ==> KeepsIdentity(st.states[k], st'.states[k]))
      && (op.Upsert? && st' != st ==> st'.states[k] == op.s)
  {
    var k := KeyOf(op.s);
    assert k in st.states ==> StateIndexed(st, k);
    if op.Upsert? {
      if !Rejected(st, op) {
        PutKeepsValid(st, op.s);
      }
    } else if Fresh(st, op, k) {
      PutKeepsValid(st, op.s);
    } else if Resumes(st, op, k) {
      var resumed := Transitioned(st.states[k], Some(Running), None, map[], op.now);
      PutKeepsValid(st, resumed);
      assert Apply(st, op) == Saved(st, resumed);
    }
  }

  /** The identity is fixed and a finished state does not change at all. */
  predicate KeepsIdentity(s: WorkflowState, s': WorkflowState) {
    && s'.workflowId == s.workflowId && s'.workflowType == s.workflowType && KeyOf(s') == KeyOf(s)
    && s'.payloadFingerprint == s.payloadFingerprint && (s.status == Completed || s.status == Failed ==> s' == s)
  }

  /** The caller of this operation got the fresh registration of `k`. */
  predicate Fresh(st: Store, op: Op, k: RowKey) {
    op.Register? && KeyOf(op.s) == k &&
    var r := Registered(st, op.tenant, op.s, op.resumeFromStep, op.now).0;
    r.Success? && !r.value.replayed && !r.value.resumed
  }

  /** The caller of this operation resumed `k`. */
  predicate Resumes(st: Store, op: Op, k: RowKey) {
    op.Register? && KeyOf(op.s) == k &&
    var r := Registered(st, op.tenant, op.s, op.resumeFromStep, op.now).0;
    r.Success? && r.value.resumed
  }

  predicate CreatedByUpsert(st: Store, op: Op, k: RowKey) {
    op.Upsert? && k !in st.states && k in Apply(st, op).states
  }

  predicate Waiting(st: Store, k: RowKey) {
    k in st.states && st.states[k].status == WaitingApproval
  }

  predicate Entered(st: Store, op: Op, k: RowKey) {
    !Waiting(st, k) && Waiting(Apply(st, op), k)
  }

  function One(b: bool): nat {
    if b then 1 else 0
  }

  function FreshCount(st: Store, ops: seq<Op>, k: RowKey): nat
    decreases |ops|
  {
    if ops == [] then 0 else One(Fresh(st, ops[0], k)) + FreshCount(Apply(st, ops[0]), ops[1..], k)
  }

  function UpsertCreations(st: Store, ops: seq<Op>, k: RowKey): nat
    decreases |ops|
  {
    if ops == [] then 0 else One(CreatedByUpsert(st, ops[0], k)) + UpsertCreations(Apply(st, ops[0]), ops[1..], k)
  }

  function ResumeCount(st: Store, ops: seq<Op>, k: RowKey): nat
    decreases |ops|
  {
    if ops == [] then 0 else One(Resumes(st, ops[0], k)) + ResumeCount(Apply(st, ops[0]), ops[1..], k)
  }

  /** How many waiting episodes of `k` begin during a run. */
  function Episodes(st: Store, ops: seq<Op>, k: RowKey): nat
    decreases |ops|
  {
    if ops == [] then 0 else One(Entered(st, ops[0], k)) + Episodes(Apply(st, ops[0]), ops[1..], k)
  }

  // ----- the promises -----

  lemma {:induction false} RunKeepsValid(st: Store, ops: seq<Op>)
    requires Valid(st)
    ensures Valid(Run(st, ops))
    decreases |ops|
  {
    if ops != [] {
      ApplyEffect(st, ops[0]);
      RunKeepsValid(Apply(st, ops[0]), ops[1..]);
    }
  }

  /** In every reachable store the index is the exact inverse of the states: it knows an id of a tenant exactly
      when some state carries it, and then names that state. */
  lemma IndexIsExact(ops: seq<Op>, tenant: string, id: string)
    ensures var st := Run(EMPTY, ops);
      (tenant, id) in st.keyByWorkflowId <==> IdStored(st, tenant, id)
    ensures var st := Run(EMPTY, ops);
      forall k :: k in st.states && st.states[k].tenant == tenant && st.states[k].workflowId == id ==>
        (tenant, id) in st.keyByWorkflowId && k == Delivery.RowKey(tenant, st.keyByWorkflowId[(tenant, id)])
  {
    var st := Run(EMPTY, ops);
    RunKeepsValid(EMPTY, ops);
    if (tenant, id) in st.keyByWorkflowId {
      assert EntryNamesState(st, (tenant, id));
    }
    forall k | k in st.states && st.states[k].tenant == tenant && st.states[k].workflowId == id
      ensures (tenant, id) in st.keyByWorkflowId && k == Delivery.RowKey(tenant, st.keyByWorkflowId[(tenant, id)])
    {
      assert StateIndexed(st, k);
    }
  }

  /** A rejected operation changes nothing. */
  lemma RejectionChangesNothing(ops: seq<Op>, op: Op)
    requires Rejected(Run(EMPTY, ops), op)
    ensures Apply(Run(EMPTY, ops), op) == Run(EMPTY, ops)
  {
    RunKeepsValid(EMPTY, ops);
    ApplyEffect(Run(EMPTY, ops), op);
  }

  /** Whatever callers do, a key that is not stored yet is created by exactly one of them once it is stored: by the
      one fresh registration, or by one upsert that came before any registration. No stored key is created again. */
  lemma {:induction false} OneFreshRegistration(st: Store, ops: seq<Op>, k: RowKey)
    requires Valid(st)
    ensures FreshCount(st, ops, k) + UpsertCreations(st, ops, k) + One(k in st.states) == One(k in Run(st, ops).states)
    decreases |ops|
  {
    if ops != [] {
      ApplyEffect(st, ops[0]);
      OneFreshRegistration(Apply(st, ops[0]), ops[1..], k);
    }
  }

  /** Every waiting episode is resumed at most once: resumptions never outnumber episodes, and an episode still
      open has not been resumed. */
  lemma {:induction false} EpisodeResumedOnce(st: Store, ops: seq<Op>, k: RowKey)
    requires Valid(st)
    ensures ResumeCount(st, ops, k) + One(Waiting(Run(st, ops), k)) <= Episodes(st, ops, k) + One(Waiting(st, k))
    decreases |ops|
  {
    if ops != [] {
      ApplyEffect(st, ops[0]);
      EpisodeResumedOnce(Apply(st, ops[0]), ops[1..], k);
    }
  }

  /** After a resumption nobody resumes the key again before a new episode begins. */
  lemma NoSecondResume(st: Store, op: Op, ops: seq<Op>, k: RowKey)
    requires Valid(st) && Resumes(st, op, k) && Episodes(Apply(st, op), ops, k) == 0
    ensures ResumeCount(Apply(st, op), ops, k) == 0
  {
    ApplyEffect(st, op);
    EpisodeResumedOnce(Apply(st, op), ops, k);
  }

  /** A resumption hands over the waiting state as it is, but for its status and the time of the change. */
  lemma ResumeKeepsData(st: Store, op: Op, k: RowKey)
    requires Resumes(st, op, k)
    ensures k in st.states && Waiting(st, k) && Resumable(st.states[k], op.resumeFromStep)
    ensures Apply(st, op).states == st.states[k := st.states[k].(status := Running, updatedAt := op.now)]
  {
    assert st.states[k].data + map[] == st.states[k].data;
  }

  /** Over any run the payload fingerprint and the workflow's identity never change, and a completed or failed state
      never changes at all. */
  lemma {:induction false} IdentityIsForever(st: Store, ops: seq<Op>, k: RowKey)
    requires Valid(st) && k in st.states
    ensures k in Run(st, ops).states && KeepsIdentity(st.states[k], Run(st, ops).states[k])
    decreases |ops|
  {
    if ops != [] {
      ApplyEffect(st, ops[0]);
      IdentityIsForever(Apply(st, ops[0]), ops[1..], k);
    }
  }

  // ----- the class -----

  class InMemoryWorkflowStateStore {
    var statesByKey: States
    var keyByWorkflowId: WorkflowIndex

    ghost function View(): Store
      reads this
    {
      Store(statesByKey, keyByWorkflowId)
    }

    constructor ()
      ensures View() == EMPTY
    {
      statesByKey, keyByWorkflowId := map[], map[];
    }

    method RegisterOrReplay(tenant: string, state: WorkflowState, resumeFromStep: Option<string>, now: Instant)
      returns (r: Result<Registration, StateError>)
      modifies this
      ensures (r, View()) == Registered(old(View()), tenant, state, resumeFromStep, now)
      ensures old(Valid(View())) ==>
                && Valid(View())
                && RegisteredRightly(old(View()), tenant, state, resumeFromStep, now, r, View())
    {
      if Valid(View()) {
        RegistrationLaw(View(), tenant, state, resumeFromStep, now);
      }
      if state.tenant != tenant {
        return Failure(TenantMismatch);
      }
      if state.payloadFingerprint.None? {
        return Failure(FingerprintRequired);
      }
      var key := KeyOf(state);
      if key in statesByKey {
        var existing := statesByKey[key];
        if existing.payloadFingerprint != state.payloadFingerprint {
          return Failure(PayloadConflict);
        }
        if existing.workflowType != state.workflowType {
          return Failure(IdentityImmutable);
        }
        if resumeFromStep.Some? && existing.status == WaitingApproval && existing.step == resumeFromStep.value {
          var resumed := Transitioned(existing, Some(Running), None, map[], now);
          statesByKey := statesByKey[key := resumed];
          return Success(Registration(resumed, false, true));
        }
        return Success(Registration(existing, true, false));
      }
      if IdKey(state) in keyByWorkflowId && keyByWorkflowId[IdKey(state)] != state.idempotencyKey {
        return Failure(IdentityImmutable);
      }
      statesByKey := statesByKey[key := state];
      keyByWorkflowId := keyByWorkflowId[IdKey(state) := state.idempotencyKey];
      r := Success(Registration(state, false, false));
    }

    method Upsert(tenant: string, state: WorkflowState) returns (r: Result<WorkflowState, StateError>)
      modifies this
      ensures (r, View()) == Upserted(old(View()), tenant, state)
      ensures old(Valid(View())) ==> Valid(View()) && UpsertedRightly(old(View()), tenant, state, r, View())
    {
      if Valid(View()) {
        UpsertLaw(View(), tenant, state);
      }
      if state.tenant != tenant {
        return Failure(TenantMismatch);
      }
      var key := KeyOf(state);
      if IdKey(state) in keyByWorkflowId && keyByWorkflowId[IdKey(state)] != state.idempotencyKey {
        return Failure(IdentityImmutable);
      }
      if key in statesByKey {
        var existing := statesByKey[key];
        if existing.workflowId != state.workflowId || existing.workflowType != state.workflowType {
          return Failure(IdentityImmutable);
        }
        if existing.payloadFingerprint != state.payloadFingerprint {
          return Failure(PayloadConflict);
        }
        if Terminal(existing) && (state.status != existing.status || state != existing) {
          return Failure(TerminalImmutable);
        }
      }
      statesByKey := statesByKey[key := state];
      keyByWorkflowId := keyByWorkflowId[IdKey(state) := state.idempotencyKey];
      r := Success(state);
    }
  }
}
