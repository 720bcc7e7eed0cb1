/** What an outbox does, as functions on its stored state: adding, choosing due messages, transitions. */
module OutboxSpec {
  import opened Wrappers
  import opened Orders
  import opened Delivery

  /** What the write fingerprint of a message stands for. */
  datatype Write = Write(event: Event, nextAttemptAt: Option<Instant>, messageId: Option<string>)

  type Index = map<(string, string), string>

  datatype Store = Store(messages: Rows, keyByMessageId: Index, keyByEventId: Index, writes: map<RowKey, Write>)

  const EMPTY_STORE := Store(map[], map[], map[], map[])

  function IdOf(m: Message, ofEvent: bool): string {
    if ofEvent then m.event.id else m.id
  }

  predicate RowIndexed(rows: Rows, index: Index, ofEvent: bool, k: RowKey)
    requires k in rows
  {
    (k.tenant, IdOf(rows[k], ofEvent)) in index && index[(k.tenant, IdOf(rows[k], ofEvent))] == k.idempotencyKey
  }

  predicate EntryNamesRow(rows: Rows, index: Index, ofEvent: bool, p: (string, string))
    requires p in index
  {
    RowKey(p.0, index[p]) in rows && IdOf(rows[RowKey(p.0, index[p])], ofEvent) == p.1
  }

  /** The index is the exact inverse of the rows: for a tenant and an id it names the one row with that id. */
  ghost predicate IndexExact(rows: Rows, index: Index, ofEvent: bool) {
    && (forall k {:trigger RowIndexed(rows, index, ofEvent, k)} :: k in rows ==> RowIndexed(rows, index, ofEvent, k))
    && (forall p {:trigger EntryNamesRow(rows, index, ofEvent, p)} ::
         p in index ==> EntryNamesRow(rows, index, ofEvent, p))
  }

  predicate RowValid(rows: Rows, k: RowKey)
    requires k in rows
  {
    rows[k].tenant == k.tenant && rows[k].idempotencyKey == k.idempotencyKey && StateMetadata(rows[k])
  }

  ghost predicate RowsValid(rows: Rows) {
    forall k {:trigger RowValid(rows, k)} :: k in rows ==> RowValid(rows, k)
  }

  ghost predicate StoreValid(s: Store) {
    && RowsValid(s.messages) && s.writes.Keys == s.messages.Keys
    && IndexExact(s.messages, s.keyByMessageId, false) && IndexExact(s.messages, s.keyByEventId, true)
  }

  // ----- adding -----

  function NewMessage(tenant: string, id: string, event: Event, key: string, next: Option<Instant>,
                      createdAt: Instant): Message {
    Message(tenant, id, event, key, Pending, None, None, None, next, 0, createdAt, None, None, None)
  }

  /** `add`: replay by key, then the two uniqueness checks, then the row with both index entries. */
  function Added(s: Store, m: Message, w: Write): (Result<Message, StoreError>, Store) {
    var k := RowKey(m.tenant, m.idempotencyKey);
    if k in s.messages then
      (if k in s.writes && s.writes[k] == w then Success(s.messages[k]) else Failure(Conflict), s)
    else if (m.tenant, m.id) in s.keyByMessageId && s.keyByMessageId[(m.tenant, m.id)] != m.idempotencyKey then
      (Failure(Conflict), s)
    else if (m.tenant, m.event.id) in s.keyByEventId && s.keyByEventId[(m.tenant, m.event.id)] != m.idempotencyKey then
      (Failure(Conflict), s)
    else
      (Success(m),
       Store(s.messages[k := m],
             s.keyByMessageId[(m.tenant, m.id) := m.idempotencyKey],
             s.keyByEventId[(m.tenant, m.event.id) := m.idempotencyKey],
             s.writes[k := w]))
  }

  /** A row under an id its tenant's index does not have keeps the index exact once it is entered there. */
  lemma EnterRow(rows: Rows, index: Index, ofEvent: bool, k: RowKey, m: Message)
    requires IndexExact(rows, index, ofEvent) && k !in rows && (k.tenant, IdOf(m, ofEvent)) !in index
    ensures IndexExact(rows[k := m], index[(k.tenant, IdOf(m, ofEvent)) := k.idempotencyKey], ofEvent)
  {
    var rows', index' := rows[k := m], index[(k.tenant, IdOf(m, ofEvent)) := k.idempotencyKey];
    forall k' | k' in rows' ensures RowIndexed(rows', index', ofEvent, k') {
      assert k' != k ==> RowIndexed(rows, index, ofEvent, k');
    }
    forall p | p in index' ensures EntryNamesRow(rows', index', ofEvent, p) {
      assert p in index ==> EntryNamesRow(rows, index, ofEvent, p);
    }
  }

  /** An exact index never sends an absent key's id to that key, so the uniqueness check catches every clash. */
  lemma NoEntryForAbsentKey(rows: Rows, index: Index, ofEvent: bool, k: RowKey, id: string)
    requires IndexExact(rows, index, ofEvent) && k !in rows
    ensures (k.tenant, id) in index ==> index[(k.tenant, id)] != k.idempotencyKey
  {
    assert (k.tenant, id) in index ==> EntryNamesRow(rows, index, ofEvent, (k.tenant, id));
  }

  /** Adding keeps both indexes exact and changes nothing unless it stores a new row under new ids. */
  lemma AddKeepsStore(s: Store, m: Message, w: Write)
    requires StoreValid(s) && m == NewMessage(m.tenant, m.id, m.event, m.idempotencyKey, m.nextAttemptAt, m.createdAt)
    ensures var (r, s') := Added(s, m, w); var k := RowKey(m.tenant, m.idempotencyKey);
      && StoreValid(s') && (r.Failure? ==> s' == s)
      && (s' != s ==> k !in s.messages && s'.messages == s.messages[k := m]
                      && (m.tenant, m.id) !in s.keyByMessageId && (m.tenant, m.event.id) !in s.keyByEventId)
  {
    var k := RowKey(m.tenant, m.idempotencyKey);
    if k !in s.messages {
      NoEntryForAbsentKey(s.messages, s.keyByMessageId, false, k, m.id);
      NoEntryForAbsentKey(s.messages, s.keyByEventId, true, k, m.event.id);
      if Added(s, m, w).0.Success? {
        EnterRow(s.messages, s.keyByMessageId, false, k, m);
        EnterRow(s.messages, s.keyByEventId, true, k, m);
        forall k' | k' in s.messages ensures RowValid(s.messages[k := m], k') {
          assert RowValid(s.messages, k');
        }
      }
    }
  }

  // ----- transitions -----

  /** The row a tenant's message id names, if any. */
  ghost predicate Names(rows: Rows, k: RowKey, tenant: string, id: string) {
    k in rows && k.tenant == tenant && rows[k].id == id
  }

  predicate Apart(rows: Rows, k1: RowKey, k2: RowKey)
    requires k1 in rows && k2 in rows
  {
    k1.tenant == k2.tenant && rows[k1].id == rows[k2].id ==> k1 == k2
  }

  ghost predicate IdsUnique(rows: Rows) {
    forall k1, k2 {:trigger Apart(rows, k1, k2)} :: k1 in rows && k2 in rows ==> Apart(rows, k1, k2)
  }

  lemma ExactIndexMakesIdsUnique(s: Store)
    requires IndexExact(s.messages, s.keyByMessageId, false)
    ensures IdsUnique(s.messages)
  {
    forall k1, k2 | k1 in s.messages && k2 in s.messages
      ensures Apart(s.messages, k1, k2)
    {
      assert RowIndexed(s.messages, s.keyByMessageId, false, k1) && RowIndexed(s.messages, s.keyByMessageId, false, k2);
    }
  }

  lemma OnlyOneNamed(rows: Rows, tenant: string, id: string, k: RowKey)
    requires IdsUnique(rows) && Names(rows, k, tenant, id)
    ensures forall k' :: Names(rows, k', tenant, id) ==> k' == k
  {
    forall k' | Names(rows, k', tenant, id) ensures k' == k {
      assert Apart(rows, k', k);
    }
  }

  predicate SameIds(rows: Rows, rows': Rows, k: RowKey)
    requires k in rows && k in rows'
  {
    rows'[k].id == rows[k].id && rows'[k].event == rows[k].event
  }

  ghost predicate AllSameIds(rows: Rows, rows': Rows) {
    rows'.Keys == rows.Keys && forall k {:trigger SameIds(rows, rows', k)} ::
      k in rows && k in rows' ==> SameIds(rows, rows', k)
  }

  lemma SameIdsKeepIndex(rows: Rows, index: Index, ofEvent: bool, rows': Rows)
    requires IndexExact(rows, index, ofEvent) && AllSameIds(rows, rows')
    ensures IndexExact(rows', index, ofEvent)
  {
    forall k | k in rows' ensures RowIndexed(rows', index, ofEvent, k) {
      assert RowIndexed(rows, index, ofEvent, k) && SameIds(rows, rows', k);
    }
    forall p | p in index ensures EntryNamesRow(rows', index, ofEvent, p) {
      assert EntryNamesRow(rows, index, ofEvent, p) && SameIds(rows, rows', RowKey(p.0, index[p]));
    }
  }

  /** Changing any rows and none of their ids keeps the store. */
  lemma SameIdsKeepStore(s: Store, rows': Rows)
    requires StoreValid(s) && AllSameIds(s.messages, rows') && RowsValid(rows')
    ensures StoreValid(s.(messages := rows'))
  {
    SameIdsKeepIndex(s.messages, s.keyByMessageId, false, rows');
    SameIdsKeepIndex(s.messages, s.keyByEventId, true, rows');
  }

  lemma RowChangeKeepsStore(s: Store, k: RowKey, m: Message)
    requires StoreValid(s) && k in s.messages && StateMetadata(m)
    requires m.tenant == k.tenant && m.idempotencyKey == k.idempotencyKey
    requires m.id == s.messages[k].id && m.event == s.messages[k].event
    ensures StoreValid(s.(messages := s.messages[k := m]))
  {
    forall k' | k' in s.messages ensures RowValid(s.messages[k := m], k') {
      assert RowValid(s.messages, k');
    }
    SameIdsKeepStore(s, s.messages[k := m]);
  }

  lemma TransitionKeepsStore(s: Store, k: RowKey, token: string, c: Change)
    requires StoreValid(s) && k in s.messages && GuardedChange(s.messages[k], token, c).Success?
    ensures StoreValid(s.(messages := s.messages[k := Changed(s.messages[k], c)]))
  {
    assert RowValid(s.messages, k);
    RowChangeKeepsStore(s, k, Changed(s.messages[k], c));
  }

  lemma ResolveKeepsStore(s: Store, k: RowKey, c: OperatorChange)
    requires StoreValid(s) && k in s.messages && OperatorGuardedChange(s.messages[k], c).Success?
    ensures StoreValid(s.(messages := s.messages[k := Resolved(s.messages[k], c)]))
  {
    assert RowValid(s.messages, k);
    RowChangeKeepsStore(s, k, Resolved(s.messages[k], c));
  }

  /** The outcome of a transition request: by message id, through the token and status guards. */
  ghost predicate TransitionOutcome(rows: Rows, tenant: string, id: string, token: string, c: Change,
                                    r: Result<Message, StoreError>, rows': Rows)
  {
    && (token == "" ==> r == Failure(PermissionDenied))
    && (token != "" && (forall k :: !Names(rows, k, tenant, id)) ==> r == Failure(NotFound))
    && (forall k :: Names(rows, k, tenant, id) && token != "" ==> r == GuardedChange(rows[k], token, c))
    && (r.Failure? ==> rows' == rows)
    && (r.Success? ==> forall k :: Names(rows, k, tenant, id) ==> rows' == rows[k := r.value])
  }

  ghost predicate OperatorOutcome(rows: Rows, tenant: string, id: string, c: OperatorChange,
                                  r: Result<Message, StoreError>, rows': Rows)
  {
    && ((forall k :: !Names(rows, k, tenant, id)) ==> r == Failure(NotFound))
    && (forall k :: Names(rows, k, tenant, id) ==> r == OperatorGuardedChange(rows[k], c))
    && (r.Failure? ==> rows' == rows)
    && (r.Success? ==> forall k :: Names(rows, k, tenant, id) ==> rows' == rows[k := r.value])
  }

  // ----- choosing the first due messages -----

  predicate Earlier(m1: Message, m2: Message) {
    m1.createdAt < m2.createdAt || (m1.createdAt == m2.createdAt && STRING_LESS(m1.id, m2.id))
  }

  function ClaimableKeys(rows: Rows, tenant: string, eventType: Option<string>, now: Instant): set<RowKey> {
    set k | k in rows && k.tenant == tenant && OfType(rows[k], eventType) && Claimable(rows[k], now)
  }

  function ExpiredKeys(rows: Rows, tenant: string, eventType: Option<string>, now: Instant): set<RowKey> {
    set k | k in rows && k.tenant == tenant && OfType(rows[k], eventType) && ExpiredSending(rows[k], now)
  }

  /** `chosen` lists, oldest first, the first `limit` of the eligible rows by creation time and id. */
  ghost predicate FirstOf(rows: Rows, eligible: set<RowKey>, limit: nat, chosen: seq<RowKey>) {
    && (forall i :: 0 <= i < |chosen| ==> chosen[i] in eligible)
    && (forall i, j :: 0 <= i < j < |chosen| ==> RowEarlier(rows, chosen[i], chosen[j]))
    && |chosen| == (if |eligible| < limit then |eligible| else limit)
    && (forall i, k :: 0 <= i < |chosen| && k in eligible && k !in chosen ==> RowEarlier(rows, chosen[i], k))
  }

  ghost predicate RowEarlier(rows: Rows, k1: RowKey, k2: RowKey) {
    k1 in rows && k2 in rows && Earlier(rows[k1], rows[k2])
  }

  lemma EarlierIsStrict(rows: Rows, k1: RowKey, k2: RowKey)
    ensures !(RowEarlier(rows, k1, k2) && RowEarlier(rows, k2, k1))
  {
    StringOrder();
  }

  lemma FirstOfDistinct(rows: Rows, eligible: set<RowKey>, limit: nat, chosen: seq<RowKey>)
    requires FirstOf(rows, eligible, limit, chosen)
    ensures forall i, j :: 0 <= i < j < |chosen| ==> chosen[i] != chosen[j]
  {
    forall i, j | 0 <= i < j < |chosen| ensures chosen[i] != chosen[j] {
      EarlierIsStrict(rows, chosen[i], chosen[j]);
    }
  }

  lemma {:induction false} DistinctCount(s: seq<RowKey>)
    requires forall i, j :: 0 <= i < j < |s| ==> s[i] != s[j]
    ensures |set k | k in s| == |s|
  {
    if s != [] {
      var n := |s| - 1;
      DistinctCount(s[..n]);
      assert (set k | k in s) == (set k | k in s[..n]) + {s[n]};
    }
  }

  lemma SubsetCount(a: set<RowKey>, b: set<RowKey>)
    requires a <= b
    ensures |a| <= |b|
  {
    assert b == a + (b - a);
  }

  /** The choice is forced: any two such lists are equal. */
  lemma FirstOfUnique(rows: Rows, eligible: set<RowKey>, limit: nat, a: seq<RowKey>, b: seq<RowKey>)
    requires FirstOf(rows, eligible, limit, a) && FirstOf(rows, eligible, limit, b)
    ensures a == b
  {
    PrefixesAgree(rows, eligible, limit, a, b, |a|);
    assert a == a[..|a|] && b == b[..|a|];
  }

  lemma {:induction false} PrefixesAgree(rows: Rows, eligible: set<RowKey>, limit: nat, a: seq<RowKey>, b: seq<RowKey>,
                                         n: nat)
    requires FirstOf(rows, eligible, limit, a) && FirstOf(rows, eligible, limit, b) && n <= |a|
    ensures a[..n] == b[..n]
  {
    if n > 0 {
      PrefixesAgree(rows, eligible, limit, a, b, n - 1);
      if a[n - 1] != b[n - 1] {
        ChosenBefore(rows, eligible, limit, a, b, n - 1);
        ChosenBefore(rows, eligible, limit, b, a, n - 1);
        EarlierIsStrict(rows, a[n - 1], b[n - 1]);
      }
      assert a[..n] == a[..n - 1] + [a[n - 1]] && b[..n] == b[..n - 1] + [b[n - 1]];
    }
  }

  /** Where two choices first differ, each puts its own row strictly before the other's. */
  lemma ChosenBefore(rows: Rows, eligible: set<RowKey>, limit: nat, a: seq<RowKey>, b: seq<RowKey>, i: nat)
    requires FirstOf(rows, eligible, limit, a) && FirstOf(rows, eligible, limit, b)
    requires i < |a| == |b| && a[i] != b[i] && a[..i] == b[..i]
    ensures RowEarlier(rows, a[i], b[i])
  {
    if b[i] in a {
      var j :| 0 <= j < |a| && a[j] == b[i];
      if j < i {
        assert b[j] == a[..i][j] == b[i];
        EarlierIsStrict(rows, b[j], b[i]);
      }
    }
  }

  /** Outside the chosen rows nothing changed. */
  ghost predicate UnchangedBut(rows: Rows, chosen: seq<RowKey>, rows': Rows) {
    rows'.Keys == rows.Keys && forall k :: k in rows && k !in chosen ==> rows'[k] == rows[k]
  }

  /** What a claim has stored and returned once it has leased these rows, in this order. */
  ghost predicate ClaimsSoFar(rows: Rows, chosen: seq<RowKey>, token: nat -> string, owner: string, until: Instant,
                          stored: Rows, claimed: seq<Message>)
  {
    && (forall i :: 0 <= i < |chosen| ==> chosen[i] in rows)
    && UnchangedBut(rows, chosen, stored)
    && |claimed| == |chosen|
    && forall i :: 0 <= i < |chosen| ==>
         stored[chosen[i]] == claimed[i] == ClaimedCopy(rows[chosen[i]], token(i), owner, until)
  }

  /** A claim raises, and changes nothing, exactly when there is a row to lease and the lease would end
      past the last datetime. */
  ghost predicate ClaimOutcome(rows: Rows, chosen: seq<RowKey>, token: nat -> string, owner: string, until: Instant,
                               r: Result<seq<Message>, StoreError>, rows': Rows)
  {
    match r
    case Failure(e) => e == Overflow && |chosen| > 0 && until > DATETIME_MAX && rows' == rows
    case Success(claimed) =>
      && (|chosen| == 0 || until <= DATETIME_MAX)
      && ClaimsSoFar(rows, chosen, token, owner, until, rows', claimed)
  }

  ghost predicate SweepsSoFar(rows: Rows, chosen: seq<RowKey>, error: DeliveryError, stored: Rows,
                              swept: seq<Message>) {
    && (forall i :: 0 <= i < |chosen| ==> chosen[i] in rows)
    && UnchangedBut(rows, chosen, stored)
    && |swept| == |chosen|
    && forall i :: 0 <= i < |chosen| ==>
         stored[chosen[i]] == swept[i] == SweptCopy(rows[chosen[i]], error)
  }

  // ----- claims and sweeps keep the store -----

  /** `claim_due` runs no validity rule, and its copies satisfy it all the same. */
  lemma ClaimedRowValid(rows: Rows, k: RowKey, now: Instant, token: string, owner: string, until: Instant, rows': Rows)
    requires k in rows && RowValid(rows, k) && Claimable(rows[k], now) && token != "" && owner != ""
    requires k in rows' && rows'[k] == ClaimedCopy(rows[k], token, owner, until)
    ensures SameIds(rows, rows', k) && RowValid(rows', k)
  {}

  lemma SweptRowValid(rows: Rows, k: RowKey, now: Instant, error: DeliveryError, rows': Rows)
    requires k in rows && RowValid(rows, k) && ExpiredSending(rows[k], now)
    requires k in rows' && rows'[k] == SweptCopy(rows[k], error)
    ensures SameIds(rows, rows', k) && RowValid(rows', k)
  {}

  lemma ClaimsKeepStore(s: Store, tenant: string, eventType: Option<string>, now: Instant, chosen: seq<RowKey>,
                        token: nat -> string, owner: string, until: Instant,
                        r: Result<seq<Message>, StoreError>, rows': Rows)
    requires StoreValid(s) && forall k :: k in chosen ==> k in ClaimableKeys(s.messages, tenant, eventType, now)
    requires ClaimOutcome(s.messages, chosen, token, owner, until, r, rows') && owner != ""
    requires forall i :: token(i) != ""
    ensures StoreValid(s.(messages := rows'))
  {
    if r.Success? {
      forall k | k in rows' ensures SameIds(s.messages, rows', k) && RowValid(rows', k) {
        assert RowValid(s.messages, k);
        if k in chosen {
          var i :| 0 <= i < |chosen| && chosen[i] == k;
          ClaimedRowValid(s.messages, k, now, token(i), owner, until, rows');
        }
      }
      SameIdsKeepStore(s, rows');
    }
  }

  lemma SweepsKeepStore(s: Store, tenant: string, eventType: Option<string>, now: Instant, chosen: seq<RowKey>,
                        error: DeliveryError, rows': Rows, swept: seq<Message>)
    requires StoreValid(s) && forall k :: k in chosen ==> k in ExpiredKeys(s.messages, tenant, eventType, now)
    requires SweepsSoFar(s.messages, chosen, error, rows', swept)
    ensures StoreValid(s.(messages := rows'))
  {
    forall k | k in rows' ensures SameIds(s.messages, rows', k) && RowValid(rows', k) {
      assert RowValid(s.messages, k);
      if k in chosen {
        var i :| 0 <= i < |chosen| && chosen[i] == k;
        SweptRowValid(s.messages, k, now, error, rows');
      }
    }
    SameIdsKeepStore(s, rows');
  }
}
