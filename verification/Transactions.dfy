/** `InMemoryReminderTransaction`: five stores, snapshot under ordered locks, restored unless the block commits. */
module Transactions {
  import opened Wrappers

  // ----- what a block does, and what its exit leaves -----

  datatype BlockOp<D> = Write(store: nat, data: D) | Commit | Rollback

  datatype Block<D> = Block(data: seq<D>, committed: bool, rolledBack: bool, raised: bool)

  /** One call inside the block; an exception ends the block, so that later calls are not made. */
  function Do<D>(entry: seq<D>, b: Block<D>, op: BlockOp<D>): Block<D> {
    if b.raised then b
    else match op
      case Write(i, d) => if i < |b.data| then b.(data := b.data[i := d]) else b
      case Commit => if b.rolledBack then b.(raised := true) else b.(committed := true)
      case Rollback => if b.rolledBack then b else Block(entry, false, true, false)
  }

  function DoAll<D>(entry: seq<D>, b: Block<D>, ops: seq<BlockOp<D>>): Block<D>
    decreases |ops|
  {
    if ops == [] then b else DoAll(entry, Do(entry, b, ops[0]), ops[1..])
  }

  /** `__exit__`, with or without an exception in flight. */
  function Exited<D>(entry: seq<D>, b: Block<D>, fails: bool): seq<D> {
    if (b.raised || fails || !b.committed) && !b.rolledBack then entry else b.data
  }

  function Outcome<D>(entry: seq<D>, ops: seq<BlockOp<D>>, fails: bool): seq<D> {
    Exited(entry, DoAll(entry, Block(entry, false, false, false), ops), fails)
  }

  /** The stores after the writes among these calls. */
  function Written<D>(data: seq<D>, ops: seq<BlockOp<D>>): seq<D>
    decreases |ops|
  {
    if ops == [] then data
    else Written(if ops[0].Write? && ops[0].store < |data| then data[ops[0].store := ops[0].data] else data, ops[1..])
  }

  /** The calls up to the first commit. */
  function UpToCommit<D>(ops: seq<BlockOp<D>>): seq<BlockOp<D>>
    decreases |ops|
  {
    if ops == [] || ops[0].Commit? then [] else [ops[0]] + UpToCommit(ops[1..])
  }

  lemma {:induction false} WithoutRollback<D>(entry: seq<D>, b: Block<D>, ops: seq<BlockOp<D>>)
    requires !b.rolledBack && !b.raised && Rollback !in ops
    ensures DoAll(entry, b, ops) == Block(Written(b.data, ops), b.committed || Commit in ops, false, false)
    decreases |ops|
  {
    if ops != [] {
      WithoutRollback(entry, Do(entry, b, ops[0]), ops[1..]);
      assert ops == [ops[0]] + ops[1..];
    }
  }

  lemma {:induction false} RaisedStays<D>(entry: seq<D>, b: Block<D>, ops: seq<BlockOp<D>>)
    requires b.raised
    ensures DoAll(entry, b, ops) == b
    decreases |ops|
  {
    if ops != [] {
      RaisedStays(entry, b, ops[1..]);
    }
  }

  lemma {:induction false} AfterRollback<D>(entry: seq<D>, b: Block<D>, ops: seq<BlockOp<D>>)
    requires b.rolledBack && !b.committed && !b.raised
    ensures var b' := DoAll(entry, b, ops);
      b'.rolledBack && !b'.committed && b'.data == Written(b.data, UpToCommit(ops)) && (b'.raised <==> Commit in ops)
    decreases |ops|
  {
    if ops != [] {
      var b1 := Do(entry, b, ops[0]);
      if ops[0].Commit? {
        RaisedStays(entry, b1, ops[1..]);
      } else {
        AfterRollback(entry, b1, ops[1..]);
        assert UpToCommit(ops)[1..] == UpToCommit(ops[1..]);
        assert ops == [ops[0]] + ops[1..];
      }
    }
  }

  lemma {:induction false} DoAllConcat<D>(entry: seq<D>, b: Block<D>, a: seq<BlockOp<D>>, c: seq<BlockOp<D>>)
    ensures DoAll(entry, b, a + c) == DoAll(entry, DoAll(entry, b, a), c)
    decreases |a|
  {
    if a == [] {
      assert a + c == c;
    } else {
      assert (a + c)[0] == a[0] && (a + c)[1..] == a[1..] + c;
      DoAllConcat(entry, Do(entry, b, a[0]), a[1..], c);
    }
  }

  /** Exactly what an exit leaves, for every block: without an explicit rollback, the effect of the whole block if it
      committed and no exception followed, and otherwise the entry state; after an explicit rollback, the entry state
      with the writes made between that rollback and the exit. */
  lemma ExitLeaves<D>(entry: seq<D>, before: seq<BlockOp<D>>, rolledBack: bool, after: seq<BlockOp<D>>, fails: bool)
    requires Rollback !in before
    ensures Outcome(entry, before + (if rolledBack then [Rollback] + after else []), fails) ==
      if rolledBack then Written(entry, UpToCommit(after))
      else if Commit in before && !fails then Written(entry, before)
      else entry
  {
    var start := Block(entry, false, false, false);
    WithoutRollback(entry, start, before);
    if rolledBack {
      var b := DoAll(entry, start, before);
      DoAllConcat(entry, start, before, [Rollback] + after);
      assert ([Rollback] + after)[1..] == after;
      assert DoAll(entry, b, [Rollback] + after) == DoAll(entry, Do(entry, b, Rollback), after);
      AfterRollback(entry, Do(entry, b, Rollback), after);
    } else {
      assert before + [] == before;
    }
  }

  predicate NoWriteAfterRollback<D>(ops: seq<BlockOp<D>>) {
    forall i, j :: 0 <= i < j < |ops| && ops[i] == Rollback ==> !ops[j].Write?
  }

  lemma {:induction false} NothingWritten<D>(data: seq<D>, ops: seq<BlockOp<D>>)
    requires forall op :: op in ops ==> !op.Write?
    ensures Written(data, UpToCommit(ops)) == data
    decreases |ops|
  {
    if ops != [] && !ops[0].Commit? {
      assert UpToCommit(ops)[1..] == UpToCommit(ops[1..]);
      NothingWritten(data, ops[1..]);
    }
  }

  lemma {:induction false} FirstRollback<D>(ops: seq<BlockOp<D>>) returns (n: nat)
    requires Rollback in ops
    ensures n < |ops| && ops[n] == Rollback && Rollback !in ops[..n]
  {
    n := 0;
    while ops[n] != Rollback
      invariant n < |ops| && Rollback !in ops[..n] && Rollback in ops[n..]
      decreases |ops| - n
    {
      assert ops[n..] == [ops[n]] + ops[n + 1..];
      assert ops[..n + 1] == ops[..n] + [ops[n]];
      n := n + 1;
    }
  }

  /** All or nothing, when no store is written between an explicit rollback and the exit: the stores hold the effect of
      the whole block if it committed, was not rolled back and no exception followed, and else exactly the entry state;
      rolling back twice, committing after a rollback and an exception after a commit make no difference to that. */
  lemma AllOrNothing<D>(entry: seq<D>, ops: seq<BlockOp<D>>, fails: bool)
    requires NoWriteAfterRollback(ops)
    ensures Outcome(entry, ops, fails)
            == if Commit in ops && Rollback !in ops && !fails then Written(entry, ops) else entry
  {
    if Rollback in ops {
      var n := FirstRollback(ops);
      assert ops == ops[..n] + ([Rollback] + ops[n + 1..]);
      ExitLeaves(entry, ops[..n], true, ops[n + 1..], fails);
      forall op | op in ops[n + 1..] ensures !op.Write? {
        var j :| n + 1 <= j < |ops| && ops[j] == op;
      }
      NothingWritten(entry, ops[n + 1..]);
    } else {
      ExitLeaves(entry, ops, false, [], fails);
      assert ops + [] == ops;
    }
  }

  // ----- the class -----

  /** One of the five stores: its data with all its indexes, and how often this thread holds its reentrant lock. */
  class Participant<D> {
    var data: D
    var held: nat

    constructor (data: D)
      ensures this.data == data && held == 0
    {
      this.data, held := data, 0;
    }
  }

  const STORES: nat := 5

  class InMemoryReminderTransaction<D> {
    const participants: seq<Participant<D>>
    var locks: seq<Participant<D>>
    var snapshots: seq<D>
    var entered: bool
    var committed: bool
    var rolledBack: bool

    /** Locks are only ever held from the first participant on, in the order of the participants. */
    ghost predicate Ordered()
      reads this
    {
      && |participants| == STORES
      && (forall i, j :: 0 <= i < j < STORES ==> participants[i] != participants[j])
      && locks <= participants && !(committed && rolledBack)
    }

    /** Between entry and exit all five of them are held, and at no other time any. */
    ghost predicate Valid()
      reads this
    {
      Ordered() && (locks == [] || (entered && locks == participants && |snapshots| == STORES))
    }

    ghost predicate Fresh()
      reads this
    {
      Valid() && !entered && locks == [] && !committed && !rolledBack
    }

    ghost predicate Active()
      reads this
    {
      Valid() && locks == participants
    }

    ghost predicate Holds(data: seq<D>)
      reads this, participants
    {
      |data| == |participants| && forall i :: 0 <= i < |participants| ==> participants[i].data == data[i]
    }

    /** This thread's lock depths: the first `taken` of them one more than at entry. */
    ghost predicate Held(depths: seq<nat>, taken: nat)
      reads this, participants
    {
      |depths| == |participants| && forall i :: 0 <= i < |participants| ==>
        participants[i].held == depths[i] + (if i < taken then 1 else 0)
    }

    constructor (participants: seq<Participant<D>>)
      requires |participants| == STORES && forall i, j :: 0 <= i < j < STORES ==> participants[i] != participants[j]
      ensures Fresh() && this.participants == participants && |participants| == 5
    {
      this.participants := participants;
      locks, snapshots := [], [];
      entered, committed, rolledBack := false, false, false;
    }

    /** `__enter__`: takes the locks, then the snapshots. The call that `raisesAt` numbers, a lock or then a snapshot,
        raises; the locks taken until then are released, and the transaction stays entered and inactive. */
    method Enter(raisesAt: Option<nat>, ghost data: seq<D>, ghost depths: seq<nat>) returns (ok: bool)
      requires Valid() && Holds(data) && Held(depths, 0)
      modifies this, participants
      ensures Valid() && entered && Holds(data) && committed == old(committed) && rolledBack == old(rolledBack)
      ensures ok == (!old(entered) && !(raisesAt.Some? && raisesAt.value < 2 * STORES))
      ensures ok ==> Active() && snapshots == data && Held(depths, STORES)
      ensures !ok ==> Held(depths, 0) && locks == (if old(entered) then old(locks) else [])
      ensures !ok && old(entered) ==> snapshots == old(snapshots)
    {
      if entered {
        return false;
      }
      entered := true;
      locks, snapshots := [], [];
      ok := TakeLocks(raisesAt, data, depths);
      if ok {
        ok := TakeSnapshots(raisesAt, data, depths);
      }
      if !ok {
        ReleaseLocks(data, depths);
      }
    }

    method TakeLocks(raisesAt: Option<nat>, ghost data: seq<D>, ghost depths: seq<nat>) returns (ok: bool)
      requires Ordered() && locks == [] && Holds(data) && Held(depths, 0)
      modifies this`locks, participants
      ensures Ordered() && Holds(data) && Held(depths, |locks|)
      ensures ok == !(raisesAt.Some? && raisesAt.value < STORES) && (ok ==> locks == participants)
    {
      while |locks| < |participants|
        invariant |locks| <= STORES && Ordered() && Holds(data) && Held(depths, |locks|)
        invariant raisesAt.Some? ==> raisesAt.value >= |locks|
      {
        if raisesAt == Some(|locks|) {
          return false;
        }
        participants[|locks|].held := participants[|locks|].held + 1;
        locks := locks + [participants[|locks|]];
      }
      ok := true;
    }

    method TakeSnapshots(raisesAt: Option<nat>, ghost data: seq<D>, ghost depths: seq<nat>) returns (ok: bool)
      requires Ordered() && locks == participants && snapshots == [] && Holds(data) && Held(depths, STORES)
      requires raisesAt.Some? ==> raisesAt.value >= STORES
      modifies this`snapshots
      ensures Ordered() && Holds(data) && Held(depths, STORES)
      ensures ok == !(raisesAt.Some? && raisesAt.value < 2 * STORES) && (ok ==> snapshots == data)
    {
      var taken: seq<D> := [];
      while |taken| < |participants|
        invariant |taken| <= STORES && taken == data[..|taken|]
        invariant raisesAt.Some? ==> raisesAt.value >= STORES + |taken|
      {
        if raisesAt == Some(STORES + |taken|) {
          return false;
        }
        taken := taken + [participants[|taken|].data];
      }
      snapshots := taken;
      ok := true;
    }

    /** `commit` */
    method RequestCommit() returns (ok: bool)
      requires Valid()
      modifies this`committed
      ensures Valid() && ok == (old(locks) != [] && !rolledBack) && committed == (ok || old(committed))
    {
      if !entered || locks == [] {
        return false;
      }
      if rolledBack {
        return false;
      }
      committed := true;
      ok := true;
    }

    /** `rollback`: restores the snapshots, last store first, unless it has done so before. */
    method RollBack(ghost data: seq<D>, ghost depths: seq<nat>) returns (ok: bool)
      requires Valid() && Holds(data) && Held(depths, STORES)
      modifies this`committed, this`rolledBack, participants
      ensures Valid() && ok == (locks != []) && Held(depths, STORES)
      ensures ok ==>
        rolledBack && (old(rolledBack) ==> committed == old(committed)) && (!old(rolledBack) ==> !committed)
      ensures !ok ==> committed == old(committed) && rolledBack == old(rolledBack)
      ensures Holds(if ok && !old(rolledBack) then snapshots else data)
    {
      if !entered || locks == [] {
        return false;
      }
      if rolledBack {
        return true;
      }
      var n := |participants|;
      while n > 0
        invariant n <= STORES && Held(depths, STORES)
        invariant forall i :: 0 <= i < STORES ==> participants[i].data == if n <= i then snapshots[i] else data[i]
      {
        n := n - 1;
        participants[n].data := snapshots[n];
      }
      rolledBack, committed := true, false;
      ok := true;
    }

    /** `_release_locks`, last lock first, whether all were taken or only some. */
    method ReleaseLocks(ghost data: seq<D>, ghost depths: seq<nat>)
      requires Ordered() && Holds(data) && Held(depths, |locks|)
      modifies this`locks, participants
      ensures Valid() && locks == [] && Holds(data) && Held(depths, 0)
    {
      var n := |locks|;
      while n > 0
        invariant 0 <= n <= |locks| && locks == old(locks) && Holds(data) && Held(depths, n)
      {
        n := n - 1;
        assert locks[n] == participants[n];
        locks[n].held := locks[n].held - 1;
      }
      locks := [];
    }

    /** `__exit__`: whatever happened in the block, every lock taken at entry is released. */
    method Exit(fails: bool, ghost data: seq<D>, ghost depths: seq<nat>)
      requires Active() && Holds(data) && Held(depths, STORES)
      modifies this`locks, this`committed, this`rolledBack, participants
      ensures Valid() && locks == [] && Held(depths, 0)
      ensures Holds(if (fails || !old(committed)) && !old(rolledBack) then snapshots else data)
    {
      ghost var left := data;
      if fails || !committed {
        if !rolledBack {
          left := snapshots;
        }
        var ok := RollBack(data, depths);
      }
      ReleaseLocks(left, depths);
    }
  }

  /** Any `with` block: it enters, makes its calls until one raises, and exits; if it cannot enter, it does nothing. */
  method WithBlock<D>(tx: InMemoryReminderTransaction<D>, entryRaisesAt: Option<nat>, ops: seq<BlockOp<D>>, fails: bool,
                      ghost entry: seq<D>, ghost depths: seq<nat>)
    returns (entered: bool)
    requires tx.Fresh() && tx.Holds(entry) && tx.Held(depths, 0)
    modifies tx, tx.participants
    ensures tx.Holds(if entered then Outcome(entry, ops, fails) else entry) && tx.Held(depths, 0) && tx.locks == []
    ensures entered == !(entryRaisesAt.Some? && entryRaisesAt.value < 10)
  {
    entered := tx.Enter(entryRaisesAt, entry, depths);
    if !entered {
      return;
    }
    ghost var b := Block(entry, false, false, false);
    var raised := false;
    var n := 0;
    while n < |ops| && !raised
      invariant 0 <= n <= |ops| && tx.Active() && tx.snapshots == entry && tx.Held(depths, STORES)
      invariant tx.Holds(b.data) && tx.committed == b.committed && tx.rolledBack == b.rolledBack && raised == b.raised
      invariant DoAll(entry, Block(entry, false, false, false), ops) == DoAll(entry, b, ops[n..])
    {
      raised := MakeCall(tx, ops[n], entry, b, depths);
      b := Do(entry, b, ops[n]);
      assert ops[n..][1..] == ops[n + 1..];
      n := n + 1;
    }
    if raised {
      RaisedStays(entry, b, ops[n..]);
    }
    tx.Exit(raised || fails, b.data, depths);
  }

  method MakeCall<D>(tx: InMemoryReminderTransaction<D>, op: BlockOp<D>, ghost entry: seq<D>, ghost b: Block<D>,
                     ghost depths: seq<nat>)
    returns (raised: bool)
    requires tx.Active() && tx.snapshots == entry && tx.Held(depths, STORES)
    requires tx.Holds(b.data) && tx.committed == b.committed && tx.rolledBack == b.rolledBack && !b.raised
    modifies tx`committed, tx`rolledBack, tx.participants
    ensures tx.Active() && tx.Held(depths, STORES)
    ensures var b' := Do(entry, b, op);
      tx.Holds(b'.data) && tx.committed == b'.committed && tx.rolledBack == b'.rolledBack && raised == b'.raised
  {
    match op
    case Write(i, d) =>
      if i < |tx.participants| {
        tx.participants[i].data := d;
      }
      raised := false;
    case Commit =>
      var ok := tx.RequestCommit();
      raised := !ok;
    case Rollback =>
      var ok := tx.RollBack(b.data, depths);
      raised := !ok;
  }
}
