/** The locks of the in-memory stores: any number of threads, each in a transaction over all five reentrant locks, taken
    in one fixed order, or in an operation of a single store. */
module LockOrder {
  import opened Wrappers

  const LOCKS: nat := 5

  datatype Thread =
    | Idle
    | Calling(lock: nat, inside: bool)      // an operation of one store, before or after taking its lock
    | Entering(taken: nat)                  // `__enter__` holds the first `taken` locks
    | Inside(call: Option<nat>)             // the block, perhaps within an operation of one of the stores
    | Leaving(left: nat)                    // `_release_locks` still holds the first `left` locks

  /** A reentrant lock: its owner and how often the owner has taken it. */
  datatype Lock = Free | Taken(owner: nat, depth: nat)

  datatype Sys = Sys(threads: seq<Thread>, locks: seq<Lock>)

  function Start(threads: nat): Sys {
    Sys(seq(threads, _ => Idle), seq(LOCKS, _ => Free))
  }

  predicate Available(l: Lock, t: nat) {
    l.Free? || l.owner == t
  }

  function Acquired(l: Lock, t: nat): Lock {
    if l.Free? then Taken(t, 1) else Taken(l.owner, l.depth + 1)
  }

  function Released(l: Lock): Lock {
    if l.Taken? && l.depth > 1 then Taken(l.owner, l.depth - 1) else Free
  }

  datatype Action =
    | BeginTransaction(t: nat)
    | BeginCall(t: nat, lock: nat)
    | CallInside(t: nat, lock: nat)
    | AbortEntry(t: nat)
    | Advance(t: nat)

  /** The lock a thread's next step takes, if it takes one. */
  function Wants(th: Thread): Option<nat> {
    match th
    case Calling(i, false) => Some(i)
    case Entering(n) => if n < LOCKS then Some(n) else None
    case _ => None
  }

  predicate WellFormed(th: Thread) {
    match th
    case Idle => true
    case Calling(i, _) => i < LOCKS
    case Entering(n) => n <= LOCKS
    case Inside(call) => call.Some? ==> call.value < LOCKS
    case Leaving(n) => n <= LOCKS
  }

  predicate Enabled(s: Sys, a: Action) {
    a.t < |s.threads| && |s.locks| == LOCKS && WellFormed(s.threads[a.t]) &&
    match a
    case BeginTransaction(t) => s.threads[t].Idle?
    case BeginCall(t, i) => s.threads[t].Idle? && i < LOCKS
    case CallInside(t, i) => s.threads[t] == Inside(None) && i < LOCKS && Available(s.locks[i], t)
    case AbortEntry(t) => s.threads[t].Entering?
    case Advance(t) =>
      !s.threads[t].Idle? && (Wants(s.threads[t]).Some? ==> Available(s.locks[Wants(s.threads[t]).value], t))
  }

  function Next(s: Sys, a: Action): Sys {
    if !Enabled(s, a) then s
    else match a
      case BeginTransaction(t) => s.(threads := s.threads[t := Entering(0)])
      case BeginCall(t, i) => s.(threads := s.threads[t := Calling(i, false)])
      case CallInside(t, i) => Sys(s.threads[t := Inside(Some(i))], s.locks[i := Acquired(s.locks[i], t)])
      case AbortEntry(t) => s.(threads := s.threads[t := Leaving(s.threads[t].taken)])
      case Advance(t) =>
        match s.threads[t]
        case Idle => s
        case Calling(i, false) => Sys(s.threads[t := Calling(i, true)], s.locks[i := Acquired(s.locks[i], t)])
        case Calling(i, true) => Sys(s.threads[t := Idle], s.locks[i := Released(s.locks[i])])
        case Entering(n) =>
          if n < LOCKS then Sys(s.threads[t := Entering(n + 1)], s.locks[n := Acquired(s.locks[n], t)])
          else s.(threads := s.threads[t := Inside(None)])
        case Inside(None) => s.(threads := s.threads[t := Leaving(LOCKS)])
        case Inside(Some(i)) => Sys(s.threads[t := Inside(None)], s.locks[i := Released(s.locks[i])])
        case Leaving(n) =>
          if n > 0 then Sys(s.threads[t := Leaving(n - 1)], s.locks[n - 1 := Released(s.locks[n - 1])])
          else s.(threads := s.threads[t := Idle])
  }

  function Run(s: Sys, actions: seq<Action>): Sys
    decreases |actions|
  {
    if actions == [] then s else Run(Next(s, actions[0]), actions[1..])
  }

  // ----- locks agree with what the threads are doing -----

  /** How often a thread holds lock `i`. */
  function Depth(th: Thread, i: nat): nat {
    match th
    case Idle => 0
    case Calling(j, inside) => if inside && i == j then 1 else 0
    case Entering(n) => if i < n then 1 else 0
    case Inside(call) => if call == Some(i) then 2 else 1
    case Leaving(n) => if i < n then 1 else 0
  }

  predicate HeldAsTaken(s: Sys, i: nat, t: nat)
    requires i < |s.locks| && t < |s.threads|
  {
    Depth(s.threads[t], i) == if s.locks[i].Taken? && s.locks[i].owner == t then s.locks[i].depth else 0
  }

  predicate LockOk(s: Sys, i: nat)
    requires i < |s.locks|
  {
    s.locks[i].Taken? ==> s.locks[i].owner < |s.threads| && s.locks[i].depth >= 1
  }

  ghost predicate Inv(s: Sys) {
    && |s.locks| == LOCKS
    && (forall t :: 0 <= t < |s.threads| ==> WellFormed(s.threads[t]))
    && (forall i :: 0 <= i < LOCKS ==> LockOk(s, i))
    && (forall i, t {:trigger HeldAsTaken(s, i, t)} :: 0 <= i < LOCKS && 0 <= t < |s.threads| ==> HeldAsTaken(s, i, t))
  }

  lemma KeepsHeld(s: Sys, a: Action, i: nat, t: nat)
    requires Inv(s) && i < LOCKS && t < |Next(s, a).threads|
    ensures HeldAsTaken(Next(s, a), i, t)
  {
    assert HeldAsTaken(s, i, t);
    if Enabled(s, a) {
      assert HeldAsTaken(s, i, a.t);
    }
  }

  lemma StepKeepsInv(s: Sys, a: Action)
    requires Inv(s)
    ensures Inv(Next(s, a)) && |Next(s, a).threads| == |s.threads|
  {
    forall i, t | 0 <= i < LOCKS && 0 <= t < |Next(s, a).threads| ensures HeldAsTaken(Next(s, a), i, t) {
      KeepsHeld(s, a, i, t);
    }
    forall i | 0 <= i < LOCKS ensures LockOk(Next(s, a), i) {
      assert LockOk(s, i);
    }
  }

  lemma {:induction false} RunKeepsInv(s: Sys, actions: seq<Action>)
    requires Inv(s)
    ensures Inv(Run(s, actions))
    decreases |actions|
  {
    if actions != [] {
      StepKeepsInv(s, actions[0]);
      RunKeepsInv(Next(s, actions[0]), actions[1..]);
    }
  }

  lemma StartIsOk(threads: nat)
    ensures Inv(Start(threads))
  {}

  /** A thread that is not in a transaction or operation holds no lock: every exit has released all of its locks. */
  lemma IdleHoldsNothing(threads: nat, actions: seq<Action>, t: nat, i: nat)
    requires var s := Run(Start(threads), actions); t < |s.threads| && s.threads[t].Idle? && i < |s.locks|
    ensures var l := Run(Start(threads), actions).locks[i]; l.Taken? ==> l.owner != t
  {
    StartIsOk(threads);
    RunKeepsInv(Start(threads), actions);
    var s := Run(Start(threads), actions);
    assert HeldAsTaken(s, i, t) && LockOk(s, i);
  }

  /** A thread in the block of a transaction holds all five locks, so no other thread is in an operation of a store. */
  lemma BlockIsAlone(threads: nat, actions: seq<Action>, t: nat, t': nat, i: nat)
    requires var s := Run(Start(threads), actions);
      t < |s.threads| && t' < |s.threads| && t != t' && s.threads[t].Inside? && i < |s.locks|
    ensures var s := Run(Start(threads), actions);
      && |s.locks| == 5 && Depth(s.threads[t'], i) == 0
      && s.locks[i].Taken? && s.locks[i].owner == t
  {
    StartIsOk(threads);
    RunKeepsInv(Start(threads), actions);
    var s := Run(Start(threads), actions);
    assert HeldAsTaken(s, i, t) && HeldAsTaken(s, i, t');
  }

  // ----- no deadlock -----

  predicate AllIdle(s: Sys) {
    forall t :: 0 <= t < |s.threads| ==> s.threads[t].Idle?
  }

  predicate AllFree(s: Sys) {
    forall i :: 0 <= i < |s.locks| ==> s.locks[i].Free?
  }

  /** The thread that holds the highest lock taken can go on: the lock it may want next is higher still, and free. */
  lemma HighestCanAdvance(s: Sys, n: nat) returns (t: nat)
    requires Inv(s) && n <= LOCKS && forall i :: n <= i < LOCKS ==> s.locks[i].Free?
    requires n > 0 && s.locks[n - 1].Taken?
    ensures Enabled(s, Advance(t))
  {
    assert LockOk(s, n - 1);
    t := s.locks[n - 1].owner;
    assert HeldAsTaken(s, n - 1, t);
    if Wants(s.threads[t]).Some? {
      assert s.threads[t].Entering?;
      var i := s.threads[t].taken;
      assert i >= n;
    }
  }

  /** In every reachable state some thread that has begun can go on, unless all are idle. */
  lemma NoDeadlock(s: Sys) returns (t: nat)
    requires Inv(s) && !AllIdle(s)
    ensures Enabled(s, Advance(t))
  {
    var n := LOCKS;
    while n > 0 && s.locks[n - 1].Free?
      invariant 0 <= n <= LOCKS == |s.locks| && forall i :: n <= i < LOCKS ==> s.locks[i].Free?
    {
      n := n - 1;
    }
    if n > 0 {
      t := HighestCanAdvance(s, n);
    } else {
      t :| t < |s.threads| && !s.threads[t].Idle?;
    }
  }

  function Remaining(th: Thread): nat {
    match th
    case Idle => 0
    case Calling(_, inside) => if inside then 1 else 2
    case Entering(n) => if n <= LOCKS then 8 + LOCKS - n else 8
    case Inside(call) => if call.Some? then 8 else 7
    case Leaving(n) => n + 1
  }

  function TotalRemaining(threads: seq<Thread>): nat {
    if threads == [] then 0 else Remaining(threads[|threads| - 1]) + TotalRemaining(threads[..|threads| - 1])
  }

  lemma {:induction false} OneLess(threads: seq<Thread>, t: nat, th: Thread)
    requires t < |threads| && Remaining(th) < Remaining(threads[t])
    ensures TotalRemaining(threads[t := th]) < TotalRemaining(threads)
  {
    var n := |threads| - 1;
    if t < n {
      OneLess(threads[..n], t, th);
      assert threads[t := th][..n] == threads[..n][t := th];
    } else {
      assert threads[t := th][..n] == threads[..n];
    }
  }

  lemma AdvanceIsProgress(s: Sys, t: nat)
    requires Inv(s) && Enabled(s, Advance(t))
    ensures TotalRemaining(Next(s, Advance(t)).threads) < TotalRemaining(s.threads)
  {
    OneLess(s.threads, t, Next(s, Advance(t)).threads[t]);
    assert Next(s, Advance(t)).threads == s.threads[t := Next(s, Advance(t)).threads[t]];
  }

  /** So whatever the threads have begun can be finished, which leaves every lock free: letting any thread that is not
      blocked go on, again and again, cannot get stuck and cannot go on for ever. */
  lemma {:induction false} EverythingCanFinish(s: Sys) returns (actions: seq<Action>)
    requires Inv(s)
    ensures AllIdle(Run(s, actions)) && AllFree(Run(s, actions))
    decreases TotalRemaining(s.threads)
  {
    if AllIdle(s) {
      actions := [];
      forall i | 0 <= i < LOCKS ensures s.locks[i].Free? {
        assert LockOk(s, i) && (s.locks[i].Taken? ==> HeldAsTaken(s, i, s.locks[i].owner));
      }
    } else {
      var t := NoDeadlock(s);
      AdvanceIsProgress(s, t);
      StepKeepsInv(s, Advance(t));
      var rest := EverythingCanFinish(Next(s, Advance(t)));
      actions := [Advance(t)] + rest;
      assert actions[1..] == rest;
    }
  }

  lemma {:induction false} RunConcat(s: Sys, a: seq<Action>, b: seq<Action>)
    ensures Run(s, a + b) == Run(Run(s, a), b)
    decreases |a|
  {
    if a == [] {
      assert a + b == b;
    } else {
      assert (a + b)[0] == a[0] && (a + b)[1..] == a[1..] + b;
      RunConcat(Next(s, a[0]), a[1..], b);
    }
  }

  /** With all locks free, a thread on its way in can take one after the other. */
  lemma {:induction false} Enters(s: Sys, t: nat) returns (actions: seq<Action>)
    requires Inv(s) && t < |s.threads| && s.threads[t].Entering?
    requires forall i :: s.threads[t].taken <= i < LOCKS ==> s.locks[i].Free?
    ensures Run(s, actions).threads == s.threads[t := Inside(None)]
    decreases LOCKS - s.threads[t].taken
  {
    StepKeepsInv(s, Advance(t));
    var s' := Next(s, Advance(t));
    if s.threads[t].taken < LOCKS {
      var rest := Enters(s', t);
      actions := [Advance(t)] + rest;
      assert actions[1..] == rest;
    } else {
      actions := [Advance(t)];
      assert Run(s', actions[1..]) == s';
    }
  }

  /** Whatever the others are doing, a thread that wants to run a transaction can get inside one. */
  lemma AnyThreadCanGetInside(threads: nat, before: seq<Action>, t: nat) returns (actions: seq<Action>)
    requires t < |Run(Start(threads), before).threads|
    ensures var s := Run(Run(Start(threads), before), actions); t < |s.threads| && s.threads[t] == Inside(None)
  {
    hide Next;
    StartIsOk(threads);
    RunKeepsInv(Start(threads), before);
    var s := Run(Start(threads), before);
    var finish := EverythingCanFinish(s);
    RunKeepsInv(s, finish);
    RunKeepsThreads(s, finish);
    var s1 := Run(s, finish);
    var s2 := Next(s1, BeginTransaction(t));
    Begins(s1, t);
    StepKeepsInv(s1, BeginTransaction(t));
    var enter := Enters(s2, t);
    actions := finish + ([BeginTransaction(t)] + enter);
    RunConcat(s, finish, [BeginTransaction(t)] + enter);
    assert ([BeginTransaction(t)] + enter)[1..] == enter;
  }

  lemma Begins(s: Sys, t: nat)
    requires Inv(s) && t < |s.threads| && s.threads[t].Idle?
    ensures Next(s, BeginTransaction(t)) == s.(threads := s.threads[t := Entering(0)])
  {}

  lemma {:induction false} RunKeepsThreads(s: Sys, actions: seq<Action>)
    requires Inv(s)
    ensures |Run(s, actions).threads| == |s.threads|
    decreases |actions|
  {
    if actions != [] {
      StepKeepsInv(s, actions[0]);
      RunKeepsThreads(Next(s, actions[0]), actions[1..]);
    }
  }

  /** No state that any number of threads can reach is deadlocked. */
  lemma NoReachableDeadlock(threads: nat, actions: seq<Action>)
    ensures var s := Run(Start(threads), actions); AllIdle(s) || exists t :: Enabled(s, Advance(t))
  {
    StartIsOk(threads);
    RunKeepsInv(Start(threads), actions);
    var s := Run(Start(threads), actions);
    if !AllIdle(s) {
      var t := NoDeadlock(s);
    }
  }
}
