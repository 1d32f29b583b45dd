/**
  Every mutex is held by exactly the thread whose position says so, nested acquisitions follow
  one order, and therefore the threads of the pool never wait for each other in a circle.
 */
module PoolLocks {
  import opened Pool

  /** The lock table and the threads' positions agree. */
  ghost predicate Locks(s: State) {
    forall t, l {:trigger l in Holds(s, t)} :: l in Holds(s, t) <==> l in s.locks && s.locks[l] == t
  }

  /** queue mutex < running-action mutex < {action mutex, handler mutex} */
  function Rank(l: Lock): nat {
    match l
    case QueueLock => 0
    case RunLock(_) => 1
    case ActionLock(_) => 2
    case HandlerLock => 2
  }

  ghost predicate OthersHoldTheSame(s: State, s': State, t: Thread) {
    forall u | u != t :: Holds(s', u) == Holds(s, u)
  }

  lemma LocksAcquired(s: State, s': State, t: Thread, l: Lock)
    requires Locks(s) && l !in s.locks && s'.locks == s.locks[l := t]
    requires Holds(s', t) == Holds(s, t) + {l} && OthersHoldTheSame(s, s', t)
    ensures Locks(s')
  {
    forall u, k ensures k in Holds(s', u) <==> k in s'.locks && s'.locks[k] == u {
      assert k in Holds(s, u) <==> k in s.locks && s.locks[k] == u;
    }
  }

  lemma LocksReleased(s: State, s': State, t: Thread, l: Lock)
    requires Locks(s) && l in Holds(s, t) && s'.locks == s.locks - {l}
    requires Holds(s', t) == Holds(s, t) - {l} && OthersHoldTheSame(s, s', t)
    ensures Locks(s')
  {
    forall u, k ensures k in Holds(s', u) <==> k in s'.locks && s'.locks[k] == u {
      assert k in Holds(s, u) <==> k in s.locks && s.locks[k] == u;
      assert l in s.locks && s.locks[l] == t;
    }
  }

  lemma LocksSame(s: State, s': State, t: Thread)
    requires Locks(s) && s'.locks == s.locks
    requires Holds(s', t) == Holds(s, t) && OthersHoldTheSame(s, s', t)
    ensures Locks(s')
  {
    forall u, k ensures k in Holds(s', u) <==> k in s'.locks && s'.locks[k] == u {
      assert k in Holds(s, u) <==> k in s.locks && s.locks[k] == u;
    }
  }

  /** A lock operation takes a thread that holds `before` to one that holds `after`. */
  ghost predicate LockStep(op: LockOp, want: Option<Lock>, before: set<Lock>, after: set<Lock>) {
    match op
    case NoLock => want.None? && after == before
    case Take(l) => want == Some(l) && after == before + {l}
    case Drop(l) => want.None? && l in before && after == before - {l}
  }

  /** The lock operation of a worker's move is what its positions before and after say. */
  lemma WorkerLockLocal(w: WorkerState, i: nat, queue: seq<Ptr>, c: WorkChoice)
    ensures var m := WorkerMoves(w, i, queue, c); LockStep(m.lock, WorkerWants(i, w.pc), WorkerHolds(i, w.pc), WorkerHolds(i, m.pc))
  {
  }

  lemma MainLockLocal(s: State, c: Call)
    ensures var m := MainMoves(s, c); LockStep(m.lock, MainWants(s), MainHolds(s.main), MainHolds(m.pc))
  {
    match s.main
    case Visit(op, w) => WalkLockLocal(s, c, op);
    case RunHeld(op, w) => WalkLockLocal(s, c, op);
    case RunLeafWant(op, w, p, leaf) => WalkLockLocal(s, c, op);
    case RunLeafHeld(op, w, p, leaf) => WalkLockLocal(s, c, op);
    case RunRelease(op, w) => WalkLockLocal(s, c, op);
    case _ =>
  }

  lemma WalkLockLocal(s: State, c: Call, op: Op)
    requires match s.main
      case Visit(o, _) => o == op
      case RunHeld(o, _) => o == op
      case RunLeafWant(o, _, _, _) => o == op
      case RunLeafHeld(o, _, _, _) => o == op
      case RunRelease(o, _) => o == op
      case _ => false
    ensures var m := MainMoves(s, c); LockStep(m.lock, MainWants(s), MainHolds(s.main), MainHolds(m.pc))
  {
  }

  lemma WorkerKeepsLocks(s: State, i: nat, c: WorkChoice)
    requires Locks(s) && WorkerCan(s, i)
    ensures Locks(WorkerNext(s, i, c))
  {
    var s' := WorkerNext(s, i, c);
    var m := WorkerMoves(s.workers[i], i, s.data.queue, c);
    WorkerLockLocal(s.workers[i], i, s.data.queue, c);
    assert OthersHoldTheSame(s, s', Worker(i));
    match m.lock
    case NoLock => LocksSame(s, s', Worker(i));
    case Take(l) => LocksAcquired(s, s', Worker(i), l);
    case Drop(l) => LocksReleased(s, s', Worker(i), l);
  }

  lemma MainKeepsLocks(s: State, c: Call)
    requires Locks(s) && MainCan(s, c)
    ensures Locks(MainNext(s, c))
  {
    var s' := MainNext(s, c);
    var m := MainMoves(s, c);
    MainLockLocal(s, c);
    assert OthersHoldTheSame(s, s', Main);
    match m.lock
    case NoLock => LocksSame(s, s', Main);
    case Take(l) => LocksAcquired(s, s', Main, l);
    case Drop(l) => LocksReleased(s, s', Main, l);
  }

  // ---------------------------------------------------------------- deadlock freedom

  function Mover(e: Event): Thread {
    match e
    case MainStep(_) => Main
    case WorkerStep(i, _) => Worker(i)
  }

  ghost predicate CanMove(s: State, t: Thread) {
    exists e :: Mover(e) == t && Can(s, e)
  }

  /** A thread that holds locks only ever asks for one of a higher rank. */
  lemma LockOrder(s: State, t: Thread, h: Lock, l: Lock)
    requires h in Holds(s, t) && Wants(s, t) == Some(l)
    ensures Rank(h) < Rank(l)
  {
  }

  /** A lock's holder moves unless it waits for another lock. */
  lemma HolderMoves(s: State, t: Thread)
    requires Holds(s, t) != {} && LockFree(s.locks, Wants(s, t))
    ensures CanMove(s, t)
  {
    var e := if t.Main? then MainStep(CallTick) else WorkerStep(t.index, Finish);
    assert Mover(e) == t && Can(s, e);
  }

  lemma {:induction false} HolderChain(s: State, l: Lock)
    requires Locks(s) && l in s.locks
    ensures exists t :: Holds(s, t) != {} && CanMove(s, t)
    decreases 3 - Rank(l)
  {
    var t := s.locks[l];
    assert l in Holds(s, t);
    if LockFree(s.locks, Wants(s, t)) {
      HolderMoves(s, t);
    } else {
      LockOrder(s, t, l, Wants(s, t).value);
      HolderChain(s, Wants(s, t).value);
    }
  }

  /** If any lock is held, then some thread that holds a lock can take a step. */
  lemma NoDeadlock(s: State)
    requires Locks(s) && s.locks != map[]
    ensures exists t :: Holds(s, t) != {} && CanMove(s, t)
  {
    var l :| l in s.locks;
    HolderChain(s, l);
  }
}
