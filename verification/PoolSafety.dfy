/**
  RunningAction, and why no thread of the pool ever uses a deleted action.
 */
module PoolSafety {
  import opened Pool
  import opened PoolLocks
  import opened PoolOwnership

  /** The value RunningAction has at each position of its worker. */
  function RunningAt(pc: WorkerPc): Option<Ptr> {
    match pc
    case UnlockQueue(a) => a
    case Decide(a) => a
    case LeafWant(p, _) => Some(p)
    case LeafHeld(p, _) => Some(p)
    case Working(p) => Some(p)
    case LockClear(p, _) => Some(p)
    case Delete(p, _) => Some(p)
    case Clear(p, _) => Some(p)
    case _ => None
  }

  ghost predicate Published(s: State) {
    forall i {:trigger s.workers[i]} :: 0 <= i < |s.workers| ==> s.workers[i].running == RunningAt(s.workers[i].pc)
  }

  /** The main thread's local pointers are what it read them from. */
  ghost predicate Targets(s: State) {
    match s.main
    case SetIdWant(p, _) => s.data.queue != [] && s.data.queue[|s.data.queue| - 1] == p
    case SetIdHeld(p, _) => s.data.queue != [] && s.data.queue[|s.data.queue| - 1] == p
    case RunLeafWant(op, w, p, leaf) => w < |s.workers| && s.workers[w].running == Some(p) && LeafFits(op, leaf)
    case RunLeafHeld(op, w, p, leaf) => w < |s.workers| && s.workers[w].running == Some(p) && LeafFits(op, leaf)
    case _ => true
  }

  /** A timer tick only reads and posts. */
  predicate LeafFits(op: Op, leaf: MainLeaf) {
    op.TickOp? ==> !leaf.SetFlag? && !leaf.ReadId?
  }

  lemma WorkerRunningLocal(w: WorkerState, i: nat, queue: seq<Ptr>, c: WorkChoice)
    requires w.running == RunningAt(w.pc)
    ensures var m := WorkerMoves(w, i, queue, c); m.running == RunningAt(m.pc)
    ensures WorkerMoves(w, i, queue, c).running != w.running ==> RunLock(i) in WorkerHolds(i, w.pc)
  {
  }

  lemma WorkerKeepsPublished(s: State, i: nat, c: WorkChoice)
    requires i < |s.workers| && Published(s)
    ensures Published(WorkerNext(s, i, c))
  {
    WorkerRunningLocal(s.workers[i], i, s.data.queue, c);
  }

  lemma MainKeepsPublished(s: State, c: Call)
    requires Published(s)
    ensures Published(MainNext(s, c))
  {
  }

  lemma WorkerKeepsTargets(s: State, i: nat, c: WorkChoice)
    requires Locks(s) && Published(s) && WorkerCan(s, i) && Targets(s)
    ensures Targets(WorkerNext(s, i, c))
  {
    WorkerRunningLocal(s.workers[i], i, s.data.queue, c);
    if s.main.SetIdWant? || s.main.SetIdHeld? {
      WorkerLeavesQueue(s, i, c);
    } else if (s.main.RunLeafWant? || s.main.RunLeafHeld?) && s.main.w == i {
      assert RunLock(i) in Holds(s, Main);
      assert RunLock(i) !in Holds(s, Worker(i));
    }
  }

  lemma MainKeepsTargets(s: State, c: Call)
    requires Targets(s)
    ensures Targets(MainNext(s, c))
  {
  }

  // ---------------------------------------------------------------- no use after free

  /** Given to the pool and not deleted yet. */
  ghost predicate Live(s: State, p: Ptr) {
    p in s.data.given && s.data.deleted[p] == 0
  }

  lemma {:induction false} HandCounts(workers: seq<WorkerState>, i: nat, p: Ptr)
    requires i < |workers| && Hand(workers[i].pc) == Some(p)
    ensures HandCount(workers, p) >= 1
  {
    if i < |workers| - 1 {
      HandCounts(workers[..|workers| - 1], i, p);
    }
  }

  lemma {:induction false} QueueCounts(q: seq<Ptr>, k: nat)
    requires k < |q|
    ensures Count(q, q[k]) >= 1
  {
    if k < |q| - 1 {
      QueueCounts(q[..|q| - 1], k);
    }
  }

  lemma HandIsLive(s: State, i: nat, p: Ptr)
    requires Conserved(s) && i < |s.workers| && Hand(s.workers[i].pc) == Some(p)
    ensures Live(s, p)
  {
    HandCounts(s.workers, i, p);
    assert Places(s, p) == One(p in s.data.given);
  }

  lemma QueuedIsLive(s: State, k: nat)
    requires Conserved(s) && k < |s.data.queue|
    ensures Live(s, s.data.queue[k])
  {
    QueueCounts(s.data.queue, k);
    assert Places(s, s.data.queue[k]) == One(s.data.queue[k] in s.data.given);
  }

  /** The action a thread dereferences at its position, counting the queue's front where it reads or deletes that one. */
  function Touched(s: State, t: Thread): Option<Ptr> {
    match t
    case Main =>
      (match s.main
       case QueuePush(p) => Some(p)
       case SetIdWant(p, _) => Some(p)
       case SetIdHeld(p, _) => Some(p)
       case ScanWant(_, _, _, p) => Some(p)
       case ScanHeld(_, _, _, p) => Some(p)
       case RunLeafWant(_, _, p, _) => Some(p)
       case RunLeafHeld(_, _, p, _) => Some(p)
       case Drain => Front(s.data.queue)
       case _ => None)
    case Worker(i) =>
      if i >= |s.workers| then None
      else
        match s.workers[i].pc
        case Decide(a) => a
        case LeafWant(p, _) => Some(p)
        case LeafHeld(p, _) => Some(p)
        case Working(p) => Some(p)
        case Delete(p, _) => Some(p)
        case Cleanup => Front(s.data.queue)
        case _ => None
  }

  /** What the main thread reads through a worker's RunningAction is in that worker's hands. */
  lemma TargetInHand(s: State, w: nat, p: Ptr)
    requires Locks(s) && Published(s) && w < |s.workers| && s.workers[w].running == Some(p)
    requires RunLock(w) !in s.locks || RunLock(w) in MainHolds(s.main)
    ensures Hand(s.workers[w].pc) == Some(p)
  {
    assert RunLock(w) in Holds(s, Main) <==> RunLock(w) in s.locks && s.locks[RunLock(w)] == Main;
    assert RunLock(w) !in Holds(s, Worker(w));
  }

  /** In every reachable state, whatever action a thread is about to use has not been deleted. */
  lemma NoUseAfterFree(s: State, t: Thread)
    requires Locks(s) && Published(s) && Targets(s) && Scanning(s) && Conserved(s)
    ensures Touched(s, t).Some? ==> Live(s, Touched(s, t).value)
  {
    var p := Touched(s, t);
    if p.Some? {
      match t
      case Worker(i) =>
        if s.workers[i].pc.Cleanup? {
          QueuedIsLive(s, 0);
        } else {
          HandIsLive(s, i, p.value);
        }
      case Main =>
        if s.main.QueuePush? {
          assert Places(s, p.value) == One(p.value in s.data.given);
        } else if s.main.RunLeafWant? || s.main.RunLeafHeld? {
          TargetInHand(s, s.main.w, p.value);
          HandIsLive(s, s.main.w, p.value);
        } else {
          QueuedIsLive(s, if s.main.SetIdWant? || s.main.SetIdHeld? then |s.data.queue| - 1 else 0);
        }
    }
  }

  /** While its mutex is free, RunningAction is null or a live action in the hands of that worker. */
  lemma RunningActionIsLive(s: State, w: nat)
    requires Locks(s) && Published(s) && Conserved(s) && w < |s.workers| && RunLock(w) !in s.locks
    ensures var r := s.workers[w].running; r.Some? ==> Live(s, r.value) && Hand(s.workers[w].pc) == r
  {
    var r := s.workers[w].running;
    if r.Some? {
      TargetInHand(s, w, r.value);
      HandIsLive(s, w, r.value);
    }
  }
}
