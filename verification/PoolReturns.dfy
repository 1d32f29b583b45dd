/**
  Every call of the pool can return: from every reachable state inside Queue, CancelAction, StopAll,
  Shutdown or the timer's walk, some interleaving of the main thread and the workers brings the main
  thread back, StopAll with all its workers gone.
 */
module PoolReturns {
  import opened Pool
  import opened PoolLocks
  import opened PoolOwnership
  import opened PoolSafety
  import opened PoolStop
  import opened PoolTheorems

  // ---------------------------------------------------------------- how far the main thread is

  function Minus(a: nat, b: nat): nat {
    if b <= a then a - b else 0
  }

  /** From the end of the walk. */
  function AfterWalk(op: Op, n: nat, base: nat): nat {
    if op.StopOp? then 2 + 2 * Minus(n, base) else 1
  }

  /** From the visit of worker w on. */
  function VisitLeft(op: Op, n: nat, base: nat, w: nat): nat {
    9 * Minus(n, w) + AfterWalk(op, n, base)
  }

  function MainLeafLeft(leaf: MainLeaf): nat {
    match leaf
    case ReadMode => 6
    case ReadPercent | ReadId => 4
    case SetFlag | PostProgress => 2
  }

  /** Steps of the main thread until its call returns, at most. */
  function MainLeft(pc: MainPc, n: nat, base: nat, q: nat): nat {
    match pc
    case Idle => 0
    case QueueWant(_) => 5
    case QueuePush(_) => 4
    case SetIdWant(_, _) => 3
    case SetIdHeld(_, _) => 2
    case Spawn => 1
    case CancelWant(id) => 4 * q + 4 + VisitLeft(CancelOp(id, []), n, base, base)
    case CancelCheck(id) => 4 * q + 3 + VisitLeft(CancelOp(id, []), n, base, base)
    case Scan(id, orig, checked) => 4 * q + |checked| + 2 + VisitLeft(CancelOp(id, orig), n, base, base)
    case ScanWant(id, orig, checked, _) => 4 * q + |checked| + 1 + VisitLeft(CancelOp(id, orig), n, base, base)
    case ScanHeld(id, orig, checked, _) => 4 * q + |checked| + VisitLeft(CancelOp(id, orig), n, base, base)
    case Restore(id, orig, checked) => |checked| + 1 + VisitLeft(CancelOp(id, orig), n, base, base)
    case Visit(op, w) => VisitLeft(op, n, base, w)
    case RunHeld(op, w) => 8 + VisitLeft(op, n, base, w + 1)
    case RunLeafWant(op, w, _, leaf) => MainLeafLeft(leaf) + 1 + VisitLeft(op, n, base, w + 1)
    case RunLeafHeld(op, w, _, leaf) => MainLeafLeft(leaf) + VisitLeft(op, n, base, w + 1)
    case RunRelease(op, w) => 1 + VisitLeft(op, n, base, w + 1)
    case StopWant => q + 2 + VisitLeft(StopOp, n, base, base)
    case Drain => q + 1 + VisitLeft(StopOp, n, base, base)
    case StopDelete(w) => 1 + 2 * Minus(n, w)
    case StopWait(w) => 2 * Minus(n, w)
    case HandlerWant => 2
    case HandlerHeld => 1
  }

  function Left(s: State): nat {
    MainLeft(s.main, |s.workers|, s.base, |s.data.queue|)
  }

  lemma MainComesCloser(s: State, c: Call)
    requires Scanning(s) && Handshake(s) && MainCan(s, c) && !s.main.Idle?
    ensures Left(MainNext(s, c)) < Left(s)
  {
    match s.main
    case Visit(op, w) => VisitComesCloser(s, c);
    case RunHeld(op, w) => RunComesCloser(s, c);
    case RunLeafWant(op, w, p, leaf) => LeafComesCloser(s, c);
    case RunLeafHeld(op, w, p, leaf) => LeafComesCloser(s, c);
    case RunRelease(op, w) => RunComesCloser(s, c);
    case StopWant => StopComesCloser(s, c);
    case Drain => StopComesCloser(s, c);
    case StopDelete(w) => StopComesCloser(s, c);
    case StopWait(w) => StopComesCloser(s, c);
    case CancelWant(id) => ScanComesCloser(s, c);
    case CancelCheck(id) => ScanComesCloser(s, c);
    case Scan(id, orig, checked) => ScanComesCloser(s, c);
    case ScanWant(id, orig, checked, p) => ScanComesCloser(s, c);
    case ScanHeld(id, orig, checked, p) => ScanComesCloser(s, c);
    case Restore(id, orig, checked) => ScanComesCloser(s, c);
    case _ => QueueComesCloser(s, c);
  }

  lemma VisitComesCloser(s: State, c: Call)
    requires s.main.Visit? && Handshake(s)
    ensures Left(MainNext(s, c)) < Left(s)
  {
    var s' := MainNext(s, c);
    assert |s'.workers| == |s.workers| && s'.base == s.base && s'.data == s.data;
  }

  lemma RunComesCloser(s: State, c: Call)
    requires s.main.RunHeld? || s.main.RunRelease?
    ensures Left(MainNext(s, c)) < Left(s)
  {
    var s' := MainNext(s, c);
    assert |s'.workers| == |s.workers| && s'.base == s.base && s'.data == s.data;
  }

  lemma LeafComesCloser(s: State, c: Call)
    requires s.main.RunLeafWant? || s.main.RunLeafHeld?
    ensures Left(MainNext(s, c)) < Left(s)
  {
    var s' := MainNext(s, c);
    assert |s'.workers| == |s.workers| && s'.base == s.base && s'.data.queue == s.data.queue;
  }

  lemma StopComesCloser(s: State, c: Call)
    requires s.main.StopWant? || s.main.Drain? || s.main.StopDelete? || s.main.StopWait?
    requires Handshake(s)
    ensures Left(MainNext(s, c)) < Left(s)
  {
    var s' := MainNext(s, c);
    assert |s'.workers| == |s.workers|;
  }

  lemma ScanComesCloser(s: State, c: Call)
    requires Scanning(s)
    requires s.main.CancelWant? || s.main.CancelCheck? || s.main.Scan? || s.main.ScanWant? || s.main.ScanHeld? || s.main.Restore?
    ensures Left(MainNext(s, c)) < Left(s)
  {
    var s' := MainNext(s, c);
    assert |s'.workers| == |s.workers| && s'.base == s.base;
    assert s.main.ScanHeld? ==> s.data.queue != [] && |s'.data.queue| == |s.data.queue| - 1;
  }

  lemma QueueComesCloser(s: State, c: Call)
    requires s.main.QueueWant? || s.main.QueuePush? || s.main.SetIdWant? || s.main.SetIdHeld? || s.main.Spawn?
      || s.main.HandlerWant? || s.main.HandlerHeld?
    ensures Left(MainNext(s, c)) < Left(s)
  {
  }

  // ---------------------------------------------------------------- how far a worker is

  /** Steps until a worker that holds a lock has dropped it. */
  function HolderLoad(pc: WorkerPc, q: nat): nat {
    match pc
    case Pop => 4
    case LockRun(_) => 3
    case Publish(_) => 2
    case UnlockQueue(_) => 1
    case LeafHeld(_, _) => 1
    case Delete(_, _) => 2
    case Clear(_, _) => 1
    case Cleanup => 1 + q
    case _ => 0
  }

  function Extra(exit: bool): nat {
    if exit then 0 else 1
  }

  /** Steps until a worker that was told to leave has posted the semaphore. */
  function LeaveLoad(pc: WorkerPc, q: nat): nat {
    match pc
    case Done => 0
    case PostFinish => 1
    case Cleanup => 2 + q
    case LockCleanup => 3 + q
    case Test => 4 + q
    case Clear(_, exit) => 4 + q + Extra(exit)
    case Delete(_, exit) => 5 + q + Extra(exit)
    case LockClear(_, exit) => 6 + q + Extra(exit)
    case LeafHeld(_, leaf) => 7 + q + LeafExtra(leaf)
    case LeafWant(_, leaf) => 8 + q + LeafExtra(leaf)
    case Working(_) => 10 + q
    case Decide(_) => 15 + q
    case UnlockQueue(_) => 16 + q
    case Publish(_) => 17 + q
    case LockRun(_) => 18 + q
    case Pop => 19 + q
    case LockQueue => 20 + q
  }

  function LeafExtra(leaf: Leaf): nat {
    match leaf
    case EndPost(exit) => Extra(exit)
    case StartMode => 6
    case StartPost | WorkMutex | WorkPost => 4
  }

  /** After a worker's step the queue has q entries, fewer if the step deleted one. */
  predicate QueueAfter(effect: Effect, queue: seq<Ptr>, q: nat) {
    q <= |queue| && (effect.DeleteFront? && queue != [] ==> q < |queue|)
  }

  lemma LeaverComesCloser(w: WorkerState, i: nat, queue: seq<Ptr>, q: nat)
    requires w.destroy && !w.pc.Done? && QueueAfter(WorkerMoves(w, i, queue, Finish).effect, queue, q)
    ensures LeaveLoad(WorkerMoves(w, i, queue, Finish).pc, q) < LeaveLoad(w.pc, |queue|)
  {
  }

  lemma HolderComesCloser(w: WorkerState, i: nat, queue: seq<Ptr>, q: nat)
    requires WorkerHolds(i, w.pc) != {} && QueueAfter(WorkerMoves(w, i, queue, Finish).effect, queue, q)
    ensures HolderLoad(WorkerMoves(w, i, queue, Finish).pc, q) < HolderLoad(w.pc, |queue|)
  {
  }

  function Holders(workers: seq<WorkerState>, q: nat): nat {
    if workers == [] then 0 else Holders(workers[..|workers| - 1], q) + HolderLoad(workers[|workers| - 1].pc, q)
  }

  lemma {:induction false} HoldersShrink(workers: seq<WorkerState>, q: nat, q': nat)
    requires q' <= q
    ensures Holders(workers, q') <= Holders(workers, q)
  {
    if workers != [] {
      HoldersShrink(workers[..|workers| - 1], q, q');
    }
  }

  lemma {:induction false} HoldersUpdate(workers: seq<WorkerState>, i: nat, w: WorkerState, q: nat)
    requires i < |workers|
    ensures Holders(workers[i := w], q) == Holders(workers, q) - HolderLoad(workers[i].pc, q) + HolderLoad(w.pc, q)
  {
    var n := |workers| - 1;
    if i < n {
      assert workers[i := w][..n] == workers[..n][i := w];
      HoldersUpdate(workers[..n], i, w, q);
    } else {
      assert workers[i := w][..n] == workers[..n];
    }
  }

  lemma HolderShrinks(pc: WorkerPc, q: nat, q': nat)
    requires q' <= q
    ensures HolderLoad(pc, q') <= HolderLoad(pc, q) && LeaveLoad(pc, q') <= LeaveLoad(pc, q)
  {
  }

  /** What StopAll waits for. */
  function Target(s: State): nat {
    if s.main.StopWait? && s.main.w < |s.workers| then LeaveLoad(s.workers[s.main.w].pc, |s.data.queue|) else 0
  }

  function Load(s: State): nat {
    Holders(s.workers, |s.data.queue|)
  }

  /** The measure: the main thread's way, then that of the worker it waits for, then those of the lock holders. */
  predicate Closer(s': State, s: State) {
    || Left(s') < Left(s)
    || (Left(s') == Left(s) && Target(s') < Target(s))
    || (Left(s') == Left(s) && Target(s') == Target(s) && Load(s') < Load(s))
  }

  // ---------------------------------------------------------------- a step of a worker

  lemma WorkerShrinksQueue(s: State, i: nat)
    requires i < |s.workers|
    ensures QueueAfter(WorkerMoves(s.workers[i], i, s.data.queue, Finish).effect, s.data.queue, |WorkerNext(s, i, Finish).data.queue|)
  {
    var m := WorkerMoves(s.workers[i], i, s.data.queue, Finish);
    assert !m.effect.Enqueue? && !m.effect.PutBack? && !m.effect.KeepFront?;
  }

  lemma LeftShrinks(pc: MainPc, n: nat, base: nat, q: nat, q': nat)
    requires q' <= q
    ensures MainLeft(pc, n, base, q') <= MainLeft(pc, n, base, q)
  {
  }

  lemma HoldersComeCloser(s: State, i: nat)
    requires i < |s.workers| && WorkerHolds(i, s.workers[i].pc) != {}
    ensures Load(WorkerNext(s, i, Finish)) < Load(s)
  {
    var s' := WorkerNext(s, i, Finish);
    var w' := s'.workers[i];
    var q, q' := |s.data.queue|, |s'.data.queue|;
    WorkerShrinksQueue(s, i);
    HolderComesCloser(s.workers[i], i, s.data.queue, q');
    HoldersUpdate(s.workers, i, w', q');
    HoldersShrink(s.workers, q, q');
    HoldersUpdate(s.workers, i, WorkerState(Done, None, false), q);
    HoldersUpdate(s.workers, i, WorkerState(Done, None, false), q');
    HoldersShrink(s.workers[i := WorkerState(Done, None, false)], q, q');
  }

  lemma HolderStep(s: State, i: nat)
    requires Handshake(s) && WorkerCan(s, i) && WorkerHolds(i, s.workers[i].pc) != {}
    ensures Closer(WorkerNext(s, i, Finish), s)
  {
    var s' := WorkerNext(s, i, Finish);
    WorkerShrinksQueue(s, i);
    LeftShrinks(s.main, |s.workers|, s.base, |s.data.queue|, |s'.data.queue|);
    HoldersComeCloser(s, i);
    if s.main.StopWait? {
      if s.main.w == i {
        LeaverComesCloser(s.workers[i], i, s.data.queue, |s'.data.queue|);
      } else {
        assert s'.workers[s.main.w] == s.workers[s.main.w];
        HolderShrinks(s.workers[s.main.w].pc, |s.data.queue|, |s'.data.queue|);
      }
    }
  }

  lemma LeaverStep(s: State, i: nat)
    requires Handshake(s) && s.main == StopWait(i) && WorkerCan(s, i)
    ensures Closer(WorkerNext(s, i, Finish), s)
  {
    var s' := WorkerNext(s, i, Finish);
    WorkerShrinksQueue(s, i);
    LeftShrinks(s.main, |s.workers|, s.base, |s.data.queue|, |s'.data.queue|);
    LeaverComesCloser(s.workers[i], i, s.data.queue, |s'.data.queue|);
  }

  // ---------------------------------------------------------------- someone can always bring the return closer

  lemma MovingHolder(s: State) returns (i: nat)
    requires Locks(s) && s.locks != map[] && !MainCan(s, CallTick) && !s.main.Idle?
    ensures WorkerCan(s, i) && WorkerHolds(i, s.workers[i].pc) != {}
  {
    NoDeadlock(s);
    var t :| Holds(s, t) != {} && CanMove(s, t);
    var e :| Mover(e) == t && Can(s, e);
    assert e.WorkerStep?;
    i := e.i;
  }

  /** The worker StopAll waits for, when nobody holds a lock. */
  lemma WaitedFor(s: State)
    requires Handshake(s) && s.locks == map[] && !MainCan(s, CallTick) && !s.main.Idle?
    ensures s.main.StopWait? && WorkerCan(s, s.main.w)
  {
  }

  lemma ReturnStep(s: State) returns (e: Event)
    requires Inv(s) && !s.main.Idle?
    ensures Can(s, e) && Closer(Next(s, e), s) && Inv(Next(s, e))
  {
    if MainCan(s, CallTick) {
      e := MainStep(CallTick);
      MainComesCloser(s, CallTick);
    } else {
      if s.locks != map[] {
        var i := MovingHolder(s);
        HolderStep(s, i);
        e := WorkerStep(i, Finish);
      } else {
        WaitedFor(s);
        LeaverStep(s, s.main.w);
        e := WorkerStep(s.main.w, Finish);
      }
    }
    StepInv(s, e);
  }

  // ---------------------------------------------------------------- runs

  /** Inside StopAll or Shutdown. */
  predicate InStopAll(pc: MainPc) {
    match pc
    case StopWant | Drain | StopDelete(_) | StopWait(_) => true
    case _ => WalkOp(pc) == Some(StopOp)
  }

  /** A run in which the main thread makes no further call, and at whose end its call has returned. */
  ghost predicate Returns(run: seq<State>, s: State) {
    && run != [] && run[0] == s
    && (forall k :: 1 <= k < |run| ==> StepAt(run, k) && !run[k - 1].main.Idle?)
    && run[|run| - 1].main.Idle?
    && (InStopAll(s.main) ==> run[|run| - 1].base == |run[|run| - 1].workers|)
  }

  lemma StopAllGoesOn(s: State, e: Event)
    requires Can(s, e) && Handshake(s) && InStopAll(s.main)
    ensures var s' := Next(s, e); InStopAll(s'.main) || (s'.main.Idle? && s'.base == |s'.workers|)
  {
  }

  lemma ReturnsLater(s: State, e: Event, run: seq<State>)
    requires Can(s, e) && Handshake(s) && !s.main.Idle? && Returns(run, Next(s, e))
    ensures Returns([s] + run, s)
  {
    var r := [s] + run;
    forall k | 1 <= k < |r| ensures StepAt(r, k) && !r[k - 1].main.Idle? {
      if k > 1 {
        assert StepAt(run, k - 1) && r[k - 1] == run[k - 2];
      } else {
        assert Step(s, Next(s, e));
      }
    }
    if InStopAll(s.main) {
      StopAllGoesOn(s, e);
      if !InStopAll(Next(s, e).main) {
        OnlyState(run, Next(s, e));
      }
    }
  }

  lemma NotYet(run: seq<State>, s: State, k: nat)
    requires Returns(run, s) && 1 <= k < |run|
    ensures !run[k - 1].main.Idle?
  {
    assert StepAt(run, k);
  }

  lemma OnlyState(run: seq<State>, s: State)
    requires Returns(run, s) && s.main.Idle?
    ensures run == [s]
  {
    if |run| > 1 {
      NotYet(run, s, 1);
    }
  }

  lemma {:induction false} EveryCallReturns(s: State) returns (run: seq<State>)
    requires Inv(s)
    ensures Returns(run, s)
    decreases Left(s), Target(s), Load(s)
  {
    if s.main.Idle? {
      run := [s];
    } else {
      var e := ReturnStep(s);
      run := EveryCallReturns(Next(s, e));
      ReturnsLater(s, e, run);
      run := [s] + run;
    }
  }

  /**
    From every reachable state the call the main thread is in can return, and no other is made on the
    way; from inside StopAll it returns without threads, where AfterStopAll says what holds.
   */
  lemma EveryCallCanReturn(run: seq<State>, k: nat) returns (rest: seq<State>)
    requires IsRun(run) && k < |run|
    ensures Returns(rest, run[k])
  {
    RunInv(run, k);
    rest := EveryCallReturns(run[k]);
  }
}
