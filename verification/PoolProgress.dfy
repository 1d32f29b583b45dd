/**
  While the main thread does nothing, the workers can always bring any action they were given to
  its end: from every reachable state some interleaving of the workers' own steps leads there.
 */
module PoolProgress {
  import opened Pool
  import opened PoolLocks
  import opened PoolOwnership
  import opened PoolSafety
  import opened PoolStop
  import opened PoolTheorems
  import opened PoolSignals

  /**
    How far a worker is from having neither a lock nor an action. A pop from a non-empty queue is
    paid for by the queue; one from an empty queue leads back to the test.
   */
  function Load(pc: WorkerPc, empty: bool): nat {
    match pc
    case LockRun(a) => if a.Some? then 30 else 9
    case Publish(a) => if a.Some? then 29 else 8
    case UnlockQueue(a) => if a.Some? then 28 else 7
    case Decide(a) => if a.Some? then 27 else 6
    case LeafWant(_, leaf) => 2 * LeafLoad(leaf) + 1
    case LeafHeld(_, leaf) => 2 * LeafLoad(leaf)
    case Working(_) => 20
    case LockClear(_, _) => 17
    case Delete(_, _) => 16
    case Clear(_, _) => 15
    case Test => 5
    case LockQueue => 4
    case Pop => if empty then 10 else 3
    case LockCleanup | Cleanup | PostFinish | Done => 0
  }

  function LeafLoad(leaf: Leaf): nat {
    match leaf
    case StartMode => 12
    case StartPost => 11
    case WorkMutex | WorkPost => 11
    case EndPost(_) => 9
  }

  function Loads(workers: seq<WorkerState>, empty: bool): nat {
    if workers == [] then 0
    else Loads(workers[..|workers| - 1], empty) + Load(workers[|workers| - 1].pc, empty)
  }

  /** What is left to do until the queue is empty and no worker has an action. */
  function Remaining(s: State): nat {
    Loads(s.workers, s.data.queue == []) + 40 * |s.data.queue|
  }

  lemma {:induction false} LoadsUpdate(workers: seq<WorkerState>, i: nat, w: WorkerState, empty: bool)
    requires i < |workers|
    ensures Loads(workers[i := w], empty) == Loads(workers, empty) - Load(workers[i].pc, empty) + Load(w.pc, empty)
  {
    var n := |workers| - 1;
    if i < n {
      assert workers[i := w][..n] == workers[..n][i := w];
      LoadsUpdate(workers[..n], i, w, empty);
    } else {
      assert workers[i := w][..n] == workers[..n];
    }
  }

  /** Whether the queue is empty matters to a worker about to pop only. */
  lemma {:induction false} LoadsWithoutPop(workers: seq<WorkerState>)
    requires forall i {:trigger workers[i]} :: 0 <= i < |workers| ==> !workers[i].pc.Pop?
    ensures Loads(workers, true) == Loads(workers, false)
  {
    if workers != [] {
      LoadsWithoutPop(workers[..|workers| - 1]);
    }
  }

  /** A worker that is neither leaving nor looking for work in vain. */
  predicate Useful(w: WorkerState, i: nat, empty: bool) {
    && !Leaving(w.pc)
    && (empty ==> WorkerHolds(i, w.pc) != {} || Hand(w.pc).Some?)
  }

  /** Its step brings it forward, or takes an action off the queue. */
  lemma UsefulMove(w: WorkerState, i: nat, queue: seq<Ptr>)
    requires Useful(w, i, queue == []) && !w.destroy
    ensures var m := WorkerMoves(w, i, queue, Finish);
      && m.effect != DeleteFront && !m.effect.Enqueue? && !m.effect.PutBack? && !m.effect.KeepFront?
      && (m.effect.PopFront? <==> w.pc.Pop?)
      && !(w.pc.Pop? && m.pc.Pop?)
      && (w.pc.Pop? && queue != [] ==> Load(m.pc, true) == Load(m.pc, false) <= Load(w.pc, false) + 30)
      && (!(w.pc.Pop? && queue != []) ==> Load(m.pc, queue == []) < Load(w.pc, queue == []))
  {
  }

  lemma OnePops(s: State, i: nat, j: nat)
    requires Locks(s) && i < |s.workers| && j < |s.workers| && s.workers[i].pc.Pop? && s.workers[j].pc.Pop?
    ensures i == j
  {
    assert QueueLock in Holds(s, Worker(i)) && QueueLock in Holds(s, Worker(j));
  }

  lemma UsefulStep(s: State, i: nat)
    requires Locks(s) && WorkerCan(s, i) && Useful(s.workers[i], i, s.data.queue == []) && !s.workers[i].destroy
    ensures Remaining(WorkerNext(s, i, Finish)) < Remaining(s)
  {
    var w, queue := s.workers[i], s.data.queue;
    var s', m := WorkerNext(s, i, Finish), WorkerMoves(w, i, queue, Finish);
    UsefulMove(w, i, queue);
    LoadsUpdate(s.workers, i, s'.workers[i], queue == []);
    if w.pc.Pop? && queue != [] {
      assert s'.data.queue == queue[1..];
      forall j | 0 <= j < |s'.workers| ensures !s'.workers[j].pc.Pop? {
        if j != i && s.workers[j].pc.Pop? {
          OnePops(s, i, j);
        }
      }
      LoadsWithoutPop(s'.workers);
    } else {
      assert s'.data.queue == queue;
    }
  }

  // ---------------------------------------------------------------- someone can always move

  /** While the main thread is idle nobody has been told to leave who has not left. */
  lemma NobodyLeaving(s: State, i: nat)
    requires Handshake(s) && s.main.Idle? && i < |s.workers| && !s.workers[i].pc.Done?
    ensures !Leaving(s.workers[i].pc) && !s.workers[i].destroy
  {
  }

  lemma HolderIsUseful(s: State) returns (i: nat)
    requires Inv(s) && s.main.Idle? && s.locks != map[]
    ensures WorkerCan(s, i) && Useful(s.workers[i], i, s.data.queue == []) && !s.workers[i].destroy
  {
    NoDeadlock(s);
    var t :| Holds(s, t) != {} && CanMove(s, t);
    var e :| Mover(e) == t && Can(s, e);
    i := e.i;
    NobodyLeaving(s, i);
  }

  lemma WantFree(s: State, i: nat)
    requires s.locks == map[] && i < |s.workers| && !s.workers[i].pc.Done?
    ensures WorkerCan(s, i)
  {
  }

  /** An action that is alive while the main thread is idle is in a worker's hands or in the queue. */
  lemma HeldOrQueued(s: State, x: Ptr)
    requires Inv(s) && s.main.Idle? && Live(s, x)
    ensures HandCount(s.workers, x) >= 1 || s.data.queue != []
  {
    assert Places(s, x) == One(x in s.data.given);
  }

  lemma SomeoneIsUseful(s: State, x: Ptr) returns (i: nat)
    requires Inv(s) && s.main.Idle? && Live(s, x)
    ensures WorkerCan(s, i) && Useful(s.workers[i], i, s.data.queue == []) && !s.workers[i].destroy
  {
    if s.locks != map[] {
      i := HolderIsUseful(s);
    } else {
      HeldOrQueued(s, x);
      if HandCount(s.workers, x) >= 1 {
        i := HolderOf(s.workers, x);
      } else {
        assert s.base < |s.workers|;
        i := s.base;
        assert !s.workers[i].pc.Done?;
      }
      NobodyLeaving(s, i);
      WantFree(s, i);
    }
  }

  /** A worker's step leaves an action alive, or the action has signalled its end before. */
  lemma StaysAlive(s: State, i: nat, x: Ptr)
    requires Inv(s) && SignalsKnown(s) && WorkerCan(s, i) && s.main.Idle? && Live(s, x) && x !in s.data.completed
    ensures Live(WorkerNext(s, i, Finish), x)
  {
    NobodyLeaving(s, i);
    var m := WorkerMoves(s.workers[i], i, s.data.queue, Finish);
    if m.effect.Free? {
      assert Signalled(s.workers[i].pc) == Some(m.effect.p);
    }
  }

  /** What a run keeps, while the main thread is idle and x is alive. */
  ghost predicate Waiting(s: State, x: Ptr) {
    Inv(s) && SignalsKnown(s) && s.main.Idle? && Live(s, x)
  }

  /** Some worker can take a step that brings x closer to its end, and x stays alive until it has signalled that. */
  lemma ProgressStep(s: State, x: Ptr) returns (i: nat)
    requires Waiting(s, x) && x !in s.data.completed
    ensures WorkerCan(s, i) && Remaining(WorkerNext(s, i, Finish)) < Remaining(s) && Waiting(WorkerNext(s, i, Finish), x)
  {
    i := SomeoneIsUseful(s, x);
    UsefulStep(s, i);
    WorkerStepInv(s, i, Finish);
    WorkerKeepsSignals(s, i, Finish);
    StaysAlive(s, i, x);
  }

  /** A step of a worker, whose action returns from BackgroundWork as soon as it is asked. */
  ghost predicate WorkerMovesOn(s: State, s': State) {
    exists i: nat :: WorkerCan(s, i) && s' == WorkerNext(s, i, Finish)
  }

  ghost predicate WorkerStepAt(run: seq<State>, k: int)
    requires 1 <= k < |run|
  {
    WorkerMovesOn(run[k - 1], run[k])
  }

  /** A run of the workers only, from any state. */
  ghost predicate WorkersRun(run: seq<State>, s: State) {
    && run != [] && run[0] == s
    && forall k :: 1 <= k < |run| ==> WorkerStepAt(run, k)
  }

  /** A run of the workers at whose end x has signalled its end. */
  ghost predicate Finishes(run: seq<State>, s: State, x: Ptr) {
    WorkersRun(run, s) && x in run[|run| - 1].data.completed
  }

  lemma FinishedAlready(s: State, x: Ptr)
    requires x in s.data.completed
    ensures Finishes([s], s, x)
  {
  }

  lemma FinishesLater(s: State, s': State, run: seq<State>, x: Ptr)
    requires WorkerMovesOn(s, s') && Finishes(run, s', x)
    ensures Finishes([s] + run, s, x)
  {
    var r := [s] + run;
    forall k | 1 <= k < |r| ensures WorkerStepAt(r, k) {
      if k > 1 {
        assert WorkerStepAt(run, k - 1);
      }
    }
  }

  lemma Progress(s: State, x: Ptr) returns (s': State)
    requires Waiting(s, x) && x !in s.data.completed
    ensures WorkerMovesOn(s, s') && Remaining(s') < Remaining(s) && Waiting(s', x)
  {
    var i := ProgressStep(s, x);
    s' := WorkerNext(s, i, Finish);
  }

  /** Every live action can still signal its end, by steps of the workers alone. */
  lemma {:induction false} EveryActionCanFinish(s: State, x: Ptr) returns (run: seq<State>)
    requires Waiting(s, x)
    ensures Finishes(run, s, x)
    decreases Remaining(s)
  {
    if x in s.data.completed {
      run := [s];
      FinishedAlready(s, x);
    } else {
      var s' := Progress(s, x);
      run := EveryActionCanFinish(s', x);
      FinishesLater(s, s', run, x);
      run := [s] + run;
    }
  }

  /** In particular from every state of a run in which the main thread is idle. */
  lemma NothingGetsStuck(run: seq<State>, k: nat, x: Ptr) returns (rest: seq<State>)
    requires IsRun(run) && k < |run| && run[k].main.Idle? && Live(run[k], x)
    ensures Finishes(rest, run[k], x)
  {
    RunInv(run, k);
    EachSignalsAtMostOnce(run, k);
    rest := EveryActionCanFinish(run[k], x);
  }
}
