/**
  What holds in every reachable state of the pool, for every number of threads and every
  interleaving.
 */
module PoolTheorems {
  import opened Pool
  import opened PoolLocks
  import opened PoolOwnership
  import opened PoolSafety
  import opened PoolStop
  import opened PoolOrder

  ghost predicate Inv(s: State) {
    && Locks(s) && Conserved(s) && Scanning(s) && Published(s) && Targets(s)
    && Handshake(s) && Swept(s) && EmptyWithoutThreads(s) && Fifo(s) && Serial(s)
  }

  lemma InitInv(max: nat)
    requires max >= 1
    ensures Inv(Init(max))
  {
    var s := Init(max);
    assert Locks(s);
    assert Conserved(s);
  }

  lemma WorkerStepInv(s: State, i: nat, c: WorkChoice)
    requires Inv(s) && WorkerCan(s, i)
    ensures Inv(WorkerNext(s, i, c))
  {
    WorkerKeepsLocks(s, i, c);
    WorkerConserves(s, i, c);
    WorkerKeepsScanning(s, i, c);
    WorkerKeepsPublished(s, i, c);
    WorkerKeepsTargets(s, i, c);
    WorkerKeepsHandshake(s, i, c);
    WorkerKeepsSwept(s, i, c);
    WorkerKeepsEmpty(s, i, c);
    WorkerKeepsFifo(s, i, c);
    WorkerKeepsSerial(s, i, c);
  }

  lemma MainStepInv(s: State, c: Call)
    requires Inv(s) && MainCan(s, c)
    ensures Inv(MainNext(s, c))
  {
    MainKeepsLocks(s, c);
    MainConserves(s, c);
    MainKeepsScanning(s, c);
    MainKeepsPublished(s, c);
    MainKeepsTargets(s, c);
    MainKeepsHandshake(s, c);
    MainKeepsSwept(s, c);
    MainKeepsEmpty(s, c);
    MainKeepsFifo(s, c);
    MainKeepsSerial(s, c);
  }

  lemma StepInv(s: State, e: Event)
    requires Inv(s) && Can(s, e)
    ensures Inv(Next(s, e))
  {
    match e
    case MainStep(c) => MainStepInv(s, c);
    case WorkerStep(i, c) => WorkerStepInv(s, i, c);
  }

  lemma StepKeepsInv(s: State, s': State)
    requires Inv(s) && Step(s, s')
    ensures Inv(s')
  {
    var e :| Can(s, e) && s' == Next(s, e);
    StepInv(s, e);
  }

  /** The invariant holds at every point of every run. */
  lemma {:induction false} RunInv(run: seq<State>, k: nat)
    requires IsRun(run) && k < |run|
    ensures Inv(run[k])
  {
    if k == 0 {
      InitInv(run[0].max);
    } else {
      RunInv(run, k - 1);
      assert StepAt(run, k);
      StepKeepsInv(run[k - 1], run[k]);
    }
  }

  // ---------------------------------------------------------------- ownership over runs

  /**
    Every action ever passed to Queue is in exactly one of the queue (or CancelAction's copy of
    it), one thread's hands, or the deleted ones; it is deleted at most once; and whatever action
    any thread is about to touch is not deleted.
   */
  lemma ExactlyOnePlace(run: seq<State>, k: nat, p: Ptr)
    requires IsRun(run) && k < |run|
    ensures Places(run[k], p) == One(p in run[k].data.given)
    ensures run[k].data.deleted[p] <= 1
    ensures forall t :: Touched(run[k], t) == Some(p) ==> Live(run[k], p)
  {
    RunInv(run, k);
    assert Places(run[k], p) == One(p in run[k].data.given);
    forall t | Touched(run[k], t) == Some(p) ensures Live(run[k], p) {
      NoUseAfterFree(run[k], t);
    }
  }

  lemma {:induction false} NoHands(workers: seq<WorkerState>, p: Ptr)
    requires forall i {:trigger workers[i]} :: 0 <= i < |workers| ==> workers[i].pc.Done?
    ensures HandCount(workers, p) == 0
  {
    if workers != [] {
      NoHands(workers[..|workers| - 1], p);
    }
  }

  lemma NoLocksWhenQuiet(s: State)
    requires Locks(s) && s.main.Idle?
    requires forall i {:trigger s.workers[i]} :: 0 <= i < |s.workers| ==> s.workers[i].pc.Done?
    ensures s.locks == map[]
  {
    forall l ensures l !in s.locks {
      if l in s.locks {
        HasHolder(s, l);
        assert false;
      }
    }
  }

  lemma HasHolder(s: State, l: Lock)
    requires Locks(s) && l in s.locks
    ensures Holds(s, s.locks[l]) != {}
  {
    assert l in Holds(s, s.locks[l]);
  }

  /**
    The main thread is idle without threads: before the first Queue and whenever StopAll has
    returned. Then every worker has posted and was waited for, and every action is deleted once.
   */
  lemma AfterStopAll(run: seq<State>, k: nat)
    requires IsRun(run) && k < |run| && run[k].main.Idle? && run[k].base == |run[k].workers|
    ensures var s := run[k];
      && s.data.queue == []
      && (forall i :: 0 <= i < |s.workers| ==> s.workers[i].pc.Done?)
      && s.data.sem == 0 && s.data.posts == s.data.waits == |s.workers|
      && s.locks == map[]
      && (forall p :: s.data.deleted[p] == One(p in s.data.given))
  {
    var s := run[k];
    RunInv(run, k);
    forall p ensures s.data.deleted[p] == One(p in s.data.given) {
      NoHands(s.workers, p);
      assert Places(s, p) == One(p in s.data.given);
    }
    NoLocksWhenQuiet(s);
  }

  /** StopAll ends there: its last step leaves the main thread idle without threads. */
  lemma StopAllReturns(s: State, c: Call)
    requires Inv(s) && MainCan(s, c)
    requires s.main.StopDelete? && s.main.w == |s.workers|
    ensures var s' := MainNext(s, c); s'.main.Idle? && s'.base == |s'.workers|
    ensures forall i :: 0 <= i < |s.workers| ==> s.workers[i].pc.Done?
  {
  }

  // ---------------------------------------------------------------- stopping

  /**
    When StopAll has drained the queue and walked over the workers, every action still alive is
    some worker's RunningAction and has its cancel flag set: nothing popped escapes.
   */
  lemma StopAllCancelsEverything(run: seq<State>, k: nat, p: Ptr)
    requires IsRun(run) && k < |run| && (run[k].main.StopDelete? || run[k].main.StopWait?) && Live(run[k], p)
    ensures p in run[k].data.cancelled
    ensures exists i :: 0 <= i < |run[k].workers| && run[k].workers[i].running == Some(p)
  {
    var s := run[k];
    RunInv(run, k);
    assert Places(s, p) == 1;
    var i := HolderOf(s.workers, p);
    HandIsRunning(s.workers[i].pc);
    assert s.workers[i].running == Some(p);
  }

  lemma {:induction false} HolderOf(workers: seq<WorkerState>, p: Ptr) returns (i: nat)
    requires HandCount(workers, p) >= 1
    ensures i < |workers| && Hand(workers[i].pc) == Some(p)
  {
    i := |workers| - 1;
    if Hand(workers[i].pc) != Some(p) {
      i := HolderOf(workers[..i], p);
    }
  }

  /**
    The semaphore: count + waits = posts at all times, the count is at most one (so posting never
    overflows), no more workers have posted than were told to exit, and while StopAll waits some worker can move.
   */
  lemma SemaphoreProtocol(run: seq<State>, k: nat)
    requires IsRun(run) && k < |run|
    ensures var s := run[k];
      && s.data.sem + s.data.waits == s.data.posts
      && s.data.sem <= 1
      && s.data.posts <= Told(s.workers)
      && (forall i :: 0 <= i < |s.workers| && s.workers[i].pc.PostFinish? ==> s.data.sem < s.max)
      && (s.main.StopWait? && s.data.sem == 0 ==> exists i: nat :: CanMove(s, Worker(i)))
  {
    var s := run[k];
    RunInv(run, k);
    ToldIsPrefix(s.workers, s.data.posts);
    if s.main.StopWait? && s.data.sem == 0 {
      WaitedForProgress(s);
    }
  }

  function Told(workers: seq<WorkerState>): nat {
    if workers == [] then 0 else Told(workers[..|workers| - 1]) + One(workers[|workers| - 1].destroy)
  }

  lemma {:induction false} ToldIsPrefix(workers: seq<WorkerState>, n: nat)
    requires n <= |workers| && forall i {:trigger workers[i]} :: 0 <= i < n ==> workers[i].destroy
    ensures n <= Told(workers)
  {
    if workers != [] {
      ToldIsPrefix(workers[..|workers| - 1], if n == |workers| then n - 1 else n);
    }
  }

  /** The worker StopAll waits for, or some thread it waits for in turn, can move. */
  lemma WaitedForProgress(s: State)
    requires Inv(s) && s.main.StopWait? && s.data.sem == 0
    ensures exists i: nat :: CanMove(s, Worker(i))
  {
    var w := s.main.w;
    if WorkerCan(s, w) {
      assert Mover(WorkerStep(w, Finish)) == Worker(w) && Can(s, WorkerStep(w, Finish));
      assert CanMove(s, Worker(w));
    } else {
      NoDeadlock(s);
      var t :| Holds(s, t) != {} && CanMove(s, t);
      assert t != Main;
      assert CanMove(s, Worker(t.index));
    }
  }

  /** In every reachable state with a held lock some thread holding a lock can step. */
  lemma DeadlockFree(run: seq<State>, k: nat)
    requires IsRun(run) && k < |run| && run[k].locks != map[]
    ensures exists t :: Holds(run[k], t) != {} && CanMove(run[k], t)
  {
    RunInv(run, k);
    NoDeadlock(run[k]);
  }

  // ---------------------------------------------------------------- cancelling

  /**
    At the end of a CancelAction that found a non-empty queue, exactly the queued actions with
    that id are gone and every action with that id in a worker's hands has its cancel flag set.
   */
  lemma CancelActionReaches(run: seq<State>, k: nat)
    requires IsRun(run) && k < |run|
    requires run[k].main.Visit? && run[k].main.op.CancelOp? && run[k].main.w >= |run[k].workers|
    ensures var s := run[k]; var op := s.main.op;
      && s.data.queue == Keep(op.orig, s.data.ids, op.id)
      && forall i, p :: 0 <= i < |s.workers| && Hand(s.workers[i].pc) == Some(p) && IdOf(s.data.ids, p) == op.id ==>
            p in s.data.cancelled
  {
    RunInv(run, k);
  }

  lemma {:induction false} KeepCounts(q: seq<Ptr>, ids: map<Ptr, int>, id: int, p: Ptr)
    ensures Count(Keep(q, ids, id), p) == if IdOf(ids, p) != id then Count(q, p) else 0
  {
    if q != [] {
      var front, last := q[..|q| - 1], q[|q| - 1];
      var kept := Keep(front, ids, id);
      KeepCounts(front, ids, id, p);
      if IdOf(ids, last) != id {
        assert Keep(q, ids, id) == kept + [last];
        CountPush(kept, last, p);
      } else {
        assert Keep(q, ids, id) == kept;
      }
    }
  }

  lemma {:induction false} KeepHas(q: seq<Ptr>, ids: map<Ptr, int>, id: int, p: Ptr)
    ensures p in Keep(q, ids, id) <==> p in q && IdOf(ids, p) != id
  {
    if q != [] {
      KeepHas(q[..|q| - 1], ids, id, p);
      assert q == q[..|q| - 1] + [q[|q| - 1]];
    }
  }

  lemma {:induction false} KeepAll(q: seq<Ptr>, ids: map<Ptr, int>, id: int)
    requires forall p :: p in q ==> IdOf(ids, p) != id
    ensures Keep(q, ids, id) == q
  {
    if q != [] {
      KeepAll(q[..|q| - 1], ids, id);
      assert q == q[..|q| - 1] + [q[|q| - 1]];
    }
  }

  /** What CancelAction keeps: the others, all of them, in their order. */
  lemma KeepIsFilter(q: seq<Ptr>, ids: map<Ptr, int>, id: int)
    ensures forall p :: p in Keep(q, ids, id) <==> p in q && IdOf(ids, p) != id
    ensures forall p :: Count(Keep(q, ids, id), p) == if IdOf(ids, p) != id then Count(q, p) else 0
    ensures (forall p :: p in q ==> IdOf(ids, p) != id) ==> Keep(q, ids, id) == q
  {
    forall p ensures p in Keep(q, ids, id) <==> p in q && IdOf(ids, p) != id {
      KeepHas(q, ids, id, p);
    }
    forall p ensures Count(Keep(q, ids, id), p) == if IdOf(ids, p) != id then Count(q, p) else 0 {
      KeepCounts(q, ids, id, p);
    }
    if forall p :: p in q ==> IdOf(ids, p) != id {
      KeepAll(q, ids, id);
    }
  }

  /** The only steps that set a cancel flag are those of StopAll and of a CancelAction for that very id. */
  lemma FlagsOnlyTheTarget(run: seq<State>, k: nat, e: Event, p: Ptr)
    requires IsRun(run) && k < |run| && Can(run[k], e)
    requires p !in run[k].data.cancelled && p in Next(run[k], e).data.cancelled
    ensures Sweep(run[k].main).Some? && Aimed(run[k].data.ids, Sweep(run[k].main).value, p)
    ensures Live(run[k], p)
  {
    var s := run[k];
    RunInv(run, k);
    if e.MainStep? {
      MainFlagLocal(s, e.call);
      NoUseAfterFree(s, Main);
    } else {
      WorkerSetsNoFlag(s, e.i, e.choice);
      assert false;
    }
  }

  lemma WorkerSetsNoFlag(s: State, i: nat, c: WorkChoice)
    requires i < |s.workers|
    ensures WorkerNext(s, i, c).data.cancelled == s.data.cancelled
  {
    WorkerHandLocal(s.workers[i], i, s.data.queue, c);
  }

  lemma MainFlagLocal(s: State, c: Call)
    ensures MainNext(s, c).data.cancelled ==
      if s.main.RunLeafHeld? && s.main.mleaf.SetFlag? then s.data.cancelled + {s.main.p} else s.data.cancelled
  {
    var m := MainMoves(s, c);
    assert m.effect.Flag? <==> s.main.RunLeafHeld? && s.main.mleaf.SetFlag?;
    assert m.effect.Flag? ==> m.effect.p == s.main.p;
  }

  // ---------------------------------------------------------------- order

  /**
    Ids are popped in increasing order and all before any that is still queued; with one thread
    the BackgroundWork calls never overlap and come in increasing id order, across restarts.
   */
  lemma FirstInFirstOut(run: seq<State>, k: nat)
    requires IsRun(run) && k < |run|
    ensures Increasing(run[k].data.popped + LineIds(run[k]) + [run[k].data.nextId])
    ensures run[k].max == 1 ==> OneAtATime(run[k].data.work)
  {
    RunInv(run, k);
  }
}
