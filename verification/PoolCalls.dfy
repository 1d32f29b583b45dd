/**
  What the calls of the pool have done when they return.
 */
module PoolCalls {
  import opened Pool
  import opened PoolLocks
  import opened PoolOwnership
  import opened PoolStop
  import opened PoolTheorems

  /** The main thread begins this call in run[k] and has not returned from it before run[m]. */
  ghost predicate InCall(run: seq<State>, k: nat, m: nat, call: Call) {
    && IsRun(run) && k < m < |run|
    && run[k].main.Idle? && MainCan(run[k], call) && run[k + 1] == MainNext(run[k], call)
    && forall j :: k < j < m ==> !run[j].main.Idle?
  }

  // ---------------------------------------------------------------- StopAll and Shutdown

  /** Inside StopAll. */
  predicate Stopping(pc: MainPc) {
    match pc
    case StopWant | Drain | StopDelete(_) | StopWait(_) => true
    case _ => WalkOp(pc) == Some(StopOp)
  }

  /** Inside StopAll, or back from it without threads; and no later than that. */
  ghost predicate StopsOrStopped(s: State) {
    Stopping(s.main) || (s.main.Idle? && s.base == |s.workers|)
  }

  lemma MainStops(s: State, c: Call)
    requires Stopping(s.main)
    ensures StopsOrStopped(MainNext(s, c))
    ensures MainNext(s, c).data.shutdown == s.data.shutdown
  {
  }

  lemma WorkerLeavesMain(s: State, i: nat, c: WorkChoice)
    requires i < |s.workers|
    ensures var s' := WorkerNext(s, i, c);
      s'.main == s.main && s'.base == s.base && |s'.workers| == |s.workers| && s'.max == s.max
  {
  }

  lemma WorkerLeavesIds(s: State, i: nat, c: WorkChoice)
    requires i < |s.workers|
    ensures var d := WorkerNext(s, i, c).data;
      d.shutdown == s.data.shutdown && d.given == s.data.given && d.nextId == s.data.nextId && d.ids == s.data.ids
  {
    WorkerHandLocal(s.workers[i], i, s.data.queue, c);
  }

  lemma StepStops(s: State, s': State)
    requires Stopping(s.main) && Step(s, s')
    ensures StopsOrStopped(s') && s'.data.shutdown == s.data.shutdown
  {
    var e :| Can(s, e) && s' == Next(s, e);
    match e
    case MainStep(c) => MainStops(s, c);
    case WorkerStep(i, c) => WorkerLeavesMain(s, i, c); WorkerLeavesIds(s, i, c);
  }

  lemma StopAllStarts(s: State, call: Call)
    requires s.main.Idle? && (call.CallStopAll? || call.CallShutdown?)
    ensures StopsOrStopped(MainNext(s, call))
    ensures MainNext(s, call).data.shutdown == (s.data.shutdown || call.CallShutdown?)
  {
  }

  lemma StopsNext(run: seq<State>, m: nat)
    requires IsRun(run) && 1 <= m < |run| && StopsOrStopped(run[m - 1]) && !run[m - 1].main.Idle?
    ensures StopsOrStopped(run[m]) && run[m].data.shutdown == run[m - 1].data.shutdown
  {
    assert StepAt(run, m);
    StepStops(run[m - 1], run[m]);
  }

  lemma {:induction false} StopAllGoesOn(run: seq<State>, k: nat, m: nat, call: Call)
    requires InCall(run, k, m, call) && (call.CallStopAll? || call.CallShutdown?)
    ensures StopsOrStopped(run[m]) && run[m].data.shutdown == (run[k].data.shutdown || call.CallShutdown?)
    decreases m
  {
    if k + 1 < m {
      StopAllGoesOn(run, k, m - 1, call);
      StopsNext(run, m);
    } else {
      StopAllStarts(run[k], call);
    }
  }

  /**
    When StopAll or Shutdown returns there are no threads, no action is queued, every action ever given
    has been deleted once, and every worker has left; after Shutdown the pool is shut down.
   */
  lemma StopAllStopsAll(run: seq<State>, k: nat, m: nat, call: Call)
    requires InCall(run, k, m, call) && run[m].main.Idle?
    requires call.CallStopAll? || call.CallShutdown?
    ensures var s := run[m];
      && s.base == |s.workers| && s.data.queue == []
      && (forall i :: 0 <= i < |s.workers| ==> s.workers[i].pc.Done?)
      && (forall p :: s.data.deleted[p] == if p in s.data.given then 1 else 0)
    ensures run[m].data.shutdown == (run[k].data.shutdown || call.CallShutdown?)
  {
    StopAllGoesOn(run, k, m, call);
    AfterStopAll(run, m);
    forall p ensures run[m].data.deleted[p] == if p in run[m].data.given then 1 else 0 {
      assert run[m].data.deleted[p] == One(p in run[m].data.given);
    }
  }

  // ---------------------------------------------------------------- for ever

  /** Shut down, without threads, and doing nothing that could start any. */
  ghost predicate Shut(s: State) {
    && s.data.shutdown && s.base == |s.workers|
    && match s.main
       case Idle | CancelWant(_) | CancelCheck(_) | HandlerWant | HandlerHeld => true
       case _ => s.main == Visit(TickOp, s.base)
  }

  lemma ShutHasNothing(s: State)
    requires Inv(s) && Shut(s)
    ensures s.data.queue == [] && forall i :: 0 <= i < |s.workers| ==> s.workers[i].pc.Done?
  {
  }

  lemma MainStaysShut(s: State, c: Call)
    requires Shut(s) && s.data.queue == []
    ensures Shut(MainNext(s, c)) && MainNext(s, c).workers == s.workers
  {
  }

  lemma StaysShut(s: State, s': State)
    requires Inv(s) && Shut(s) && Step(s, s')
    ensures Shut(s') && s'.workers == s.workers
  {
    ShutHasNothing(s);
    var e :| Can(s, e) && s' == Next(s, e);
    match e
    case MainStep(c) => MainStaysShut(s, c);
    case WorkerStep(_, _) => assert false;
  }

  lemma {:induction false} RemainsShut(run: seq<State>, k: nat, m: nat)
    requires IsRun(run) && k <= m < |run| && Shut(run[k])
    ensures Shut(run[m]) && run[m].workers == run[k].workers
    decreases m
  {
    if k < m {
      RemainsShut(run, k, m - 1);
      RunInv(run, m - 1);
      assert StepAt(run, m);
      StaysShut(run[m - 1], run[m]);
    }
  }

  /** Once Shutdown has returned no thread is ever started again and every action given is deleted at once. */
  lemma ShutdownIsFinal(run: seq<State>, k: nat, m: nat)
    requires IsRun(run) && k <= m < |run|
    requires run[k].main.Idle? && run[k].data.shutdown && run[k].base == |run[k].workers|
    ensures run[m].workers == run[k].workers && run[m].data.queue == []
    ensures forall p :: run[m].data.deleted[p] == if p in run[m].data.given then 1 else 0
  {
    RemainsShut(run, k, m);
    RunInv(run, m);
    ShutHasNothing(run[m]);
    forall p ensures run[m].data.deleted[p] == if p in run[m].data.given then 1 else 0 {
      ShutDeleted(run[m], p);
    }
  }

  lemma ShutDeleted(s: State, p: Ptr)
    requires Conserved(s) && Shut(s) && s.data.queue == []
    requires forall i :: 0 <= i < |s.workers| ==> s.workers[i].pc.Done?
    ensures s.data.deleted[p] == if p in s.data.given then 1 else 0
  {
    NoHands(s.workers, p);
    assert Places(s, p) == One(p in s.data.given);
  }

  // ---------------------------------------------------------------- Queue

  /** How far Queue(p), called with this next id, has come. */
  ghost predicate Queueing(s: State, p: Ptr, id: int) {
    && p in s.data.given
    && match s.main
       case QueueWant(q) => q == p && s.data.nextId == id
       case QueuePush(q) => q == p && s.data.nextId == id
       case SetIdWant(q, newId) => q == p && newId == id && s.data.nextId == id + 1
       case SetIdHeld(q, newId) => q == p && newId == id && s.data.nextId == id + 1
       case Spawn => p in s.data.ids && s.data.ids[p] == id && s.data.nextId == id + 1
       case _ => false
  }

  /** Queue(p) has returned. */
  ghost predicate Queued(s: State, p: Ptr, id: int) {
    && s.main.Idle? && p in s.data.given
    && p in s.data.ids && s.data.ids[p] == id && s.data.nextId == id + 1
    && s.base < |s.workers|
  }

  lemma MainQueues(s: State, p: Ptr, id: int, c: Call)
    requires Handshake(s) && Queueing(s, p, id) && MainCan(s, c)
    ensures Queueing(MainNext(s, c), p, id) || Queued(MainNext(s, c), p, id)
  {
  }

  lemma StepQueues(s: State, p: Ptr, id: int, s': State)
    requires Handshake(s) && Queueing(s, p, id) && Step(s, s')
    ensures Queueing(s', p, id) || Queued(s', p, id)
  {
    var e :| Can(s, e) && s' == Next(s, e);
    match e
    case MainStep(c) => MainQueues(s, p, id, c);
    case WorkerStep(i, c) => WorkerLeavesMain(s, i, c); WorkerLeavesIds(s, i, c);
  }

  lemma QueueStarts(s: State, p: Ptr)
    requires s.main.Idle? && !s.data.shutdown
    ensures Queueing(MainNext(s, CallQueue(p)), p, s.data.nextId)
  {
  }

  lemma {:induction false} QueueGoesOn(run: seq<State>, k: nat, m: nat, p: Ptr)
    requires InCall(run, k, m, CallQueue(p)) && !run[k].data.shutdown
    ensures Queueing(run[m], p, run[k].data.nextId) || Queued(run[m], p, run[k].data.nextId)
    decreases m
  {
    if k + 1 < m {
      QueueGoesOn(run, k, m - 1, p);
      RunInv(run, m - 1);
      assert StepAt(run, m);
      StepQueues(run[m - 1], p, run[k].data.nextId, run[m]);
    } else {
      QueueStarts(run[k], p);
    }
  }

  /**
    When Queue returns, the action has the id that was next, the next id is one more, and there are
    exactly `max` threads; after Shutdown the action is deleted instead, and nothing else changes.
   */
  lemma QueueGivesTheNextId(run: seq<State>, k: nat, m: nat, p: Ptr)
    requires InCall(run, k, m, CallQueue(p)) && run[m].main.Idle?
    ensures !run[k].data.shutdown ==>
      && p in run[m].data.ids && run[m].data.ids[p] == run[k].data.nextId
      && run[m].data.nextId == run[k].data.nextId + 1
      && |run[m].workers| == run[m].base + run[m].max
    ensures run[k].data.shutdown ==>
      && m == k + 1
      && run[m] == run[k].(data := run[k].data.(
           given := run[k].data.given + {p}, deleted := run[k].data.deleted + multiset{p}))
  {
    if !run[k].data.shutdown {
      QueueGoesOn(run, k, m, p);
      RunInv(run, m);
    }
  }

  /** The action that has just been pushed and is being given its id. */
  function Numbering(pc: MainPc): Option<Ptr> {
    match pc
    case SetIdWant(p, _) => Some(p)
    case SetIdHeld(p, _) => Some(p)
    case _ => None
  }

  /** Every action the pool has taken has its id, but for that one. */
  ghost predicate Identified(s: State) {
    && (forall p :: p in s.data.queue ==> p in s.data.ids || Numbering(s.main) == Some(p))
    && (forall p :: p in Checked(s.main) ==> p in s.data.ids)
    && (forall i {:trigger s.workers[i]} :: 0 <= i < |s.workers| && Hand(s.workers[i].pc).Some? ==>
          Hand(s.workers[i].pc).value in s.data.ids)
  }

  lemma WorkerKeepsIdentified(s: State, i: nat, c: WorkChoice)
    requires Locks(s) && WorkerCan(s, i) && Identified(s)
    ensures Identified(WorkerNext(s, i, c))
  {
    var m := WorkerMoves(s.workers[i], i, s.data.queue, c);
    WorkerHandLocal(s.workers[i], i, s.data.queue, c);
    WorkerLeavesIds(s, i, c);
    if QueueLock in MainHolds(s.main) {
      WorkerLeavesQueue(s, i, c);
    }
    if m.effect.PopFront? {
      assert QueueLock in Holds(s, Worker(i));
      assert QueueLock !in Holds(s, Main);
      assert Numbering(s.main) == None;
    }
  }

  lemma MainKeepsIds(s: State, c: Call)
    ensures s.data.ids.Keys <= MainNext(s, c).data.ids.Keys
    ensures s.main.SetIdHeld? ==> s.main.p in MainNext(s, c).data.ids
  {
  }

  lemma ThreadsKeepHand(workers: seq<WorkerState>, max: nat, op: ThreadOp, i: nat)
    requires i < |ApplyThreads(workers, max, op)| && Hand(ApplyThreads(workers, max, op)[i].pc).Some?
    ensures i < |workers| && Hand(workers[i].pc) == Hand(ApplyThreads(workers, max, op)[i].pc)
  {
  }

  lemma MainKeepsQueued(s: State, c: Call)
    requires Scanning(s) && MainCan(s, c) && Identified(s)
    ensures var t := MainNext(s, c);
      && (forall p :: p in t.data.queue ==> p in t.data.ids || Numbering(t.main) == Some(p))
      && (forall p :: p in Checked(t.main) ==> p in t.data.ids)
  {
    MainKeepsIds(s, c);
    MainHandLocal(s, c);
    assert !s.main.SetIdWant? && !s.main.SetIdHeld? ==> Numbering(s.main) == None;
  }

  lemma MainKeepsIdentified(s: State, c: Call)
    requires Scanning(s) && MainCan(s, c) && Identified(s)
    ensures Identified(MainNext(s, c))
  {
    var t := MainNext(s, c);
    MainKeepsIds(s, c);
    MainKeepsQueued(s, c);
    forall i | 0 <= i < |t.workers| && Hand(t.workers[i].pc).Some? ensures Hand(t.workers[i].pc).value in t.data.ids {
      ThreadsKeepHand(s.workers, s.max, MainMoves(s, c).threads, i);
    }
  }

  lemma StepKeepsIdentified(s: State, s': State)
    requires Locks(s) && Scanning(s) && Identified(s) && Step(s, s')
    ensures Identified(s')
  {
    var e :| Can(s, e) && s' == Next(s, e);
    match e
    case MainStep(c) => MainKeepsIdentified(s, c);
    case WorkerStep(i, c) => WorkerKeepsIdentified(s, i, c);
  }

  /**
    In every reachable state each action in the queue, in CancelAction's copy of it or in a worker's
    hands has been given its id, but for the one Queue has pushed and is about to number.
   */
  lemma {:induction false} IdsComeFirst(run: seq<State>, k: nat)
    requires IsRun(run) && k < |run|
    ensures Identified(run[k])
  {
    if k > 0 {
      IdsComeFirst(run, k - 1);
      RunInv(run, k - 1);
      assert StepAt(run, k);
      StepKeepsIdentified(run[k - 1], run[k]);
    }
  }
}
