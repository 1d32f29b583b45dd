/**
  Which mutex protects what: every change of what the threads share is made by the thread that holds
  the mutex for it. And what a worker finds on its way out.
 */
module PoolGuards {
  import opened Pool
  import opened PoolLocks
  import opened PoolSafety
  import opened PoolStop
  import opened PoolTheorems
  import opened PoolProgress

  // ---------------------------------------------------------------- what the locks protect

  ghost predicate HeldBy(s: State, l: Lock, t: Thread) {
    l in s.locks && s.locks[l] == t
  }

  /** The queue, the ids and the list of threads change only under the queue mutex. */
  ghost predicate QueueGuarded(s: State, t: Thread, s': State) {
    s'.data.queue != s.data.queue || s'.data.nextId != s.data.nextId || s'.data.ids != s.data.ids
      || |s'.workers| != |s.workers|
    ==> HeldBy(s, QueueLock, t)
  }

  /** A RunningAction pointer changes only under its mutex. */
  ghost predicate RunningGuarded(s: State, t: Thread, s': State) {
    forall i {:trigger s.workers[i]} :: 0 <= i < |s.workers| && i < |s'.workers| && s'.workers[i].running != s.workers[i].running ==>
      HeldBy(s, RunLock(i), t)
  }

  /**
    An action that others can reach is deleted only under the mutex it is reached through: that of
    the queue, or that of the RunningAction pointer it is the value of.
   */
  ghost predicate DeleteGuarded(s: State, t: Thread, s': State) {
    forall p {:trigger s.data.deleted[p]} :: s'.data.deleted[p] > s.data.deleted[p] && p in s.data.given ==>
      || (HeldBy(s, QueueLock, t) && s.data.queue != [] && s.data.queue[0] == p)
      || (t.Worker? && t.index < |s.workers| && s.workers[t.index].running == Some(p) && HeldBy(s, RunLock(t.index), t))
  }

  /** A cancel flag is set, and an id assigned, only under the action's own mutex. */
  ghost predicate ActionGuarded(s: State, t: Thread, s': State) {
    && (forall p {:trigger p in s.data.cancelled} ::
          p in s'.data.cancelled && p !in s.data.cancelled ==> HeldBy(s, ActionLock(p), t))
    && (forall p {:trigger IdOf(s.data.ids, p)} ::
          IdOf(s'.data.ids, p) != IdOf(s.data.ids, p) ==> HeldBy(s, ActionLock(p), t))
  }

  lemma HoldsIsHeldBy(s: State, t: Thread, l: Lock)
    requires Locks(s) && l in Holds(s, t)
    ensures HeldBy(s, l, t)
  {
  }

  lemma WorkerGuardLocal(w: WorkerState, i: nat, queue: seq<Ptr>, c: WorkChoice)
    requires w.running == RunningAt(w.pc)
    ensures var m := WorkerMoves(w, i, queue, c);
      && (m.effect.PopFront? || m.effect.DeleteFront? ==> QueueLock in WorkerHolds(i, w.pc))
      && (m.effect.Free? ==> RunLock(i) in WorkerHolds(i, w.pc) && w.running == Some(m.effect.p))
      && (m.running != w.running ==> RunLock(i) in WorkerHolds(i, w.pc))
      && match m.effect
         case Nothing | PopFront | DeleteFront | Free(_) | Signal(_) | BeginWork(_) | EndWork(_) | PostSem => true
         case _ => false
  {
  }

  lemma WorkerHeld(s: State, i: nat, l: Lock)
    requires Locks(s) && i < |s.workers| && l in WorkerHolds(i, s.workers[i].pc)
    ensures HeldBy(s, l, Worker(i))
  {
    HoldsIsHeldBy(s, Worker(i), l);
  }

  lemma WorkerGuardsQueue(s: State, i: nat, c: WorkChoice)
    requires Locks(s) && Published(s) && WorkerCan(s, i)
    ensures QueueGuarded(s, Worker(i), WorkerNext(s, i, c)) && ActionGuarded(s, Worker(i), WorkerNext(s, i, c))
  {
    WorkerGuardLocal(s.workers[i], i, s.data.queue, c);
    if QueueLock in WorkerHolds(i, s.workers[i].pc) {
      WorkerHeld(s, i, QueueLock);
    }
  }

  lemma WorkerGuardsActions(s: State, i: nat, c: WorkChoice)
    requires Locks(s) && Published(s) && WorkerCan(s, i)
    ensures RunningGuarded(s, Worker(i), WorkerNext(s, i, c)) && DeleteGuarded(s, Worker(i), WorkerNext(s, i, c))
  {
    WorkerGuardLocal(s.workers[i], i, s.data.queue, c);
    if QueueLock in WorkerHolds(i, s.workers[i].pc) {
      WorkerHeld(s, i, QueueLock);
    }
    if RunLock(i) in WorkerHolds(i, s.workers[i].pc) {
      WorkerHeld(s, i, RunLock(i));
    }
  }

  lemma MainGuardLocal(s: State, c: Call)
    requires MainCan(s, c)
    ensures var m := MainMoves(s, c);
      && (m.threads.SpawnAll? ==> QueueLock in MainHolds(s.main))
      && match m.effect
         case Enqueue(_) | KeepFront | PutBack(_) | DeleteFront => QueueLock in MainHolds(s.main)
         case SetId(p, _) => QueueLock in MainHolds(s.main) && ActionLock(p) in MainHolds(s.main)
         case Flag(p) => ActionLock(p) in MainHolds(s.main)
         case Refuse(p) => p !in s.data.given
         case Nothing | Give(_) | WaitSem | Shut => true
         case _ => false
  {
  }

  lemma MainHeld(s: State, l: Lock)
    requires Locks(s) && l in MainHolds(s.main)
    ensures HeldBy(s, l, Main)
  {
    HoldsIsHeldBy(s, Main, l);
  }

  lemma MainGuardsQueue(s: State, c: Call)
    requires Locks(s) && MainCan(s, c)
    ensures QueueGuarded(s, Main, MainNext(s, c)) && DeleteGuarded(s, Main, MainNext(s, c))
  {
    MainGuardLocal(s, c);
    if QueueLock in MainHolds(s.main) {
      MainHeld(s, QueueLock);
    }
  }

  lemma MainGuardsActions(s: State, c: Call)
    requires Locks(s) && MainCan(s, c)
    ensures RunningGuarded(s, Main, MainNext(s, c)) && ActionGuarded(s, Main, MainNext(s, c))
  {
    MainGuardLocal(s, c);
    var m := MainMoves(s, c);
    if (m.effect.SetId? || m.effect.Flag?) && ActionLock(m.effect.p) in MainHolds(s.main) {
      MainHeld(s, ActionLock(m.effect.p));
    }
  }

  /**
    No data race: in every reachable state, a step that changes the queue, a RunningAction pointer, an
    action's id or flag, or deletes an action, is made by the thread that holds the mutex for it.
   */
  lemma ChangesAreGuarded(run: seq<State>, k: nat, e: Event)
    requires IsRun(run) && k < |run| && Can(run[k], e)
    ensures var s, t, s' := run[k], Mover(e), Next(run[k], e);
      QueueGuarded(s, t, s') && RunningGuarded(s, t, s') && DeleteGuarded(s, t, s') && ActionGuarded(s, t, s')
  {
    RunInv(run, k);
    match e
    case MainStep(c) => MainGuardsQueue(run[k], c); MainGuardsActions(run[k], c);
    case WorkerStep(i, c) => WorkerGuardsQueue(run[k], i, c); WorkerGuardsActions(run[k], i, c);
  }

  // ---------------------------------------------------------------- leaving

  /** A worker that cleans up on its way out finds the queue empty: StopAll has drained it. */
  lemma CleanupFindsNothing(run: seq<State>, k: nat, i: nat)
    requires IsRun(run) && k < |run| && i < |run[k].workers| && Leaving(run[k].workers[i].pc) && !run[k].workers[i].pc.Done?
    ensures run[k].data.queue == [] && run[k].main == StopWait(i)
  {
    RunInv(run, k);
  }

  /** Were there any, it would delete each of them, and leave none behind. */
  lemma {:induction false} CleanupDeletesAll(s: State, i: nat) returns (run: seq<State>)
    requires i < |s.workers| && s.workers[i].pc.Cleanup?
    ensures WorkersRun(run, s)
    ensures var t := run[|run| - 1];
      && i < |t.workers| && t.workers[i].pc.PostFinish?
      && t.data.queue == [] && t.data.deleted == s.data.deleted + multiset(s.data.queue)
    decreases |s.data.queue|
  {
    var t := WorkerNext(s, i, Finish);
    assert WorkerCan(s, i) && WorkerMovesOn(s, t);
    if s.data.queue == [] {
      run := [s, t];
      assert WorkerStepAt(run, 1);
    } else {
      var rest := CleanupDeletesAll(t, i);
      assert s.data.queue == [s.data.queue[0]] + s.data.queue[1..];
      run := [s] + rest;
      CleanupFirst(s, t, rest, run);
    }
  }

  lemma CleanupFirst(s: State, t: State, rest: seq<State>, run: seq<State>)
    requires WorkerMovesOn(s, t) && WorkersRun(rest, t) && run == [s] + rest
    ensures WorkersRun(run, s)
  {
    forall k | 1 <= k < |run| ensures WorkerStepAt(run, k) {
      if k > 1 {
        assert WorkerStepAt(rest, k - 1);
      }
    }
  }
}
