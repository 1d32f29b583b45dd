/**
  Cancelling and stopping: the walks of CancelAction and StopAll over the workers, and the
  semaphore handshake by which StopAll learns that every worker has left.
 */
module PoolStop {
  import opened Pool
  import opened PoolLocks
  import opened PoolOwnership
  import opened PoolSafety

  // ---------------------------------------------------------------- the semaphore handshake

  /** The workers StopAll has already waited for are those below this index. */
  function Waited(s: State): nat {
    match s.main
    case StopDelete(w) => w
    case StopWait(w) => w
    case _ => s.base
  }

  /** On the way out of Entry. */
  predicate Leaving(pc: WorkerPc) {
    match pc
    case LockCleanup | Cleanup | PostFinish | Done => true
    case LeafWant(_, leaf) => leaf == EndPost(true)
    case LeafHeld(_, leaf) => leaf == EndPost(true)
    case LockClear(_, exit) => exit
    case Delete(_, exit) => exit
    case Clear(_, exit) => exit
    case _ => false
  }

  ghost predicate Handshake(s: State) {
    && s.max >= 1
    && s.base <= Waited(s) <= |s.workers|
    && (s.main.StopWait? ==> s.main.w < |s.workers|)
    && (|s.workers| == s.base || |s.workers| == s.base + s.max)
    && (forall i {:trigger s.workers[i]} :: 0 <= i < |s.workers| ==>
          && (i < Waited(s) ==> s.workers[i].pc.Done?)
          && (s.workers[i].destroy <==> i < Waited(s) || s.main == StopWait(i))
          && (Leaving(s.workers[i].pc) ==> s.workers[i].destroy))
    && s.data.sem == (if s.main.StopWait? && s.workers[s.main.w].pc.Done? then 1 else 0)
    && s.data.waits == Waited(s)
    && s.data.posts == s.data.waits + s.data.sem
  }

  lemma WorkerLeavingLocal(w: WorkerState, i: nat, queue: seq<Ptr>, c: WorkChoice)
    requires Leaving(w.pc) ==> w.destroy
    ensures var m := WorkerMoves(w, i, queue, c);
      && (Leaving(m.pc) ==> w.destroy)
      && (m.effect.PostSem? <==> w.pc.PostFinish?)
      && (m.pc.Done? <==> w.pc.PostFinish? || w.pc.Done?)
      && !m.effect.WaitSem?
  {
  }

  lemma WorkerKeepsHandshake(s: State, i: nat, c: WorkChoice)
    requires WorkerCan(s, i) && Handshake(s)
    ensures Handshake(WorkerNext(s, i, c))
  {
    var w := s.workers[i];
    var m := WorkerMoves(w, i, s.data.queue, c);
    WorkerLeavingLocal(w, i, s.data.queue, c);
    var d := Apply(s.data, m.effect, s.max);
    if !m.effect.PostSem? {
      assert d.sem == s.data.sem && d.posts == s.data.posts && d.waits == s.data.waits;
    } else {
      assert s.main == StopWait(i) && s.data.sem == 0;
    }
  }

  lemma MainKeepsHandshake(s: State, c: Call)
    requires MainCan(s, c) && Handshake(s)
    ensures Handshake(MainNext(s, c))
  {
    if s.main.StopWait? || s.main.StopDelete? || s.main.Spawn? {
    } else {
      MainQuietHandshake(s, c);
    }
  }

  lemma MainQuietLocal(s: State, c: Call)
    requires !s.main.StopWait? && !s.main.StopDelete? && !s.main.Spawn?
    ensures var m := MainMoves(s, c);
      && m.threads.SameThreads? && !m.effect.PostSem? && !m.effect.WaitSem?
      && !m.pc.StopWait? && (m.pc.StopDelete? ==> m.pc.w == s.base)
  {
  }

  lemma MainQuietHandshake(s: State, c: Call)
    requires Handshake(s) && !s.main.StopWait? && !s.main.StopDelete? && !s.main.Spawn?
    ensures Handshake(MainNext(s, c))
  {
    var s' := MainNext(s, c);
    MainQuietLocal(s, c);
    assert s'.data.sem == s.data.sem && s'.data.posts == s.data.posts && s'.data.waits == s.data.waits;
    assert s'.workers == s.workers && s'.base == s.base && s'.max == s.max;
    assert Waited(s') == s.base == Waited(s);
  }

  // ---------------------------------------------------------------- the walks

  /** An action popped but not yet published: only its own worker knows it. */
  function Unpublished(pc: WorkerPc): Option<Ptr> {
    match pc
    case LockRun(a) => a
    case Publish(a) => a
    case _ => None
  }

  /** The walk in progress or, once StopAll has begun to delete threads, just finished. */
  function Sweep(pc: MainPc): Option<Op> {
    match pc
    case StopDelete(_) => Some(StopOp)
    case StopWait(_) => Some(StopOp)
    case _ => WalkOp(pc)
  }

  /** Workers below this index were visited. */
  function Visited(s: State): nat {
    match s.main
    case Visit(_, w) => w
    case RunHeld(_, w) => w
    case RunLeafWant(_, w, _, _) => w
    case RunLeafHeld(_, w, _, _) => w
    case RunRelease(_, w) => w + 1
    case _ => |s.workers|
  }

  /** The walk cancels this action. */
  predicate Aimed(ids: map<Ptr, int>, op: Op, p: Ptr) {
    op.StopOp? || (op.CancelOp? && IdOf(ids, p) == op.id)
  }

  ghost predicate Swept(s: State) {
    var op := Sweep(s.main);
    op.Some? && !op.value.TickOp? ==>
      && (op.value.StopOp? ==> s.data.queue == [])
      && (forall i {:trigger s.workers[i]} :: 0 <= i < |s.workers| ==>
            && Unpublished(s.workers[i].pc) == None
            && (i < Visited(s) && Hand(s.workers[i].pc).Some? && Aimed(s.data.ids, op.value, Hand(s.workers[i].pc).value) ==>
                  Hand(s.workers[i].pc).value in s.data.cancelled))
      && (s.main.RunLeafWant? || s.main.RunLeafHeld? ==>
            s.main.mleaf == (if op.value.StopOp? || s.main.mleaf.SetFlag? then SetFlag else ReadId)
            && (s.main.mleaf.SetFlag? ==> Aimed(s.data.ids, op.value, s.main.p)))
  }

  /** Away from the unpublished positions RunningAction is the action in hand. */
  lemma HandIsRunning(pc: WorkerPc)
    requires Unpublished(pc) == None && Hand(pc).Some?
    ensures RunningAt(pc) == Hand(pc)
  {
  }

  lemma WorkerSweptLocal(w: WorkerState, i: nat, queue: seq<Ptr>, c: WorkChoice)
    requires Unpublished(w.pc) == None
    requires queue == [] || !w.pc.Pop?
    ensures var m := WorkerMoves(w, i, queue, c); Unpublished(m.pc) == None && (Hand(m.pc) == Hand(w.pc) || Hand(m.pc) == None)
  {
  }

  lemma WorkerKeepsSwept(s: State, i: nat, c: WorkChoice)
    requires Locks(s) && WorkerCan(s, i) && Swept(s)
    ensures Swept(WorkerNext(s, i, c))
  {
    var op := Sweep(s.main);
    if op.Some? && !op.value.TickOp? {
      var m := WorkerMoves(s.workers[i], i, s.data.queue, c);
      WorkerKeepsIds(s, i, c);
      if op.value.CancelOp? {
        assert QueueLock in Holds(s, Main);
        assert QueueLock !in Holds(s, Worker(i));
        WorkerLeavesQueue(s, i, c);
      }
      WorkerSweptLocal(s.workers[i], i, s.data.queue, c);
      assert !m.effect.Flag? && Apply(s.data, m.effect, s.max).cancelled == s.data.cancelled;
    }
  }

  /** At the start of a walk the main thread holds or held the queue mutex, so nothing is unpublished. */
  lemma NothingUnpublished(s: State)
    requires Locks(s) && QueueLock in MainHolds(s.main)
    ensures forall i {:trigger s.workers[i]} :: 0 <= i < |s.workers| ==> Unpublished(s.workers[i].pc) == None
  {
    assert QueueLock in Holds(s, Main);
    forall i | 0 <= i < |s.workers| ensures Unpublished(s.workers[i].pc) == None {
      assert QueueLock !in Holds(s, Worker(i));
    }
  }

  lemma MainStartsSweep(s: State, c: Call)
    requires Locks(s) && Handshake(s) && MainCan(s, c)
    requires s.main.Drain? || s.main.Restore?
    ensures Swept(MainNext(s, c))
  {
    NothingUnpublished(s);
  }

  lemma MainVisits(s: State, c: Call)
    requires Published(s) && Targets(s) && MainCan(s, c) && Swept(s)
    requires s.main.Visit? || s.main.RunHeld? || s.main.RunRelease? || s.main.RunLeafWant?
    ensures Swept(MainNext(s, c))
  {
    var s' := MainNext(s, c);
    assert s'.workers == s.workers && s'.data == s.data;
    var op := WalkOp(s.main).value;
    if s.main.RunHeld? && !op.TickOp? && s.main.w < |s.workers| && s.workers[s.main.w].running == None {
      var pc := s.workers[s.main.w].pc;
      if Hand(pc).Some? {
        HandIsRunning(pc);
      }
    }
  }

  lemma MainFlags(s: State, c: Call)
    requires Published(s) && Targets(s) && MainCan(s, c) && Swept(s) && s.main.RunLeafHeld?
    ensures Swept(MainNext(s, c))
  {
    var s' := MainNext(s, c);
    var RunLeafHeld(op, w, p, leaf) := s.main;
    assert s'.workers == s.workers && s'.data.ids == s.data.ids && s'.data.queue == s.data.queue;
    if !op.TickOp? {
      var pc := s.workers[w].pc;
      if Hand(pc).Some? {
        HandIsRunning(pc);
        assert Hand(pc) == Some(p);
      }
    }
  }

  lemma MainKeepsSwept(s: State, c: Call)
    requires Locks(s) && Handshake(s) && Published(s) && Targets(s) && MainCan(s, c) && Swept(s)
    ensures Swept(MainNext(s, c))
  {
    if s.main.Drain? || s.main.Restore? {
      MainStartsSweep(s, c);
    } else if s.main.Visit? || s.main.RunHeld? || s.main.RunRelease? || s.main.RunLeafWant? {
      MainVisits(s, c);
    } else if s.main.RunLeafHeld? {
      MainFlags(s, c);
    } else if s.main.StopDelete? || s.main.StopWait? {
      MainDeletesThreads(s, c);
    } else {
      var pc := MainMoves(s, c).pc;
      assert Sweep(pc).None? || Sweep(pc) == Some(TickOp);
    }
  }

  lemma MainDeletesThreads(s: State, c: Call)
    requires Handshake(s) && MainCan(s, c) && Swept(s)
    requires s.main.StopDelete? || s.main.StopWait?
    ensures Swept(MainNext(s, c))
  {
    var s' := MainNext(s, c);
    assert s'.data.queue == s.data.queue && s'.data.ids == s.data.ids && s'.data.cancelled == s.data.cancelled;
    assert |s'.workers| == |s.workers|;
    assert forall i {:trigger s'.workers[i]} :: 0 <= i < |s.workers| ==> s'.workers[i].pc == s.workers[i].pc;
  }

  // ---------------------------------------------------------------- no thread, no action

  /** Without threads the queue is empty, except while Queue is about to start them. */
  ghost predicate EmptyWithoutThreads(s: State) {
    s.base == |s.workers| && !s.main.SetIdWant? && !s.main.SetIdHeld? && !s.main.Spawn? ==>
      s.data.queue == [] && Checked(s.main) == []
  }

  lemma WorkerKeepsEmpty(s: State, i: nat, c: WorkChoice)
    requires i < |s.workers| && EmptyWithoutThreads(s)
    ensures EmptyWithoutThreads(WorkerNext(s, i, c))
  {
    var m := WorkerMoves(s.workers[i], i, s.data.queue, c);
    assert !m.effect.Enqueue? && !m.effect.PutBack?;
  }

  lemma MainKeepsEmpty(s: State, c: Call)
    requires MainCan(s, c) && Handshake(s) && Scanning(s) && Swept(s) && EmptyWithoutThreads(s)
    ensures EmptyWithoutThreads(MainNext(s, c))
  {
    var s' := MainNext(s, c);
    var m := MainMoves(s, c);
    if s.main.StopDelete? || s.main.Spawn? {
    } else {
      assert m.threads.SameThreads? || m.threads.Destroy?;
      assert s'.base == s.base && |s'.workers| == |s.workers|;
      if !s.main.SetIdWant? && !s.main.SetIdHeld? && !s.main.QueuePush? && s.base == |s.workers| {
        assert !m.effect.Enqueue?;
        assert s.main.Restore? ==> s.main.checked == [];
        assert s'.data.queue == [];
        assert !s.main.ScanHeld?;
      }
    }
  }
}
