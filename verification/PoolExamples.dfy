/**
  CancelAction promises to cancel the action if it is running. It does so only if some action,
  any action, is queued at the moment it looks.
 */
module PoolExamples {
  import opened Pool
  import opened PoolLocks
  import opened PoolOwnership
  import opened PoolStop
  import opened PoolTheorems

  /**
    From where CancelAction has locked the queue: with an empty queue it returns at once and no
    flag is touched; with a non-empty one it begins the scan that CancelActionReaches speaks of.
   */
  lemma CancelActionLooks(run: seq<State>, k: nat, c: Call)
    requires IsRun(run) && k < |run| && run[k].main.CancelCheck?
    ensures var s := run[k]; var s' := MainNext(s, c);
      && (s.data.queue == [] <==> s'.main.Idle?)
      && (s.data.queue == [] ==> s'.data == s.data && s'.workers == s.workers && QueueLock !in s'.locks)
      && (s.data.queue != [] ==> s'.main == Scan(s.main.id, s.data.queue, []))
  {
  }

  // ---------------------------------------------------------------- a running action that is not cancelled

  /** Action 7 is queued, a single worker takes it and works on it, then CancelAction(0) is called. */
  function DemoEvent(k: nat): Event {
    if k == 0 then MainStep(CallQueue(7))
    else if k <= 5 then MainStep(CallTick)
    else if k <= 16 then WorkerStep(0, UseMutex)
    else MainStep(CallCancel(0))
  }

  function DemoData(given: set<Ptr>, queue: seq<Ptr>, ids: map<Ptr, int>, next: int, popped: seq<int>, work: seq<WorkMark>): Data {
    Data(false, queue, ids, next, {}, 0, given, multiset{}, [], 0, 0, popped, work)
  }

  function DemoWorker(pc: WorkerPc, running: Option<Ptr>, locks: map<Lock, Thread>, queue: seq<Ptr>, popped: seq<int>, work: seq<WorkMark>): State {
    State(1, Idle, [WorkerState(pc, running, false)], 0, locks, DemoData({7}, queue, map[7 := 0], 1, popped, work))
  }

  /** The state after k events. */
  function Demo(k: nat): State {
    var queued := map[QueueLock := Main];
    var popping := map[QueueLock := Worker(0)];
    match k
    case 0 => Init(1)
    case 1 => State(1, QueueWant(7), [], 0, map[], DemoData({7}, [], map[], 0, [], []))
    case 2 => State(1, QueuePush(7), [], 0, queued, DemoData({7}, [], map[], 0, [], []))
    case 3 => State(1, SetIdWant(7, 0), [], 0, queued, DemoData({7}, [7], map[], 1, [], []))
    case 4 => State(1, SetIdHeld(7, 0), [], 0, queued[ActionLock(7) := Main], DemoData({7}, [7], map[], 1, [], []))
    case 5 => State(1, Spawn, [], 0, queued, DemoData({7}, [7], map[7 := 0], 1, [], []))
    case 6 => DemoWorker(Test, None, map[], [7], [], [])
    case 7 => DemoWorker(LockQueue, None, map[], [7], [], [])
    case 8 => DemoWorker(Pop, None, popping, [7], [], [])
    case 9 => DemoWorker(LockRun(Some(7)), None, popping, [], [0], [])
    case 10 => DemoWorker(Publish(Some(7)), None, popping[RunLock(0) := Worker(0)], [], [0], [])
    case 11 => DemoWorker(UnlockQueue(Some(7)), Some(7), popping, [], [0], [])
    case 12 => DemoWorker(Decide(Some(7)), Some(7), map[], [], [0], [])
    case 13 => DemoWorker(LeafWant(7, StartMode), Some(7), map[], [], [0], [])
    case 14 => DemoWorker(LeafHeld(7, StartMode), Some(7), map[ActionLock(7) := Worker(0)], [], [0], [])
    case 15 => DemoWorker(LeafWant(7, StartPost), Some(7), map[], [], [0], [])
    case 16 => DemoWorker(LeafHeld(7, StartPost), Some(7), map[HandlerLock := Worker(0)], [], [0], [])
    case 17 => DemoWorker(Working(7), Some(7), map[], [], [0], [Begin(0)])
    case 18 => DemoWorker(Working(7), Some(7), map[], [], [0], [Begin(0)]).(main := CancelWant(0))
    case 19 => DemoWorker(Working(7), Some(7), queued, [], [0], [Begin(0)]).(main := CancelCheck(0))
    case _ => DemoWorker(Working(7), Some(7), map[], [], [0], [Begin(0)])
  }

  lemma DemoQueues(k: nat)
    requires k < 6
    ensures Can(Demo(k), DemoEvent(k)) && Demo(k + 1) == Next(Demo(k), DemoEvent(k))
  {
    if k == 5 {
      assert NewWorkers(1) == [WorkerState(Test, None, false)];
    }
  }

  lemma DemoTakes(k: nat)
    requires 6 <= k < 12
    ensures Can(Demo(k), DemoEvent(k)) && Demo(k + 1) == Next(Demo(k), DemoEvent(k))
  {
  }

  lemma DemoStarts(k: nat)
    requires 12 <= k < 16
    ensures Can(Demo(k), DemoEvent(k)) && Demo(k + 1) == Next(Demo(k), DemoEvent(k))
  {
  }

  lemma DemoWorks(k: nat)
    requires 16 <= k < 20
    ensures Can(Demo(k), DemoEvent(k)) && Demo(k + 1) == Next(Demo(k), DemoEvent(k))
  {
  }

  /** CancelAction(0) was called and has returned while action 7, whose id is 0, runs on without its flag. */
  ghost predicate Missed(run: seq<State>) {
    && |run| == 21
    && run[18].main == CancelWant(0)
    && run[20].main.Idle?
    && |run[20].workers| == 1 && run[20].workers[0] == WorkerState(Working(7), Some(7), false)
    && IdOf(run[20].data.ids, 7) == 0
    && 7 !in run[20].data.cancelled
  }

  lemma DemoStep(k: nat)
    requires k < 20
    ensures Step(Demo(k), Demo(k + 1))
  {
    if k < 6 {
      DemoQueues(k);
    } else if k < 12 {
      DemoTakes(k);
    } else if k < 16 {
      DemoStarts(k);
    } else {
      DemoWorks(k);
    }
  }

  function DemoRun(n: nat): (run: seq<State>)
    ensures |run| == n + 1 && forall k :: 0 <= k <= n ==> run[k] == Demo(k)
  {
    if n == 0 then [Demo(0)] else DemoRun(n - 1) + [Demo(n)]
  }

  lemma DemoEnds(run: seq<State>)
    requires |run| == 21 && run[18] == Demo(18) && run[20] == Demo(20)
    ensures Missed(run)
  {
  }

  lemma CancelMissesRunningAction()
    ensures exists run :: IsRun(run) && Missed(run)
  {
    var run := DemoRun(20);
    assert run[0] == Demo(0) == Init(1);
    forall k | 1 <= k < |run| ensures StepAt(run, k) {
      DemoStep(k - 1);
    }
    DemoEnds(run);
    assert IsRun(run);
  }
}
