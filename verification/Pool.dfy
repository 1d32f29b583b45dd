/**
  The background-action pool (RunningThreadsClass and its ThreadActionClass workers) as a
  state machine. A step is what one thread does between two lock operations; the next thread
  to move is chosen freely, so a run of this machine is one interleaving of the main thread
  with the workers.
 */
module Pool {
  type Ptr = nat // the address of an action

  datatype Option<+T> = None | Some(value: T)

  /** The mutexes: one on the queue, one per worker on its RunningAction pointer, one per action, one on the handlers. */
  datatype Lock = QueueLock | RunLock(worker: nat) | ActionLock(action: Ptr) | HandlerLock

  datatype Thread = Main | Worker(index: nat)

  /** Short sections that hold a single innermost lock while a worker has an action in its hands. */
  datatype Leaf = StartMode | StartPost | WorkMutex | WorkPost | EndPost(exit: bool)

  /** Where a worker is in ThreadActionClass::Entry. */
  datatype WorkerPc =
    | Test
    | LockQueue
    | Pop
    | LockRun(a: Option<Ptr>)
    | Publish(a: Option<Ptr>)
    | UnlockQueue(a: Option<Ptr>)
    | Decide(a: Option<Ptr>)
    | LeafWant(p: Ptr, leaf: Leaf)
    | LeafHeld(p: Ptr, leaf: Leaf)
    | Working(p: Ptr)
    | LockClear(p: Ptr, exit: bool)
    | Delete(p: Ptr, exit: bool)
    | Clear(p: Ptr, exit: bool)
    | LockCleanup
    | Cleanup
    | PostFinish
    | Done

  datatype WorkerState = WorkerState(pc: WorkerPc, running: Option<Ptr>, destroy: bool)

  /** Why the main thread walks over the workers' RunningAction pointers. */
  datatype Op = CancelOp(id: int, orig: seq<Ptr>) | StopOp | TickOp

  datatype MainLeaf = ReadId | SetFlag | ReadMode | ReadPercent | PostProgress

  /**
    Where the main thread is. `orig` is the queue as CancelAction found it, kept for
    specification only; `checked` is CancelAction's local queue.
   */
  datatype MainPc =
    | Idle
    | QueueWant(p: Ptr)
    | QueuePush(p: Ptr)
    | SetIdWant(p: Ptr, newId: int)
    | SetIdHeld(p: Ptr, newId: int)
    | Spawn
    | CancelWant(id: int)
    | CancelCheck(id: int)
    | Scan(id: int, orig: seq<Ptr>, checked: seq<Ptr>)
    | ScanWant(id: int, orig: seq<Ptr>, checked: seq<Ptr>, p: Ptr)
    | ScanHeld(id: int, orig: seq<Ptr>, checked: seq<Ptr>, p: Ptr)
    | Restore(id: int, orig: seq<Ptr>, checked: seq<Ptr>)
    | Visit(op: Op, w: nat)
    | RunHeld(op: Op, w: nat)
    | RunLeafWant(op: Op, w: nat, p: Ptr, mleaf: MainLeaf)
    | RunLeafHeld(op: Op, w: nat, p: Ptr, mleaf: MainLeaf)
    | RunRelease(op: Op, w: nat)
    | StopWant
    | Drain
    | StopDelete(w: nat)
    | StopWait(w: nat)
    | HandlerWant
    | HandlerHeld

  datatype WorkMark = Begin(id: int) | End(id: int)

  /**
    What the threads share besides the locks. The fields after `sem` are history: they record
    what happened and guide nothing.
   */
  datatype Data = Data(
    shutdown: bool, queue: seq<Ptr>, ids: map<Ptr, int>, nextId: int, cancelled: set<Ptr>, sem: nat,
    given: set<Ptr>, deleted: multiset<Ptr>, completed: seq<Ptr>,
    posts: nat, waits: nat, popped: seq<int>, work: seq<WorkMark>)

  /** `workers` lists every worker ever started; ThreadActions is workers[base..]. */
  datatype State = State(
    max: nat, main: MainPc, workers: seq<WorkerState>, base: nat, locks: map<Lock, Thread>, data: Data)

  /** What the main thread may begin when it is idle. */
  datatype Call = CallQueue(p: Ptr) | CallCancel(id: int) | CallStopAll | CallShutdown | CallTick | CallHandlers

  /** What BackgroundWork does next: read its cancel flag, post an event, or return. */
  datatype WorkChoice = UseMutex | PostEvent | Finish

  datatype Event = MainStep(call: Call) | WorkerStep(i: nat, choice: WorkChoice)

  function Init(max: nat): State {
    State(max, Idle, [], 0, map[], Data(false, [], map[], 0, {}, 0, {}, multiset{}, [], 0, 0, [], []))
  }

  /** GetActionId: zero until SetActionId was called. */
  function IdOf(ids: map<Ptr, int>, p: Ptr): int {
    if p in ids then ids[p] else 0
  }

  // ---------------------------------------------------------------- locks

  function LeafLock(p: Ptr, leaf: Leaf): Lock {
    if leaf.StartMode? || leaf.WorkMutex? then ActionLock(p) else HandlerLock
  }

  function MainLeafLock(p: Ptr, leaf: MainLeaf): Lock {
    if leaf.PostProgress? then HandlerLock else ActionLock(p)
  }

  function WorkerHolds(i: nat, pc: WorkerPc): set<Lock> {
    match pc
    case Pop | LockRun(_) | UnlockQueue(_) | Cleanup => {QueueLock}
    case Publish(_) => {QueueLock, RunLock(i)}
    case LeafHeld(p, leaf) => {LeafLock(p, leaf)}
    case Delete(_, _) | Clear(_, _) => {RunLock(i)}
    case _ => {}
  }

  function WorkerWants(i: nat, pc: WorkerPc): Option<Lock> {
    match pc
    case LockQueue | LockCleanup => Some(QueueLock)
    case LockRun(_) | LockClear(_, _) => Some(RunLock(i))
    case LeafWant(p, leaf) => Some(LeafLock(p, leaf))
    case _ => None
  }

  function OpHolds(op: Op): set<Lock> {
    if op.CancelOp? then {QueueLock} else {}
  }

  function MainHolds(pc: MainPc): set<Lock> {
    match pc
    case QueuePush(_) | SetIdWant(_, _) | Spawn | CancelCheck(_) | Drain => {QueueLock}
    case Scan(_, _, _) | ScanWant(_, _, _, _) | Restore(_, _, _) => {QueueLock}
    case SetIdHeld(p, _) => {QueueLock, ActionLock(p)}
    case ScanHeld(_, _, _, p) => {QueueLock, ActionLock(p)}
    case Visit(op, _) => OpHolds(op)
    case RunHeld(op, w) => OpHolds(op) + {RunLock(w)}
    case RunLeafWant(op, w, _, _) => OpHolds(op) + {RunLock(w)}
    case RunRelease(op, w) => OpHolds(op) + {RunLock(w)}
    case RunLeafHeld(op, w, p, leaf) => OpHolds(op) + {RunLock(w), MainLeafLock(p, leaf)}
    case HandlerHeld => {HandlerLock}
    case _ => {}
  }

  function MainWants(s: State): Option<Lock> {
    match s.main
    case QueueWant(_) | CancelWant(_) | StopWant => Some(QueueLock)
    case SetIdWant(p, _) => Some(ActionLock(p))
    case ScanWant(_, _, _, p) => Some(ActionLock(p))
    case Visit(op, w) => if w < |s.workers| then Some(RunLock(w)) else None
    case RunLeafWant(_, _, p, leaf) => Some(MainLeafLock(p, leaf))
    case HandlerWant => Some(HandlerLock)
    case _ => None
  }

  function Holds(s: State, t: Thread): set<Lock> {
    match t
    case Main => MainHolds(s.main)
    case Worker(i) => if i < |s.workers| then WorkerHolds(i, s.workers[i].pc) else {}
  }

  function Wants(s: State, t: Thread): Option<Lock> {
    match t
    case Main => MainWants(s)
    case Worker(i) => if i < |s.workers| then WorkerWants(i, s.workers[i].pc) else None
  }

  // ---------------------------------------------------------------- what a step does

  datatype LockOp = NoLock | Take(l: Lock) | Drop(l: Lock)

  /** What a step does to the shared data. */
  datatype Effect =
    | Nothing
    | PopFront
    | DeleteFront
    | Free(p: Ptr)
    | Signal(p: Ptr)
    | BeginWork(p: Ptr)
    | EndWork(p: Ptr)
    | PostSem
    | WaitSem
    | Give(p: Ptr)
    | Refuse(p: Ptr)
    | Enqueue(p: Ptr)
    | SetId(p: Ptr, newId: int)
    | KeepFront
    | PutBack(p: Ptr)
    | Flag(p: Ptr)
    | Shut

  /** What a main-thread step does to the list of threads. */
  datatype ThreadOp = SameThreads | SpawnAll | Destroy(w: nat) | Forget

  function ApplyLock(locks: map<Lock, Thread>, op: LockOp, t: Thread): map<Lock, Thread> {
    match op
    case NoLock => locks
    case Take(l) => locks[l := t]
    case Drop(l) => locks - {l}
  }

  function Front(queue: seq<Ptr>): Option<Ptr> {
    if queue == [] then None else Some(queue[0])
  }

  function Tail(queue: seq<Ptr>): seq<Ptr> {
    if queue == [] then [] else queue[1..]
  }

  function Apply(d: Data, e: Effect, max: nat): Data {
    match e
    case Nothing => d
    case PopFront =>
      if d.queue == [] then d else d.(queue := d.queue[1..], popped := d.popped + [IdOf(d.ids, d.queue[0])])
    case DeleteFront =>
      if d.queue == [] then d else d.(queue := d.queue[1..], deleted := d.deleted + multiset{d.queue[0]})
    case Free(p) => d.(deleted := d.deleted + multiset{p})
    case Signal(p) => d.(completed := d.completed + [p])
    case BeginWork(p) => d.(work := d.work + [Begin(IdOf(d.ids, p))])
    case EndWork(p) => d.(work := d.work + [End(IdOf(d.ids, p))])
    case PostSem => if d.sem < max then d.(sem := d.sem + 1, posts := d.posts + 1) else d
    case WaitSem => if d.sem > 0 then d.(sem := d.sem - 1, waits := d.waits + 1) else d
    case Give(p) => d.(given := d.given + {p})
    case Refuse(p) => d.(given := d.given + {p}, deleted := d.deleted + multiset{p})
    case Enqueue(p) => d.(queue := d.queue + [p], nextId := d.nextId + 1)
    case SetId(p, id) => d.(ids := d.ids[p := id])
    case KeepFront => d.(queue := Tail(d.queue))
    case PutBack(p) => d.(queue := d.queue + [p])
    case Flag(p) => d.(cancelled := d.cancelled + {p})
    case Shut => d.(shutdown := true)
  }

  // ---------------------------------------------------------------- worker steps

  datatype WorkerMove = WorkerMove(pc: WorkerPc, running: Option<Ptr>, lock: LockOp, effect: Effect)

  function WorkerMoves(w: WorkerState, i: nat, queue: seq<Ptr>, choice: WorkChoice): WorkerMove {
    match w.pc
    case Test => WorkerMove(if w.destroy then LockCleanup else LockQueue, w.running, NoLock, Nothing)
    case LockQueue => WorkerMove(Pop, w.running, Take(QueueLock), Nothing)
    case Pop => WorkerMove(LockRun(Front(queue)), w.running, NoLock, PopFront)
    case LockRun(a) => WorkerMove(Publish(a), w.running, Take(RunLock(i)), Nothing)
    case Publish(a) => WorkerMove(UnlockQueue(a), a, Drop(RunLock(i)), Nothing)
    case UnlockQueue(a) => WorkerMove(Decide(a), w.running, Drop(QueueLock), Nothing)
    case Decide(a) =>
      var pc := if a.None? then Test else LeafWant(a.value, if w.destroy then EndPost(true) else StartMode);
      WorkerMove(pc, w.running, NoLock, Nothing)
    case LeafWant(p, leaf) => WorkerMove(LeafHeld(p, leaf), w.running, Take(LeafLock(p, leaf)), Nothing)
    case LeafHeld(p, leaf) => WorkerMove(AfterLeaf(p, leaf), w.running, Drop(LeafLock(p, leaf)), LeafEffect(p, leaf))
    case Working(p) =>
      (match choice
       case UseMutex => WorkerMove(LeafWant(p, WorkMutex), w.running, NoLock, Nothing)
       case PostEvent => WorkerMove(LeafWant(p, WorkPost), w.running, NoLock, Nothing)
       case Finish => WorkerMove(LeafWant(p, EndPost(false)), w.running, NoLock, EndWork(p)))
    case LockClear(p, exit) => WorkerMove(Delete(p, exit), w.running, Take(RunLock(i)), Nothing)
    case Delete(p, exit) => WorkerMove(Clear(p, exit), w.running, NoLock, Free(p))
    case Clear(p, exit) => WorkerMove(if exit then LockCleanup else Test, None, Drop(RunLock(i)), Nothing)
    case LockCleanup => WorkerMove(Cleanup, w.running, Take(QueueLock), Nothing)
    case Cleanup =>
      if queue == [] then WorkerMove(PostFinish, w.running, Drop(QueueLock), Nothing)
      else WorkerMove(Cleanup, w.running, NoLock, DeleteFront)
    case PostFinish => WorkerMove(Done, w.running, NoLock, PostSem)
    case Done => WorkerMove(Done, w.running, NoLock, Nothing)
  }

  function AfterLeaf(p: Ptr, leaf: Leaf): WorkerPc {
    match leaf
    case StartMode => LeafWant(p, StartPost)
    case StartPost | WorkMutex | WorkPost => Working(p)
    case EndPost(exit) => LockClear(p, exit)
  }

  function LeafEffect(p: Ptr, leaf: Leaf): Effect {
    if leaf.StartPost? then BeginWork(p) else if leaf.EndPost? then Signal(p) else Nothing
  }

  predicate WorkerCan(s: State, i: nat) {
    && i < |s.workers|
    && !s.workers[i].pc.Done?
    && LockFree(s.locks, WorkerWants(i, s.workers[i].pc))
  }

  predicate LockFree(locks: map<Lock, Thread>, want: Option<Lock>) {
    want.Some? ==> want.value !in locks
  }

  function WorkerNext(s: State, i: nat, choice: WorkChoice): State
    requires i < |s.workers|
  {
    var w := s.workers[i];
    var m := WorkerMoves(w, i, s.data.queue, choice);
    State(s.max, s.main, s.workers[i := WorkerState(m.pc, m.running, w.destroy)], s.base,
          ApplyLock(s.locks, m.lock, Worker(i)), Apply(s.data, m.effect, s.max))
  }

  // ---------------------------------------------------------------- main-thread steps

  datatype MainMove = MainMove(pc: MainPc, lock: LockOp, threads: ThreadOp, effect: Effect)

  function At(pc: MainPc): MainMove {
    MainMove(pc, NoLock, SameThreads, Nothing)
  }

  function Taking(pc: MainPc, l: Lock): MainMove {
    MainMove(pc, Take(l), SameThreads, Nothing)
  }

  function Dropping(pc: MainPc, l: Lock): MainMove {
    MainMove(pc, Drop(l), SameThreads, Nothing)
  }

  function Doing(pc: MainPc, e: Effect): MainMove {
    MainMove(pc, NoLock, SameThreads, e)
  }

  predicate MainCan(s: State, call: Call) {
    && LockFree(s.locks, MainWants(s))
    && (s.main.StopWait? ==> s.data.sem > 0)
    && (s.main.Idle? && call.CallQueue? ==> call.p !in s.data.given)
  }

  function FirstLeaf(op: Op): MainLeaf {
    if op.CancelOp? then ReadId else if op.StopOp? then SetFlag else ReadMode
  }

  function Begins(s: State, call: Call): MainMove {
    var stop := if s.base == |s.workers| then Idle else StopWant;
    match call
    case CallQueue(p) => if s.data.shutdown then Doing(Idle, Refuse(p)) else Doing(QueueWant(p), Give(p))
    case CallCancel(id) => At(CancelWant(id))
    case CallStopAll => At(stop)
    case CallShutdown => Doing(stop, Shut)
    case CallTick => At(Visit(TickOp, s.base))
    case CallHandlers => At(HandlerWant)
  }

  function MainMoves(s: State, call: Call): MainMove {
    var queue := s.data.queue;
    match s.main
    case Idle => Begins(s, call)
    case QueueWant(p) => Taking(QueuePush(p), QueueLock)
    case QueuePush(p) => Doing(SetIdWant(p, s.data.nextId), Enqueue(p))
    case SetIdWant(p, id) => Taking(SetIdHeld(p, id), ActionLock(p))
    case SetIdHeld(p, id) => MainMove(Spawn, Drop(ActionLock(p)), SameThreads, SetId(p, id))
    case Spawn => MainMove(Idle, Drop(QueueLock), if s.base == |s.workers| then SpawnAll else SameThreads, Nothing)
    case CancelWant(id) => Taking(CancelCheck(id), QueueLock)
    case CancelCheck(id) => if queue == [] then Dropping(Idle, QueueLock) else At(Scan(id, queue, []))
    case Scan(id, orig, checked) =>
      At(if queue == [] then Restore(id, orig, checked) else ScanWant(id, orig, checked, queue[0]))
    case ScanWant(id, orig, checked, p) => Taking(ScanHeld(id, orig, checked, p), ActionLock(p))
    case ScanHeld(id, orig, checked, p) =>
      if IdOf(s.data.ids, p) != id
      then MainMove(Scan(id, orig, checked + [p]), Drop(ActionLock(p)), SameThreads, KeepFront)
      else MainMove(Scan(id, orig, checked), Drop(ActionLock(p)), SameThreads, DeleteFront)
    case Restore(id, orig, checked) =>
      if checked == [] then At(Visit(CancelOp(id, orig), s.base))
      else Doing(Restore(id, orig, checked[1..]), PutBack(checked[0]))
    case Visit(op, w) =>
      if w < |s.workers| then Taking(RunHeld(op, w), RunLock(w))
      else if op.CancelOp? then Dropping(Idle, QueueLock)
      else At(if op.StopOp? then StopDelete(s.base) else Idle)
    case RunHeld(op, w) =>
      var running := if w < |s.workers| then s.workers[w].running else None;
      At(if running.None? then RunRelease(op, w) else RunLeafWant(op, w, running.value, FirstLeaf(op)))
    case RunLeafWant(op, w, p, leaf) => Taking(RunLeafHeld(op, w, p, leaf), MainLeafLock(p, leaf))
    case RunLeafHeld(op, w, p, leaf) =>
      MainMove(AfterMainLeaf(s.data.ids, op, w, p, leaf), Drop(MainLeafLock(p, leaf)), SameThreads,
               if leaf.SetFlag? then Flag(p) else Nothing)
    case RunRelease(op, w) => Dropping(Visit(op, w + 1), RunLock(w))
    case StopWant => Taking(Drain, QueueLock)
    case Drain => if queue == [] then Dropping(Visit(StopOp, s.base), QueueLock) else Doing(Drain, DeleteFront)
    case StopDelete(w) =>
      if w < |s.workers| then MainMove(StopWait(w), NoLock, Destroy(w), Nothing)
      else MainMove(Idle, NoLock, Forget, Nothing)
    case StopWait(w) => Doing(StopDelete(w + 1), WaitSem)
    case HandlerWant => Taking(HandlerHeld, HandlerLock)
    case HandlerHeld => Dropping(Idle, HandlerLock)
  }

  function AfterMainLeaf(ids: map<Ptr, int>, op: Op, w: nat, p: Ptr, leaf: MainLeaf): MainPc {
    match leaf
    case ReadId => if op.CancelOp? && IdOf(ids, p) == op.id then RunLeafWant(op, w, p, SetFlag) else RunRelease(op, w)
    case ReadMode => RunLeafWant(op, w, p, ReadPercent)
    case ReadPercent => RunLeafWant(op, w, p, PostProgress)
    case SetFlag | PostProgress => RunRelease(op, w)
  }

  function NewWorkers(n: nat): seq<WorkerState> {
    seq(n, _ => WorkerState(Test, None, false))
  }

  function ApplyThreads(workers: seq<WorkerState>, max: nat, op: ThreadOp): seq<WorkerState> {
    match op
    case SameThreads | Forget => workers
    case SpawnAll => workers + NewWorkers(max)
    case Destroy(w) => if w < |workers| then workers[w := workers[w].(destroy := true)] else workers
  }

  function MainNext(s: State, call: Call): State {
    var m := MainMoves(s, call);
    State(s.max, m.pc, ApplyThreads(s.workers, s.max, m.threads),
          if m.threads.Forget? then |s.workers| else s.base,
          ApplyLock(s.locks, m.lock, Main), Apply(s.data, m.effect, s.max))
  }

  // ---------------------------------------------------------------- runs

  predicate Can(s: State, e: Event) {
    match e
    case MainStep(call) => MainCan(s, call)
    case WorkerStep(i, _) => WorkerCan(s, i)
  }

  function Next(s: State, e: Event): State
    requires Can(s, e)
  {
    match e
    case MainStep(call) => MainNext(s, call)
    case WorkerStep(i, choice) => WorkerNext(s, i, choice)
  }

  ghost predicate Step(s: State, s': State) {
    exists e :: Can(s, e) && s' == Next(s, e)
  }

  ghost predicate StepAt(run: seq<State>, k: int)
    requires 1 <= k < |run|
  {
    Step(run[k - 1], run[k])
  }

  /** A run of a pool of at least one thread: it starts empty and every step is some thread's. */
  ghost predicate IsRun(run: seq<State>) {
    && run != []
    && run[0].max >= 1
    && run[0] == Init(run[0].max)
    && forall k :: 1 <= k < |run| ==> StepAt(run, k)
  }
}
