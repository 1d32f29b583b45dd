/**
  Ownership in the pool: every action ever passed to Queue is, at every moment, in exactly one
  place, and a deleted action is never used again.
 */
module PoolOwnership {
  import opened Pool
  import opened PoolLocks

  // ---------------------------------------------------------------- where actions are

  /** The action a worker is responsible for: from taking it off the queue until deleting it. */
  function Hand(pc: WorkerPc): Option<Ptr> {
    match pc
    case LockRun(a) => a
    case Publish(a) => a
    case UnlockQueue(a) => a
    case Decide(a) => a
    case LeafWant(p, _) => Some(p)
    case LeafHeld(p, _) => Some(p)
    case Working(p) => Some(p)
    case LockClear(p, _) => Some(p)
    case Delete(p, _) => Some(p)
    case _ => None
  }

  function One(b: bool): nat {
    if b then 1 else 0
  }

  function Count(q: seq<Ptr>, p: Ptr): nat {
    if q == [] then 0 else Count(q[..|q| - 1], p) + One(q[|q| - 1] == p)
  }

  /** How many workers have `p` in their hands. */
  function HandCount(workers: seq<WorkerState>, p: Ptr): nat {
    if workers == [] then 0
    else HandCount(workers[..|workers| - 1], p) + One(Hand(workers[|workers| - 1].pc) == Some(p))
  }

  /** The action Queue was called with but has not pushed yet. */
  function MainHand(pc: MainPc): Option<Ptr> {
    match pc
    case QueueWant(p) => Some(p)
    case QueuePush(p) => Some(p)
    case _ => None
  }

  /** CancelAction's local queue of actions it keeps. */
  function Checked(pc: MainPc): seq<Ptr> {
    match pc
    case Scan(_, _, checked) => checked
    case ScanWant(_, _, checked, _) => checked
    case ScanHeld(_, _, checked, _) => checked
    case Restore(_, _, checked) => checked
    case _ => []
  }

  /** In how many places `p` is: the queue, CancelAction's local queue, a thread's hands, the deleted ones. */
  function Places(s: State, p: Ptr): nat {
    Count(s.data.queue, p) + Count(Checked(s.main), p) + One(MainHand(s.main) == Some(p))
    + HandCount(s.workers, p) + s.data.deleted[p]
  }

  /** Every action given to the pool is in exactly one place, once; any other is in none. */
  ghost predicate Conserved(s: State) {
    forall p {:trigger Places(s, p)} :: Places(s, p) == One(p in s.data.given)
  }

  // ---------------------------------------------------------------- CancelAction's two loops

  /** The actions CancelAction(id) leaves in the queue. */
  function Keep(queue: seq<Ptr>, ids: map<Ptr, int>, id: int): seq<Ptr> {
    if queue == [] then []
    else
      var front := queue[..|queue| - 1];
      var last := queue[|queue| - 1];
      Keep(front, ids, id) + (if IdOf(ids, last) != id then [last] else [])
  }

  ghost predicate ScanInv(d: Data, id: int, orig: seq<Ptr>, checked: seq<Ptr>) {
    && |d.queue| <= |orig|
    && d.queue == orig[|orig| - |d.queue|..]
    && checked == Keep(orig[..|orig| - |d.queue|], d.ids, id)
  }

  /** The operation the main thread walks over the workers with, if it does. */
  function WalkOp(pc: MainPc): Option<Op> {
    match pc
    case Visit(op, _) => Some(op)
    case RunHeld(op, _) => Some(op)
    case RunLeafWant(op, _, _, _) => Some(op)
    case RunLeafHeld(op, _, _, _) => Some(op)
    case RunRelease(op, _) => Some(op)
    case _ => None
  }

  /** How far CancelAction got with the queue it found. */
  ghost predicate Scanning(s: State) {
    match s.main
    case Scan(id, orig, checked) => ScanInv(s.data, id, orig, checked)
    case ScanWant(id, orig, checked, p) => ScanInv(s.data, id, orig, checked) && Front(s.data.queue) == Some(p)
    case ScanHeld(id, orig, checked, p) => ScanInv(s.data, id, orig, checked) && Front(s.data.queue) == Some(p)
    case Restore(id, orig, checked) => s.data.queue + checked == Keep(orig, s.data.ids, id)
    case _ =>
      var op := WalkOp(s.main);
      op.Some? && op.value.CancelOp? ==> s.data.queue == Keep(op.value.orig, s.data.ids, op.value.id)
  }

  /** While the main thread holds the queue mutex no worker touches the queue. */
  lemma WorkerLeavesQueue(s: State, i: nat, c: WorkChoice)
    requires Locks(s) && WorkerCan(s, i) && QueueLock in MainHolds(s.main)
    ensures WorkerNext(s, i, c).data.queue == s.data.queue
  {
    assert QueueLock in Holds(s, Main);
    assert QueueLock !in Holds(s, Worker(i));
  }

  lemma WorkerKeepsIds(s: State, i: nat, c: WorkChoice)
    requires i < |s.workers|
    ensures WorkerNext(s, i, c).data.ids == s.data.ids
  {
    var m := WorkerMoves(s.workers[i], i, s.data.queue, c);
    assert !m.effect.SetId?;
  }

  lemma WorkerKeepsScanning(s: State, i: nat, c: WorkChoice)
    requires Locks(s) && WorkerCan(s, i) && Scanning(s)
    ensures Scanning(WorkerNext(s, i, c))
  {
    WorkerKeepsIds(s, i, c);
    if QueueLock in MainHolds(s.main) {
      WorkerLeavesQueue(s, i, c);
    }
  }

  lemma ScanStep(d: Data, id: int, orig: seq<Ptr>, checked: seq<Ptr>, p: Ptr)
    requires ScanInv(d, id, orig, checked) && Front(d.queue) == Some(p)
    ensures ScanInv(d.(queue := d.queue[1..]), id, orig, if IdOf(d.ids, p) != id then checked + [p] else checked)
  {
    var k := |orig| - |d.queue|;
    assert orig[k] == p;
    assert orig[..k + 1][..k] == orig[..k];
  }

  lemma MainStartsScan(s: State, c: Call)
    requires MainCan(s, c) && Scanning(s)
    requires s.main.CancelCheck? || s.main.Scan? || s.main.ScanWant?
    ensures Scanning(MainNext(s, c))
  {
    match s.main
    case CancelCheck(id) => assert s.data.queue[..0] == [];
    case Scan(id, orig, checked) => assert s.data.queue == [] ==> orig[..|orig|] == orig;
    case ScanWant(_, _, _, _) =>
  }

  lemma MainScans(s: State, c: Call)
    requires MainCan(s, c) && Scanning(s) && s.main.ScanHeld?
    ensures Scanning(MainNext(s, c))
  {
    var ScanHeld(id, orig, checked, p) := s.main;
    ScanStep(s.data, id, orig, checked, p);
    var m := MainMoves(s, c);
    var d := Apply(s.data, m.effect, s.max);
    assert d.queue == s.data.queue[1..] && d.ids == s.data.ids;
    assert ScanInv(d, id, orig, m.pc.checked);
  }

  lemma MainRestores(s: State, c: Call)
    requires MainCan(s, c) && Scanning(s) && s.main.Restore?
    ensures Scanning(MainNext(s, c))
  {
    var checked := s.main.checked;
    if checked == [] {
      assert s.data.queue + checked == s.data.queue;
    } else {
      assert s.data.queue + checked == (s.data.queue + [checked[0]]) + checked[1..];
    }
  }

  lemma MainWalks(s: State, c: Call)
    requires MainCan(s, c) && Scanning(s) && WalkOp(s.main).Some?
    ensures Scanning(MainNext(s, c))
    ensures var next := WalkOp(MainMoves(s, c).pc); next.Some? ==> next == WalkOp(s.main)
  {
  }

  lemma MainKeepsScanning(s: State, c: Call)
    requires MainCan(s, c) && Scanning(s)
    ensures Scanning(MainNext(s, c))
  {
    if s.main.CancelCheck? || s.main.Scan? || s.main.ScanWant? {
      MainStartsScan(s, c);
    } else if s.main.ScanHeld? {
      MainScans(s, c);
    } else if s.main.Restore? {
      MainRestores(s, c);
    } else if WalkOp(s.main).Some? {
      MainWalks(s, c);
    } else {
      var pc := MainMoves(s, c).pc;
      assert !pc.Scan? && !pc.ScanWant? && !pc.ScanHeld? && !pc.Restore?;
      assert WalkOp(pc).Some? ==> !WalkOp(pc).value.CancelOp?;
    }
  }

  // ---------------------------------------------------------------- conservation

  lemma {:induction false} CountTail(q: seq<Ptr>, p: Ptr)
    requires q != []
    ensures Count(q, p) == One(q[0] == p) + Count(q[1..], p)
  {
    if |q| > 1 {
      CountTail(q[..|q| - 1], p);
      assert q[..|q| - 1][1..] == q[1..][..|q| - 2];
    }
  }

  lemma CountPush(q: seq<Ptr>, x: Ptr, p: Ptr)
    ensures Count(q + [x], p) == Count(q, p) + One(x == p)
  {
    assert (q + [x])[..|q|] == q;
  }

  lemma {:induction false} HandCountUpdate(workers: seq<WorkerState>, i: nat, w: WorkerState, p: Ptr)
    requires i < |workers|
    ensures HandCount(workers[i := w], p) + One(Hand(workers[i].pc) == Some(p))
         == HandCount(workers, p) + One(Hand(w.pc) == Some(p))
  {
    var n := |workers| - 1;
    if i < n {
      HandCountUpdate(workers[..n], i, w, p);
      assert workers[i := w][..n] == workers[..n][i := w];
    } else {
      assert workers[i := w][..n] == workers[..n];
    }
  }

  lemma {:induction false} HandCountAppend(workers: seq<WorkerState>, n: nat, p: Ptr)
    ensures HandCount(workers + NewWorkers(n), p) == HandCount(workers, p)
  {
    if n == 0 {
      assert workers + NewWorkers(n) == workers;
    } else {
      HandCountAppend(workers, n - 1, p);
      assert (workers + NewWorkers(n))[..|workers| + n - 1] == workers + NewWorkers(n - 1);
    }
  }

  /** What a worker's move does to its hand depends only on its effect. */
  lemma WorkerHandLocal(w: WorkerState, i: nat, queue: seq<Ptr>, c: WorkChoice)
    ensures var m := WorkerMoves(w, i, queue, c);
      match m.effect
      case PopFront => Hand(w.pc) == None && Hand(m.pc) == Front(queue)
      case Free(p) => Hand(w.pc) == Some(p) && Hand(m.pc) == None
      case Nothing | DeleteFront | Signal(_) | BeginWork(_) | EndWork(_) | PostSem => Hand(m.pc) == Hand(w.pc)
      case _ => false
  {
  }

  lemma WorkerConserves(s: State, i: nat, c: WorkChoice)
    requires i < |s.workers| && Conserved(s)
    ensures Conserved(WorkerNext(s, i, c))
  {
    var s' := WorkerNext(s, i, c);
    var w := s.workers[i];
    var m := WorkerMoves(w, i, s.data.queue, c);
    WorkerHandLocal(w, i, s.data.queue, c);
    forall p ensures Places(s', p) == One(p in s'.data.given) {
      assert Places(s, p) == One(p in s.data.given);
      HandCountUpdate(s.workers, i, WorkerState(m.pc, m.running, w.destroy), p);
      if s.data.queue != [] {
        CountTail(s.data.queue, p);
      }
    }
  }

  /** What a main-thread move does to its hands depends only on its effect. */
  lemma MainHandLocal(s: State, c: Call)
    requires Scanning(s) && MainCan(s, c)
    ensures var m := MainMoves(s, c);
      match m.effect
      case Give(p) => p !in s.data.given && MainHand(s.main) == None && MainHand(m.pc) == Some(p) && Checked(m.pc) == Checked(s.main) == []
      case Refuse(p) => p !in s.data.given && MainHand(s.main) == None && MainHand(m.pc) == None && Checked(m.pc) == Checked(s.main) == []
      case Enqueue(p) => MainHand(s.main) == Some(p) && MainHand(m.pc) == None && Checked(m.pc) == Checked(s.main) == []
      case KeepFront => MainHand(m.pc) == MainHand(s.main) == None && s.data.queue != [] && Checked(m.pc) == Checked(s.main) + [s.data.queue[0]]
      case PutBack(p) => MainHand(m.pc) == MainHand(s.main) == None && Checked(s.main) == [p] + Checked(m.pc)
      case DeleteFront | Nothing | WaitSem | SetId(_, _) | Flag(_) | Shut =>
        MainHand(m.pc) == MainHand(s.main) && Checked(m.pc) == Checked(s.main)
      case _ => false
  {
  }

  lemma ThreadsKeepHands(workers: seq<WorkerState>, max: nat, op: ThreadOp, p: Ptr)
    ensures HandCount(ApplyThreads(workers, max, op), p) == HandCount(workers, p)
  {
    if op.SpawnAll? {
      HandCountAppend(workers, max, p);
    } else if op.Destroy? && op.w < |workers| {
      HandCountUpdate(workers, op.w, workers[op.w].(destroy := true), p);
    }
  }

  lemma MainConserves(s: State, c: Call)
    requires Scanning(s) && MainCan(s, c) && Conserved(s)
    ensures Conserved(MainNext(s, c))
  {
    var s' := MainNext(s, c);
    var m := MainMoves(s, c);
    MainHandLocal(s, c);
    forall p ensures Places(s', p) == One(p in s'.data.given) {
      assert Places(s, p) == One(p in s.data.given);
      ThreadsKeepHands(s.workers, s.max, m.threads, p);
      EffectConserves(s, m, p);
    }
  }

  /** The counting behind MainConserves, for one action. */
  lemma EffectConserves(s: State, m: MainMove, p: Ptr)
    requires m.effect.KeepFront? ==> s.data.queue != []
    ensures var d := s.data; var d' := Apply(d, m.effect, s.max);
      match m.effect
      case DeleteFront => Count(d'.queue, p) + d'.deleted[p] == Count(d.queue, p) + d.deleted[p]
      case KeepFront =>
        Count(d.queue, p) == Count(d'.queue, p) + One(d.queue[0] == p)
        && forall q :: Count(q + [d.queue[0]], p) == Count(q, p) + One(d.queue[0] == p)
      case PutBack(x) =>
        Count(d'.queue, p) == Count(d.queue, p) + One(x == p)
        && forall q :: Count([x] + q, p) == Count(q, p) + One(x == p)
      case Enqueue(x) => Count(d'.queue, p) == Count(d.queue, p) + One(x == p)
      case _ => true
  {
    var d := s.data;
    match m.effect
    case DeleteFront => if d.queue != [] { CountTail(d.queue, p); }
    case KeepFront =>
      CountTail(d.queue, p);
      forall q ensures Count(q + [d.queue[0]], p) == Count(q, p) + One(d.queue[0] == p) {
        CountPush(q, d.queue[0], p);
      }
    case PutBack(x) =>
      CountPush(d.queue, x, p);
      forall q ensures Count([x] + q, p) == Count(q, p) + One(x == p) {
        CountTail([x] + q, p);
        assert ([x] + q)[1..] == q;
      }
    case Enqueue(x) => CountPush(d.queue, x, p);
    case _ =>
  }
}
