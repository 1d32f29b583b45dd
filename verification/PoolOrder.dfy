/**
  First in, first out: ids leave the queue in the order they were given out, and a pool of one
  thread runs its actions one after another in that order, across stops and restarts.
 */
module PoolOrder {
  import opened Pool
  import opened PoolLocks
  import opened PoolOwnership
  import opened PoolSafety
  import opened PoolStop

  /** The queue's actions in order, wherever CancelAction has put them for the moment. */
  function Line(s: State): seq<Ptr> {
    if s.main.Restore? then s.data.queue + Checked(s.main) else Checked(s.main) + s.data.queue
  }

  /** The ids as they will be once the action being numbered has its own. */
  function NewIds(s: State): map<Ptr, int> {
    match s.main
    case SetIdWant(p, id) => s.data.ids[p := id]
    case SetIdHeld(p, id) => s.data.ids[p := id]
    case _ => s.data.ids
  }

  /** The ids in the queue, front first. */
  function LineIds(s: State): seq<int> {
    Ids(NewIds(s), Line(s))
  }

  function Ids(ids: map<Ptr, int>, q: seq<Ptr>): (r: seq<int>)
    ensures |r| == |q| && forall k :: 0 <= k < |q| ==> r[k] == IdOf(ids, q[k])
  {
    if q == [] then [] else [IdOf(ids, q[0])] + Ids(ids, q[1..])
  }

  predicate Increasing(r: seq<int>) {
    forall j, k :: 0 <= j < k < |r| ==> r[j] < r[k]
  }

  ghost predicate Chain(popped: seq<int>, line: seq<int>, next: int) {
    Increasing(popped + line + [next])
  }

  /** All ids ever popped, then all ids still queued, then the next id: one increasing sequence. */
  ghost predicate Fifo(s: State) {
    Chain(s.data.popped, LineIds(s), s.data.nextId)
  }

  lemma ChainPop(popped: seq<int>, x: int, rest: seq<int>, next: int)
    requires Chain(popped, [x] + rest, next)
    ensures Chain(popped + [x], rest, next)
  {
    assert popped + ([x] + rest) + [next] == popped + [x] + rest + [next];
  }

  lemma ChainDrop(popped: seq<int>, a: seq<int>, x: int, b: seq<int>, next: int)
    requires Chain(popped, a + [x] + b, next)
    ensures Chain(popped, a + b, next)
  {
    var q := popped + (a + [x] + b) + [next];
    var r := popped + (a + b) + [next];
    var n := |popped| + |a|;
    forall j, k | 0 <= j < k < |r| ensures r[j] < r[k] {
      assert r[j] == q[if j < n then j else j + 1];
      assert r[k] == q[if k < n then k else k + 1];
    }
  }

  lemma ChainPush(popped: seq<int>, line: seq<int>, next: int)
    requires Chain(popped, line, next)
    ensures Chain(popped, line + [next], next + 1)
  {
    var q := popped + line + [next];
    var r := popped + (line + [next]) + [next + 1];
    assert r == q + [next + 1];
    forall j, k | 0 <= j < k < |r| ensures r[j] < r[k] {
      if k == |q| && j < |q| - 1 {
        assert q[j] < q[|q| - 1];
      }
    }
  }

  lemma IdsConcat(ids: map<Ptr, int>, a: seq<Ptr>, b: seq<Ptr>)
    ensures Ids(ids, a + b) == Ids(ids, a) + Ids(ids, b)
  {
  }

  /** Giving p its id changes the ids of a queue without p in no way. */
  lemma IdsOfOthers(ids: map<Ptr, int>, p: Ptr, id: int, q: seq<Ptr>)
    requires p !in q
    ensures Ids(ids[p := id], q) == Ids(ids, q)
  {
  }

  /** Dropping one action leaves the other ids in order. */
  lemma DropKeepsChain(d: Data, front: seq<Ptr>, p: Ptr, back: seq<Ptr>)
    requires Chain(d.popped, Ids(d.ids, front + ([p] + back)), d.nextId)
    ensures Chain(d.popped, Ids(d.ids, front + back), d.nextId)
  {
    IdsConcat(d.ids, front, [p] + back);
    IdsConcat(d.ids, [p], back);
    IdsConcat(d.ids, front, back);
    assert Ids(d.ids, front) + ([IdOf(d.ids, p)] + Ids(d.ids, back)) == Ids(d.ids, front) + [IdOf(d.ids, p)] + Ids(d.ids, back);
    ChainDrop(d.popped, Ids(d.ids, front), IdOf(d.ids, p), Ids(d.ids, back), d.nextId);
  }

  /** Popping or deleting the front of a queue keeps the chain. */
  lemma TakesFront(d: Data, e: Effect, max: nat)
    requires Chain(d.popped, Ids(d.ids, d.queue), d.nextId) && d.queue != [] && (e.PopFront? || e.DeleteFront?)
    ensures var d' := Apply(d, e, max); Chain(d'.popped, Ids(d.ids, d'.queue), d.nextId)
  {
    var x := d.queue[0];
    var rest := d.queue[1..];
    if e.PopFront? {
      assert Ids(d.ids, d.queue) == [IdOf(d.ids, x)] + Ids(d.ids, rest);
      ChainPop(d.popped, IdOf(d.ids, x), Ids(d.ids, rest), d.nextId);
    } else {
      assert [] + ([x] + rest) == d.queue;
      DropKeepsChain(d, [], x, rest);
      assert [] + rest == rest;
    }
  }

  lemma WorkerKeepsFifo(s: State, i: nat, c: WorkChoice)
    requires Locks(s) && WorkerCan(s, i) && Fifo(s)
    ensures Fifo(WorkerNext(s, i, c))
  {
    var s' := WorkerNext(s, i, c);
    var m := WorkerMoves(s.workers[i], i, s.data.queue, c);
    WorkerKeepsIds(s, i, c);
    WorkerHandLocal(s.workers[i], i, s.data.queue, c);
    assert s'.data.nextId == s.data.nextId;
    if QueueLock in MainHolds(s.main) {
      WorkerLeavesQueue(s, i, c);
      assert s'.data.popped == s.data.popped;
    } else if s.data.queue != [] && (m.effect.PopFront? || m.effect.DeleteFront?) {
      assert Checked(s.main) == [] && NewIds(s) == NewIds(s') == s.data.ids;
      assert Line(s) == s.data.queue && Line(s') == s'.data.queue;
      TakesFront(s.data, m.effect, s.max);
    }
  }

  /** The action being numbered is nowhere else in the queue. */
  lemma LastIsNew(s: State)
    requires Conserved(s) && Targets(s) && s.main.SetIdHeld?
    ensures s.main.p !in s.data.queue[..|s.data.queue| - 1]
    ensures forall i {:trigger s.workers[i]} :: 0 <= i < |s.workers| ==> Hand(s.workers[i].pc) != Some(s.main.p)
  {
    var p := s.main.p;
    var q := s.data.queue[..|s.data.queue| - 1];
    assert Places(s, p) == One(p in s.data.given);
    if p in q {
      var k :| 0 <= k < |q| && q[k] == p;
      QueueCounts(q, k);
    }
    QueueCounts(s.data.queue, |s.data.queue| - 1);
    forall i | 0 <= i < |s.workers| ensures Hand(s.workers[i].pc) != Some(p) {
      if Hand(s.workers[i].pc) == Some(p) {
        HandCounts(s.workers, i, p);
        assert false;
      }
    }
  }

  /** Pushing p and numbering it appends the next id. */
  lemma PushKeepsChain(d: Data, p: Ptr)
    requires p !in d.queue && Chain(d.popped, Ids(d.ids, d.queue), d.nextId)
    ensures Chain(d.popped, Ids(d.ids[p := d.nextId], d.queue + [p]), d.nextId + 1)
  {
    IdsOfOthers(d.ids, p, d.nextId, d.queue);
    IdsConcat(d.ids[p := d.nextId], d.queue, [p]);
    assert Ids(d.ids[p := d.nextId], [p]) == [d.nextId];
    ChainPush(d.popped, Ids(d.ids, d.queue), d.nextId);
  }

  lemma MainPushes(s: State, c: Call)
    requires Conserved(s) && Fifo(s) && s.main.QueuePush?
    ensures Fifo(MainNext(s, c))
  {
    var s' := MainNext(s, c);
    var p := s.main.p;
    NotQueuedYet(s);
    assert Line(s) == s.data.queue;
    PushKeepsChain(s.data, p);
    assert Line(s') == s.data.queue + [p];
    assert NewIds(s') == s.data.ids[p := s.data.nextId];
  }

  lemma NotQueuedYet(s: State)
    requires Conserved(s) && s.main.QueuePush?
    ensures s.main.p !in s.data.queue
  {
    var p := s.main.p;
    assert Places(s, p) == One(p in s.data.given);
    if p in s.data.queue {
      var k :| 0 <= k < |s.data.queue| && s.data.queue[k] == p;
      QueueCounts(s.data.queue, k);
      assert false;
    }
  }

  lemma MainDropsFront(s: State, c: Call)
    requires Scanning(s) && Fifo(s) && MainCan(s, c) && s.data.queue != []
    requires s.main.Drain? || (s.main.ScanHeld? && IdOf(s.data.ids, s.main.p) == s.main.id)
    ensures Fifo(MainNext(s, c))
  {
    var s' := MainNext(s, c);
    var d := s.data;
    assert d.queue == [d.queue[0]] + d.queue[1..];
    DropKeepsChain(d, Checked(s.main), d.queue[0], d.queue[1..]);
    assert Line(s') == Checked(s.main) + d.queue[1..];
  }

  lemma MainKeepsFifo(s: State, c: Call)
    requires Conserved(s) && Scanning(s) && Fifo(s) && MainCan(s, c)
    ensures Fifo(MainNext(s, c))
  {
    if s.main.QueuePush? {
      MainPushes(s, c);
    } else if s.data.queue != [] && (s.main.Drain? || (s.main.ScanHeld? && IdOf(s.data.ids, s.main.p) == s.main.id)) {
      MainDropsFront(s, c);
    } else {
      MainKeepsLine(s, c);
      MainKeepsNewIds(s, c);
    }
  }

  lemma MainKeepsNewIds(s: State, c: Call)
    requires !s.main.QueuePush?
    ensures var s' := MainNext(s, c);
      NewIds(s') == NewIds(s) && s'.data.popped == s.data.popped && s'.data.nextId == s.data.nextId
  {
    var m := MainMoves(s, c);
    if s.main.SetIdWant? || s.main.SetIdHeld? {
    } else {
      assert !m.pc.SetIdWant? && !m.pc.SetIdHeld? && !m.effect.SetId?;
      assert !m.effect.Enqueue? && !m.effect.PopFront?;
    }
  }

  lemma MainKeepsLine(s: State, c: Call)
    requires MainCan(s, c) && Scanning(s) && !s.main.QueuePush?
    requires s.main.Drain? ==> s.data.queue == []
    requires s.main.ScanHeld? ==> IdOf(s.data.ids, s.main.p) != s.main.id
    ensures Line(MainNext(s, c)) == Line(s)
  {
    var s' := MainNext(s, c);
    var q := s.data.queue;
    if s.main.Restore? {
      MainRestoresLine(s, c);
    } else if s.main.ScanHeld? {
      assert s.main.checked + q == (s.main.checked + [q[0]]) + q[1..];
    } else {
      MainTouchesNoLine(s, c);
      if s'.main.Restore? {
        assert q == [];
        assert Line(s') == [] + Checked(s.main) == Checked(s.main) == Checked(s.main) + [];
      }
    }
  }

  lemma MainRestoresLine(s: State, c: Call)
    requires s.main.Restore?
    ensures Line(MainNext(s, c)) == Line(s)
  {
    var q := s.data.queue;
    var checked := s.main.checked;
    if checked == [] {
      assert q + [] == q == [] + q;
    } else {
      assert q + checked == (q + [checked[0]]) + checked[1..];
    }
  }

  lemma MainTouchesNoLine(s: State, c: Call)
    requires !s.main.QueuePush? && !s.main.ScanHeld? && !s.main.Restore?
    requires s.main.Drain? ==> s.data.queue == []
    ensures var s' := MainNext(s, c); s'.data.queue == s.data.queue && Checked(s'.main) == Checked(s.main)
    ensures MainNext(s, c).main.Restore? ==> s.data.queue == []
  {
    var m := MainMoves(s, c);
    assert !m.effect.DeleteFront? && !m.effect.KeepFront? && !m.effect.PutBack?;
    assert !m.effect.Enqueue? && !m.effect.PopFront?;
    assert Checked(m.pc) == Checked(s.main);
  }

  // ---------------------------------------------------------------- one thread

  /** Begin(x), End(x), Begin(y), End(y), ... with x < y < ...; the last call may still be running. */
  predicate OneAtATime(work: seq<WorkMark>) {
    && (forall k {:trigger work[k]} :: 0 <= k < |work| ==> if k % 2 == 0 then work[k].Begin? else work[k] == End(work[k - 1].id))
    && (forall j, k :: 0 <= j < k < |work| && j % 2 == 0 && k % 2 == 0 ==> work[j].id < work[k].id)
  }

  datatype Phase = Off | Fresh | Busy

  /** Before its action's BackgroundWork, inside it, or neither. */
  function PhaseOf(pc: WorkerPc): Phase {
    match pc
    case LockRun(a) => if a.Some? then Fresh else Off
    case Publish(a) => if a.Some? then Fresh else Off
    case UnlockQueue(a) => if a.Some? then Fresh else Off
    case Decide(a) => if a.Some? then Fresh else Off
    case LeafWant(_, leaf) => if leaf.StartMode? || leaf.StartPost? then Fresh else if leaf.EndPost? then Off else Busy
    case LeafHeld(_, leaf) => if leaf.StartMode? || leaf.StartPost? then Fresh else if leaf.EndPost? then Off else Busy
    case Working(_) => Busy
    case _ => Off
  }

  ghost predicate AllBelow(work: seq<WorkMark>, bound: int) {
    forall k {:trigger work[k]} :: 0 <= k < |work| ==> work[k].id < bound
  }

  ghost predicate PhaseOk(d: Data, pc: WorkerPc) {
    match PhaseOf(pc)
    case Off => |d.work| % 2 == 0
    case Fresh =>
      && |d.work| % 2 == 0
      && d.popped != [] && IdOf(d.ids, Hand(pc).value) == d.popped[|d.popped| - 1]
      && AllBelow(d.work, d.popped[|d.popped| - 1])
    case Busy => |d.work| % 2 == 1 && d.work[|d.work| - 1] == Begin(IdOf(d.ids, Hand(pc).value))
  }

  /** With one thread: at most one worker has not left, and the log of BackgroundWork calls fits its position. */
  ghost predicate Serial(s: State) {
    s.max == 1 ==>
      && LogOk(s.data)
      && (s.base == |s.workers| ==> |s.data.work| % 2 == 0)
      && (s.base < |s.workers| ==> PhaseOk(s.data, s.workers[s.base].pc))
  }

  /** How a worker's effect and its change of phase go together. */
  ghost predicate PhaseStep(from: WorkerPc, m: WorkerMove, queue: seq<Ptr>) {
    match m.effect
    case PopFront => from.Pop? && m.pc == LockRun(Front(queue))
    case BeginWork(p) => PhaseOf(from) == Fresh && PhaseOf(m.pc) == Busy && Hand(from) == Hand(m.pc) == Some(p)
    case EndWork(p) => PhaseOf(from) == Busy && PhaseOf(m.pc) == Off && Hand(from) == Some(p)
    case Nothing => (PhaseOf(m.pc) == PhaseOf(from) && Hand(m.pc) == Hand(from)) || (PhaseOf(from) == Fresh && PhaseOf(m.pc) == Off)
    case Free(_) | Signal(_) | DeleteFront | PostSem => PhaseOf(from) == PhaseOf(m.pc) == Off
    case _ => false
  }

  lemma WorkerPhaseLocal(w: WorkerState, i: nat, queue: seq<Ptr>, c: WorkChoice)
    ensures PhaseStep(w.pc, WorkerMoves(w, i, queue, c), queue)
  {
  }

  lemma LogGrows(work: seq<WorkMark>, mark: WorkMark)
    requires OneAtATime(work)
    requires |work| % 2 == 0 ==> mark.Begin? && AllBelow(work, mark.id)
    requires |work| % 2 == 1 ==> mark == End(work[|work| - 1].id)
    ensures OneAtATime(work + [mark])
  {
  }

  lemma FrontAboveLast(s: State, i: nat)
    requires Locks(s) && Fifo(s) && i < |s.workers| && s.workers[i].pc.Pop?
    ensures var d := s.data; d.queue != [] && d.popped != [] ==> d.popped[|d.popped| - 1] < IdOf(d.ids, d.queue[0])
  {
    var d := s.data;
    if d.queue != [] && d.popped != [] {
      assert QueueLock in Holds(s, Worker(i));
      assert QueueLock !in Holds(s, Main);
      assert Line(s) == d.queue && NewIds(s) == d.ids;
      var r := d.popped + LineIds(s) + [d.nextId];
      assert r[|d.popped| - 1] < r[|d.popped|];
    }
  }

  lemma WorkerKeepsSerial(s: State, i: nat, c: WorkChoice)
    requires Locks(s) && WorkerCan(s, i) && Handshake(s) && Fifo(s) && Serial(s)
    ensures Serial(WorkerNext(s, i, c))
  {
    if s.max == 1 {
      assert i == s.base;
      var w := s.workers[i];
      var m := WorkerMoves(w, i, s.data.queue, c);
      WorkerPhaseLocal(w, i, s.data.queue, c);
      WorkerKeepsIds(s, i, c);
      if w.pc.Pop? {
        FrontAboveLast(s, i);
      }
      WorkerDataSerial(s.data, s.max, w.pc, m);
    }
  }

  ghost predicate LogOk(d: Data) {
    OneAtATime(d.work) && if d.popped == [] then d.work == [] else AllBelow(d.work, d.popped[|d.popped| - 1] + 1)
  }

  /** The heart of WorkerKeepsSerial: what a worker's effect does to the log. */
  lemma WorkerDataSerial(d: Data, max: nat, from: WorkerPc, m: WorkerMove)
    requires LogOk(d) && PhaseOk(d, from) && PhaseStep(from, m, d.queue)
    requires from.Pop? && d.queue != [] && d.popped != [] ==> d.popped[|d.popped| - 1] < IdOf(d.ids, d.queue[0])
    ensures LogOk(Apply(d, m.effect, max)) && PhaseOk(Apply(d, m.effect, max), m.pc)
  {
    if m.effect.BeginWork? {
      BeginsWork(d, m.effect.p);
    } else if m.effect.EndWork? {
      EndsWork(d, m.effect.p);
    } else if m.effect.PopFront? {
      if d.queue != [] {
        PopsAbove(d, max);
      }
    } else {
      OtherEffects(d, max, from, m);
    }
  }

  lemma EndsWork(d: Data, p: Ptr)
    requires LogOk(d) && |d.work| % 2 == 1 && d.work[|d.work| - 1] == Begin(IdOf(d.ids, p))
    ensures var d' := d.(work := d.work + [End(IdOf(d.ids, p))]); LogOk(d') && |d'.work| % 2 == 0
  {
    LogGrows(d.work, End(IdOf(d.ids, p)));
  }

  lemma OtherEffects(d: Data, max: nat, from: WorkerPc, m: WorkerMove)
    requires LogOk(d) && PhaseOk(d, from) && PhaseStep(from, m, d.queue)
    requires !m.effect.BeginWork? && !m.effect.EndWork? && !m.effect.PopFront?
    ensures LogOk(Apply(d, m.effect, max)) && PhaseOk(Apply(d, m.effect, max), m.pc)
  {
    var d' := Apply(d, m.effect, max);
    assert d'.work == d.work && d'.popped == d.popped && d'.ids == d.ids;
  }

  lemma BeginsWork(d: Data, p: Ptr)
    requires LogOk(d) && d.popped != [] && |d.work| % 2 == 0 && IdOf(d.ids, p) == d.popped[|d.popped| - 1]
    requires AllBelow(d.work, d.popped[|d.popped| - 1])
    ensures LogOk(d.(work := d.work + [Begin(IdOf(d.ids, p))]))
  {
    LogGrows(d.work, Begin(IdOf(d.ids, p)));
  }

  lemma PopsAbove(d: Data, max: nat)
    requires LogOk(d) && d.queue != []
    requires d.popped != [] ==> d.popped[|d.popped| - 1] < IdOf(d.ids, d.queue[0])
    ensures var d' := Apply(d, PopFront, max); LogOk(d') && AllBelow(d'.work, d'.popped[|d'.popped| - 1])
  {
  }

  lemma MainKeepsLog(s: State, c: Call)
    ensures var d' := MainNext(s, c).data; d'.work == s.data.work && d'.popped == s.data.popped
    ensures !s.main.SetIdHeld? ==> MainNext(s, c).data.ids == s.data.ids
  {
    var m := MainMoves(s, c);
    assert !m.effect.BeginWork? && !m.effect.EndWork? && !m.effect.PopFront?;
    assert !s.main.SetIdHeld? ==> !m.effect.SetId?;
  }

  lemma MainNumbersSerial(s: State, c: Call)
    requires Handshake(s) && Conserved(s) && Targets(s) && Serial(s) && s.main.SetIdHeld?
    ensures Serial(MainNext(s, c))
  {
    var s' := MainNext(s, c);
    MainKeepsLog(s, c);
    LastIsNew(s);
    if s.max == 1 && s.base < |s.workers| {
      var pc := s.workers[s.base].pc;
      assert Hand(pc) != Some(s.main.p);
      assert PhaseOk(s'.data, pc);
    }
  }

  lemma MainKeepsSerial(s: State, c: Call)
    requires MainCan(s, c) && Handshake(s) && Conserved(s) && Targets(s) && Serial(s)
    ensures Serial(MainNext(s, c))
  {
    if s.main.SetIdHeld? {
      MainNumbersSerial(s, c);
    } else {
      MainKeepsLog(s, c);
      MainThreadsSerial(s, c);
    }
  }

  lemma MainThreadsSerial(s: State, c: Call)
    requires MainCan(s, c) && Handshake(s) && Serial(s)
    requires var d' := MainNext(s, c).data; d'.work == s.data.work && d'.popped == s.data.popped && d'.ids == s.data.ids
    ensures Serial(MainNext(s, c))
  {
    var s' := MainNext(s, c);
    if s.main.Spawn? || s.main.StopDelete? {
    } else {
      assert MainMoves(s, c).threads.SameThreads?;
      assert s'.workers == s.workers && s'.base == s.base && s'.max == s.max;
    }
  }
}
