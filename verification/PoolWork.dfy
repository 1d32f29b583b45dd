/**
  Which actions the workers work on: none that a worker has in its hands when it looks whether it has
  been told to exit and has, and every other one.
 */
module PoolWork {
  import opened Pool
  import opened PoolOwnership
  import opened PoolSafety
  import opened PoolStop
  import opened PoolTheorems
  import opened PoolSignals

  /** From the event that announces an action up to the return from its BackgroundWork. */
  predicate AtWork(pc: WorkerPc) {
    match pc
    case LeafWant(_, leaf) => leaf == StartMode || leaf == StartPost || leaf == WorkMutex || leaf == WorkPost
    case LeafHeld(_, leaf) => leaf == StartMode || leaf == StartPost || leaf == WorkMutex || leaf == WorkPost
    case Working(_) => true
    case _ => false
  }

  /** Told to exit while not at work. */
  ghost predicate Excused(s: State, i: nat) {
    i < |s.workers| && s.workers[i].destroy && !AtWork(s.workers[i].pc)
  }

  // ---------------------------------------------------------------- no work once told to exit

  lemma WorkerKeepsExcused(s: State, i: nat, j: nat, c: WorkChoice)
    requires Excused(s, i) && WorkerCan(s, j)
    ensures Excused(WorkerNext(s, j, c), i)
  {
  }

  lemma MainKeepsExcused(s: State, i: nat, c: Call)
    requires Excused(s, i)
    ensures Excused(MainNext(s, c), i) && MainNext(s, c).workers[i].pc == s.workers[i].pc
  {
  }

  lemma StepKeepsExcused(s: State, i: nat, s': State)
    requires Excused(s, i) && Step(s, s')
    ensures Excused(s', i)
  {
    var e :| Can(s, e) && s' == Next(s, e);
    match e
    case MainStep(c) => MainKeepsExcused(s, i, c);
    case WorkerStep(j, c) => WorkerKeepsExcused(s, i, j, c);
  }

  /**
    A worker that has been told to exit and is not at work, whether it waits for the queue or has
    already popped an action, is never at work again.
   */
  lemma {:induction false} NoWorkOnceTold(run: seq<State>, k: nat, m: nat, i: nat)
    requires IsRun(run) && k <= m < |run|
    requires i < |run[k].workers| && run[k].workers[i].destroy && !AtWork(run[k].workers[i].pc)
    ensures i < |run[m].workers| && run[m].workers[i].destroy && !AtWork(run[m].workers[i].pc)
    decreases m
  {
    if k < m {
      NoWorkOnceTold(run, k, m - 1, i);
      assert StepAt(run, m);
      StepKeepsExcused(run[m - 1], i, run[m]);
    }
  }

  // ---------------------------------------------------------------- what becomes of its action

  /** Still in the hands of worker i, or signalled and deleted. */
  ghost predicate Settling(s: State, i: nat, p: Ptr) {
    && i < |s.workers|
    && (Hand(s.workers[i].pc) == Some(p) || (p in s.data.completed && s.data.deleted[p] >= 1))
  }

  lemma WorkerSettles(s: State, i: nat, p: Ptr, j: nat, c: WorkChoice)
    requires SignalsKnown(s) && Settling(s, i, p) && Excused(s, i) && WorkerCan(s, j)
    ensures Settling(WorkerNext(s, j, c), i, p)
  {
    var m := WorkerMoves(s.workers[j], j, s.data.queue, c);
    DeletedGrows(s.data, m.effect, s.max, p);
    WorkerHandLocal(s.workers[j], j, s.data.queue, c);
    WorkerSignalLocal(s.workers[j], j, s.data.queue, c);
    if i == j && m.effect.Free? {
      assert Signalled(s.workers[i].pc) == Hand(s.workers[i].pc);
    }
  }

  lemma MainSettles(s: State, i: nat, p: Ptr, c: Call)
    requires SignalsKnown(s) && Settling(s, i, p) && Excused(s, i)
    ensures Settling(MainNext(s, c), i, p)
  {
    DeletedGrows(s.data, MainMoves(s, c).effect, s.max, p);
    MainKeepsExcused(s, i, c);
  }

  lemma StepSettles(s: State, i: nat, p: Ptr, s': State)
    requires SignalsKnown(s) && Settling(s, i, p) && Excused(s, i) && Step(s, s')
    ensures Settling(s', i, p)
  {
    var e :| Can(s, e) && s' == Next(s, e);
    match e
    case MainStep(c) => MainSettles(s, i, p, c);
    case WorkerStep(j, c) => WorkerSettles(s, i, p, j, c);
  }

  lemma {:induction false} StaysSettling(run: seq<State>, k: nat, m: nat, i: nat, p: Ptr)
    requires IsRun(run) && k <= m < |run| && Excused(run[k], i) && Hand(run[k].workers[i].pc) == Some(p)
    ensures Settling(run[m], i, p)
    decreases m
  {
    if k < m {
      StaysSettling(run, k, m - 1, i, p);
      NoWorkOnceTold(run, k, m - 1, i);
      EachSignalsAtMostOnce(run, m - 1);
      assert StepAt(run, m);
      StepSettles(run[m - 1], i, p, run[m]);
    }
  }

  lemma OnlyHand(s: State, i: nat, j: nat, p: Ptr)
    requires Inv(s) && i < |s.workers| && j < |s.workers|
    requires Hand(s.workers[i].pc) == Hand(s.workers[j].pc) == Some(p)
    ensures i == j
  {
    assert Places(s, p) == One(p in s.data.given);
    if i < j {
      TwoHands(s.workers, i, j, p);
      assert false;
    } else if j < i {
      TwoHands(s.workers, j, i, p);
      assert false;
    }
  }

  /**
    The action such a worker has in its hands is signalled before it leaves them, and then deleted;
    nobody is ever at work on it.
   */
  lemma TurnedAway(run: seq<State>, k: nat, m: nat, i: nat, p: Ptr)
    requires IsRun(run) && k <= m < |run|
    requires i < |run[k].workers| && run[k].workers[i].destroy && !AtWork(run[k].workers[i].pc)
    requires Hand(run[k].workers[i].pc) == Some(p)
    ensures i < |run[m].workers|
    ensures Hand(run[m].workers[i].pc) == Some(p) || (p in run[m].data.completed && run[m].data.deleted[p] == 1)
    ensures forall j :: 0 <= j < |run[m].workers| && Hand(run[m].workers[j].pc) == Some(p) ==> !AtWork(run[m].workers[j].pc)
  {
    StaysSettling(run, k, m, i, p);
    NoWorkOnceTold(run, k, m, i);
    ExactlyOnePlace(run, m, p);
    RunInv(run, m);
    forall j | 0 <= j < |run[m].workers| && Hand(run[m].workers[j].pc) == Some(p)
      ensures !AtWork(run[m].workers[j].pc)
    {
      HandIsLive(run[m], j, p);
      OnlyHand(run[m], i, j, p);
    }
  }

  // ---------------------------------------------------------------- marks

  /** The step is worker i's; BackgroundWork of the action in its hands begins or returns. */
  ghost predicate MarksAtWork(s: State, i: nat, s': State)
  {
    && i < |s.workers| && AtWork(s.workers[i].pc)
    && var id := IdOf(s.data.ids, Hand(s.workers[i].pc).value);
      || (s.workers[i].pc.LeafHeld? && s.workers[i].pc.leaf == StartPost && s'.data.work == s.data.work + [Begin(id)])
      || (s.workers[i].pc.Working? && s'.data.work == s.data.work + [End(id)])
  }

  lemma WorkerMarks(s: State, i: nat, c: WorkChoice)
    requires WorkerCan(s, i)
    ensures WorkerNext(s, i, c).data.work == s.data.work || MarksAtWork(s, i, WorkerNext(s, i, c))
  {
  }

  lemma MainMarks(s: State, c: Call)
    ensures MainNext(s, c).data.work == s.data.work
  {
    var m := MainMoves(s, c);
    assert !m.effect.BeginWork? && !m.effect.EndWork?;
  }

  /** A mark is only ever added for the action in the hands of a worker that is at work. */
  lemma MarksAreAtWork(s: State, s': State)
    requires Step(s, s') && s'.data.work != s.data.work
    ensures exists i: nat :: MarksAtWork(s, i, s')
  {
    var e :| Can(s, e) && s' == Next(s, e);
    match e
    case MainStep(c) => MainMarks(s, c); assert false;
    case WorkerStep(i, c) => WorkerMarks(s, i, c); assert MarksAtWork(s, i, s');
  }

  // ---------------------------------------------------------------- all others are worked on

  /** BackgroundWork of p was called by then. */
  ghost predicate RanBy(run: seq<State>, k: nat, p: Ptr)
    requires k < |run|
  {
    exists j, i {:trigger run[j].workers[i]} :: 0 <= j <= k && 0 <= i < |run[j].workers| && run[j].workers[i].pc == Working(p)
  }

  /** A worker had p in its hands when it was told to exit, and p had been cancelled. */
  ghost predicate ToldBy(run: seq<State>, k: nat, p: Ptr)
    requires k < |run|
  {
    exists j, i {:trigger run[j].workers[i]} ::
      && 0 <= j <= k && 0 <= i < |run[j].workers|
      && run[j].workers[i].destroy && Hand(run[j].workers[i].pc) == Some(p) && p in run[j].data.cancelled
  }

  /** The action a worker has called BackgroundWork of. */
  function Worked(pc: WorkerPc): Option<Ptr> {
    match pc
    case LeafWant(p, leaf) => if leaf in {WorkMutex, WorkPost, EndPost(false)} then Some(p) else None
    case LeafHeld(p, leaf) => if leaf in {WorkMutex, WorkPost, EndPost(false)} then Some(p) else None
    case Working(p) => Some(p)
    case LockClear(p, exit) => if exit then None else Some(p)
    case Delete(p, exit) => if exit then None else Some(p)
    case _ => None
  }

  ghost predicate WorkKnown(run: seq<State>, k: nat)
    requires k < |run|
  {
    && (forall i {:trigger run[k].workers[i]} :: 0 <= i < |run[k].workers| && Worked(run[k].workers[i].pc).Some? ==>
          RanBy(run, k, Worked(run[k].workers[i].pc).value))
    && (forall p :: p in run[k].data.completed ==> RanBy(run, k, p) || ToldBy(run, k, p))
  }

  lemma LaterBy(run: seq<State>, k: nat, p: Ptr)
    requires 1 <= k < |run|
    ensures RanBy(run, k - 1, p) ==> RanBy(run, k, p)
    ensures ToldBy(run, k - 1, p) ==> ToldBy(run, k, p)
  {
  }

  lemma WorkedLocal(w: WorkerState, i: nat, queue: seq<Ptr>, c: WorkChoice)
    ensures var m := WorkerMoves(w, i, queue, c);
      && (Worked(m.pc).Some? ==> Worked(m.pc) == Worked(w.pc) || m.pc == Working(Worked(m.pc).value))
      && (m.effect.Signal? ==> Hand(w.pc) == Some(m.effect.p) && (Worked(w.pc) == Some(m.effect.p) || Leaving(w.pc)))
  {
  }

  lemma LeavingWasTold(run: seq<State>, k: nat, i: nat, p: Ptr)
    requires IsRun(run) && k < |run| && i < |run[k].workers| && Leaving(run[k].workers[i].pc) && Hand(run[k].workers[i].pc) == Some(p)
    ensures ToldBy(run, k, p)
  {
    RunInv(run, k);
    HandIsLive(run[k], i, p);
    StopAllCancelsEverything(run, k, p);
    assert run[k].workers[i].destroy;
  }

  lemma WorkerKeepsWorkKnown(run: seq<State>, k: nat, i: nat, c: WorkChoice)
    requires IsRun(run) && 1 <= k < |run| && WorkKnown(run, k - 1)
    requires WorkerCan(run[k - 1], i) && run[k] == WorkerNext(run[k - 1], i, c)
    ensures WorkKnown(run, k)
  {
    var s, s' := run[k - 1], run[k];
    var m := WorkerMoves(s.workers[i], i, s.data.queue, c);
    WorkedLocal(s.workers[i], i, s.data.queue, c);
    forall j | 0 <= j < |s'.workers| && Worked(s'.workers[j].pc).Some?
      ensures RanBy(run, k, Worked(s'.workers[j].pc).value)
    {
      LaterBy(run, k, Worked(s'.workers[j].pc).value);
      assert j == i ==> s'.workers[j].pc == m.pc;
    }
    forall p | p in s'.data.completed ensures RanBy(run, k, p) || ToldBy(run, k, p) {
      LaterBy(run, k, p);
      DeletedGrows(s.data, m.effect, s.max, p);
      if p !in s.data.completed && Worked(s.workers[i].pc) != Some(p) {
        LeavingWasTold(run, k - 1, i, p);
      }
    }
  }

  lemma MainKeepsWorkKnown(run: seq<State>, k: nat, c: Call)
    requires 1 <= k < |run| && WorkKnown(run, k - 1) && run[k] == MainNext(run[k - 1], c)
    ensures WorkKnown(run, k)
  {
    var s, s' := run[k - 1], run[k];
    DeletedGrows(s.data, MainMoves(s, c).effect, s.max, 0);
    assert !MainMoves(s, c).effect.Signal?;
    forall j | 0 <= j < |s'.workers| && Worked(s'.workers[j].pc).Some?
      ensures RanBy(run, k, Worked(s'.workers[j].pc).value)
    {
      assert j < |s.workers| && s'.workers[j].pc == s.workers[j].pc;
      LaterBy(run, k, Worked(s'.workers[j].pc).value);
    }
    forall p | p in s'.data.completed ensures RanBy(run, k, p) || ToldBy(run, k, p) {
      LaterBy(run, k, p);
    }
  }

  lemma {:induction false} RunWorkKnown(run: seq<State>, k: nat)
    requires IsRun(run) && k < |run|
    ensures WorkKnown(run, k)
  {
    if k > 0 {
      RunWorkKnown(run, k - 1);
      assert StepAt(run, k);
      var e :| Can(run[k - 1], e) && run[k] == Next(run[k - 1], e);
      match e
      case MainStep(c) => MainKeepsWorkKnown(run, k, c);
      case WorkerStep(i, c) => WorkerKeepsWorkKnown(run, k, i, c);
    }
  }

  /**
    In every run, an action that has signalled its end either had its BackgroundWork called, or was
    cancelled and in the hands of a worker told to exit.
   */
  lemma CompletedRanOrTold(run: seq<State>, k: nat, p: Ptr)
    requires IsRun(run) && k < |run| && p in run[k].data.completed
    ensures
      || (exists j, i {:trigger run[j].workers[i]} ::
            0 <= j <= k && 0 <= i < |run[j].workers| && run[j].workers[i].pc == Working(p))
      || (exists j, i {:trigger run[j].workers[i]} ::
            && 0 <= j <= k && 0 <= i < |run[j].workers|
            && run[j].workers[i].destroy && Hand(run[j].workers[i].pc) == Some(p) && p in run[j].data.cancelled)
  {
    RunWorkKnown(run, k);
    assert RanBy(run, k, p) || ToldBy(run, k, p);
  }
}
