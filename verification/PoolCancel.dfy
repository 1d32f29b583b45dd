/**
  CancelAction from its look at the queue to its return: it reaches the running actions exactly when
  some action was queued at that moment.
 */
module PoolCancel {
  import opened Pool
  import opened PoolLocks
  import opened PoolOwnership
  import opened PoolSafety
  import opened PoolStop
  import opened PoolTheorems

  datatype Scope = Scope(id: int, orig: seq<Ptr>)

  /** What CancelAction goes by, once it has found a non-empty queue. */
  function ScopeOf(pc: MainPc): Option<Scope> {
    match pc
    case Scan(id, orig, _) => Some(Scope(id, orig))
    case ScanWant(id, orig, _, _) => Some(Scope(id, orig))
    case ScanHeld(id, orig, _, _) => Some(Scope(id, orig))
    case Restore(id, orig, _) => Some(Scope(id, orig))
    case _ =>
      var op := WalkOp(pc);
      if op.Some? && op.value.CancelOp? then Some(Scope(op.value.id, op.value.orig)) else None
  }

  lemma ScopeStays(s: State, c: Call)
    requires ScopeOf(s.main).Some?
    ensures ScopeOf(MainNext(s, c).main) == ScopeOf(s.main)
      || (MainNext(s, c).main.Idle? && s.main.Visit? && s.main.w >= |s.workers|)
  {
  }

  lemma CheckDecides(s: State, c: Call)
    requires s.main.CancelCheck?
    ensures var s' := MainNext(s, c);
      && s'.data == s.data
      && (s.data.queue == [] ==> s'.main.Idle?)
      && (s.data.queue != [] ==> ScopeOf(s'.main) == Some(Scope(s.main.id, s.data.queue)))
  {
  }

  /** Before the return: still at the check, with nothing changed, or past it with what was found. */
  ghost predicate UnderWay(s: State, t: State)
    requires s.main.CancelCheck?
  {
    if t.main.CancelCheck? then
      t.main == s.main && t.data.queue == s.data.queue && t.data.cancelled == s.data.cancelled
    else s.data.queue != [] && ScopeOf(t.main) == Some(Scope(s.main.id, s.data.queue))
  }

  /** The call has returned. */
  ghost predicate Returned(s: State, t: State)
    requires s.main.CancelCheck?
  {
    && t.main.Idle?
    && (s.data.queue == [] ==> t.data.queue == [] && t.data.cancelled == s.data.cancelled)
    && (s.data.queue != [] ==>
          && t.data.queue == Keep(s.data.queue, t.data.ids, s.main.id)
          && forall i, p :: 0 <= i < |t.workers| && Hand(t.workers[i].pc) == Some(p) && IdOf(t.data.ids, p) == s.main.id ==>
               p in t.data.cancelled)
  }

  lemma WorkerStaysUnderWay(s: State, t: State, i: nat, c: WorkChoice)
    requires s.main.CancelCheck? && UnderWay(s, t) && Inv(t) && WorkerCan(t, i)
    ensures UnderWay(s, WorkerNext(t, i, c))
  {
    if t.main.CancelCheck? {
      WorkerLeavesQueue(t, i, c);
      WorkerSetsNoFlag(t, i, c);
    }
  }

  lemma WalkEnds(s: State, t: State, c: Call)
    requires s.main.CancelCheck? && UnderWay(s, t) && Inv(t) && t.main.Visit? && t.main.w >= |t.workers|
    ensures Returned(s, MainNext(t, c))
  {
    var v := MainNext(t, c);
    assert v.data == t.data && v.workers == t.workers;
  }

  lemma MainStaysUnderWay(s: State, t: State, c: Call)
    requires s.main.CancelCheck? && UnderWay(s, t) && Inv(t) && MainCan(t, c)
    ensures UnderWay(s, MainNext(t, c)) || Returned(s, MainNext(t, c))
  {
    if t.main.CancelCheck? {
      CheckDecides(t, c);
    } else {
      ScopeStays(t, c);
      if t.main.Visit? && t.main.w >= |t.workers| {
        WalkEnds(s, t, c);
      }
    }
  }

  lemma StepStaysUnderWay(s: State, t: State, t': State)
    requires s.main.CancelCheck? && UnderWay(s, t) && Inv(t) && Step(t, t')
    ensures UnderWay(s, t') || Returned(s, t')
  {
    var e :| Can(t, e) && t' == Next(t, e);
    match e {
      case MainStep(c) => MainStaysUnderWay(s, t, c);
      case WorkerStep(i, c) => WorkerStaysUnderWay(s, t, i, c);
    }
  }

  lemma NextIsUnderWay(run: seq<State>, s: State, m: nat)
    requires IsRun(run) && 0 < m < |run| && s.main.CancelCheck? && UnderWay(s, run[m - 1])
    ensures UnderWay(s, run[m]) || Returned(s, run[m])
  {
    RunInv(run, m - 1);
    assert StepAt(run, m);
    StepStaysUnderWay(s, run[m - 1], run[m]);
  }

  lemma {:induction false} CallIsUnderWay(run: seq<State>, k: nat, m: nat)
    requires IsRun(run) && k <= m < |run| && run[k].main.CancelCheck?
    requires forall j :: k < j < m ==> !run[j].main.Idle?
    ensures UnderWay(run[k], run[m]) || Returned(run[k], run[m])
    decreases m
  {
    if k < m {
      CallIsUnderWay(run, k, m - 1);
      NextIsUnderWay(run, run[k], m);
    }
  }

  /**
    From the moment CancelAction looks at the queue until it returns: an action with that id that is
    in a worker's hands then and had no cancel flag has one now if and only if the queue was not empty.
    The queue is left without the actions of that id, all others in their order.
   */
  lemma CancelActionFlagsExactlyWhen(run: seq<State>, k: nat, m: nat, i: nat, p: Ptr)
    requires IsRun(run) && k < m < |run| && run[k].main.CancelCheck? && run[m].main.Idle?
    requires forall j :: k < j < m ==> !run[j].main.Idle?
    requires i < |run[m].workers| && Hand(run[m].workers[i].pc) == Some(p)
    requires IdOf(run[m].data.ids, p) == run[k].main.id && p !in run[k].data.cancelled
    ensures p in run[m].data.cancelled <==> run[k].data.queue != []
    ensures run[m].data.queue == Keep(run[k].data.queue, run[m].data.ids, run[k].main.id)
  {
    CallIsUnderWay(run, k, m);
    assert Keep([], run[m].data.ids, run[k].main.id) == [];
  }
}
