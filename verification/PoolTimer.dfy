/**
  The timer's walk over the threads, and the calls that add or remove a handler.
 */
module PoolTimer {
  import opened Pool
  import opened PoolOwnership
  import opened PoolSafety
  import opened PoolStop
  import opened PoolCalls

  // ---------------------------------------------------------------- the timer

  /** The timer's walk has looked at worker v and, if it had an action, posted that action's progress. */
  ghost predicate Reported(run: seq<State>, k: nat, m: nat, v: nat)
    requires k <= m < |run|
  {
    exists j :: k < j <= m && ReportedFrom(run, j, m, v)
  }

  ghost predicate ReportedFrom(run: seq<State>, j: int, m: nat, v: nat)
    requires 0 <= j <= m < |run|
  {
    && run[j].main == RunHeld(TickOp, v) && v < |run[j].workers|
    && (run[j].workers[v].running.Some? ==> PostsLater(run, j, m, v, run[j].workers[v].running.value))
  }

  ghost predicate PostsLater(run: seq<State>, j: int, m: nat, v: nat, p: Ptr)
    requires 0 <= j <= m < |run|
  {
    exists i {:trigger run[i]} :: j < i <= m && run[i].main == RunLeafHeld(TickOp, v, p, PostProgress)
  }

  /** The walk looked at worker v, and v had the action p. */
  ghost predicate LookedAt(run: seq<State>, k: nat, m: nat, v: nat, p: Ptr)
    requires k <= m < |run|
  {
    exists j {:trigger run[j]} ::
      && k < j < m && run[j].main == RunHeld(TickOp, v) && v < |run[j].workers| && run[j].workers[v].running == Some(p)
  }

  /** How far the timer's walk has come. */
  ghost predicate Ticking(run: seq<State>, k: nat, m: nat)
    requires k < m < |run|
  {
    var s := run[m];
    && s.base == run[k].base && |s.workers| == |run[k].workers|
    && AllReported(run, k, m, s.base, Visited(s))
    && match s.main
       case Visit(op, _) => op == TickOp
       case RunHeld(op, w) => op == TickOp && w < |s.workers|
       case RunLeafWant(op, w, p, leaf) => op == TickOp && LookedAt(run, k, m, w, p) && !leaf.ReadId? && !leaf.SetFlag?
       case RunLeafHeld(op, w, p, leaf) => op == TickOp && LookedAt(run, k, m, w, p) && !leaf.ReadId? && !leaf.SetFlag?
       case RunRelease(op, _) => op == TickOp
       case Idle => true
       case _ => false
  }

  ghost predicate AllReported(run: seq<State>, k: nat, m: nat, base: nat, w: nat)
    requires k <= m < |run|
  {
    forall v: nat :: base <= v < w ==> Reported(run, k, m, v)
  }

  lemma ReportedLater(run: seq<State>, k: nat, m: nat, v: nat)
    requires k < m < |run| && Reported(run, k, m - 1, v)
    ensures Reported(run, k, m, v)
  {
    var j :| k < j <= m - 1 && ReportedFrom(run, j, m - 1, v);
    assert ReportedFrom(run, j, m, v);
  }

  lemma AllReportedLater(run: seq<State>, k: nat, m: nat, base: nat, w: nat)
    requires k < m < |run| && AllReported(run, k, m - 1, base, w)
    ensures AllReported(run, k, m, base, w)
  {
    forall v: nat | base <= v < w ensures Reported(run, k, m, v) {
      ReportedLater(run, k, m, v);
    }
  }

  /** Nothing to report: the worker has no action. */
  lemma NothingToReport(run: seq<State>, k: nat, m: nat, v: nat)
    requires k < m - 1 < m < |run| && run[m - 1].main == RunHeld(TickOp, v) && v < |run[m - 1].workers|
    requires run[m - 1].workers[v].running == None
    ensures Reported(run, k, m, v)
  {
    assert ReportedFrom(run, m - 1, m, v);
  }

  lemma ReportsAction(run: seq<State>, k: nat, m: nat, v: nat, p: Ptr)
    requires k < m - 1 < m < |run| && LookedAt(run, k, m - 1, v, p)
    requires run[m - 1].main == RunLeafHeld(TickOp, v, p, PostProgress)
    ensures Reported(run, k, m, v)
  {
    var j :| k < j < m - 1 && run[j].main == RunHeld(TickOp, v) && v < |run[j].workers| && run[j].workers[v].running == Some(p);
    assert PostsLater(run, j, m, v, p);
    assert ReportedFrom(run, j, m, v);
  }

  lemma WorkerKeepsTicking(run: seq<State>, k: nat, m: nat, i: nat, c: WorkChoice)
    requires k < m - 1 < m < |run| && Ticking(run, k, m - 1) && WorkerCan(run[m - 1], i)
    requires run[m] == WorkerNext(run[m - 1], i, c)
    ensures Ticking(run, k, m)
  {
    WorkerLeavesMain(run[m - 1], i, c);
    AllReportedLater(run, k, m, run[m].base, Visited(run[m]));
  }

  lemma MainWalksOn(s: State, c: Call)
    requires WalkOp(s.main) == Some(TickOp)
    ensures var t := MainNext(s, c); t.base == s.base && t.workers == s.workers
  {
  }

  lemma TickReleases(run: seq<State>, k: nat, m: nat, c: Call)
    requires k < m - 1 < m < |run| && Ticking(run, k, m - 1) && run[m] == MainNext(run[m - 1], c)
    requires run[m - 1].main.RunHeld? || run[m - 1].main.RunLeafHeld?
    ensures Ticking(run, k, m)
  {
    var s, w := run[m - 1], run[m - 1].main.w;
    MainWalksOn(s, c);
    AllReportedLater(run, k, m, s.base, w);
    if s.main.RunHeld? {
      if s.workers[w].running == None {
        NothingToReport(run, k, m, w);
      } else {
        assert LookedAt(run, k, m, w, s.workers[w].running.value);
      }
    } else if s.main.mleaf == PostProgress {
      ReportsAction(run, k, m, w, s.main.p);
    }
  }

  lemma MainKeepsTicking(run: seq<State>, k: nat, m: nat, c: Call)
    requires k < m - 1 < m < |run| && Ticking(run, k, m - 1) && run[m] == MainNext(run[m - 1], c)
    requires !run[m - 1].main.Idle?
    ensures Ticking(run, k, m)
  {
    var s := run[m - 1];
    MainWalksOn(s, c);
    if s.main.RunHeld? || s.main.RunLeafHeld? {
      TickReleases(run, k, m, c);
    } else {
      AllReportedLater(run, k, m, s.base, Visited(s));
    }
  }

  lemma {:induction false} TickGoesOn(run: seq<State>, k: nat, m: nat)
    requires InCall(run, k, m, CallTick)
    ensures Ticking(run, k, m)
    decreases m
  {
    if k + 1 < m {
      TickGoesOn(run, k, m - 1);
      assert StepAt(run, m);
      var e :| Can(run[m - 1], e) && run[m] == Next(run[m - 1], e);
      match e
      case MainStep(c) => MainKeepsTicking(run, k, m, c);
      case WorkerStep(i, c) => WorkerKeepsTicking(run, k, m, i, c);
    }
  }

  /**
    When the timer's handler returns it has looked at each thread and, for each that had an action
    then, posted the progress of that action, under the thread's mutex.
   */
  lemma TickReportsAll(run: seq<State>, k: nat, m: nat, v: nat)
    requires InCall(run, k, m, CallTick) && run[m].main.Idle? && run[k].base <= v < |run[k].workers|
    ensures Reported(run, k, m, v)
  {
    TickGoesOn(run, k, m);
  }

  /** By then the timer's walk has read this from the action under the action's mutex. */
  ghost predicate HasRead(run: seq<State>, m: nat, w: nat, p: Ptr, leaf: MainLeaf)
    requires m < |run|
  {
    exists b {:trigger run[b]} :: 0 <= b <= m && run[b].main == RunLeafHeld(TickOp, w, p, leaf)
  }

  /** What was read before what the walk is about to do with the action. */
  ghost predicate ReadBefore(run: seq<State>, m: nat, w: nat, p: Ptr, leaf: MainLeaf)
    requires m < |run|
  {
    && (leaf.ReadPercent? ==> HasRead(run, m, w, p, ReadMode))
    && (leaf.PostProgress? ==> HasRead(run, m, w, p, ReadMode) && HasRead(run, m, w, p, ReadPercent))
  }

  ghost predicate LeavesKnown(run: seq<State>, m: nat)
    requires m < |run|
  {
    match run[m].main
    case RunLeafWant(op, w, p, leaf) => LeafFits(op, leaf) && (op == TickOp ==> ReadBefore(run, m, w, p, leaf))
    case RunLeafHeld(op, w, p, leaf) => LeafFits(op, leaf) && (op == TickOp ==> ReadBefore(run, m, w, p, leaf))
    case _ => true
  }

  lemma ReadEarlier(run: seq<State>, m: nat, w: nat, p: Ptr, leaf: MainLeaf)
    requires 1 <= m < |run| && HasRead(run, m - 1, w, p, leaf)
    ensures HasRead(run, m, w, p, leaf)
  {
  }

  lemma ReadBeforeLater(run: seq<State>, m: nat, w: nat, p: Ptr, leaf: MainLeaf)
    requires 1 <= m < |run| && ReadBefore(run, m - 1, w, p, leaf)
    ensures ReadBefore(run, m, w, p, leaf)
  {
    if leaf.ReadPercent? || leaf.PostProgress? {
      ReadEarlier(run, m, w, p, ReadMode);
    }
    if leaf.PostProgress? {
      ReadEarlier(run, m, w, p, ReadPercent);
    }
  }

  lemma NextLeaf(run: seq<State>, m: nat, w: nat, p: Ptr, leaf: MainLeaf)
    requires 1 <= m < |run| && run[m - 1].main == RunLeafHeld(TickOp, w, p, leaf) && ReadBefore(run, m - 1, w, p, leaf)
    ensures leaf == ReadMode ==> ReadBefore(run, m, w, p, ReadPercent)
    ensures leaf == ReadPercent ==> ReadBefore(run, m, w, p, PostProgress)
  {
    assert HasRead(run, m, w, p, leaf);
    ReadBeforeLater(run, m, w, p, leaf);
  }

  lemma MainKeepsLeaves(run: seq<State>, m: nat, c: Call)
    requires 1 <= m < |run| && LeavesKnown(run, m - 1) && run[m] == MainNext(run[m - 1], c)
    ensures LeavesKnown(run, m)
  {
    match run[m - 1].main
    case RunLeafWant(op, w, p, leaf) => if op == TickOp { ReadBeforeLater(run, m, w, p, leaf); }
    case RunLeafHeld(op, w, p, leaf) => if op == TickOp { NextLeaf(run, m, w, p, leaf); }
    case _ =>
  }

  lemma SameMainKeepsLeaves(run: seq<State>, m: nat)
    requires 1 <= m < |run| && LeavesKnown(run, m - 1) && run[m].main == run[m - 1].main
    ensures LeavesKnown(run, m)
  {
    match run[m].main
    case RunLeafWant(op, w, p, leaf) => if op == TickOp { ReadBeforeLater(run, m, w, p, leaf); }
    case RunLeafHeld(op, w, p, leaf) => if op == TickOp { ReadBeforeLater(run, m, w, p, leaf); }
    case _ =>
  }

  lemma {:induction false} RunKnowsLeaves(run: seq<State>, m: nat)
    requires IsRun(run) && m < |run|
    ensures LeavesKnown(run, m)
  {
    if m > 0 {
      RunKnowsLeaves(run, m - 1);
      assert StepAt(run, m);
      var e :| Can(run[m - 1], e) && run[m] == Next(run[m - 1], e);
      match e
      case MainStep(c) => MainKeepsLeaves(run, m, c);
      case WorkerStep(i, c) => WorkerLeavesMain(run[m - 1], i, c); SameMainKeepsLeaves(run, m);
    }
  }

  /** Before it posts an action's progress it has read the action's mode and percentage under the action's mutex. */
  lemma ReadsBeforeItPosts(run: seq<State>, m: nat, w: nat, p: Ptr)
    requires IsRun(run) && m < |run| && run[m].main == RunLeafHeld(TickOp, w, p, PostProgress)
    ensures exists b {:trigger run[b]} :: 0 <= b < m && run[b].main == RunLeafHeld(TickOp, w, p, ReadMode)
    ensures exists b {:trigger run[b]} :: 0 <= b < m && run[b].main == RunLeafHeld(TickOp, w, p, ReadPercent)
  {
    RunKnowsLeaves(run, m);
    assert HasRead(run, m, w, p, ReadMode) && HasRead(run, m, w, p, ReadPercent);
  }

  // ---------------------------------------------------------------- handlers

  predicate Handlers(pc: MainPc) {
    pc.HandlerWant? || pc.HandlerHeld?
  }

  ghost predicate WasHeld(run: seq<State>, k: nat, m: nat)
    requires k <= m < |run|
  {
    exists j {:trigger run[j]} :: k < j <= m && run[j].main.HandlerHeld?
  }

  lemma HandlerStep(s: State, s': State)
    requires Handlers(s.main) && Step(s, s')
    ensures Handlers(s'.main) || (s.main.HandlerHeld? && s'.main.Idle?)
  {
    var e :| Can(s, e) && s' == Next(s, e);
    if e.WorkerStep? {
      WorkerLeavesMain(s, e.i, e.choice);
    }
  }

  /** A handler is added or removed under the handler mutex, whenever such a call has returned. */
  lemma {:induction false} HandlersAreLocked(run: seq<State>, k: nat, m: nat)
    requires InCall(run, k, m, CallHandlers)
    ensures Handlers(run[m].main) || (run[m].main.Idle? && WasHeld(run, k, m))
    decreases m
  {
    if k + 1 < m {
      HandlersAreLocked(run, k, m - 1);
      assert StepAt(run, m);
      HandlerStep(run[m - 1], run[m]);
      assert run[m - 1].main.HandlerHeld? ==> WasHeld(run, k, m);
    }
  }
}
