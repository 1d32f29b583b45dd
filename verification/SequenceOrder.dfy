/**
  The order of a sequence's steps across threads, in runs where a sequence starts only when all
  completion events it would take for its own are settled, and none such is brought up while it runs.
 */
module SequenceOrder {
  import opened Sequence
  import opened SequenceLaws
  import opened SequencePool
  import opened SequenceLog
  import P = Pool
  import G = PoolSignals

  /** While a sequence runs: at most its front step's event is pending, nothing else is to come. */
  ghost predicate Calm(s: Sys) {
    s.view.steps != [] ==>
      && (s.pending == [] || (|s.pending| == 1 && SentByFront(s.view, s.pending[0])))
      && EarlierSettled(s)
      && OthersSettled(s)
  }

  ghost predicate EarlierSettled(s: Sys) {
    forall n {:trigger s.view.added[n]} :: 0 <= n < FrontSerial(s.view) <= |s.view.added| && Count(s.view.queued, n) > 0 ==>
      n in s.finished || s.pool.data.deleted[s.view.added[n].ptr] >= 1
  }

  ghost predicate OrderInv(s: Sys) {
    Known(s) && Calm(s) && LogOk(s.log)
  }

  // ---------------------------------------------------------------- pool steps

  lemma PoolDeletedGrows(s: P.State, e: P.Event, p: P.Ptr)
    requires P.Can(s, e)
    ensures P.Next(s, e).data.deleted[p] >= s.data.deleted[p]
  {
    match e
    case MainStep(c) => G.DeletedGrows(s.data, P.MainMoves(s, c).effect, s.max, p);
    case WorkerStep(i, c) => G.DeletedGrows(s.data, P.WorkerMoves(s.workers[i], i, s.data.queue, c).effect, s.max, p);
  }

  lemma PoolCompletedGrows(s: P.State, e: P.Event, p: P.Ptr)
    requires P.Can(s, e) && p in s.data.completed
    ensures p in P.Next(s, e).data.completed
  {
    match e
    case MainStep(c) => G.DeletedGrows(s.data, P.MainMoves(s, c).effect, s.max, p);
    case WorkerStep(i, c) => G.DeletedGrows(s.data, P.WorkerMoves(s.workers[i], i, s.data.queue, c).effect, s.max, p);
  }

  /** What the pool does can only settle more. */
  lemma CalmerPool(s: Sys, e: P.Event)
    requires CanSys(s, PoolEvent(e)) && Orderly(s, PoolEvent(e)) && Calm(s)
    ensures Calm(s.(pool := P.Next(s.pool, e)))
  {
    if s.view.steps != [] {
      EarlierStaySettled(s, e);
      OthersStaySettled(s, e);
    }
  }

  lemma EarlierStaySettled(s: Sys, e: P.Event)
    requires P.Can(s.pool, e) && EarlierSettled(s)
    ensures EarlierSettled(s.(pool := P.Next(s.pool, e)))
  {
    var t := s.(pool := P.Next(s.pool, e));
    forall n {:trigger t.view.added[n]} | 0 <= n < FrontSerial(t.view) <= |t.view.added| && Count(t.view.queued, n) > 0
      ensures n in t.finished || t.pool.data.deleted[t.view.added[n].ptr] >= 1
    {
      PoolDeletedGrows(s.pool, e, s.view.added[n].ptr);
    }
  }

  lemma OthersStaySettled(s: Sys, e: P.Event)
    requires P.Can(s.pool, e) && OthersSettled(s) && !QueuesOther(s, PoolEvent(e))
    ensures OthersSettled(s.(pool := P.Next(s.pool, e)))
  {
    GivenGrows(s.pool, e);
    var pool := P.Next(s.pool, e);
    forall p {:trigger p in s.tagged} | p in s.tagged && p in pool.data.given
      ensures p in pool.data.completed || pool.data.deleted[p] >= 1
    {
      assert p in s.pool.data.given;
      PoolDeletedGrows(s.pool, e, p);
      if p in s.pool.data.completed {
        PoolCompletedGrows(s.pool, e, p);
      }
    }
  }

  lemma PoolKeepsCalm(s: Sys, e: P.Event)
    requires Known(s) && Calm(s) && CanSys(s, PoolEvent(e)) && Orderly(s, PoolEvent(e))
    ensures Calm(PoolMoves(s, e))
  {
    PoolSignal(s, e);
    CalmerPool(s, e);
    PoolPosts(s, e, P.Next(s.pool, e));
  }

  /** The pool posts a completion event: the front step's, or, while no sequence runs, of another action. */
  lemma PoolPosts(s: Sys, e: P.Event, pool: P.State)
    requires StepsLinked(s) && FinishedKnown(s) && P.Can(s.pool, e) && pool == P.Next(s.pool, e)
    requires Calm(s) && Calm(s.(pool := pool))
    requires pool.data.completed == s.pool.data.completed || exists p :: NewSignal(s.pool, pool, p)
    ensures Calm(PoolMoves(s, e))
  {
    if pool.data.completed != s.pool.data.completed {
      var p :| NewSignal(s.pool, pool, p);
      assert pool.data.completed[|s.pool.data.completed|] == p;
      var n := SerialOf(s.view.added, p);
      if n.Some? {
        StepSignals(s, pool, n.value);
        StepPosts(s, pool, n.value);
      } else if p in s.tagged {
        assert s.view.steps == [];
      }
    }
  }

  lemma PendingMeansFinished(s: Sys)
    requires FinishedKnown(s) && Calm(s) && s.view.steps != []
    ensures s.pending == [] || FrontSerial(s.view) in s.finished
  {
    assert s.pending == [] || s.pending[0] in s.pending;
  }

  /** A step's event posted while a sequence runs is that of its front step, which had none yet. */
  lemma StepPosts(s: Sys, pool: P.State, n: nat)
    requires FinishedKnown(s) && Calm(s) && Calm(s.(pool := pool))
    requires n < |s.view.added| && NewSignal(s.pool, pool, s.view.added[n].ptr) && n !in s.finished
    requires Count(s.view.queued, n) > 0 && n < FrontSerial(s.view) + One(s.view.steps != [])
    ensures Calm(Signal(s.(pool := pool), n))
  {
    if s.view.steps != [] {
      assert n == FrontSerial(s.view);
      PendingMeansFinished(s);
    }
  }

  lemma SyncKeepsCalm(s: Sys)
    requires FinishedKnown(s) && Calm(s) && CanSys(s, SyncFinish) && s.view.steps != []
    ensures Calm(Signal(s, FrontSerial(s.view)))
  {
    PendingMeansFinished(s);
  }

  // ---------------------------------------------------------------- handlers

  /** Steps before the new front that the pool has or had are settled. */
  lemma QueuedSettled(s: Sys, h: Handler, t: Sys, n: nat)
    requires Tracked(s) && Calm(s) && CallCan(s, h) && Orderly(s, Call(h)) && Passed(s, h, t)
    requires t.view != s.view && t.view.steps != [] && n < FrontSerial(t.view) && Count(t.view.queued, n) > 0
    ensures n < |s.view.added| && (n in s.finished || s.pool.data.deleted[s.view.added[n].ptr] >= 1)
  {
    QueuedBefore(s, h, t, n);
    QueuedIsPast(s.view, n);
  }

  lemma QueuedBefore(s: Sys, h: Handler, t: Sys, n: nat)
    requires Tracked(s) && CallCan(s, h) && Grown(s.view, h, t.view)
    requires t.view.steps == [] || n < FrontSerial(t.view)
    requires Count(t.view.queued, n) > 0
    ensures Count(s.view.queued, n) > 0
  {
    if Count(s.view.queued, n) == 0 {
      QueuedByCall(s, h, t.view, n);
    }
  }

  lemma CallCalm(s: Sys, h: Handler, t: Sys)
    requires Tracked(s) && Calm(s) && CallCan(s, h) && Orderly(s, Call(h)) && Passed(s, h, t)
    ensures Calm(t)
  {
    AddedStaysDistinct(s, h, t.view);
    if t.view.steps != [] {
      if t.view != s.view {
        assert t.pending == [];
        forall n {:trigger t.view.added[n]} | 0 <= n < FrontSerial(t.view) && Count(t.view.queued, n) > 0
          ensures n in t.finished || t.pool.data.deleted[t.view.added[n].ptr] >= 1
        {
          QueuedSettled(s, h, t, n);
          assert t.view.added[n] == s.view.added[n];
        }
        assert OthersSettled(s);
      }
    }
  }

  lemma CalmMeansNoStray(s: Sys, e: SysEvent)
    requires Calm(s)
    ensures !Stray(s, e)
  {
  }

  lemma OrderlyStepCalm(s: Sys, e: SysEvent)
    requires Known(s) && Calm(s) && CanSys(s, e) && Orderly(s, e)
    ensures Calm(NextSys(s, e))
  {
    match e
    case PoolEvent(e) => PoolKeepsCalm(s, e);
    case SyncFinish => SyncKeepsCalm(s);
    case Call(h) =>
      CallPasses(s, h);
      CallCalm(s, h, Handled(s, h));
  }

  lemma OrderlyStepInv(s: Sys, e: SysEvent)
    requires OrderInv(s) && CanSys(s, e) && Orderly(s, e)
    ensures OrderInv(NextSys(s, e))
  {
    StepKnown(s, e);
    OrderlyStepCalm(s, e);
    CalmMeansNoStray(s, e);
    StepKeepsLog(s, e);
  }

  lemma NextOrderly(run: seq<Sys>, events: seq<SysEvent>, k: nat)
    requires Continues(run, events) && 0 < k < |run| && OrderInv(run[k - 1]) && Orderly(run[k - 1], events[k - 1])
    ensures OrderInv(run[k])
  {
    assert SysStepAt(run, events, k - 1);
    OrderlyStepInv(run[k - 1], events[k - 1]);
  }

  lemma {:induction false} OrderlyContinues(run: seq<Sys>, events: seq<SysEvent>, k: nat)
    requires Continues(run, events) && OrderInv(run[0]) && IsOrderly(run, events, 0) && k < |run|
    ensures OrderInv(run[k])
  {
    if k > 0 {
      OrderlyContinues(run, events, k - 1);
      assert OrderlyAt(run, events, k - 1);
      NextOrderly(run, events, k);
    }
  }

  lemma OrderlyRunInv(run: seq<Sys>, events: seq<SysEvent>, k: nat)
    requires IsSysRun(run, events) && IsOrderly(run, events, 0) && k < |run|
    ensures OrderInv(run[k])
  {
    FirstKnown(run[0]);
    OrderlyContinues(run, events, k);
  }

  /**
    In every orderly run each Init call is the first of a sequence just built, or follows a step
    that declined just before, or follows the delivery of the completion event of the step before,
    which had finished by then.
   */
  lemma StepsRunOneByOne(run: seq<Sys>, events: seq<SysEvent>, k: nat)
    requires IsSysRun(run, events) && IsOrderly(run, events, 0) && k < |run|
    ensures LogOk(run[k].log)
    ensures InOrder(run[k].view.inits, |run[k].view.added|)
  {
    OrderlyRunInv(run, events, k);
  }

  /**
    A completion event pending in an orderly run while a sequence runs is its front step's; if that
    step is asynchronous, the pool has run or skipped it and posted its one completion event.
   */
  lemma DeliveriesAreTheFronts(run: seq<Sys>, events: seq<SysEvent>, k: nat)
    requires IsSysRun(run, events) && IsOrderly(run, events, 0)
    requires k < |run| && run[k].view.isRunning && run[k].pending != []
    ensures var s := run[k];
      && |s.pending| == 1 && SentByFront(s.view, s.pending[0]) && s.view.steps != []
      && (s.view.isCurrentStepAsync ==> s.view.steps[0].ptr in s.pool.data.completed)
  {
    var s := run[k];
    OrderlyRunInv(run, events, k);
    var front := FrontSerial(s.view);
    assert s.view.added[front] == s.view.steps[0];
    assert s.pending[0] in s.pending;
  }
}
