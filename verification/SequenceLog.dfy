/**
  The history of a sequence on top of the pool: what the log, the finished steps and the pending
  completion events have to do with each other in every run, and in exactly which runs the steps
  come one after the other.
 */
module SequenceLog {
  import opened Sequence
  import opened SequenceLaws
  import opened SequencePool
  import P = Pool
  import O = PoolOwnership
  import S = PoolSafety
  import T = PoolTheorems
  import G = PoolSignals

  /**
    Why the Init call at j may happen: its sequence has just been built with it as first step,
    or the step before declined just now, or the completion event of the step before has just
    been delivered and that step had finished.
   */
  ghost predicate Caused(log: seq<Entry>, j: int)
    requires 0 <= j < |log| && log[j].InitCall?
  {
    var n := log[j].n;
    j > 0 && (
      || log[j - 1] == BuiltAt(n)
      || (n > 0 && log[j - 1] == InitCall(n - 1, false))
      || (n > 0 && log[j - 1] == Delivered(OfStep(n - 1)) && Finished(n - 1) in log[..j - 1]))
  }

  ghost predicate LogOk(log: seq<Entry>) {
    forall j {:trigger log[j]} :: 0 <= j < |log| && log[j].InitCall? ==> Caused(log, j)
  }

  predicate SentByFront(v: View, sender: Sender) {
    sender.OfStep? && sender.n == FrontSerial(v)
  }

  /**
    Finished steps are known as such to the pool, if they were its, and to the log; a step whose
    event is pending has finished, and another action whose event is pending is one of those tagged.
   */
  ghost predicate FinishedKnown(s: Sys) {
    && (forall n {:trigger s.view.added[n]} :: 0 <= n < |s.view.added| && Count(s.view.queued, n) > 0 ==>
          (n in s.finished <==> s.view.added[n].ptr in s.pool.data.completed))
    && (forall n :: n in s.finished ==> n < FrontSerial(s.view) + One(s.view.steps != []))
    && (forall n :: n in s.finished <==> Finished(n) in s.log)
    && (forall sender :: sender in s.pending ==>
          if sender.OfStep? then sender.n in s.finished else sender.p in s.tagged)
  }

  /** What is known of the steps and their completion events. */
  ghost predicate Tracked(s: Sys) {
    StepsLinked(s) && G.SignalsKnown(s.pool) && FinishedKnown(s)
  }

  /** What every run keeps, orderly or not. */
  ghost predicate Known(s: Sys) {
    T.Inv(s.pool) && Tracked(s)
  }

  // ---------------------------------------------------------------- the log

  lemma LogGrows(log: seq<Entry>, e: Entry)
    requires LogOk(log) && (e.InitCall? ==> Caused(log + [e], |log|))
    ensures LogOk(log + [e])
  {
    var r := log + [e];
    forall j {:trigger r[j]} | 0 <= j < |r| && r[j].InitCall? ensures Caused(r, j) {
      if j < |log| {
        assert log[j] == r[j] && Caused(log, j);
        assert j > 0 ==> r[..j - 1] == log[..j - 1];
      }
    }
  }

  lemma {:induction false} RangeFront(a: nat, b: nat)
    requires a < b
    ensures Range(a, b) == [a] + Range(a + 1, b)
    decreases b - a
  {
    if a + 1 < b {
      RangeFront(a, b - 1);
    }
  }

  /** The Init calls of one handler, once the first of them has its cause. */
  lemma {:induction false} LogInits(log: seq<Entry>, a: nat, b: nat, running: bool)
    requires LogOk(log) && a <= b
    requires a < b ==> Caused(log + [InitCall(a, running && a + 1 == b)], |log|)
    ensures LogOk(log + InitCalls(Range(a, b), running))
    decreases b - a
  {
    if a == b {
      assert log + InitCalls(Range(a, b), running) == log;
    } else {
      var e := InitCall(a, running && a + 1 == b);
      InitCallsFront(a, b, running);
      LogGrows(log, e);
      LogInits(log + [e], a + 1, b, running);
      LogRegroup(log, e, InitCalls(Range(a + 1, b), running));
    }
  }

  lemma InitCallsFront(a: nat, b: nat, running: bool)
    requires a < b
    ensures InitCalls(Range(a, b), running) == [InitCall(a, running && a + 1 == b)] + InitCalls(Range(a + 1, b), running)
  {
    RangeFront(a, b);
    RangeLength(a, b);
    assert Range(a, b)[1..] == Range(a + 1, b);
  }

  lemma LogRegroup(log: seq<Entry>, e: Entry, more: seq<Entry>)
    ensures log + ([e] + more) == log + [e] + more
  {
  }

  lemma {:induction false} RangeLength(a: nat, b: nat)
    requires a <= b
    ensures |Range(a, b)| == b - a
    decreases b - a
  {
    if a < b {
      RangeLength(a, b - 1);
    }
  }

  lemma {:induction false} InitCallsFinishNothing(asked: seq<nat>, running: bool, n: nat)
    ensures Finished(n) !in InitCalls(asked, running)
  {
    if asked != [] {
      InitCallsFinishNothing(asked[1..], running, n);
    }
  }

  // ---------------------------------------------------------------- pool steps

  /** The pool posts the one completion event of a live action it was given. */
  ghost predicate NewSignal(s: P.State, t: P.State, p: P.Ptr) {
    && t.data.completed == s.data.completed + [p] && p !in s.data.completed
    && S.Live(s, p) && p in s.data.given
  }

  lemma PoolSignal(s: Sys, e: P.Event)
    requires T.Inv(s.pool) && G.SignalsKnown(s.pool) && P.Can(s.pool, e)
    ensures var pool := P.Next(s.pool, e);
      && G.SignalsKnown(pool)
      && (pool.data.completed == s.pool.data.completed || exists p :: NewSignal(s.pool, pool, p))
  {
    match e
    case MainStep(c) => G.MainKeepsSignals(s.pool, c);
    case WorkerStep(i, c) =>
      G.WorkerKeepsSignals(s.pool, i, c);
      var m := P.WorkerMoves(s.pool.workers[i], i, s.pool.data.queue, c);
      G.DeletedGrows(s.pool.data, m.effect, s.pool.max, 0);
      if m.effect.Signal? {
        G.SignalsOnce(s.pool, i, c);
        assert NewSignal(s.pool, P.Next(s.pool, e), m.effect.p);
      }
  }

  lemma PoolKeepsKnown(s: Sys, e: P.Event)
    requires Known(s) && CanSys(s, PoolEvent(e))
    ensures Known(PoolMoves(s, e))
  {
    PoolKeepsSysInv(s, e);
    PoolSignal(s, e);
    PoolFinishes(s, e, P.Next(s.pool, e));
  }

  lemma PoolFinishes(s: Sys, e: P.Event, pool: P.State)
    requires Tracked(s) && P.Can(s.pool, e) && pool == P.Next(s.pool, e)
    requires pool.data.completed == s.pool.data.completed || exists p :: NewSignal(s.pool, pool, p)
    ensures FinishedKnown(PoolMoves(s, e))
  {
    if pool.data.completed != s.pool.data.completed {
      var p :| NewSignal(s.pool, pool, p);
      assert pool.data.completed[|s.pool.data.completed|] == p;
      var n := SerialOf(s.view.added, p);
      if n.Some? {
        StepSignals(s, pool, n.value);
      } else {
        OtherSignals(s, pool, p);
      }
    }
  }

  /** The completion event of an action that is no step. */
  lemma OtherSignals(s: Sys, pool: P.State, p: P.Ptr)
    requires FinishedKnown(s) && NewSignal(s.pool, pool, p) && SerialOf(s.view.added, p).None?
    ensures FinishedKnown(s.(pool := pool))
    ensures p in s.tagged ==> FinishedKnown(s.(pool := pool, pending := s.pending + [OfOther(p)]))
  {
  }

  /** The completion event of a step: it is asynchronous and had none yet. */
  lemma StepSignals(s: Sys, pool: P.State, n: nat)
    requires StepsLinked(s) && FinishedKnown(s) && n < |s.view.added| && NewSignal(s.pool, pool, s.view.added[n].ptr)
    ensures n !in s.finished && Count(s.view.queued, n) > 0 && n < FrontSerial(s.view) + One(s.view.steps != [])
    ensures FinishedKnown(Signal(s.(pool := pool), n))
  {
    assert Count(s.view.queued, n) > 0;
    QueuedIsPast(s.view, n);
    assert n !in s.finished;
    var t := Signal(s.(pool := pool), n);
    forall k {:trigger s.view.added[k]} | 0 <= k < |s.view.added| && Count(s.view.queued, k) > 0
      ensures k in t.finished <==> s.view.added[k].ptr in pool.data.completed
    {
      assert s.view.added[k].ptr == s.view.added[n].ptr <==> k == n;
    }
  }

  lemma QueuedIsPast(v: View, n: nat)
    requires SeqInv(v) && Count(v.queued, n) > 0
    ensures n < FrontSerial(v) + One(v.steps != [])
  {
    var bound := FrontSerial(v) + One(v.steps != [] && v.isCurrentStepAsync);
    assert Count(v.freed, n) + Count(v.queued, n) == One(n < bound);
  }

  lemma SyncKeepsKnown(s: Sys)
    requires Known(s) && CanSys(s, SyncFinish)
    ensures Known(Signal(s, FrontSerial(s.view)))
  {
    var front := FrontSerial(s.view);
    var bound := front + One(s.view.steps != [] && s.view.isCurrentStepAsync);
    assert Count(s.view.freed, front) + Count(s.view.queued, front) == One(front < bound);
  }

  // ---------------------------------------------------------------- handlers

  lemma AdvancedAsks(v: View, declined: set<Ptr>) returns (b: nat)
    requires |v.steps| <= |v.added|
    ensures b >= FrontSerial(v) && Advanced(v, declined).inits == v.inits + Range(FrontSerial(v), b)
    ensures v.steps == [] <==> b == FrontSerial(v)
    ensures FrontSerial(Advanced(v, declined)) >= FrontSerial(v)
  {
    var front := FrontSerial(v);
    b := front;
    if v.steps == [] {
      assert v.inits + Range(front, front) == v.inits;
    } else {
      var k := FirstAccepted(v.steps, declined);
      b := front + k;
      if k < |v.steps| {
        b := front + k + 1;
        assert v.inits + Range(front, front + k) + [front + k] == v.inits + Range(front, front + k + 1);
      }
    }
  }

  /** A handler asks consecutive steps. */
  lemma HandleAsks(v: View, h: Handler) returns (b: nat)
    requires SeqInv(v)
    ensures FirstAsked(v, h) >= 0 && b >= FirstAsked(v, h)
    ensures Handle(v, h).inits == v.inits + Range(FirstAsked(v, h), b)
    ensures h.ActionComplete? && |v.steps| > 1 ==> b > FirstAsked(v, h)
    ensures b > FirstAsked(v, h) ==> (h.Build? && !v.isRunning) || (h.ActionComplete? && |v.steps| > 1)
  {
    b := FirstAsked(v, h);
    assert v.inits + Range(b, b) == v.inits;
    if h.Build? && !v.isRunning {
      b := AdvancedAsks(WithSteps(v, h.actions), h.declined);
    } else if h.ActionComplete? && |v.steps| > 1 {
      b := AdvancedAsks(Popped(v).(isRunning := true), h.declined);
    }
  }

  /** A completion event delivered while more than one step is left is the front step's, which has finished. */
  ghost predicate OwnEvent(s: Sys, h: Handler) {
    h.ActionComplete? && |s.view.steps| > 1 ==>
      && s.pending != [] && SentByFront(s.view, s.pending[0])
      && Finished(s.pending[0].n) in s.log
  }

  /** The first step a handler asks has its cause in the log. */
  lemma FirstIsCaused(s: Sys, h: Handler, accepted: bool)
    requires SeqInv(s.view) && OwnEvent(s, h) && CanSys(s, Call(h))
    requires (h.Build? && !s.view.isRunning) || (h.ActionComplete? && |s.view.steps| > 1)
    ensures var a := FirstAsked(s.view, h); var start := s.log + Occasion(s, h);
      a >= 0 && Caused(start + [InitCall(a, accepted)], |start|)
  {
    var a := FirstAsked(s.view, h);
    var start := s.log + Occasion(s, h);
    var r := start + [InitCall(a, accepted)];
    assert r[|start| - 1] == Occasion(s, h)[0];
    if h.ActionComplete? {
      assert r[..|start| - 1] == s.log;
    }
  }

  lemma OccasionLogs(s: Sys, h: Handler)
    requires LogOk(s.log) && (h.ActionComplete? ==> s.pending != [])
    ensures LogOk(s.log + Occasion(s, h))
  {
    if Occasion(s, h) == [] {
      assert s.log + Occasion(s, h) == s.log;
    } else {
      LogGrows(s.log, Occasion(s, h)[0]);
    }
  }

  /** What a handler adds to the log. */
  lemma CallAdds(s: Sys, h: Handler) returns (a: nat, b: nat)
    requires SeqInv(s.view) && CanSys(s, Call(h))
    ensures a == FirstAsked(s.view, h) && a <= b
    ensures h.ActionComplete? && |s.view.steps| > 1 ==> a < b
    ensures a < b ==> (h.Build? && !s.view.isRunning) || (h.ActionComplete? && |s.view.steps| > 1)
    ensures Handled(s, h).log == s.log + Occasion(s, h) + InitCalls(Range(a, b), Handle(s.view, h).isRunning)
  {
    b := HandleAsks(s.view, h);
    a := FirstAsked(s.view, h);
    assert Handle(s.view, h).inits[|s.view.inits|..] == Range(a, b);
  }

  lemma CallFinishesNothing(s: Sys, h: Handler)
    requires SeqInv(s.view) && CanSys(s, Call(h))
    ensures forall n :: Finished(n) in Handled(s, h).log <==> Finished(n) in s.log
  {
    var a, b := CallAdds(s, h);
    var running := Handle(s.view, h).isRunning;
    forall n ensures Finished(n) in Handled(s, h).log <==> Finished(n) in s.log {
      InitCallsFinishNothing(Range(a, b), running, n);
      assert Finished(n) !in Occasion(s, h);
    }
  }

  lemma CallLogs(s: Sys, h: Handler)
    requires SeqInv(s.view) && LogOk(s.log) && OwnEvent(s, h) && CanSys(s, Call(h))
    ensures LogOk(Handled(s, h).log)
  {
    var a, b := CallAdds(s, h);
    var v := Handle(s.view, h);
    OccasionLogs(s, h);
    if a < b {
      FirstIsCaused(s, h, v.isRunning && a + 1 == b);
    }
    LogInits(s.log + Occasion(s, h), a, b, v.isRunning);
  }

  lemma MainMovesSignals(pool: P.State, c: P.Call)
    requires G.SignalsKnown(pool)
    ensures var t := P.MainNext(pool, c);
      && G.SignalsKnown(t) && t.data.completed == pool.data.completed
      && forall p :: t.data.deleted[p] >= pool.data.deleted[p]
  {
    G.MainKeepsSignals(pool, c);
    forall p ensures P.MainNext(pool, c).data.deleted[p] >= pool.data.deleted[p] {
      G.DeletedGrows(pool.data, P.MainMoves(pool, c).effect, pool.max, p);
    }
  }

  /** Steps queued by now that were not before this handler: only the new front. */
  lemma QueuedByCall(s: Sys, h: Handler, w: View, n: nat)
    requires Tracked(s) && CallCan(s, h) && Grown(s.view, h, w)
    requires Count(w.queued, n) > 0 && Count(s.view.queued, n) == 0
    ensures n < |w.added| && w.added[n].ptr !in s.pool.data.given && n !in s.finished && w.steps != [] && n == FrontSerial(w)
  {
    O.CountPush(s.view.queued, FrontSerial(w), n);
    NewlyQueued(s, h, w);
  }

  /** What a handler leaves of the queue of completion events and of the pool. */
  ghost predicate Passed(s: Sys, h: Handler, t: Sys) {
    && Grown(s.view, h, t.view) && t.finished == s.finished && t.tagged == s.tagged
    && (forall p {:trigger p in s.tagged} :: p in s.tagged && p in t.pool.data.given ==> p in s.pool.data.given)
    && (h.ActionComplete? ==> s.pending != [])
    && t.pending == (if h.ActionComplete? then s.pending[1..] else s.pending)
    && (s.view.isRunning && h.Build? ==> t.view == s.view)
    && (h.StopIt? ==> t.view.steps == [])
    && t.pool.data.completed == s.pool.data.completed
    && forall p :: t.pool.data.deleted[p] >= s.pool.data.deleted[p]
  }

  /** The step a handler queues is new to the pool and is not one of the other actions. */
  lemma QueuedIsNew(s: Sys, h: Handler, w: View)
    requires CallCan(s, h) && Grown(s.view, h, w) && w.queued != s.view.queued
    ensures var p := w.added[FrontSerial(w)].ptr; p !in s.pool.data.given && p !in s.tagged
  {
    AddedStaysDistinct(s, h, w);
    NewlyQueued(s, h, w);
  }

  /** Giving the pool a step signals nothing and gives no other action. */
  lemma CallQueuePasses(s: Sys, p: P.Ptr, pool: P.State)
    requires T.Inv(s.pool) && G.SignalsKnown(s.pool) && s.pool.main.Idle? && p !in s.pool.data.given && p !in s.tagged
    requires pool == P.MainNext(s.pool, P.CallQueue(p))
    ensures G.SignalsKnown(pool) && pool.data.completed == s.pool.data.completed
    ensures forall q :: pool.data.deleted[q] >= s.pool.data.deleted[q]
    ensures forall q {:trigger q in s.tagged} :: q in s.tagged && q in pool.data.given ==> q in s.pool.data.given
  {
    CallQueueMoves(s.pool, p);
  }

  lemma CallQueueMoves(pool: P.State, p: P.Ptr)
    requires T.Inv(pool) && G.SignalsKnown(pool) && pool.main.Idle? && p !in pool.data.given
    ensures var t := P.MainNext(pool, P.CallQueue(p));
      && G.SignalsKnown(t) && t.data.completed == pool.data.completed && t.data.given == pool.data.given + {p}
      && forall q :: t.data.deleted[q] >= pool.data.deleted[q]
  {
    MainMovesSignals(pool, P.CallQueue(p));
    GivenGrows(pool, P.MainStep(P.CallQueue(p)));
  }

  lemma CallPasses(s: Sys, h: Handler)
    requires Known(s) && CallCan(s, h)
    ensures Passed(s, h, Handled(s, h)) && G.SignalsKnown(Handled(s, h).pool)
  {
    var w := Handle(s.view, h);
    HandleGrows(s.view, h);
    HandledPool(s, h, w);
    if w.queued != s.view.queued {
      QueuedIsNew(s, h, w);
      CallQueuePasses(s, w.added[FrontSerial(w)].ptr, Handled(s, h).pool);
    }
  }

  lemma CallFinished(s: Sys, h: Handler, t: Sys)
    requires Known(s) && CallCan(s, h) && Passed(s, h, t)
    requires forall n :: Finished(n) in t.log <==> Finished(n) in s.log
    ensures FinishedKnown(t)
  {
    AddedStaysDistinct(s, h, t.view);
    forall n {:trigger t.view.added[n]} | 0 <= n < |t.view.added| && Count(t.view.queued, n) > 0
      ensures n in t.finished <==> t.view.added[n].ptr in t.pool.data.completed
    {
      if Count(s.view.queued, n) == 0 {
        QueuedByCall(s, h, t.view, n);
        if t.view.added[n].ptr in s.pool.data.completed {
          G.CompletedWereGiven(s.pool, t.view.added[n].ptr);
        }
      } else {
        QueuedIsPast(s.view, n);
        assert t.view.added[n] == s.view.added[n];
      }
    }
  }

  lemma CallKeepsKnown(s: Sys, h: Handler)
    requires Known(s) && CanSys(s, Call(h))
    ensures Known(Handled(s, h))
  {
    CallKeepsSysInv(s, h);
    CallPasses(s, h);
    CallFinishesNothing(s, h);
    CallFinished(s, h, Handled(s, h));
  }

  // ---------------------------------------------------------------- every run

  lemma StepKnown(s: Sys, e: SysEvent)
    requires Known(s) && CanSys(s, e)
    ensures Known(NextSys(s, e))
  {
    match e
    case PoolEvent(e) => PoolKeepsKnown(s, e);
    case SyncFinish => SyncKeepsKnown(s);
    case Call(h) => CallKeepsKnown(s, h);
  }

  lemma FirstKnown(s: Sys)
    requires Begins(s)
    ensures Known(s) && s.log == [] && s.view.steps == []
  {
    T.InitInv(s.pool.max);
    BeginsLinked(s);
  }

  lemma NextKnown(run: seq<Sys>, events: seq<SysEvent>, k: nat)
    requires Continues(run, events) && 0 < k < |run| && Known(run[k - 1])
    ensures Known(run[k])
  {
    assert SysStepAt(run, events, k - 1);
    StepKnown(run[k - 1], events[k - 1]);
  }

  lemma {:induction false} ContinuesKnown(run: seq<Sys>, events: seq<SysEvent>, k: nat)
    requires Continues(run, events) && Known(run[0]) && k < |run|
    ensures Known(run[k])
  {
    if k > 0 {
      ContinuesKnown(run, events, k - 1);
      NextKnown(run, events, k);
    }
  }

  // ---------------------------------------------------------------- when the order holds

  /** A completion event is delivered that is not the front step's, while another step waits behind it. */
  predicate Stray(s: Sys, e: SysEvent) {
    e.Call? && e.h.ActionComplete? && |s.view.steps| > 1 && s.pending != [] && !SentByFront(s.view, s.pending[0])
  }

  predicate StrayAt(run: seq<Sys>, events: seq<SysEvent>, n: int)
    requires 0 <= n < |events| < |run|
  {
    Stray(run[n], events[n])
  }

  predicate NoStray(run: seq<Sys>, events: seq<SysEvent>, k: nat)
    requires k <= |events| < |run|
  {
    forall n :: 0 <= n < k ==> !StrayAt(run, events, n)
  }

  lemma OwnUnlessStray(s: Sys, h: Handler)
    requires FinishedKnown(s) && CanSys(s, Call(h)) && !Stray(s, Call(h))
    ensures OwnEvent(s, h)
  {
    if h.ActionComplete? && |s.view.steps| > 1 {
      assert s.pending[0] in s.pending;
    }
  }

  lemma PoolLogs(s: Sys, e: P.Event)
    requires P.Can(s.pool, e)
    ensures var t := PoolMoves(s, e); t.log == s.log || exists n :: t.log == s.log + [Finished(n)]
  {
  }

  lemma StepKeepsLog(s: Sys, e: SysEvent)
    requires Known(s) && CanSys(s, e) && LogOk(s.log) && !Stray(s, e)
    ensures LogOk(NextSys(s, e).log)
  {
    match e
    case PoolEvent(e) =>
      PoolLogs(s, e);
      if PoolMoves(s, e).log != s.log {
        var n :| PoolMoves(s, e).log == s.log + [Finished(n)];
        LogGrows(s.log, Finished(n));
      }
    case SyncFinish => LogGrows(s.log, Finished(FrontSerial(s.view)));
    case Call(h) =>
      OwnUnlessStray(s, h);
      CallLogs(s, h);
  }

  lemma StepExtendsLog(s: Sys, e: SysEvent)
    requires Known(s) && CanSys(s, e)
    ensures s.log <= NextSys(s, e).log
  {
    match e
    case PoolEvent(e) => PoolLogs(s, e);
    case SyncFinish =>
    case Call(h) => var a, b := CallAdds(s, h);
  }

  lemma PrefixOk(log: seq<Entry>, more: seq<Entry>)
    requires log <= more && LogOk(more)
    ensures LogOk(log)
  {
    forall j {:trigger log[j]} | 0 <= j < |log| && log[j].InitCall? ensures Caused(log, j) {
      assert more[j] == log[j] && Caused(more, j);
      assert j > 0 ==> more[j - 1] == log[j - 1] && more[..j - 1] == log[..j - 1];
    }
  }

  lemma NoCause(log: seq<Entry>, j: int, sender: Sender)
    requires 1 <= j < |log| && log[j].InitCall? && log[j - 1] == Delivered(sender)
    requires sender.OfOther? || sender.n + 1 != log[j].n
    ensures !LogOk(log)
  {
    assert !Caused(log, j);
  }

  /** After a stray delivery a step is asked that has no cause. */
  lemma StrayBreaks(s: Sys, e: SysEvent)
    requires Known(s) && CanSys(s, e) && Stray(s, e)
    ensures !LogOk(NextSys(s, e).log)
  {
    var a, b := CallAdds(s, e.h);
    var running := Handle(s.view, e.h).isRunning;
    InitCallsFront(a, b, running);
    NoCause(Handled(s, e.h).log, |s.log| + 1, s.pending[0]);
  }

  lemma NextLog(run: seq<Sys>, events: seq<SysEvent>, k: nat)
    requires Continues(run, events) && 0 < k < |run| && Known(run[k - 1])
    ensures LogOk(run[k].log) <==> LogOk(run[k - 1].log) && !StrayAt(run, events, k - 1)
  {
    var s, e := run[k - 1], events[k - 1];
    assert SysStepAt(run, events, k - 1);
    if Stray(s, e) {
      StrayBreaks(s, e);
    } else if LogOk(s.log) {
      StepKeepsLog(s, e);
    } else {
      StepExtendsLog(s, e);
      if LogOk(run[k].log) {
        PrefixOk(s.log, run[k].log);
      }
    }
  }

  lemma NoStrayNext(run: seq<Sys>, events: seq<SysEvent>, k: nat)
    requires 0 < k <= |events| < |run|
    ensures NoStray(run, events, k) <==> NoStray(run, events, k - 1) && !StrayAt(run, events, k - 1)
  {
  }

  ghost predicate OrderedSoFar(run: seq<Sys>, events: seq<SysEvent>, k: nat)
    requires k <= |events| < |run|
  {
    LogOk(run[k].log) <==> NoStray(run, events, k)
  }

  lemma OrderedNext(run: seq<Sys>, events: seq<SysEvent>, k: nat)
    requires Continues(run, events) && 0 < k < |run| && Known(run[k - 1]) && OrderedSoFar(run, events, k - 1)
    ensures OrderedSoFar(run, events, k)
  {
    NextLog(run, events, k);
    NoStrayNext(run, events, k);
  }

  lemma OrderedFirst(run: seq<Sys>, events: seq<SysEvent>)
    requires |events| < |run| && LogOk(run[0].log)
    ensures OrderedSoFar(run, events, 0)
  {
  }

  lemma OrderedLater(run: seq<Sys>, events: seq<SysEvent>, k: nat)
    requires Continues(run, events) && Known(run[0]) && 0 < k < |run| && OrderedSoFar(run, events, k - 1)
    ensures OrderedSoFar(run, events, k)
  {
    ContinuesKnown(run, events, k - 1);
    OrderedNext(run, events, k);
  }

  lemma {:induction false} LogOkUnlessStray(run: seq<Sys>, events: seq<SysEvent>, k: nat)
    requires Continues(run, events) && Known(run[0]) && LogOk(run[0].log) && k < |run|
    ensures OrderedSoFar(run, events, k)
  {
    if k == 0 {
      OrderedFirst(run, events);
    } else {
      LogOkUnlessStray(run, events, k - 1);
      OrderedLater(run, events, k);
    }
  }

  /**
    In every run, orderly or not: the steps have come one after the other up to here if and only if
    no completion event of another step or action was delivered while a step waited behind the front.
   */
  lemma OrderedUnlessStray(run: seq<Sys>, events: seq<SysEvent>, k: nat)
    requires IsSysRun(run, events) && k < |run|
    ensures LogOk(run[k].log) <==> NoStray(run, events, k)
  {
    FirstKnown(run[0]);
    LogOkUnlessStray(run, events, k);
  }
}
