/**
  The order of a sequence with at least two steps behind the front one, whatever the front is doing:
  it can be relied on exactly when no other completion event is pending or still to come. The front's
  own event may come first; the other one then overtakes the step after it.
 */
module SequenceRaces {
  import opened Sequence
  import opened SequenceLaws
  import opened SequencePool
  import opened SequenceLog
  import opened SequenceOrder
  import opened SequenceLimits
  import P = Pool
  import S = PoolSafety
  import R = PoolProgress
  import V = PoolReturns

  /** An orderly run from s at whose end the order is lost. */
  ghost predicate LosesOrder(run: seq<Sys>, events: seq<SysEvent>, s: Sys) {
    OrderlyFrom(run, events, s) && !LogOk(run[|events|].log)
  }

  lemma LosesLater(s: Sys, e: SysEvent, run: seq<Sys>, events: seq<SysEvent>)
    requires CanSys(s, e) && Orderly(s, e) && LosesOrder(run, events, NextSys(s, e))
    ensures LosesOrder([s] + run, [e] + events, s)
  {
    Prepended(s, e, run, events);
    StillOrderly(s, e, run, events, 0);
  }

  /** The first pending event is another's, and a step waits behind the front. */
  predicate StrayWaits(s: Sys) {
    |s.view.steps| > 1 && s.pending != [] && !SentByFront(s.view, s.pending[0])
  }

  lemma StrayLoses(s: Sys) returns (run: seq<Sys>, events: seq<SysEvent>)
    requires Known(s) && s.pool.main.Idle? && StrayWaits(s)
    ensures LosesOrder(run, events, s)
  {
    var e := Call(ActionComplete({}));
    StrayBreaks(s, e);
    run, events := OneEvent(s, e);
    assert SysStepAt(run, events, 0);
  }

  /** What the pool does leaves the sequence alone and adds at most one event at the end. */
  lemma PoolAppends(s: Sys, e: P.Event)
    requires P.Can(s.pool, e)
    ensures var t := PoolMoves(s, e);
      && t.view == s.view && t.tagged == s.tagged
      && (t.pending == s.pending || (t.pending != [] && t.pending[..|t.pending| - 1] == s.pending))
  {
  }

  lemma StillWaits(s: Sys, e: P.Event)
    requires P.Can(s.pool, e) && StrayWaits(s)
    ensures StrayWaits(PoolMoves(s, e))
  {
    PoolAppends(s, e);
    var t := PoolMoves(s, e);
    assert t.pending[0] == s.pending[0];
  }

  lemma WaitStep(s: Sys) returns (e: P.Event)
    requires Known(s) && StrayWaits(s) && !s.pool.main.Idle?
    ensures CanSys(s, PoolEvent(e)) && Orderly(s, PoolEvent(e))
    ensures var t := PoolMoves(s, e); Known(t) && StrayWaits(t) && V.Closer(t.pool, s.pool)
  {
    e := V.ReturnStep(s.pool);
    StepKnown(s, PoolEvent(e));
    StillWaits(s, e);
    PoolMovesView(s, e);
  }

  /** Once the main thread has returned from the pool's Queue the event is delivered. */
  lemma {:induction false} ReturnsAndLoses(s: Sys) returns (run: seq<Sys>, events: seq<SysEvent>)
    requires Known(s) && StrayWaits(s)
    ensures LosesOrder(run, events, s)
    decreases V.Left(s.pool), V.Target(s.pool), V.Load(s.pool)
  {
    if s.pool.main.Idle? {
      run, events := StrayLoses(s);
    } else {
      var e := WaitStep(s);
      run, events := ReturnsAndLoses(PoolMoves(s, e));
      LosesLater(s, PoolEvent(e), run, events);
      run, events := [s] + run, [PoolEvent(e)] + events;
    }
  }

  // ---------------------------------------------------------------- the front's event first

  lemma NextFront(v: View)
    requires |v.steps| <= |v.added| && |v.steps| > 1
    ensures var w := Completed(v, {}); w.steps == v.steps[1..] && w.added == v.added
  {
    var u := Popped(v).(isRunning := true);
    assert u.steps == v.steps[1..];
    assert FirstAccepted(u.steps, {}) == 0;
    assert u.steps[0..] == u.steps;
  }

  /** The front's event is delivered; the one behind it overtakes the next step. */
  lemma SecondOvertakes(s: Sys)
    requires Known(s) && s.pool.main.Idle? && |s.view.steps| > 2 && |s.pending| > 1
    ensures CanSys(s, Call(ActionComplete({}))) && StrayWaits(Handled(s, ActionComplete({})))
  {
    NextFront(s.view);
    assert s.pending[1] in s.pending;
  }

  lemma PendingLoses(s: Sys) returns (run: seq<Sys>, events: seq<SysEvent>)
    requires Known(s) && s.pool.main.Idle? && |s.view.steps| > 2 && !Quiet(s)
    ensures LosesOrder(run, events, s)
  {
    if StrayWaits(s) {
      run, events := StrayLoses(s);
    } else {
      var e := Call(ActionComplete({}));
      SecondOvertakes(s);
      StepKnown(s, e);
      run, events := ReturnsAndLoses(NextSys(s, e));
      LosesLater(s, e, run, events);
      run, events := [s] + run, [e] + events;
    }
  }

  /** At most the front's event is pending. */
  predicate Quiet(s: Sys) {
    s.pending == [] || (|s.pending| == 1 && SentByFront(s.view, s.pending[0]))
  }

  // ---------------------------------------------------------------- an event still to come

  /** Another action than the front whose event would reach the sequence is alive and has not posted it. */
  ghost predicate OtherSource(s: Sys, x: Ptr) {
    && S.Live(s.pool, x) && x !in s.pool.data.completed
    && (x in s.tagged || exists n {:trigger s.view.added[n]} :: 0 <= n < FrontSerial(s.view) <= |s.view.added| && s.view.added[n].ptr == x)
  }

  lemma OtherSourceUnlessCalm(s: Sys) returns (x: Ptr)
    requires Known(s) && s.view.steps != [] && Quiet(s) && !Calm(s)
    ensures OtherSource(s, x)
  {
    if !OthersSettled(s) {
      x :| x in s.tagged && x in s.pool.data.given && !(x in s.pool.data.completed || s.pool.data.deleted[x] >= 1);
    } else {
      assert !EarlierSettled(s);
      var n :| 0 <= n < FrontSerial(s.view) <= |s.view.added| && Count(s.view.queued, n) > 0
        && !(n in s.finished || s.pool.data.deleted[s.view.added[n].ptr] >= 1);
      x := s.view.added[n].ptr;
    }
  }

  /** When the action posts its event, that is not the front's. */
  lemma OtherPosts(s: Sys, e: P.Event, x: Ptr)
    requires Known(s) && CanSys(s, PoolEvent(e)) && OtherSource(s, x) && s.view.steps != []
    requires x in P.Next(s.pool, e).data.completed
    ensures !Quiet(PoolMoves(s, e))
  {
    PoolSignal(s, e);
    var pool := P.Next(s.pool, e);
    var p :| NewSignal(s.pool, pool, p);
    assert pool.data.completed[|s.pool.data.completed|] == p;
    assert p == x;
    NotTheFront(s, x);
    PoolAppends(s, e);
    var t := PoolMoves(s, e);
    assert t.pending[|t.pending| - 1] == if SerialOf(s.view.added, x).Some? then OfStep(SerialOf(s.view.added, x).value) else OfOther(x);
  }

  lemma NotTheFront(s: Sys, x: Ptr)
    requires StepsLinked(s) && OtherSource(s, x)
    ensures var n := SerialOf(s.view.added, x); if n.Some? then n.value < FrontSerial(s.view) else x in s.tagged
  {
    var n := SerialOf(s.view.added, x);
    if n.Some? {
      assert x !in s.tagged;
    }
  }

  lemma OtherSourceStays(s: Sys, e: P.Event, x: Ptr)
    requires Known(s) && CanSys(s, PoolEvent(e)) && OtherSource(s, x) && s.view.steps != []
    requires S.Live(P.Next(s.pool, e), x) && Quiet(PoolMoves(s, e))
    ensures OtherSource(PoolMoves(s, e), x)
  {
    if x in P.Next(s.pool, e).data.completed {
      OtherPosts(s, e, x);
    }
    PoolMovesView(s, e);
  }

  /** The workers bring the action to its end, and the front's own event may come before. */
  lemma {:induction false} SourceLoses(s: Sys, x: Ptr) returns (run: seq<Sys>, events: seq<SysEvent>)
    requires Known(s) && s.pool.main.Idle? && |s.view.steps| > 2 && Quiet(s) && OtherSource(s, x)
    ensures LosesOrder(run, events, s)
    decreases R.Remaining(s.pool)
  {
    var i := R.ProgressStep(s.pool, x);
    var e := P.WorkerStep(i, P.Finish);
    var t := PoolMoves(s, e);
    StepKnown(s, PoolEvent(e));
    PoolMovesView(s, e);
    if Quiet(t) {
      OtherSourceStays(s, e, x);
      run, events := SourceLoses(t, x);
    } else {
      run, events := PendingLoses(t);
    }
    LosesLater(s, PoolEvent(e), run, events);
    run, events := [s] + run, [PoolEvent(e)] + events;
  }

  /**
    While at least two steps wait behind the front one, whether it runs on the main thread or in the
    pool, has finished or not: every orderly continuation keeps the order if and only if no other
    completion event is pending or still to come.
   */
  lemma OrderedExactlyWhenCalmBehind(s: Sys)
    requires Known(s) && LogOk(s.log) && s.pool.main.Idle? && |s.view.steps| > 2
    ensures StaysOrdered(s) <==> Calm(s)
  {
    if Calm(s) {
      forall run: seq<Sys>, events: seq<SysEvent> | OrderlyFrom(run, events, s) ensures LogOk(run[|events|].log) {
        OrderlyContinues(run, events, |events|);
      }
    } else {
      var run, events := UncalmLoses(s);
    }
  }

  lemma UncalmLoses(s: Sys) returns (run: seq<Sys>, events: seq<SysEvent>)
    requires Known(s) && s.pool.main.Idle? && |s.view.steps| > 2 && !Calm(s)
    ensures LosesOrder(run, events, s)
  {
    if Quiet(s) {
      var x := OtherSourceUnlessCalm(s);
      run, events := SourceLoses(s, x);
    } else {
      run, events := PendingLoses(s);
    }
  }
}
