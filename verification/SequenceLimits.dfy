/**
  When the order of a sequence's steps is lost: exactly when a completion event that is not the
  front step's is pending or still to come. From every such state some interleaving leads to a step
  that is initialised before the one in front of it has finished.
 */
module SequenceLimits {
  import opened Sequence
  import opened SequenceLaws
  import opened SequencePool
  import opened SequenceLog
  import opened SequenceOrder
  import P = Pool
  import S = PoolSafety
  import R = PoolProgress

  /** The front step runs on the main thread and has not finished, and another one waits behind it. */
  predicate AtSyncStep(s: Sys) {
    && s.pool.main.Idle? && |s.view.steps| > 1
    && !s.view.isCurrentStepAsync && FrontSerial(s.view) !in s.finished
  }

  ghost predicate OrderlyFrom(run: seq<Sys>, events: seq<SysEvent>, s: Sys) {
    Continues(run, events) && run[0] == s && IsOrderly(run, events, 0)
  }

  /** However an orderly run goes on from s, the steps come one after the other. */
  ghost predicate StaysOrdered(s: Sys) {
    forall run: seq<Sys>, events: seq<SysEvent> :: OrderlyFrom(run, events, s) ==> LogOk(run[|events|].log)
  }

  /** The last event of the run delivers another's completion event while the front step of s is still at work. */
  ghost predicate Overtakes(run: seq<Sys>, events: seq<SysEvent>, s: Sys) {
    && OrderlyFrom(run, events, s) && events != []
    && var last := run[|events| - 1];
      && last.view == s.view && last.tagged == s.tagged && FrontSerial(s.view) !in last.finished
      && Stray(last, events[|events| - 1])
  }

  // ---------------------------------------------------------------- putting runs together

  lemma Prepended(s: Sys, e: SysEvent, run: seq<Sys>, events: seq<SysEvent>)
    requires Continues(run, events) && CanSys(s, e) && run[0] == NextSys(s, e)
    ensures Continues([s] + run, [e] + events)
    ensures forall n :: 0 <= n < |events| && OrderlyAt(run, events, n) ==> OrderlyAt([s] + run, [e] + events, n + 1)
  {
    var r, es := [s] + run, [e] + events;
    forall n | 0 <= n < |es| ensures SysStepAt(r, es, n) {
      if n > 0 {
        assert SysStepAt(run, events, n - 1);
      }
    }
  }

  lemma StillOrderly(s: Sys, e: SysEvent, run: seq<Sys>, events: seq<SysEvent>, from: nat)
    requires Continues(run, events) && IsOrderly(run, events, 0) && CanSys(s, e) && run[0] == NextSys(s, e)
    requires from == 1 || (from == 0 && Orderly(s, e))
    ensures IsOrderly([s] + run, [e] + events, from)
  {
    var r, es := [s] + run, [e] + events;
    Prepended(s, e, run, events);
    forall n | from <= n < |es| ensures OrderlyAt(r, es, n) {
      if n > 0 {
        assert OrderlyAt(run, events, n - 1);
      }
    }
  }

  lemma Joined(run: seq<Sys>, events: seq<SysEvent>, rest: seq<Sys>, more: seq<SysEvent>)
    requires Continues(run, events) && Continues(rest, more) && run[|events|] == rest[0]
    ensures Continues(run + rest[1..], events + more)
  {
    var r, es := run + rest[1..], events + more;
    forall n | 0 <= n < |es| ensures SysStepAt(r, es, n) {
      if n < |events| {
        assert SysStepAt(run, events, n);
      } else {
        assert SysStepAt(rest, more, n - |events|);
      }
    }
  }

  // ---------------------------------------------------------------- an event that is pending

  lemma OneEvent(s: Sys, e: SysEvent) returns (run: seq<Sys>, events: seq<SysEvent>)
    requires CanSys(s, e) && Orderly(s, e)
    ensures OrderlyFrom(run, events, s) && events == [e] && run[0] == s
  {
    run, events := [s, NextSys(s, e)], [e];
    assert SysStepAt(run, events, 0);
  }

  /** A pending event while the front step is still at work is another's. */
  lemma PendingOvertakes(s: Sys) returns (run: seq<Sys>, events: seq<SysEvent>)
    requires Known(s) && AtSyncStep(s) && s.pending != []
    ensures Overtakes(run, events, s)
  {
    assert s.pending[0] in s.pending;
    run, events := OneEvent(s, Call(ActionComplete({})));
  }

  // ---------------------------------------------------------------- an event that is still to come

  /** An action whose completion event would reach the sequence is alive and has not posted it. */
  ghost predicate Source(s: Sys, x: Ptr) {
    S.Live(s.pool, x) && x !in s.pool.data.completed && (x in s.tagged || x in Ptrs(s.view.added))
  }

  lemma SourceUnlessCalm(s: Sys) returns (x: Ptr)
    requires Known(s) && s.pending == [] && s.view.steps != [] && !Calm(s)
    ensures Source(s, x)
  {
    if !OthersSettled(s) {
      x :| x in s.tagged && x in s.pool.data.given && !(x in s.pool.data.completed || s.pool.data.deleted[x] >= 1);
    } else {
      assert !EarlierSettled(s);
      var n :| 0 <= n < |s.view.added| && Count(s.view.queued, n) > 0
        && !(n in s.finished || s.pool.data.deleted[s.view.added[n].ptr] >= 1);
      x := s.view.added[n].ptr;
    }
  }

  /** The pool finishes asynchronous steps only. */
  lemma SyncStepStays(s: Sys, e: P.Event)
    requires Known(s) && AtSyncStep(s) && CanSys(s, PoolEvent(e)) && e.WorkerStep?
    ensures AtSyncStep(PoolMoves(s, e)) && PoolMoves(s, e).view == s.view && PoolMoves(s, e).tagged == s.tagged
  {
    PoolSignal(s, e);
    var pool := P.Next(s.pool, e);
    FrontIsNotQueued(s.view);
    if pool.data.completed != s.pool.data.completed {
      var p :| NewSignal(s.pool, pool, p);
      assert pool.data.completed[|s.pool.data.completed|] == p;
      var n := SerialOf(s.view.added, p);
      if n.Some? {
        StepSignals(s, pool, n.value);
      }
    }
  }

  lemma FrontIsNotQueued(v: View)
    requires SeqInv(v) && v.steps != [] && !v.isCurrentStepAsync
    ensures Count(v.queued, FrontSerial(v)) == 0
  {
    assert Count(v.freed, FrontSerial(v)) + Count(v.queued, FrontSerial(v)) == 0;
  }

  /** As long as no event is pending the action has not posted its own. */
  lemma SourceStays(s: Sys, e: P.Event, x: Ptr)
    requires Known(s) && CanSys(s, PoolEvent(e)) && Source(s, x) && S.Live(P.Next(s.pool, e), x)
    requires PoolMoves(s, e).pending == [] == s.pending
    ensures Source(PoolMoves(s, e), x)
  {
    PoolSignal(s, e);
    var pool := P.Next(s.pool, e);
    if pool.data.completed != s.pool.data.completed {
      var p :| NewSignal(s.pool, pool, p);
      assert pool.data.completed[|s.pool.data.completed|] == p;
    }
  }

  lemma OvertakesLater(s: Sys, e: SysEvent, run: seq<Sys>, events: seq<SysEvent>)
    requires CanSys(s, e) && Orderly(s, e) && Overtakes(run, events, NextSys(s, e))
    requires NextSys(s, e).view == s.view && NextSys(s, e).tagged == s.tagged
    ensures Overtakes([s] + run, [e] + events, s)
  {
    Prepended(s, e, run, events);
    StillOrderly(s, e, run, events, 0);
  }

  /** The workers bring the action to its end, and the first event that reaches the queue is not the front step's. */
  lemma {:induction false} SourceOvertakes(s: Sys, x: Ptr) returns (run: seq<Sys>, events: seq<SysEvent>)
    requires Known(s) && AtSyncStep(s) && s.pending == [] && Source(s, x)
    ensures Overtakes(run, events, s)
    decreases R.Remaining(s.pool)
  {
    var i := R.ProgressStep(s.pool, x);
    var e := P.WorkerStep(i, P.Finish);
    var t := PoolMoves(s, e);
    StepKnown(s, PoolEvent(e));
    SyncStepStays(s, e);
    if t.pending == [] {
      SourceStays(s, e, x);
      run, events := SourceOvertakes(t, x);
    } else {
      run, events := PendingOvertakes(t);
    }
    OvertakesLater(s, PoolEvent(e), run, events);
    run, events := [s] + run, [PoolEvent(e)] + events;
  }

  lemma UnlessCalmOvertakes(s: Sys) returns (run: seq<Sys>, events: seq<SysEvent>)
    requires Known(s) && AtSyncStep(s) && !Calm(s)
    ensures Overtakes(run, events, s)
  {
    if s.pending != [] {
      run, events := PendingOvertakes(s);
    } else {
      var x := SourceUnlessCalm(s);
      run, events := SourceOvertakes(s, x);
    }
  }

  lemma OvertakingBreaks(run: seq<Sys>, events: seq<SysEvent>, s: Sys)
    requires Known(s) && Overtakes(run, events, s)
    ensures !LogOk(run[|events|].log)
  {
    var n := |events| - 1;
    ContinuesKnown(run, events, n);
    assert SysStepAt(run, events, n);
    StrayBreaks(run[n], events[n]);
  }

  /**
    While a step runs on the main thread and another waits behind it, every orderly continuation
    keeps the order if and only if no other completion event is pending or still to come.
   */
  lemma OrderedExactlyWhenCalm(s: Sys)
    requires Known(s) && LogOk(s.log) && AtSyncStep(s)
    ensures StaysOrdered(s) <==> Calm(s)
  {
    if Calm(s) {
      forall run: seq<Sys>, events: seq<SysEvent> | OrderlyFrom(run, events, s) ensures LogOk(run[|events|].log) {
        OrderlyContinues(run, events, |events|);
      }
    } else {
      var run, events := UnlessCalmOvertakes(s);
      OvertakingBreaks(run, events, s);
    }
  }

  // ---------------------------------------------------------------- starting a sequence

  /** A run that starts a sequence in s and is orderly from then on. */
  ghost predicate StartedFrom(run: seq<Sys>, events: seq<SysEvent>, s: Sys) {
    Continues(run, events) && run[0] == s && events != [] && Starts(s, events[0]) && IsOrderly(run, events, 1)
  }

  ghost predicate StartStaysOrdered(s: Sys) {
    forall run: seq<Sys>, events: seq<SysEvent> :: StartedFrom(run, events, s) ==> LogOk(run[|events|].log)
  }

  lemma SettledStart(s: Sys, run: seq<Sys>, events: seq<SysEvent>)
    requires Known(s) && LogOk(s.log) && !s.view.isRunning && Settled(s) && StartedFrom(run, events, s)
    ensures LogOk(run[|events|].log)
  {
    forall n | 0 <= n < |events| ensures OrderlyAt(run, events, n) {
      if n == 0 {
        assert Orderly(s, events[0]);
      }
    }
    OrderlyContinues(run, events, |events|);
  }


  function Two(p: Ptr): seq<SeqStep> {
    [SeqStep(p, false), SeqStep(p + 1, false)]
  }

  /** A sequence of two steps that run on the main thread, the first initialised. */
  lemma BuiltTwo(v: View, p: Ptr)
    requires |v.steps| <= |v.added| && !v.isRunning && v.steps == []
    ensures var w := Handle(v, Build(Two(p), {}));
      && w.steps == Two(p) && w.added == v.added + Two(p) && w.isRunning && !w.isCurrentStepAsync && w.queued == v.queued
  {
    var u := WithSteps(v, Two(p));
    assert u.steps == Two(p);
    assert FirstAccepted(u.steps, {}) == 0;
    assert u.steps[0..] == u.steps;
  }

  lemma BuildTwo(s: Sys, p: Ptr) returns (e: SysEvent)
    requires Known(s) && s.pool.main.Idle? && !s.view.isRunning
    requires forall q :: q in s.pool.data.given || q in s.tagged || q in Ptrs(s.view.added) ==> q < p
    ensures CanSys(s, e) && Starts(s, e)
    ensures var t := NextSys(s, e);
      && t.pool == s.pool && t.tagged == s.tagged && t.pending == s.pending && t.finished == s.finished
      && t.view.added == s.view.added + Two(p) && t.view.steps == Two(p)
      && t.view.queued == s.view.queued && !t.view.isCurrentStepAsync
  {
    e := Call(Build(Two(p), {}));
    NewOnes(s, p);
    BuiltTwo(s.view, p);
  }

  lemma NewOnes(s: Sys, p: Ptr)
    requires DistinctSteps(s.view.added)
    requires forall q :: q in s.pool.data.given || q in s.tagged || q in Ptrs(s.view.added) ==> q < p
    ensures NewSteps(s, Two(p))
  {
    var all := s.view.added + Two(p);
    forall j, k | 0 <= j < k < |all| ensures all[j].ptr != all[k].ptr {
      if j < |s.view.added| {
        assert all[j].ptr in Ptrs(s.view.added);
      }
    }
  }

  lemma {:induction false} Above(ptrs: set<Ptr>) returns (p: Ptr)
    ensures forall q :: q in ptrs ==> q < p
    decreases |ptrs|
  {
    if ptrs == {} {
      p := 0;
    } else {
      var q :| q in ptrs;
      var r := Above(ptrs - {q});
      p := if q < r then r else q + 1;
      assert forall x :: x in ptrs ==> x == q || x in ptrs - {q};
    }
  }

  /** Two steps built while something is unsettled: the sequence is not calm. */
  lemma NotCalmAfterBuild(s: Sys, t: Sys, p: Ptr)
    requires Known(s) && Known(t) && !Settled(s) && s.view.steps == []
    requires t.pool == s.pool && t.tagged == s.tagged && t.pending == s.pending && t.finished == s.finished
    requires t.view.added == s.view.added + Two(p) && t.view.steps == Two(p) && t.view.queued == s.view.queued
    ensures !Calm(t)
  {
    assert FrontSerial(t.view) == |s.view.added|;
    if s.pending != [] {
      assert s.pending[0] in s.pending;
    } else if !StepsSettled(s) {
      var n :| 0 <= n < |s.view.added| && Count(s.view.queued, n) > 0
        && !(n in s.finished || s.pool.data.deleted[s.view.added[n].ptr] >= 1);
      assert t.view.added[n] == s.view.added[n];
    }
  }

  lemma UnsettledStart(s: Sys) returns (e: SysEvent, run: seq<Sys>, events: seq<SysEvent>)
    requires Known(s) && s.pool.main.Idle? && !s.view.isRunning && !Settled(s)
    ensures CanSys(s, e) && Starts(s, e) && Known(NextSys(s, e)) && Overtakes(run, events, NextSys(s, e))
    ensures var t := NextSys(s, e); FrontSerial(t.view) == |s.view.added| && |t.view.steps| == 2 && t.tagged == s.tagged
  {
    var p := Above(s.pool.data.given + s.tagged + Ptrs(s.view.added));
    e := BuildTwo(s, p);
    StepKnown(s, e);
    NotCalmAfterBuild(s, NextSys(s, e), p);
    run, events := UnlessCalmOvertakes(NextSys(s, e));
  }

  lemma StartPrepended(s: Sys, e: SysEvent, run: seq<Sys>, events: seq<SysEvent>)
    requires CanSys(s, e) && Starts(s, e) && OrderlyFrom(run, events, NextSys(s, e))
    ensures StartedFrom([s] + run, [e] + events, s)
  {
    Prepended(s, e, run, events);
    StillOrderly(s, e, run, events, 1);
  }

  lemma UnsettledStartBreaks(s: Sys)
    requires Known(s) && s.pool.main.Idle? && !s.view.isRunning && !Settled(s)
    ensures !StartStaysOrdered(s)
  {
    var e, run, events := UnsettledStart(s);
    OvertakingBreaks(run, events, NextSys(s, e));
    StartPrepended(s, e, run, events);
    BreaksAsWell(s, e, run, events);
  }

  lemma BreaksAsWell(s: Sys, e: SysEvent, run: seq<Sys>, events: seq<SysEvent>)
    requires |run| == |events| + 1 && !LogOk(run[|events|].log) && StartedFrom([s] + run, [e] + events, s)
    ensures !StartStaysOrdered(s)
  {
    var r, es := [s] + run, [e] + events;
    assert !LogOk(r[|es|].log);
  }

  /**
    In every reachable state in which a sequence can be started and the order has held so far: every
    way to start one and to go on orderly keeps the order if and only if everything is settled, that
    is if no event of an earlier sequence or of another action is pending or still to come.
   */
  lemma StartIsSafeExactlyWhenSettled(run: seq<Sys>, events: seq<SysEvent>, k: nat)
    requires IsSysRun(run, events) && k < |run| && LogOk(run[k].log)
    requires run[k].pool.main.Idle? && !run[k].view.isRunning
    ensures StartStaysOrdered(run[k]) <==> Settled(run[k])
  {
    var s := run[k];
    FirstKnown(run[0]);
    ContinuesKnown(run, events, k);
    if Settled(s) {
      forall rest: seq<Sys>, more: seq<SysEvent> | StartedFrom(rest, more, s) ensures LogOk(rest[|more|].log) {
        SettledStart(s, rest, more);
      }
    } else {
      UnsettledStartBreaks(s);
    }
  }
}
