/**
  Two runs in which a step is initialised before the one in front of it has finished: the event comes
  from a step of a sequence stopped before, or from an action of another part of the program.
 */
module SequenceExamples {
  import opened Sequence
  import opened SequenceLaws
  import opened SequencePool
  import opened SequenceLog
  import opened SequenceOrder
  import opened SequenceLimits
  import P = Pool
  import E = PoolExamples

  /** The run is orderly but for its m-th event. */
  ghost predicate OnlyDisorderAt(run: seq<Sys>, events: seq<SysEvent>, m: nat)
    requires |events| < |run|
  {
    && m < |events| && !OrderlyAt(run, events, m)
    && forall n :: 0 <= n < |events| && n != m ==> OrderlyAt(run, events, n)
  }

  /**
    The last event delivers the sender's completion event while step n is in front, has not finished,
    and is not the last one; the order is lost.
   */
  ghost predicate EndsOvertaking(run: seq<Sys>, events: seq<SysEvent>, sender: Sender, n: nat)
    requires |run| == |events| + 1
  {
    events != [] && Overtaking(run[|events| - 1], events[|events| - 1], sender, n) && !LogOk(run[|events|].log)
  }

  predicate Overtaking(s: Sys, e: SysEvent, sender: Sender, n: nat) {
    Stray(s, e) && s.pending[0] == sender && FrontSerial(s.view) == n && n !in s.finished
  }

  lemma EndsAsWell(run: seq<Sys>, events: seq<SysEvent>, rest: seq<Sys>, more: seq<SysEvent>, sender: Sender, n: nat)
    requires |run| == |events| + 1 && |rest| == |more| + 1 && run[|events|] == rest[0]
    requires EndsOvertaking(rest, more, sender, n)
    ensures EndsOvertaking(run + rest[1..], events + more, sender, n)
  {
    var r, es := run + rest[1..], events + more;
    assert r[|es| - 1] == rest[|more| - 1] && r[|es|] == rest[|more|];
  }

  lemma DisorderAsWell(run: seq<Sys>, events: seq<SysEvent>, rest: seq<Sys>, more: seq<SysEvent>, m: nat)
    requires |run| == |events| + 1 && |rest| == |more| + 1 && run[|events|] == rest[0] && m < |events| + |more|
    requires forall n :: 0 <= n < |events| ==> (OrderlyAt(run, events, n) <==> n != m)
    requires forall n :: 0 <= n < |more| ==> (OrderlyAt(rest, more, n) <==> n != m - |events|)
    ensures OnlyDisorderAt(run + rest[1..], events + more, m)
  {
    var r, es := run + rest[1..], events + more;
    forall n | 0 <= n < |es| ensures OrderlyAt(r, es, n) <==> n != m {
      if n < |events| {
        assert OrderlyAt(run, events, n) <==> n != m;
      } else {
        assert r[n] == rest[n - |events|] && es[n] == more[n - |events|];
        assert OrderlyAt(rest, more, n - |events|) <==> n != m;
      }
    }
    assert OrderlyAt(r, es, m) <==> false;
  }

  /** Whose event it is that overtakes step n: an earlier step's, or one of the tagged actions'. */
  lemma WhoseEvent(s: Sys, run: seq<Sys>, events: seq<SysEvent>) returns (sender: Sender)
    requires Known(s) && Overtakes(run, events, s) && FrontSerial(s.view) >= 0
    ensures EndsOvertaking(run, events, sender, FrontSerial(s.view))
    ensures if sender.OfStep? then sender.n < FrontSerial(s.view) else sender.p in s.tagged
  {
    var n := |events| - 1;
    ContinuesKnown(run, events, n);
    OvertakingBreaks(run, events, s);
    sender := run[n].pending[0];
    assert sender in run[n].pending;
  }

  // ---------------------------------------------------------------- a step of a stopped sequence

  const ASYNC_STEP := SeqStep(7, true)

  function StaleState(k: int): Sys {
    var log := [BuiltAt(0), InitCall(0, true)];
    if k <= 0 then Sys(E.Demo(0), NEW, {}, [], {}, [])
    else if k < 7 then Sys(E.Demo(k), View([ASYNC_STEP], true, true, [ASYNC_STEP], [], [0], [0], [Start]), {}, [], {}, log)
    else Sys(E.Demo(6), View([], false, true, [ASYNC_STEP], [], [0], [0], [Start, Complete]), {}, [], {}, log)
  }

  /** An asynchronous step is built and queued, then the sequence is stopped. */
  function StaleEvent(k: int): SysEvent {
    if k <= 0 then Call(Build([ASYNC_STEP], {})) else if k < 6 then PoolEvent(E.DemoEvent(k)) else Call(StopIt)
  }

  lemma StaleBuilds()
    ensures CanSys(StaleState(0), StaleEvent(0)) && StaleState(1) == NextSys(StaleState(0), StaleEvent(0))
  {
    var w := Handle(NEW, Build([ASYNC_STEP], {}));
    assert FirstAccepted([ASYNC_STEP], {}) == 0;
    assert w == StaleState(1).view;
    E.DemoQueues(0);
    assert w.inits[0..] == [0];
    assert InitCalls([0], true) == [InitCall(0, true)];
  }

  lemma StaleQueues(k: nat)
    requires 1 <= k < 6
    ensures CanSys(StaleState(k), StaleEvent(k)) && StaleState(k + 1) == NextSys(StaleState(k), StaleEvent(k))
  {
    E.DemoQueues(k);
  }

  lemma StaleStops()
    ensures CanSys(StaleState(6), StaleEvent(6)) && StaleState(7) == NextSys(StaleState(6), StaleEvent(6))
  {
    var v := StaleState(6).view;
    assert Handle(v, StopIt) == StaleState(7).view;
    assert v.inits[1..] == [];
  }

  lemma StaleStep(k: nat)
    requires k < 7
    ensures CanSys(StaleState(k), StaleEvent(k)) && StaleState(k + 1) == NextSys(StaleState(k), StaleEvent(k))
    ensures Orderly(StaleState(k), StaleEvent(k))
  {
    if k == 0 {
      StaleBuilds();
    } else if k < 6 {
      StaleQueues(k);
    } else {
      StaleStops();
    }
  }

  lemma StaleIsRun(run: seq<Sys>, events: seq<SysEvent>)
    requires |run| == 8 && forall n :: 0 <= n < 8 ==> run[n] == StaleState(n)
    requires |events| == 7 && forall n :: 0 <= n < 7 ==> events[n] == StaleEvent(n)
    ensures IsSysRun(run, events) && Known(run[7]) && forall n :: 0 <= n < 7 ==> OrderlyAt(run, events, n)
  {
    forall n | 0 <= n < 7 ensures SysStepAt(run, events, n) && OrderlyAt(run, events, n) {
      StaleStep(n);
    }
    FirstKnown(run[0]);
    ContinuesKnown(run, events, 7);
  }

  lemma StaleIsUnsettled()
    ensures var s := StaleState(7); !Settled(s) && s.pool.main.Idle? && !s.view.isRunning && |s.view.added| == 1 && s.tagged == {}
  {
    var s := StaleState(7);
    assert s.view.added[0] == ASYNC_STEP && Count(s.view.queued, 0) > 0;
  }

  /** From there a sequence of two steps is started; the stopped step's event overtakes the first of them. */
  lemma StaleOvertakes(s: Sys) returns (e: SysEvent, run: seq<Sys>, events: seq<SysEvent>)
    requires s == StaleState(7) && Known(s)
    ensures CanSys(s, e) && Starts(s, e) && !Orderly(s, e) && OrderlyFrom(run, events, NextSys(s, e))
    ensures EndsOvertaking(run, events, OfStep(0), 1)
  {
    StaleIsUnsettled();
    e, run, events := UnsettledStart(s);
    StoppedStepsEvent(NextSys(s, e), run, events);
  }

  lemma StoppedStepsEvent(s: Sys, run: seq<Sys>, events: seq<SysEvent>)
    requires Known(s) && Overtakes(run, events, s) && FrontSerial(s.view) == 1 && s.tagged == {}
    ensures EndsOvertaking(run, events, OfStep(0), 1)
  {
    var sender := WhoseEvent(s, run, events);
    assert sender == OfStep(0);
  }

  lemma StaleEnds(s: Sys) returns (run: seq<Sys>, events: seq<SysEvent>)
    requires s == StaleState(7) && Known(s)
    ensures Continues(run, events) && run[0] == s && events != [] && Starts(s, events[0])
    ensures EndsOvertaking(run, events, OfStep(0), 1) && OnlyDisorderAt(run, events, 0) && |events| > 1
  {
    var e, rest, more := StaleOvertakes(s);
    Prepended(s, e, rest, more);
    StillOrderly(s, e, rest, more, 1);
    run, events := [s] + rest, [e] + more;
    EndsBehind(s, e, rest, more, OfStep(0), 1);
    assert !OrderlyAt(run, events, 0);
  }

  lemma EndsBehind(s: Sys, e: SysEvent, rest: seq<Sys>, more: seq<SysEvent>, sender: Sender, n: nat)
    requires |rest| == |more| + 1 && EndsOvertaking(rest, more, sender, n)
    ensures EndsOvertaking([s] + rest, [e] + more, sender, n)
  {
    var r, es := [s] + rest, [e] + more;
    assert r[|es| - 1] == rest[|more| - 1] && r[|es|] == rest[|more|] && es[|es| - 1] == more[|more| - 1];
  }

  /**
    A run, orderly but for one event: a sequence of one asynchronous step is stopped, and the next is
    started while that step, number 0, is still queued. Step 0's event then makes the next sequence
    initialise its second step, number 2, though its first, number 1, has not finished.
   */
  lemma StaleEventOvertakes() returns (run: seq<Sys>, events: seq<SysEvent>)
    ensures IsSysRun(run, events) && |events| > 8 && OnlyDisorderAt(run, events, 7)
    ensures run[6].view.steps == [ASYNC_STEP] && events[6] == Call(StopIt) && Starts(run[7], events[7])
    ensures EndsOvertaking(run, events, OfStep(0), 1)
  {
    var first, before := seq(8, k => StaleState(k)), seq(7, k => StaleEvent(k));
    StaleIsRun(first, before);
    var rest, more := StaleEnds(first[7]);
    Joined(first, before, rest, more);
    EndsAsWell(first, before, rest, more, OfStep(0), 1);
    DisorderAsWell(first, before, rest, more, 7);
    run, events := first + rest[1..], before + more;
  }

  // ---------------------------------------------------------------- an action of another part

  const SYNC_STEPS := [SeqStep(1, false), SeqStep(2, false)]

  function OtherState(k: int): Sys {
    if k <= 0 then Sys(E.Demo(0), NEW, {7}, [], {}, [])
    else Sys(E.Demo(if k < 8 then k - 1 else 6), View(SYNC_STEPS, true, false, SYNC_STEPS, [], [], [0], [Start]), {7}, [], {},
             [BuiltAt(0), InitCall(0, true)])
  }

  /** Two synchronous steps are built, then an action that carries one of the sequence's event ids is queued. */
  function OtherEvent(k: int): SysEvent {
    if k <= 0 then Call(Build(SYNC_STEPS, {})) else PoolEvent(E.DemoEvent(k - 1))
  }

  lemma OtherBuildsView()
    ensures Handle(NEW, Build(SYNC_STEPS, {})) == OtherState(1).view
  {
    assert FirstAccepted(SYNC_STEPS, {}) == 0;
    assert SYNC_STEPS[0..] == SYNC_STEPS;
  }

  lemma TwoPtrs(n: nat)
    requires n < |SYNC_STEPS|
    ensures SYNC_STEPS[n].ptr == n + 1 <= 2
  {
  }

  lemma NewAtFirst(s: Sys, actions: seq<SeqStep>)
    requires s.view.added == [] && s.pool.data.given == {} && s.tagged == {7}
    requires forall n :: 0 <= n < |actions| ==> actions[n].ptr == n + 1 <= 2
    ensures NewSteps(s, actions)
  {
    assert s.view.added + actions == actions;
  }

  lemma TwoAreNew(s: Sys)
    requires s.view.added == [] && s.pool.data.given == {} && s.tagged == {7}
    ensures NewSteps(s, SYNC_STEPS)
  {
    forall n | 0 <= n < |SYNC_STEPS| ensures SYNC_STEPS[n].ptr == n + 1 <= 2 {
      TwoPtrs(n);
    }
    NewAtFirst(s, SYNC_STEPS);
  }

  lemma OtherStart()
    ensures var s := OtherState(0); s.view == NEW && s.pool == P.Init(1) && s.tagged == {7} && s.pending == []
  {
  }

  lemma OtherCanBuild()
    ensures CanSys(OtherState(0), OtherEvent(0))
  {
    OtherStart();
    TwoAreNew(OtherState(0));
  }

  lemma OtherIsSettled()
    ensures Settled(OtherState(0))
  {
    OtherStart();
  }

  lemma OtherBuilds()
    ensures CanSys(OtherState(0), OtherEvent(0)) && Orderly(OtherState(0), OtherEvent(0))
  {
    OtherCanBuild();
    OtherIsSettled();
  }

  lemma OtherBuilt()
    requires CanSys(OtherState(0), OtherEvent(0))
    ensures OtherState(1) == NextSys(OtherState(0), OtherEvent(0))
  {
    OtherBuildsView();
    var w := OtherState(1).view;
    assert w.inits[0..] == [0];
    assert InitCalls([0], true) == [InitCall(0, true)];
  }

  lemma OtherQueues(k: nat)
    requires 1 <= k < 7
    ensures CanSys(OtherState(k), OtherEvent(k)) && OtherState(k + 1) == NextSys(OtherState(k), OtherEvent(k))
    ensures Orderly(OtherState(k), OtherEvent(k)) <==> k != 1
  {
    E.DemoQueues(k - 1);
  }

  lemma OtherIsRun(run: seq<Sys>, events: seq<SysEvent>)
    requires |run| == 8 && forall n :: 0 <= n < 8 ==> run[n] == OtherState(n)
    requires |events| == 7 && forall n :: 0 <= n < 7 ==> events[n] == OtherEvent(n)
    ensures IsSysRun(run, events) && Known(run[7]) && forall n :: 0 <= n < 7 ==> (OrderlyAt(run, events, n) <==> n != 1)
  {
    forall n | 0 <= n < 7 ensures SysStepAt(run, events, n) && (OrderlyAt(run, events, n) <==> n != 1) {
      if n == 0 {
        OtherBuilds();
        OtherBuilt();
      } else {
        OtherQueues(n);
      }
    }
    FirstKnown(run[0]);
    ContinuesKnown(run, events, 7);
  }

  lemma OtherIsNotCalm()
    ensures var s := OtherState(7); !Calm(s) && AtSyncStep(s) && FrontSerial(s.view) == 0 && s.tagged == {7}
  {
    var s := OtherState(7);
    assert 7 in s.tagged && 7 in s.pool.data.given;
  }

  /**
    A run, orderly but for one event: while a sequence of two steps that run on the main thread is at
    its first, action 7, which carries an event id the sequence listens to, is queued elsewhere in the
    program. Its event makes the sequence initialise its second step though its first has not finished.
   */
  lemma OtherEventOvertakes() returns (run: seq<Sys>, events: seq<SysEvent>)
    ensures IsSysRun(run, events) && |events| > 7 && OnlyDisorderAt(run, events, 1)
    ensures QueuesOther(run[1], events[1]) && events[1] == PoolEvent(P.MainStep(P.CallQueue(7)))
    ensures EndsOvertaking(run, events, OfOther(7), 0)
  {
    var first, before := seq(8, k => OtherState(k)), seq(7, k => OtherEvent(k));
    OtherIsRun(first, before);
    OtherIsNotCalm();
    var s := first[7];
    var rest, more := UnlessCalmOvertakes(s);
    var sender := WhoseEvent(s, rest, more);
    assert sender == OfOther(7);
    assert forall n :: 0 <= n < |more| ==> OrderlyAt(rest, more, n);
    Joined(first, before, rest, more);
    EndsAsWell(first, before, rest, more, sender, 0);
    DisorderAsWell(first, before, rest, more, 1);
    run, events := first + rest[1..], before + more;
  }
}
