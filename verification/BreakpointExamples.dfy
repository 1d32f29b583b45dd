/**
  Three runs from the start of the application after which the list of breakpoints and the engine's
  table do not agree, though all messages are consumed.
 */
module BreakpointExamples {
  import opened DebuggerTypes
  import opened Breakpoints
  import opened BreakpointWire
  import opened BreakpointBook
  import opened BreakpointSessions
  import opened BreakpointAgreement
  import opened BreakpointTheorems
  import opened BreakpointLimits

  /** A run of the whole application that begins with the given events and ends in disagreement. */
  ghost predicate EndsApart(run: seq<System>, events: seq<Event>, start: seq<Event>) {
    && IsRun(run, events) && IsStart(run[0], []) && NeverRepeats(run, events)
    && start <= events && IsSettled(run[|events|]) && !Agrees(run[|events|])
  }

  lemma Appended(run: seq<System>, events: seq<Event>, rest: seq<System>, more: seq<Event>)
    requires IsRun(run, events) && IsRun(rest, more) && run[|events|] == rest[0]
    requires NeverRepeats(run, events) && NeverRepeats(rest, more)
    ensures IsRun(run + rest[1..], events + more) && NeverRepeats(run + rest[1..], events + more)
  {
    var r, es := run + rest[1..], events + more;
    forall n | 0 <= n < |es| ensures StepAt(r, es, n) && NewAt(r, es, n) {
      if n < |events| {
        assert StepAt(run, events, n) && NewAt(run, events, n);
      } else {
        assert StepAt(rest, more, n - |events|) && NewAt(rest, more, n - |events|);
      }
    }
  }

  lemma StillJoined(run: seq<System>, events: seq<Event>, rest: seq<System>, more: seq<Event>, m: nat, j: nat)
    requires |run| == |events| + 1 && |rest| == |more| + 1 && run[|events|] == rest[0]
    requires JoinedFrom(run, events, m, |events|) && forall k :: 0 <= k < |rest| ==> Joined(rest[k])
    requires m <= j < |events| && !CarefulAt(run, events, j)
    ensures var r, es := run + rest[1..], events + more;
      JoinedFrom(r, es, m, |es|) && !CarefulBetween(r, es, m, |es|)
  {
    var r, es := run + rest[1..], events + more;
    assert r[m] == run[m] && es[m] == events[m] && r[j] == run[j] && es[j] == events[j];
    assert !CarefulAt(r, es, j);
    forall k | m < k <= |es| ensures Joined(r[k]) {
      if k <= |events| {
        assert r[k] == run[k];
      } else {
        assert r[k] == rest[k - |events|];
      }
    }
  }

  /** A session with a careless event goes on to a settled state in which the tables disagree. */
  lemma CarelessEndsApart(run0: seq<System>, start: seq<Event>, m: nat, j: nat) returns (run: seq<System>, events: seq<Event>)
    requires IsRun(run0, start) && IsStart(run0[0], []) && NeverRepeats(run0, start)
    requires JoinedFrom(run0, start, m, |start|) && m <= j < |start| && !CarefulAt(run0, start, j)
    ensures EndsApart(run, events, start)
  {
    RunKeepsBase(run0, start, [], |start|);
    var rest, more := EverySessionCanSettle(run0[|start|]);
    Appended(run0, start, rest, more);
    StillJoined(run0, start, rest, more, m, j);
    run, events := run0 + rest[1..], start + more;
    assert run[|events|] == rest[|more|];
    SettledVerdict(run, events, [], m, |events|);
  }

  const OTHERS := Others(StartVerbs(false), 0)
  const AT := Place("a.php", 1, true)

  function Numbered7(): BreakpointWithHandle {
    NewBreakpoint("a.php", 0, 1).(transactionId := Transaction(7))
  }

  /** A session without breakpoints is joined. */
  function FirstStates(k: int): System {
    var start := Start([], []);
    if k <= 0 then start
    else if k == 1 then start.(phase := Serving, notices := [Inited])
    else start.(phase := Serving, c := Client([], true, 7, OTHERS, []))
  }

  lemma FirstSteps()
    ensures Do(FirstStates(0), Connect) == FirstStates(1)
    ensures Can(FirstStates(1), Notified(false)) && Do(FirstStates(1), Notified(false)) == FirstStates(2)
    ensures Joins(FirstStates(1), Notified(false)) && Joined(FirstStates(2))
  {
    assert [] + [Inited] == [Inited];
    var c := Initialized(FirstStates(1).c, false);
    assert c.commands == OTHERS;
    assert c.breakpoints == [];
  }

  // ---------------------------------------------------------------- removed at once

  const HASTY: seq<Event> := [Connect, Notified(false), AddAt("a.php", 0, 1), RemoveAt("a.php", 1)]

  function HastyState(k: int): System {
    if k <= 2 then FirstStates(k)
    else if k == 3 then FirstStates(2).(c := Client([Numbered7()], true, 8, OTHERS + [BreakpointSet(Transaction(7), AT)], []))
    else FirstStates(2).(c := Client([], true, 9,
      OTHERS + [BreakpointSet(Transaction(7), AT)] + [BreakpointRemove(Transaction(8), "")], []))
  }

  lemma AddStep()
    ensures Do(HastyState(2), AddAt("a.php", 0, 1)) == HastyState(3)
  {
    assert PlaceOf(Numbered7(), []) == AT;
  }

  lemma HastyStep()
    ensures Do(HastyState(3), RemoveAt("a.php", 1)) == HastyState(4)
    ensures Joined(HastyState(3)) && !Careful(HastyState(3), RemoveAt("a.php", 1))
  {
    var s := HastyState(3);
    IndexAtIs(s.c.breakpoints, "a.php", 1, 0);
    RemovedAt(s.c, "a.php", 1, 0);
    assert s.c.breakpoints[..0] + s.c.breakpoints[1..] == [];
    assert IsAt(s.c.breakpoints[0], "a.php", 1);
  }

  lemma HastyIsRun(run: seq<System>)
    requires |run| == 5 && forall k :: 0 <= k < 5 ==> run[k] == HastyState(k)
    ensures IsRun(run, HASTY) && NeverRepeats(run, HASTY) && !CarefulAt(run, HASTY, 3)
  {
    FirstSteps();
    AddStep();
    HastyStep();
    forall n | 0 <= n < 4 ensures StepAt(run, HASTY, n) && NewAt(run, HASTY, n) {
    }
  }

  /** A breakpoint is added and removed at once; whatever comes, the engine keeps it. */
  lemma HastyRemoval() returns (run: seq<System>, events: seq<Event>)
    ensures EndsApart(run, events, HASTY)
  {
    var run0 := seq(5, k => HastyState(k));
    HastyIsRun(run0);
    FirstSteps();
    run, events := CarelessEndsApart(run0, HASTY, 1, 3);
  }

  // ---------------------------------------------------------------- posted but not added when the script stops

  const LATE: seq<Event> :=
    [Connect, Notified(false), AddAt("a.php", 0, 1), ScriptStops, Emptied, Notified(false), Connect, Notified(false)]

  function LateState(k: int): System {
    var s := HastyState(3);
    if k <= 3 then HastyState(k)
    else if k == 4 then s.(phase := Draining, notices := [Stopped])
    else if k == 5 then s.(phase := Accepting, notices := [Stopped])
    else if k == 6 then s.(phase := Accepting, c := s.c.(isSessionActive := false))
    else if k == 7 then s.(notices := [Inited], c := s.c.(isSessionActive := false))
    else s.(c := Initialized(s.c.(isSessionActive := false), false))
  }

  lemma LateSteps(k: nat)
    requires 3 <= k < 8
    ensures Can(LateState(k), LATE[k]) && Do(LateState(k), LATE[k]) == LateState(k + 1)
  {
    assert [] + [Inited] == [Inited] && [] + [Stopped] == [Stopped];
    assert [Inited][1..] == [] && [Stopped][1..] == [];
  }

  lemma LateIsCareless()
    ensures var s := LateState(7); Joins(s, Notified(false)) && !IsClean(s) && Joined(LateState(8))
  {
    var s := LateState(7);
    assert |OTHERS| == 7;
    assert Line(s)[7] == BreakpointSet(Transaction(7), AT);
    assert [Inited][1..] == [];
  }

  /**
    A breakpoint is added while a script runs; the script stops and the server's queue is emptied before
    the posted command is added to it. The next session sets the breakpoint twice, and the list knows
    one of the two only.
   */
  lemma LateCommand() returns (run: seq<System>, events: seq<Event>)
    ensures EndsApart(run, events, LATE)
  {
    var run0 := seq(9, k => LateState(k));
    FirstSteps();
    AddStep();
    forall n | 0 <= n < 8 ensures StepAt(run0, LATE, n) && NewAt(run0, LATE, n) {
      if n >= 3 {
        LateSteps(n);
      }
    }
    LateIsCareless();
    assert !CarefulAt(run0, LATE, 7);
    run, events := CarelessEndsApart(run0, LATE, 7, 7);
  }

  // ---------------------------------------------------------------- a script that stops before its start is handled

  const EARLY: seq<Event> :=
    [Connect, Notified(false), ScriptStops, Emptied, Notified(false), AddAt("a.php", 0, 1), Connect, ScriptStops, Emptied,
     Notified(false), Notified(false), Connect, Notified(false)]

  function EarlyState(k: int): System {
    var s := FirstStates(2);
    var b := NewBreakpoint("a.php", 0, 1);
    var idle := s.(phase := Accepting, c := Client([b], false, 7, OTHERS, []));
    var late := idle.(c := Initialized(idle.c, false));
    var quiet := late.(c := late.c.(isSessionActive := false));
    if k <= 2 then FirstStates(k)
    else if k == 3 then s.(phase := Draining, notices := [Stopped])
    else if k == 4 then s.(phase := Accepting, notices := [Stopped])
    else if k == 5 then s.(phase := Accepting, c := s.c.(isSessionActive := false))
    else if k == 6 then idle
    else if k == 7 then idle.(phase := Serving, notices := [Inited])
    else if k == 8 then idle.(phase := Draining, notices := [Inited, Stopped])
    else if k == 9 then idle.(notices := [Inited, Stopped])
    else if k == 10 then late.(notices := [Stopped])
    else if k == 11 then quiet
    else if k == 12 then quiet.(phase := Serving, notices := [Inited])
    else quiet.(phase := Serving, c := Initialized(quiet.c, false))
  }

  lemma EarlySteps(k: nat)
    requires 2 <= k < 8
    ensures Can(EarlyState(k), EARLY[k]) && Do(EarlyState(k), EARLY[k]) == EarlyState(k + 1)
  {
    assert [] + [Inited] == [Inited] && [] + [Stopped] == [Stopped] && [Inited] + [Stopped] == [Inited, Stopped];
    assert [Stopped][1..] == [];
  }

  lemma EarlyLastSteps(k: nat)
    requires 8 <= k < 13
    ensures Can(EarlyState(k), EARLY[k]) && Do(EarlyState(k), EARLY[k]) == EarlyState(k + 1)
  {
    assert [] + [Inited] == [Inited];
    assert [Inited, Stopped][1..] == [Stopped] && [Stopped][1..] == [] && [Inited][1..] == [];
  }

  lemma StartLeavesSets(c: Client, b: bool)
    requires c.breakpoints != []
    ensures !NoSets(Initialized(c, b).commands)
  {
    StartQueue(c, b);
    StartSets(c, b);
    NoSetsConcat(c.commands, StartCommands(c, b));
  }

  lemma LeftoverIsUnclean(s: System)
    requires s.phase.Serving? && s.notices == [Inited] && s.added == [] && !NoSets(s.c.commands)
    ensures Joins(s, Notified(false)) && !IsClean(s) && Joined(Handled(s, false))
  {
    assert Line(s) == s.c.commands;
    assert [Inited][1..] == [];
  }

  lemma EarlyLeaves()
    ensures var s := EarlyState(12);
      && s.phase.Serving? && s.notices == [Inited] && s.added == []
      && s.c.commands == Initialized(EarlyState(6).c, false).commands
  {
  }

  lemma EarlyIsCareless()
    ensures var s := EarlyState(12); Joins(s, Notified(false)) && !IsClean(s) && Joined(Handled(s, false))
  {
    EarlyLeaves();
    StartLeavesSets(EarlyState(6).c, false);
    LeftoverIsUnclean(EarlyState(12));
  }

  /**
    A breakpoint is added between two scripts. The second script stops before the main thread has
    handled its start, as a command left over from the first can make it do; the commands that its
    start posts then are set by the third session, besides its own.
   */
  lemma EarlyStop() returns (run: seq<System>, events: seq<Event>)
    ensures EndsApart(run, events, EARLY)
  {
    var run0 := seq(14, k => EarlyState(k));
    FirstSteps();
    forall n | 0 <= n < 13 ensures StepAt(run0, EARLY, n) && NewAt(run0, EARLY, n) {
      if 2 <= n < 8 {
        EarlySteps(n);
      } else if n >= 8 {
        EarlyLastSteps(n);
      }
    }
    EarlyIsCareless();
    EarlyLastSteps(12);
    assert !CarefulAt(run0, EARLY, 12);
    run, events := CarelessEndsApart(run0, EARLY, 12, 12);
  }
}
