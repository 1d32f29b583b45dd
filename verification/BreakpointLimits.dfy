/**
  Which additions of breakpoints the next session gets wrong, and small runs in which the list and the
  engine's table part for good.
 */
module BreakpointLimits {
  import opened DebuggerTypes
  import opened Breakpoints
  import opened BreakpointWire
  import opened BreakpointBook
  import opened BreakpointSessions
  import opened BreakpointAgreement
  import opened BreakpointJoin
  import opened BreakpointTheorems

  // ---------------------------------------------------------------- from one session into the next

  /** Something is set in this session, or a command under way sets something. */
  predicate Setting(s: System) {
    s.given != map[] || !NoSets(Line(s))
  }

  /** The event posts commands that set breakpoints: an addition, or the start of a session that is over already. */
  predicate PostsSets(s: System, e: Event) {
    || (e.AddAt? && s.c.isSessionActive && !HasBreakpointAt(s.c.breakpoints, e.file, e.line))
    || (e.Notified? && s.notices != [] && s.notices[0].Inited? && s.c.breakpoints != [])
  }

  /** The engine has nothing that it was not given. */
  predicate TableIsGiven(s: System) {
    s.given == map[] ==> s.table == map[]
  }

  lemma StepKeepsTableGiven(s: System, e: Event)
    requires TableIsGiven(s) && Can(s, e)
    ensures TableIsGiven(Do(s, e))
  {
    if e.EngineStep? && s.added[0].BreakpointSet? {
      assert s.added[0].transactionId in Do(s, e).given;
    }
  }

  lemma {:induction false} RunKeepsTableGiven(run: seq<System>, events: seq<Event>, bs: seq<BreakpointWithHandle>, n: nat)
    requires IsRun(run, events) && IsStart(run[0], bs) && n < |run|
    ensures TableIsGiven(run[n])
  {
    if n > 0 {
      RunKeepsTableGiven(run, events, bs, n - 1);
      StepOf(run, events, n - 1);
      StepKeepsTableGiven(run[n - 1], events[n - 1]);
    }
  }

  lemma NoSetsConcat(a: seq<Command>, b: seq<Command>)
    ensures NoSets(a + b) <==> NoSets(a) && NoSets(b)
  {
    if !NoSets(a) {
      var k :| 0 <= k < |a| && a[k].BreakpointSet?;
      assert (a + b)[k] == a[k];
    }
    if !NoSets(b) {
      var k :| 0 <= k < |b| && b[k].BreakpointSet?;
      assert (a + b)[|a| + k] == b[k];
    }
  }

  lemma UserStepSets(s: System, e: Event)
    requires Can(s, e) && (e.AddAt? || e.RemoveAt? || e.Request? || e.OnCmd?)
    ensures Setting(Do(s, e)) <==> Setting(s) || PostsSets(s, e)
  {
    var v := Do(s, e);
    if |v.c.commands| == |s.c.commands| + 1 {
      var c := v.c.commands[|s.c.commands|];
      assert Line(v) == Line(s) + [c];
      NoSetsConcat(Line(s), [c]);
      assert NoSets([c]) <==> !c.BreakpointSet?;
    } else {
      assert Line(v) == Line(s);
    }
  }

  lemma HandledSets(s: System, b: bool)
    requires s.notices != []
    ensures Setting(Handled(s, b)) <==> Setting(s) || PostsSets(s, Notified(b))
  {
    var v := Handled(s, b);
    if s.notices[0].Inited? {
      StartQueue(s.c, b);
      assert Line(v) == Line(s) + StartCommands(s.c, b);
      NoSetsConcat(Line(s), StartCommands(s.c, b));
      StartSets(s.c, b);
    } else {
      assert Line(v) == Line(s);
    }
  }

  lemma StartSets(c: Client, b: bool)
    ensures NoSets(StartCommands(c, b)) <==> c.breakpoints == []
  {
    if c.breakpoints != [] {
      assert StartCommands(c, b)[0].BreakpointSet?;
    }
  }

  lemma EngineSets(s: System, id: string)
    requires Can(s, EngineStep(id))
    ensures Setting(Do(s, EngineStep(id))) <==> Setting(s)
  {
    var v := Do(s, EngineStep(id));
    assert Line(v) == Line(s)[1..];
    assert Line(s) == [s.added[0]] + Line(v);
    NoSetsConcat([s.added[0]], Line(v));
    if s.added[0].BreakpointSet? {
      assert s.added[0].transactionId in v.given;
      assert !NoSets([s.added[0]]) by {
        assert [s.added[0]][0].BreakpointSet?;
      }
    }
  }

  lemma StepSets(s: System, e: Event)
    requires Status(s) && Can(s, e) && !Ends(e)
    ensures Setting(Do(s, e)) <==> Setting(s) || PostsSets(s, e)
  {
    match e {
      case Connect => assert Line(Do(s, e)) == Line(s);
      case EngineStep(id) => EngineSets(s, id);
      case Notified(b) => HandledSets(s, b);
      case _ => UserStepSets(s, e);
    }
  }

  predicate PostsAt(run: seq<System>, events: seq<Event>, n: int)
    requires 0 <= n < |events| < |run|
  {
    PostsSets(run[n], events[n])
  }

  /** The end of a session, or of what comes after it. */
  predicate Ends(e: Event) {
    e.ScriptStops? || e.Emptied? || e.Breaks?
  }

  /** Between the two events no session ends. */
  predicate NoStopBetween(events: seq<Event>, r: nat, m: nat)
    requires m <= |events|
  {
    forall j :: r < j < m ==> !Ends(events[j])
  }

  predicate NonePosted(run: seq<System>, events: seq<Event>, r: nat, m: nat)
    requires |run| == |events| + 1 && m <= |events|
  {
    forall j :: r < j < m ==> !PostsAt(run, events, j)
  }

  lemma NextSetting(run: seq<System>, events: seq<Event>, r: nat, m: nat)
    requires |run| == |events| + 1 && r + 1 < m <= |events| && StepAt(run, events, m - 1) && Status(run[m - 1])
    requires !Ends(events[m - 1])
    requires Setting(run[m - 1]) <==> Setting(run[r + 1]) || !NonePosted(run, events, r, m - 1)
    ensures Setting(run[m]) <==> Setting(run[r + 1]) || !NonePosted(run, events, r, m)
  {
    StepSets(run[m - 1], events[m - 1]);
    assert NonePosted(run, events, r, m) <==> NonePosted(run, events, r, m - 1) && !PostsAt(run, events, m - 1);
  }

  lemma {:induction false} SettingUntil(run: seq<System>, events: seq<Event>, bs: seq<BreakpointWithHandle>, r: nat, m: nat)
    requires IsRun(run, events) && IsStart(run[0], bs) && r < m <= |events| && NoStopBetween(events, r, m)
    ensures Setting(run[m]) <==> Setting(run[r + 1]) || !NonePosted(run, events, r, m)
    decreases m
  {
    if m > r + 1 {
      SettingUntil(run, events, bs, r, m - 1);
      RunKeepsBase(run, events, bs, m - 1);
      assert StepAt(run, events, m - 1);
      NextSetting(run, events, r, m);
    }
  }

  /** What is left when a session is over: after a script only what is not in the server's queue. */
  function Leftovers(s: System, e: Event): seq<Command> {
    if e.Emptied? then s.c.commands else Line(s)
  }

  lemma EndSets(s: System, e: Event)
    requires Status(s) && Can(s, e) && (e.Emptied? || e.Breaks?)
    ensures Setting(Do(s, e)) <==> !NoSets(Leftovers(s, e))
  {
    assert Line(Do(s, e)) == Leftovers(s, e);
  }

  lemma CleanUnlessSetting(s: System)
    requires TableIsGiven(s)
    ensures IsClean(s) <==> !Setting(s)
  {
  }

  /**
    From the moment a session is over through the next one: when all messages of the next are consumed
    the tables agree if and only if nothing left over set a breakpoint, and nothing that does was
    posted from then until the session was joined. After a script the server's queue has been emptied,
    and commands posted while it was running are left over if they had not been added by then; after a
    broken connection all are.
   */
  lemma NextSessionAgreesExactlyWhen(
      run: seq<System>, events: seq<Event>, bs: seq<BreakpointWithHandle>, r: nat, m: nat, n: nat)
    requires IsRun(run, events) && IsStart(run[0], bs) && NeverRepeats(run, events)
    requires r < m && JoinedFrom(run, events, m, n) && IsSettled(run[n])
    requires (events[r].Emptied? || events[r].Breaks?) && NoStopBetween(events, r, m) && CarefulBetween(run, events, m + 1, n)
    ensures Agrees(run[n]) <==> NoSets(Leftovers(run[r], events[r])) && NonePosted(run, events, r, m)
  {
    SettledVerdict(run, events, bs, m, n);
    SettingUntil(run, events, bs, r, m);
    RunKeepsBase(run, events, bs, r);
    StepOf(run, events, r);
    EndSets(run[r], events[r]);
    RunKeepsTableGiven(run, events, bs, m);
    CleanUnlessSetting(run[m]);
    CarefulFromJoin(run, events, m, n);
  }

  lemma CarefulFromJoin(run: seq<System>, events: seq<Event>, m: nat, n: nat)
    requires |run| == |events| + 1 && m < n <= |events| && Joins(run[m], events[m]) && CarefulBetween(run, events, m + 1, n)
    ensures CarefulBetween(run, events, m, n) <==> IsClean(run[m])
  {
    assert CarefulAt(run, events, m) <==> IsClean(run[m]);
  }

  /** In a session that is otherwise careful, one removal keeps the tables together exactly when the engine has answered. */
  lemma RemovalIsSafeWhenAnswered(
      run: seq<System>, events: seq<Event>, bs: seq<BreakpointWithHandle>, m: nat, j: nat, n: nat)
    requires IsRun(run, events) && IsStart(run[0], bs) && NeverRepeats(run, events)
    requires JoinedFrom(run, events, m, n) && IsSettled(run[n]) && m < j < n && events[j].RemoveAt?
    requires CarefulBetween(run, events, m, j) && CarefulBetween(run, events, j + 1, n)
    ensures var s, k := run[j], IndexAt(run[j].c.breakpoints, events[j].file, events[j].line);
      Agrees(run[n]) <==> (k < |s.c.breakpoints| ==> IsAnswered(LinkOf(Outer(s)), s.c.breakpoints[k].transactionId))
  {
    SettledVerdict(run, events, bs, m, n);
    IndexAtFinds(run[j].c.breakpoints, events[j].file, events[j].line);
    assert CarefulBetween(run, events, m, n) <==> CarefulAt(run, events, j);
  }

  // ---------------------------------------------------------------- every session can settle

  function Remaining(s: System): nat {
    3 * |s.c.commands| + 2 * |s.added| + |s.notices|
  }

  lemma {:induction false} NewString(used: set<string>) returns (id: string)
    ensures id != "" && forall x :: x in used ==> |x| < |id|
    decreases |used|
  {
    if used == {} {
      id := "1";
    } else {
      var x :| x in used;
      var r := NewString(used - {x});
      id := if |x| < |r| then r else x + "1";
      assert forall y :: y in used ==> y == x || y in used - {x};
    }
  }

  /** One more message is consumed. */
  lemma SettleStep(s: System) returns (e: Event)
    requires Base(s) && Joined(s) && !IsSettled(s)
    ensures Can(s, e) && GivesNew(s, e) && Joined(Do(s, e)) && Remaining(Do(s, e)) < Remaining(s) && !e.RemoveAt?
  {
    if s.notices != [] {
      e := Notified(false);
    } else if s.added != [] {
      var id := NewString(s.used + s.given.Values);
      e := EngineStep(id);
    } else {
      e := OnCmd;
    }
  }

  /** A run through one session only, without removals, to the state in which all messages are consumed. */
  ghost predicate Settles(run: seq<System>, events: seq<Event>, s: System) {
    && IsRun(run, events) && run[0] == s && NeverRepeats(run, events)
    && (forall j :: 0 <= j < |run| ==> Joined(run[j]))
    && (forall j :: 0 <= j < |events| ==> !events[j].RemoveAt?)
    && IsSettled(run[|events|])
  }

  lemma SettlesLater(s: System, e: Event, run: seq<System>, events: seq<Event>)
    requires Joined(s) && Can(s, e) && GivesNew(s, e) && !e.RemoveAt? && Settles(run, events, Do(s, e))
    ensures Settles([s] + run, [e] + events, s)
  {
    var r, es := [s] + run, [e] + events;
    forall n | 0 <= n < |es| ensures StepAt(r, es, n) && NewAt(r, es, n) {
      if n > 0 {
        assert StepAt(run, events, n - 1) && NewAt(run, events, n - 1);
      }
    }
  }

  /** From every joined state the session can come to a state in which all its messages are consumed. */
  lemma {:induction false} EverySessionCanSettle(s: System) returns (run: seq<System>, events: seq<Event>)
    requires Base(s) && Joined(s)
    ensures Settles(run, events, s)
    decreases Remaining(s)
  {
    if IsSettled(s) {
      run, events := [s], [];
    } else {
      var e := SettleStep(s);
      StepKeepsBase(s, e);
      run, events := EverySessionCanSettle(Do(s, e));
      SettlesLater(s, e, run, events);
      run, events := [s] + run, [e] + events;
    }
  }
}
