/**
  What an engine sets before the main thread has joined its session: commands left over from before.
  The feature never learns of these breakpoints.
 */
module BreakpointJoin {
  import opened DebuggerTypes
  import opened Breakpoints
  import opened BreakpointWire
  import opened BreakpointBook
  import opened BreakpointSessions
  import opened BreakpointAgreement
  import PathMapping

  // ---------------------------------------------------------------- before the session is joined

  /** The feature does not know the engine's breakpoint and nothing removes it. */
  predicate Hidden(s: System, i: string) {
    && i !in Removes(Line(s))
    && (forall k :: 0 <= k < |s.c.breakpoints| ==> s.c.breakpoints[k].breakpointId != i)
    && (forall k :: 0 <= k < |s.notices| && s.notices[k].Answer? && !Recent(s.notices, k) ==> s.notices[k].reply.breakpointId != i)
  }

  /** Breakpoints the engine sets before the main thread has joined stay hidden. */
  predicate AllHidden(s: System) {
    s.phase.Serving? && !Joined(s) ==>
      && (forall i :: i in s.table ==> Hidden(s, i))
      && (forall t :: t in s.given ==> s.given[t] in s.table)
  }

  lemma NewIsHidden(s: System, id: string)
    requires Base(s) && Can(s, EngineStep(id)) && s.added[0].BreakpointSet? && id !in s.used
    ensures Hidden(Executed(s, id), id)
  {
    var v := Executed(s, id);
    assert Line(v) == Line(s)[1..];
    forall a | 0 <= a < |Line(v)| ensures LeftCommand(Line(v)[a], s.c.counter, s.used) {
      assert LeftCommand(Line(s)[a + 1], s.c.counter, s.used);
    }
    NotRemoved(Line(v), s.c.counter, s.used, id);
    LastIsRecent(s.notices, v.notices[|s.notices|]);
  }

  lemma LastIsRecent(ns: seq<Notice>, n: Notice)
    ensures n.Answer? ==> Recent(ns + [n], |ns|)
  {
  }

  lemma {:induction false} NotRemoved(commands: seq<Command>, counter: nat, used: set<string>, id: string)
    requires LeftCommands(commands, counter, used) && id != "" && id !in used
    ensures id !in Removes(commands)
  {
    if commands != [] {
      assert LeftCommand(commands[0], counter, used);
      forall a | 0 <= a < |commands[1..]| ensures LeftCommand(commands[1..][a], counter, used) {
        assert LeftCommand(commands[a + 1], counter, used);
      }
      NotRemoved(commands[1..], counter, used, id);
    }
  }

  lemma RemovesTail(commands: seq<Command>, i: string)
    requires commands != [] && i !in Removes(commands)
    ensures i !in Removes(commands[1..]) && (commands[0].BreakpointRemove? ==> commands[0].breakpointId != i)
  {
  }

  lemma EngineKeepsHidden(s: System, id: string, i: string)
    requires s.added != [] && Hidden(s, i)
    ensures Hidden(Executed(s, id), i) && (s.added[0].BreakpointRemove? ==> s.added[0].breakpointId != i)
  {
    var v := Executed(s, id);
    assert Line(v) == Line(s)[1..];
    RemovesTail(Line(s), i);
    forall k | 0 <= k < |v.notices| && v.notices[k].Answer? && !Recent(v.notices, k) ensures v.notices[k].reply.breakpointId != i {
      if |v.notices| > |s.notices| {
        LastIsRecent(s.notices, v.notices[|s.notices|]);
        InitAfterMore(s.notices, v.notices[|s.notices|], k);
      }
    }
  }

  lemma HandledRemoves(s: System, b: bool)
    requires s.notices != []
    ensures Removes(Line(Handled(s, b))) == Removes(Line(s))
  {
    if s.notices[0].Inited? {
      StartQueue(s.c, b);
      assert Line(Handled(s, b)) == Line(s) + StartCommands(s.c, b);
      StartRemovesNothing(s.c, b);
      RemovesConcat(Line(s), StartCommands(s.c, b));
    } else {
      assert Line(Handled(s, b)) == Line(s);
    }
  }

  lemma HandledKeepsHidden(s: System, b: bool, i: string)
    requires s.notices != [] && Hidden(s, i) && (s.notices[0].Answer? ==> !Recent(s.notices, 0))
    ensures Hidden(Handled(s, b), i)
  {
    var v := Handled(s, b);
    HandledRemoves(s, b);
    forall k | 0 <= k < |v.notices| && v.notices[k].Answer? && !Recent(v.notices, k) ensures v.notices[k].reply.breakpointId != i {
      InitAfterTail(s.notices, k);
    }
  }

  lemma {:induction false} RemovesConcat(a: seq<Command>, b: seq<Command>)
    ensures Removes(a + b) == Removes(a) + Removes(b)
  {
    if a == [] {
      assert a + b == b;
    } else {
      assert (a + b)[1..] == a[1..] + b;
      RemovesConcat(a[1..], b);
    }
  }

  lemma StartRemovesNothing(c: Client, b: bool)
    ensures Removes(StartCommands(c, b)) == {}
  {
    NoRemoves(StartCommands(c, b));
  }

  lemma {:induction false} NoRemoves(commands: seq<Command>)
    requires forall a :: 0 <= a < |commands| ==> !commands[a].BreakpointRemove?
    ensures Removes(commands) == {}
  {
    if commands != [] {
      NoRemoves(commands[1..]);
    }
  }

  lemma PostKeepsHidden(s: System, v: System, i: string, c: Command)
    requires Hidden(s, i) && Line(v) == Line(s) + [c] && v.notices == s.notices
    requires c.BreakpointRemove? ==> c.breakpointId != i
    requires forall k :: 0 <= k < |v.c.breakpoints| ==> v.c.breakpoints[k].breakpointId != i
    ensures Hidden(v, i)
  {
    RemovesLast(Line(s), c);
  }

  lemma UserKeepsHidden(s: System, e: Event, i: string)
    requires Hidden(s, i) && i != "" && Can(s, e) && (e.AddAt? || e.RemoveAt? || e.Request? || e.OnCmd?)
    ensures Hidden(Do(s, e), i)
  {
    var v := Do(s, e);
    match e {
      case AddAt(file, handle, line) =>
        if !HasBreakpointAt(s.c.breakpoints, file, line) && s.c.isSessionActive {
          PostKeepsHidden(s, v, i, v.c.commands[|s.c.commands|]);
        } else {
          assert Line(v) == Line(s);
        }
      case RemoveAt(file, line) => RemoveKeepsHidden(s, file, line, i);
      case Request(verb) => PostKeepsHidden(s, v, i, Other(Transaction(s.c.counter), verb));
      case OnCmd => assert Line(v) == Line(s);
    }
  }

  lemma RemoveKeepsHidden(s: System, file: string, line: int, i: string)
    requires Hidden(s, i)
    ensures Hidden(Do(s, RemoveAt(file, line)), i)
  {
    var v := Do(s, RemoveAt(file, line));
    var k := IndexAt(s.c.breakpoints, file, line);
    if k < |s.c.breakpoints| {
      RemovedAt(s.c, file, line, k);
      if s.c.isSessionActive {
        PostKeepsHidden(s, v, i, v.c.commands[|s.c.commands|]);
      } else {
        assert Line(v) == Line(s);
      }
    }
  }

  /** While an engine is served and the session not joined, its start is among the events not handled. */
  lemma InitIsPending(s: System) returns (k: nat)
    requires Status(s) && s.phase.Serving? && !Joined(s)
    ensures k < |s.notices| && s.notices[k].Inited?
  {
    var n :| 0 <= n < |s.notices| && !s.notices[n].Answer?;
    if s.notices[n].Inited? {
      k := n;
    } else {
      var j :| 0 <= j < |s.notices| && n < j && s.notices[j].Inited?;
      k := j;
    }
  }

  lemma FirstIsNotRecent(s: System)
    requires Status(s) && s.phase.Serving? && !Joined(s) && s.notices != [] && s.notices[0].Answer?
    ensures !Recent(s.notices, 0)
  {
    var k := InitIsPending(s);
    assert InitAfter(s.notices, 0);
  }

  lemma StepKeepsHidden(s: System, e: Event)
    requires Base(s) && AllHidden(s) && Can(s, e) && GivesNew(s, e) && !Joined(Do(s, e))
    ensures AllHidden(Do(s, e))
  {
    var v := Do(s, e);
    if v.phase.Serving? && !e.Connect? {
      if Joined(s) {
        StaysJoinedUnless(s, e);
      } else {
        HiddenStep(s, e);
      }
    }
  }

  lemma StaysJoinedUnless(s: System, e: Event)
    requires Joined(s) && Can(s, e) && Do(s, e).phase.Serving?
    ensures Joined(Do(s, e))
  {
  }

  lemma HiddenStep(s: System, e: Event)
    requires Base(s) && AllHidden(s) && s.phase.Serving? && !Joined(s) && Can(s, e) && GivesNew(s, e)
    requires Do(s, e).phase.Serving?
    ensures forall i :: i in Do(s, e).table ==> Hidden(Do(s, e), i)
    ensures forall t :: t in Do(s, e).given ==> Do(s, e).given[t] in Do(s, e).table
  {
    var v := Do(s, e);
    forall i | i in v.table ensures Hidden(v, i) {
      if e.EngineStep? {
        if i in s.table && !(s.added[0].BreakpointSet? && i == e.id) {
          EngineKeepsHidden(s, e.id, i);
        } else {
          NewIsHidden(s, e.id);
        }
      } else if e.Notified? {
        if s.notices[0].Answer? {
          FirstIsNotRecent(s);
        }
        HandledKeepsHidden(s, e.doBreakOnStart, i);
      } else {
        assert i != "";
        UserKeepsHidden(s, e, i);
      }
    }
    if e.EngineStep? && s.added[0].BreakpointRemove? {
      forall i | i in s.table ensures i in v.table {
        EngineKeepsHidden(s, e.id, i);
      }
    }
  }

  // ---------------------------------------------------------------- joining when something is set already

  lemma OldSetIsOrphan(s: System, e: Event, a: nat)
    requires Base(s) && Can(s, e) && Joins(s, e) && a < |Line(s)| && Line(s)[a].BreakpointSet?
    ensures Orphaned(Outer(Do(s, e)))
  {
    var t := Line(s)[a].transactionId;
    assert LeftCommand(Line(s)[a], s.c.counter, s.used);
    OldIdIsNotInBook(s, t);
    OldSetStays(s, e.doBreakOnStart, a);
    assert OrphanCommand(Outer(Do(s, e)), t);
  }

  lemma OldSetStays(s: System, b: bool, a: nat)
    requires s.notices != [] && s.notices[0].Inited? && a < |Line(s)| && Line(s)[a].BreakpointSet?
    ensures HasSet(Line(Handled(s, b)), Line(s)[a].transactionId)
  {
    StartQueue(s.c, b);
    assert Line(Handled(s, b)) == Line(s) + StartCommands(s.c, b);
    assert Line(Handled(s, b))[a] == Line(s)[a];
  }

  lemma OldIdIsNotInBook(s: System, t: string)
    requires IsOld(t, s.c.counter)
    ensures t !in BookOf(Renumbered(s.c.breakpoints, s.c.counter), s.c.mappings)
  {
    StartAnnounces(s.c, false);
    NewIdsOnly(t, s.c.counter, |s.c.breakpoints|);
  }

  lemma HiddenIsOrphan(s: System, e: Event, i: string)
    requires Base(s) && Can(s, e) && Joins(s, e) && i in s.table && Hidden(s, i)
    ensures Orphaned(Outer(Do(s, e)))
  {
    var v := Do(s, e);
    var w := Outer(v);
    HandledKeepsHidden(s, e.doBreakOnStart, i);
    forall t | t in w.book ensures w.book[t].breakpointId != i {
      IdsOfBook(v.c.breakpoints, v.c.mappings, t);
    }
    forall b | 0 <= b < |w.replies| ensures w.replies[b].transactionId !in w.book {
      assert v.notices[b] == s.notices[b + 1];
      OldIdIsNotInBook(s, w.replies[b].transactionId);
    }
    assert OrphanEntry(w, i);
  }

  lemma {:induction false} IdsOfBook(bs: seq<BreakpointWithHandle>, ms: seq<PathMapping.Mapping>, t: string)
    requires t in BookOf(bs, ms)
    ensures exists k :: 0 <= k < |bs| && bs[k].breakpointId == BookOf(bs, ms)[t].breakpointId
  {
    if bs[0].transactionId != t {
      IdsOfBook(bs[1..], ms, t);
      var k :| 0 <= k < |bs[1..]| && bs[1..][k].breakpointId == BookOf(bs[1..], ms)[t].breakpointId;
      assert bs[k + 1] == bs[1..][k];
    }
  }

  lemma GivenIsInTable(s: System)
    requires s.phase.Serving? && !Joined(s) && AllHidden(s)
    ensures s.given == map[] || s.table != map[]
  {
    if s.given != map[] {
      var t :| t in s.given;
      assert s.given[t] in s.table;
    }
  }

  lemma UncleanJoinOrphans(s: System, e: Event)
    requires Base(s) && AllHidden(s) && Can(s, e) && Joins(s, e) && !IsClean(s)
    ensures Orphaned(Outer(Do(s, e)))
  {
    assert !s.notices[0].Answer?;
    GivenIsInTable(s);
    if !NoSets(Line(s)) {
      var a :| 0 <= a < |Line(s)| && Line(s)[a].BreakpointSet?;
      OldSetIsOrphan(s, e, a);
    } else if s.table != map[] {
      var i :| i in s.table;
      HiddenIsOrphan(s, e, i);
    }
  }
}
