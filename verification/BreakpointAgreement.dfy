/**
  Whether the engine has set exactly the breakpoints of the list, whenever all messages of a session
  are consumed: it depends on what happened since the main thread joined that session, and on what
  was under way then. The condition is exact, in every run.
 */
module BreakpointAgreement {
  import opened DebuggerTypes
  import opened Breakpoints
  import opened BreakpointWire
  import opened BreakpointBook
  import opened BreakpointSessions
  import PathMapping

  // ---------------------------------------------------------------- a joined session as a wire

  function Replies(ns: seq<Notice>): seq<Reply> {
    seq(|ns|, k requires 0 <= k < |ns| => if ns[k].Answer? then ns[k].reply else Reply("", ""))
  }

  function Outer(s: System): Wire {
    Wire(BookOf(s.c.breakpoints, s.c.mappings), s.c.counter, Line(s), Replies(s.notices), s.table, s.given, s.used)
  }

  /** All messages of the session are consumed. */
  predicate IsSettled(s: System) {
    Joined(s) && Line(s) == [] && s.notices == []
  }

  /** The engine has set the breakpoint: under its own name for the file, at the line, enabled or not as in the list. */
  predicate IsSetAs(b: BreakpointWithHandle, place: Place, ms: seq<PathMapping.Mapping>) {
    && place.file == PathMapping.ToRemote(b.breakpoint.filename, ms)
    && place.line == b.breakpoint.lineNumber && place.isEnabled == b.breakpoint.isEnabled
  }

  /** Each breakpoint of the list is in the engine's table under its own id, and nothing else is. */
  predicate Agrees(s: System) {
    var bs := s.c.breakpoints;
    && (forall k :: 0 <= k < |bs| ==>
      bs[k].breakpointId in s.table && IsSetAs(bs[k], s.table[bs[k].breakpointId], s.c.mappings))
    && (forall j, k :: 0 <= j < k < |bs| ==> bs[j].breakpointId != bs[k].breakpointId)
    && (forall i :: i in s.table ==> exists k :: 0 <= k < |bs| && bs[k].breakpointId == i)
  }

  /** Nothing was set before the main thread joined the session, and nothing sets a breakpoint any more. */
  predicate IsClean(s: System) {
    s.table == map[] && s.given == map[] && NoSets(Line(s))
  }

  /**
    A session is joined when nothing older is set or will be; in a session that is joined the user
    removes a breakpoint only after the engine has answered for it.
   */
  predicate Careful(s: System, e: Event) {
    && (Joins(s, e) ==> IsClean(s))
    && (e.RemoveAt? && Joined(s) && HasBreakpointAt(s.c.breakpoints, e.file, e.line) ==>
        var k := IndexAt(s.c.breakpoints, e.file, e.line);
        k < |s.c.breakpoints| && IsAnswered(LinkOf(Outer(s)), s.c.breakpoints[k].transactionId))
  }

  /** The engine gives an id that it has never given in any session. */
  predicate GivesNew(s: System, e: Event) {
    e.EngineStep? && s.added != [] && s.added[0].BreakpointSet? ==> e.id !in s.used
  }

  lemma JoinedIsSingle(s: System)
    requires Listed(s) && AllNumbered(s.c.breakpoints)
    ensures SingleIds(s.c.breakpoints)
  {
  }

  lemma {:induction false} BookIsKnown(bs: seq<BreakpointWithHandle>, ms: seq<PathMapping.Mapping>, counter: nat, used: set<string>)
    requires KnownIds(bs, used) && forall k :: 0 <= k < |bs| ==> IsOld(bs[k].transactionId, counter)
    ensures forall t :: t in BookOf(bs, ms) ==>
      IsOld(t, counter) && (BookOf(bs, ms)[t].breakpointId == "" || BookOf(bs, ms)[t].breakpointId in used)
  {
    if bs != [] {
      BookIsKnown(bs[1..], ms, counter, used);
    }
  }

  lemma JoinedIsKnown(s: System)
    requires Listed(s) && Pipeline(s) && AllNumbered(s.c.breakpoints) && AllAnswers(s.notices)
    ensures Known(Outer(s))
  {
    var w := Outer(s);
    BookIsKnown(s.c.breakpoints, s.c.mappings, s.c.counter, s.used);
    forall a | 0 <= a < |w.commands| ensures KnownCommand(w, w.commands[a]) {
      assert LeftCommand(Line(s)[a], s.c.counter, s.used);
    }
  }

  /** In a session that is joined: what the wire needs, in every run. */
  lemma JoinedBasics(s: System)
    requires Base(s) && Joined(s)
    ensures s.c.isSessionActive && SingleIds(s.c.breakpoints) && Known(Outer(s))
  {
    JoinedIsSingle(s);
    JoinedIsKnown(s);
  }

  // ---------------------------------------------------------------- steps of a joined session, seen from the wire

  lemma AddOnWire(s: System, file: string, handle: int, line: int)
    requires s.c.isSessionActive && !HasBreakpointAt(s.c.breakpoints, file, line) && Known(Outer(s))
    ensures Outer(Do(s, AddAt(file, handle, line))) == Add(Outer(s), PlaceOf(NewBreakpoint(file, handle, line), s.c.mappings))
  {
    var v := Do(s, AddAt(file, handle, line));
    Fresh(s.c.counter);
    BookLast(s.c.breakpoints, s.c.mappings, NewBreakpoint(file, handle, line).(transactionId := Transaction(s.c.counter)));
    assert Line(v) == Line(s) + [v.c.commands[|s.c.commands|]];
  }

  lemma RemoveOnWire(s: System, file: string, line: int)
    requires s.c.isSessionActive && SingleIds(s.c.breakpoints)
    requires IndexAt(s.c.breakpoints, file, line) < |s.c.breakpoints|
    ensures var t := s.c.breakpoints[IndexAt(s.c.breakpoints, file, line)].transactionId;
      t in Outer(s).book && Outer(Do(s, RemoveAt(file, line))) == Remove(Outer(s), t)
  {
    var k := IndexAt(s.c.breakpoints, file, line);
    var v := Do(s, RemoveAt(file, line));
    RemovedAt(s.c, file, line, k);
    EntryAt(s.c.breakpoints, s.c.mappings, k);
    BookWithout(s.c.breakpoints, s.c.mappings, k);
    assert Line(v) == Line(s) + [v.c.commands[|s.c.commands|]];
  }

  lemma RequestOnWire(s: System, verb: string)
    ensures Outer(Do(s, Request(verb))) == Post(Outer(s), verb)
  {
    assert Line(Do(s, Request(verb))) == Line(s) + [Other(Transaction(s.c.counter), verb)];
  }

  lemma OnCmdOnWire(s: System)
    requires Can(s, OnCmd)
    ensures Outer(Do(s, OnCmd)) == Outer(s)
  {
    assert Line(Do(s, OnCmd)) == Line(s);
  }

  lemma EngineOnWire(s: System, id: string)
    requires Joined(s) && Can(s, EngineStep(id))
    ensures Outer(s).commands != [] && Outer(s).commands[0] == s.added[0]
    ensures Outer(Do(s, EngineStep(id))) == Execute(Outer(s), id)
  {
    var v := Do(s, EngineStep(id));
    assert Line(v) == Line(s)[1..];
    if s.added[0].BreakpointSet? {
      assert Replies(v.notices) == Replies(s.notices) + [Reply(s.added[0].transactionId, id)];
    }
  }

  lemma DeliverOnWire(s: System, b: bool)
    requires Joined(s) && s.notices != [] && SingleIds(s.c.breakpoints)
    ensures Outer(s).replies != [] && Outer(Do(s, Notified(b))) == Deliver(Outer(s))
  {
    var r := s.notices[0].reply;
    var v := Do(s, Notified(b));
    assert v.c.breakpoints == WithIds(s.c.breakpoints, r.transactionId, r.breakpointId);
    BookAnswered(s.c.breakpoints, s.c.mappings, r.transactionId, r.breakpointId);
    assert Replies(v.notices) == Replies(s.notices)[1..];
    assert Line(v) == Line(s);
  }

  // ---------------------------------------------------------------- joining

  lemma JoinedWire(s: System, b: bool)
    requires Joins(s, Notified(b)) && s.notices == [Inited]
    ensures var w := Outer(Do(s, Notified(b)));
      && w.book == BookOf(Renumbered(s.c.breakpoints, s.c.counter), s.c.mappings)
      && w.commands == Line(s) + StartCommands(s.c, b) && w.replies == []
      && w.table == s.table && w.given == s.given
  {
    StartQueue(s.c, b);
    assert Line(Do(s, Notified(b))) == Line(s) + StartCommands(s.c, b);
  }

  /** Nothing given in this session: no answers are under way. */
  lemma CleanHasNoAnswers(s: System, e: Event)
    requires Current(s) && Joins(s, e) && s.given == map[]
    ensures s.notices == [Inited]
  {
    if |s.notices| > 1 {
      assert s.notices[1..][0].Answer?;
      forall j | 1 < j < |s.notices| ensures !s.notices[j].Inited? {
        assert s.notices[1..][j - 1].Answer?;
      }
      assert Recent(s.notices, 1);
    }
  }

  lemma CleanJoinMatches(s: System, e: Event)
    requires Base(s) && Can(s, e) && Joins(s, e) && IsClean(s)
    ensures Matched(Outer(Do(s, e))) && Apart(Outer(Do(s, e)))
  {
    var w := Outer(Do(s, e));
    StepKeepsBase(s, e);
    JoinedBasics(Do(s, e));
    CleanHasNoAnswers(s, e);
    JoinedWire(s, e.doBreakOnStart);
    StartAnnounces(s.c, e.doBreakOnStart);
    LeftoversFirst(Line(s), StartCommands(s.c, e.doBreakOnStart));
    StartMatches(w, s.c.counter, |s.c.breakpoints|);
  }

  // ---------------------------------------------------------------- careful steps

  /** A careful step of a joined session keeps the tables together; ids are not repeated in the session. */
  lemma CarefulUserStep(s: System, e: Event)
    requires Base(s) && Joined(s) && Matched(Outer(s)) && Can(s, e) && Careful(s, e)
    requires e.AddAt? || e.RemoveAt? || e.Request? || e.OnCmd?
    ensures Matched(Outer(Do(s, e)))
  {
    JoinedBasics(s);
    match e {
      case AddAt(file, handle, line) =>
        if !HasBreakpointAt(s.c.breakpoints, file, line) {
          AddOnWire(s, file, handle, line);
          AddKeepsMatched(Outer(s), PlaceOf(NewBreakpoint(file, handle, line), s.c.mappings));
        }
      case RemoveAt(file, line) => CarefulRemoval(s, file, line);
      case Request(verb) =>
        RequestOnWire(s, verb);
        PostKeepsMatched(Outer(s), verb);
      case OnCmd => OnCmdOnWire(s);
    }
  }

  lemma CarefulRemoval(s: System, file: string, line: int)
    requires s.c.isSessionActive && SingleIds(s.c.breakpoints) && Matched(Outer(s)) && Joined(s) && Careful(s, RemoveAt(file, line))
    ensures Matched(Outer(Do(s, RemoveAt(file, line))))
  {
    var k := IndexAt(s.c.breakpoints, file, line);
    IndexAtFinds(s.c.breakpoints, file, line);
    if k < |s.c.breakpoints| {
      RemoveOnWire(s, file, line);
      RemoveKeepsMatched(Outer(s), s.c.breakpoints[k].transactionId);
    } else {
      assert Do(s, RemoveAt(file, line)) == s;
    }
  }

  lemma MessageStep(s: System, e: Event)
    requires Base(s) && Joined(s) && Matched(Outer(s)) && Can(s, e) && (e.EngineStep? || e.Notified?)
    requires e.EngineStep? ==> MayGive(Outer(s), e.id)
    ensures Matched(Outer(Do(s, e)))
  {
    JoinedBasics(s);
    if e.EngineStep? {
      EngineOnWire(s, e.id);
      ExecuteKeepsMatched(Outer(s), e.id);
    } else {
      DeliverOnWire(s, e.doBreakOnStart);
      DeliverKeepsMatched(Outer(s));
    }
  }

  lemma StaysJoined(s: System, e: Event)
    requires Joined(s) && Can(s, e) && Joined(Do(s, e))
    ensures e.AddAt? || e.RemoveAt? || e.Request? || e.OnCmd? || e.EngineStep? || e.Notified?
  {
  }

  lemma NewIsNew(s: System, id: string)
    requires Joined(s) && Can(s, EngineStep(id)) && GivesNew(s, EngineStep(id))
    ensures IsNew(Outer(s), id)
  {
    EngineOnWire(s, id);
  }

  lemma CarefulStep(s: System, e: Event)
    requires Base(s) && Joined(s) && Matched(Outer(s)) && Can(s, e) && Joined(Do(s, e)) && Careful(s, e) && GivesNew(s, e)
    ensures Matched(Outer(Do(s, e)))
  {
    StaysJoined(s, e);
    if e.EngineStep? || e.Notified? {
      if e.EngineStep? {
        JoinedBasics(s);
        NewIsNew(s, e.id);
        NewMayBeGiven(Outer(s), e.id);
      }
      MessageStep(s, e);
    } else {
      CarefulUserStep(s, e);
    }
  }

  lemma UserStepKeepsApart(s: System, e: Event)
    requires Base(s) && Joined(s) && Apart(Outer(s)) && Can(s, e) && (e.AddAt? || e.RemoveAt? || e.Request? || e.OnCmd?)
    ensures Apart(Outer(Do(s, e)))
  {
    JoinedBasics(s);
    match e {
      case AddAt(file, handle, line) =>
        if !HasBreakpointAt(s.c.breakpoints, file, line) {
          AddOnWire(s, file, handle, line);
          AddKeepsApart(Outer(s), PlaceOf(NewBreakpoint(file, handle, line), s.c.mappings));
        }
      case RemoveAt(file, line) =>
        var k := IndexAt(s.c.breakpoints, file, line);
        if k < |s.c.breakpoints| {
          RemoveOnWire(s, file, line);
          RemoveKeepsApart(Outer(s), s.c.breakpoints[k].transactionId);
        }
      case Request(verb) => RequestOnWire(s, verb);
      case OnCmd => OnCmdOnWire(s);
    }
  }

  lemma StepKeepsApart(s: System, e: Event)
    requires Base(s) && Joined(s) && Matched(Outer(s)) && Apart(Outer(s)) && Can(s, e) && Joined(Do(s, e)) && GivesNew(s, e)
    ensures Apart(Outer(Do(s, e)))
  {
    JoinedBasics(s);
    StaysJoined(s, e);
    if e.EngineStep? {
      EngineOnWire(s, e.id);
      NewIsNew(s, e.id);
      ExecuteKeepsApart(Outer(s), e.id);
    } else if e.Notified? {
      DeliverOnWire(s, e.doBreakOnStart);
      DeliverKeepsApart(Outer(s));
    } else {
      UserStepKeepsApart(s, e);
    }
  }

  // ---------------------------------------------------------------- careless steps

  lemma NotAnswered(s: System, e: Event) returns (k: nat)
    requires Joined(s) && !Careful(s, e)
    ensures e.RemoveAt? && k == IndexAt(s.c.breakpoints, e.file, e.line) && k < |s.c.breakpoints|
    ensures !IsAnswered(LinkOf(Outer(s)), s.c.breakpoints[k].transactionId)
  {
    IndexAtFinds(s.c.breakpoints, e.file, e.line);
    k := IndexAt(s.c.breakpoints, e.file, e.line);
  }

  /** A breakpoint removed before the engine has answered for it becomes an orphan. */
  lemma CarelessStepOrphans(s: System, e: Event)
    requires Base(s) && Joined(s) && Matched(Outer(s)) && Apart(Outer(s)) && Can(s, e) && !Careful(s, e)
    ensures Orphaned(Outer(Do(s, e)))
  {
    JoinedBasics(s);
    var k := NotAnswered(s, e);
    RemoveOnWire(s, e.file, e.line);
    RemoveTooEarly(Outer(s), s.c.breakpoints[k].transactionId);
  }

  lemma UserStepKeepsOrphan(s: System, e: Event)
    requires Base(s) && Joined(s) && Orphaned(Outer(s)) && Can(s, e) && (e.AddAt? || e.RemoveAt? || e.Request? || e.OnCmd?)
    ensures Orphaned(Outer(Do(s, e)))
  {
    JoinedBasics(s);
    match e {
      case AddAt(file, handle, line) =>
        if !HasBreakpointAt(s.c.breakpoints, file, line) {
          AddOnWire(s, file, handle, line);
          AddKeepsOrphan(Outer(s), PlaceOf(NewBreakpoint(file, handle, line), s.c.mappings));
        }
      case RemoveAt(file, line) =>
        var k := IndexAt(s.c.breakpoints, file, line);
        if k < |s.c.breakpoints| {
          RemoveOnWire(s, file, line);
          RemoveKeepsOrphan(Outer(s), s.c.breakpoints[k].transactionId);
        }
      case Request(verb) =>
        RequestOnWire(s, verb);
        PostKeepsOrphan(Outer(s), verb);
      case OnCmd => OnCmdOnWire(s);
    }
  }

  lemma StepKeepsOrphan(s: System, e: Event)
    requires Base(s) && Joined(s) && Orphaned(Outer(s)) && Can(s, e) && Joined(Do(s, e)) && GivesNew(s, e)
    ensures Orphaned(Outer(Do(s, e)))
  {
    JoinedBasics(s);
    StaysJoined(s, e);
    if e.EngineStep? {
      EngineOnWire(s, e.id);
      NewIsNew(s, e.id);
      ExecuteKeepsOrphan(Outer(s), e.id);
    } else if e.Notified? {
      DeliverOnWire(s, e.doBreakOnStart);
      DeliverKeepsOrphan(Outer(s));
    } else {
      UserStepKeepsOrphan(s, e);
    }
  }
}
