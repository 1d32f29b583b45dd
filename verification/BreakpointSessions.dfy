/**
  Debug sessions one after the other. A command posted by the feature is an event of the main thread
  first, then an entry of the server's queue, from where the background thread sends it to the engine.
  When a script stops, the background thread empties the server's queue, and only that; the main
  thread learns of answers, stops and new sessions later, by events of its own.
 */
module BreakpointSessions {
  import opened DebuggerTypes
  import opened Breakpoints
  import opened BreakpointWire
  import opened BreakpointBook
  import PathMapping

  /** What the background thread does: wait for an engine, serve one, or empty its queue after a script. */
  datatype Phase = Accepting | Serving | Draining

  /** What it tells the main thread. */
  datatype Notice = Answer(reply: Reply) | Stopped | Inited

  /**
    `c.commands` are the commands posted and not yet added by OnCmd, `added` is the queue of the
    server; `notices` are the events the main thread has not handled. `table`, `given` and `used` are
    the engine's: its breakpoints in this session, under which id it set which command's, and all ids
    of all sessions.
   */
  datatype System = System(
    c: Client, phase: Phase, added: seq<Command>, notices: seq<Notice>,
    table: map<string, Place>, given: map<string, string>, used: set<string>)

  datatype Event =
    | Connect
    | ScriptStops
    | Emptied
    | Breaks
    | OnCmd
    | EngineStep(id: string)
    | Notified(doBreakOnStart: bool)
    | AddAt(file: string, handle: int, line: int)
    | RemoveAt(file: string, line: int)
    | Request(verb: string)

  function Start(bs: seq<BreakpointWithHandle>, ms: seq<PathMapping.Mapping>): System {
    System(Client(bs, false, 0, [], ms), Accepting, [], [], map[], map[], {})
  }

  /**
    The engine does not repeat an id within a session. A script may stop at any time, or its connection
    break, of which the main thread is told nothing; anything may be requested at any time.
   */
  predicate Can(s: System, e: Event) {
    match e
    case Connect => s.phase.Accepting?
    case ScriptStops => s.phase.Serving?
    case Emptied => s.phase.Draining?
    case Breaks => s.phase.Serving?
    case OnCmd => s.c.commands != []
    case EngineStep(id) =>
      s.phase.Serving? && s.added != [] && (s.added[0].BreakpointSet? ==> id != "" && id !in s.given.Values)
    case Notified(_) => s.notices != []
    case AddAt(_, _, _) => true
    case RemoveAt(_, _) => true
    case Request(_) => true
  }

  function Executed(s: System, id: string): System
    requires s.added != []
  {
    var rest := s.(added := s.added[1..]);
    match s.added[0]
    case BreakpointSet(t, place) =>
      rest.(table := s.table[id := place], given := s.given[t := id], used := s.used + {id},
            notices := s.notices + [Answer(Reply(t, id))])
    case BreakpointRemove(_, i) => rest.(table := s.table - {i})
    case Other(_, _) => rest
  }

  function Handled(s: System, doBreakOnStart: bool): System
    requires s.notices != []
  {
    var rest := s.(notices := s.notices[1..]);
    match s.notices[0]
    case Answer(r) => rest.(c := Answered(s.c, r.transactionId, r.breakpointId))
    case Stopped => rest.(c := s.c.(isSessionActive := false))
    case Inited => rest.(c := Initialized(s.c, doBreakOnStart))
  }

  function Posted(c: Client, command: Command): Client {
    c.(counter := c.counter + 1, commands := c.commands + [command])
  }

  function Do(s: System, e: Event): System
    requires Can(s, e)
  {
    match e
    case Connect => s.(phase := Serving, notices := s.notices + [Inited], table := map[], given := map[])
    case ScriptStops => s.(phase := Draining, notices := s.notices + [Stopped], table := map[], given := map[])
    case Emptied => s.(phase := Accepting, added := [])
    case Breaks => s.(phase := Accepting, table := map[], given := map[])
    case OnCmd => s.(c := s.c.(commands := s.c.commands[1..]), added := s.added + [s.c.commands[0]])
    case EngineStep(id) => Executed(s, id)
    case Notified(doBreakOnStart) => Handled(s, doBreakOnStart)
    case AddAt(file, handle, line) => s.(c := Added(s.c, file, handle, line))
    case RemoveAt(file, line) => s.(c := Removed(s.c, file, line))
    case Request(verb) => s.(c := Posted(s.c, Other(Transaction(s.c.counter), verb)))
  }

  predicate StepAt(run: seq<System>, events: seq<Event>, n: int)
    requires 0 <= n < |events| < |run|
  {
    Can(run[n], events[n]) && run[n + 1] == Do(run[n], events[n])
  }

  /** A run from any state. */
  predicate IsRun(run: seq<System>, events: seq<Event>) {
    |run| == |events| + 1 && forall n :: 0 <= n < |events| ==> StepAt(run, events, n)
  }

  /** The application starts with the breakpoints of its configuration, no two at the same place. */
  predicate IsStart(s: System, bs: seq<BreakpointWithHandle>) {
    && s == Start(bs, s.c.mappings) && NoDuplicates(bs)
    && forall k :: 0 <= k < |bs| ==> bs[k].breakpointId == "" && bs[k].transactionId == ""
  }

  /** All commands on their way to the engine, in order. */
  function Line(s: System): seq<Command> {
    s.added + s.c.commands
  }

  predicate AllAnswers(ns: seq<Notice>) {
    forall k :: 0 <= k < |ns| ==> ns[k].Answer?
  }

  /** The main thread has handled the start of the session that the background thread serves. */
  predicate Joined(s: System) {
    s.phase.Serving? && AllAnswers(s.notices)
  }

  // ---------------------------------------------------------------- what every run keeps

  predicate NoDuplicates(bs: seq<BreakpointWithHandle>) {
    forall j, k :: 0 <= j < k < |bs| ==> !IsAt(bs[k], bs[j].breakpoint.filename, bs[j].breakpoint.lineNumber)
  }

  predicate KnownIds(bs: seq<BreakpointWithHandle>, used: set<string>) {
    "" !in used && forall k :: 0 <= k < |bs| ==> bs[k].breakpointId == "" || bs[k].breakpointId in used
  }

  /** Transaction ids are those of earlier commands and differ; a breakpoint added between sessions has none. */
  ghost predicate Numbered(bs: seq<BreakpointWithHandle>, counter: nat) {
    && (forall k :: 0 <= k < |bs| ==> bs[k].transactionId == "" || IsOld(bs[k].transactionId, counter))
    && (forall j, k :: 0 <= j < k < |bs| ==> bs[j].transactionId == "" || bs[j].transactionId != bs[k].transactionId)
  }

  ghost predicate Listed(s: System) {
    NoDuplicates(s.c.breakpoints) && KnownIds(s.c.breakpoints, s.used) && Numbered(s.c.breakpoints, s.c.counter)
  }

  ghost predicate KnownNotices(ns: seq<Notice>, counter: nat, used: set<string>) {
    forall k :: 0 <= k < |ns| && ns[k].Answer? ==>
      IsOld(ns[k].reply.transactionId, counter) && ns[k].reply.breakpointId in used
  }

  ghost predicate KnownTable(given: map<string, string>, table: map<string, Place>, counter: nat, used: set<string>) {
    && (forall t :: t in given ==> IsOld(t, counter) && given[t] in used)
    && (forall i :: i in table ==> i in used)
  }

  /** Everything under way was posted before and speaks of ids the engine has given. */
  ghost predicate Pipeline(s: System) {
    && LeftCommands(Line(s), s.c.counter, s.used)
    && KnownNotices(s.notices, s.c.counter, s.used)
    && KnownTable(s.given, s.table, s.c.counter, s.used)
  }

  predicate InitAfter(ns: seq<Notice>, k: int) {
    exists j :: 0 <= j < |ns| && k < j && ns[j].Inited?
  }

  /** While an engine is served, a stop not yet handled is followed by the start of this session. */
  predicate Status(s: System) {
    && (s.phase.Serving? ==> forall k :: 0 <= k < |s.notices| && s.notices[k].Stopped? ==> InitAfter(s.notices, k))
    && (!s.phase.Serving? ==> s.table == map[] && s.given == map[])
  }

  predicate AllNumbered(bs: seq<BreakpointWithHandle>) {
    forall k :: 0 <= k < |bs| ==> bs[k].transactionId != ""
  }

  predicate Active(s: System) {
    Joined(s) ==> s.c.isSessionActive && AllNumbered(s.c.breakpoints)
  }

  /** An answer behind the start of the latest session. */
  predicate Recent(ns: seq<Notice>, k: int) {
    0 <= k < |ns| && ns[k].Answer? && !InitAfter(ns, k)
  }

  /** Answers of the session under way are for commands executed in it. */
  predicate Current(s: System) {
    s.phase.Serving? ==> forall k :: 0 <= k < |s.notices| && Recent(s.notices, k) ==> s.notices[k].reply.transactionId in s.given
  }

  ghost predicate Base(s: System) {
    Listed(s) && Pipeline(s) && Status(s) && Active(s) && Current(s)
  }

  // ---------------------------------------------------------------- the list

  lemma AddKeepsListed(s: System, file: string, handle: int, line: int)
    requires Listed(s)
    ensures Listed(Do(s, AddAt(file, handle, line)))
  {
    if !HasBreakpointAt(s.c.breakpoints, file, line) {
      var t := if s.c.isSessionActive then Transaction(s.c.counter) else "";
      AddKeepsNoDuplicates(s.c.breakpoints, NewBreakpoint(file, handle, line).(transactionId := t), s.used);
      AddKeepsNumbered(s.c.breakpoints, s.c.counter, NewBreakpoint(file, handle, line).(transactionId := t));
    }
  }

  lemma AddKeepsNoDuplicates(bs: seq<BreakpointWithHandle>, b: BreakpointWithHandle, used: set<string>)
    requires NoDuplicates(bs) && !HasBreakpointAt(bs, b.breakpoint.filename, b.breakpoint.lineNumber)
    requires KnownIds(bs, used) && b.breakpointId == ""
    ensures NoDuplicates(bs + [b]) && KnownIds(bs + [b], used)
  {
    forall j, k | 0 <= j < k < |bs + [b]|
      ensures !IsAt((bs + [b])[k], (bs + [b])[j].breakpoint.filename, (bs + [b])[j].breakpoint.lineNumber)
    {
      assert j < |bs| && !IsAt(bs[j], b.breakpoint.filename, b.breakpoint.lineNumber);
    }
  }

  lemma AddKeepsNumbered(bs: seq<BreakpointWithHandle>, counter: nat, b: BreakpointWithHandle)
    requires Numbered(bs, counter) && (b.transactionId == "" || b.transactionId == Transaction(counter))
    ensures b.transactionId == "" ==> Numbered(bs + [b], counter)
    ensures Numbered(bs + [b], counter + 1)
  {
    Fresh(counter);
    StaysOld(b.transactionId, counter);
    forall k | 0 <= k < |bs| ensures bs[k].transactionId == "" || IsOld(bs[k].transactionId, counter + 1) {
      StaysOld(bs[k].transactionId, counter);
    }
  }

  lemma NumberedLater(bs: seq<BreakpointWithHandle>, counter: nat, later: nat)
    requires Numbered(bs, counter) && counter <= later
    ensures Numbered(bs, later)
  {
    forall k | 0 <= k < |bs| && bs[k].transactionId != "" ensures IsOld(bs[k].transactionId, later) {
      OldLater(bs[k].transactionId, counter, later);
    }
  }

  lemma RemoveKeepsListed(s: System, file: string, line: int)
    requires Listed(s)
    ensures Listed(Do(s, RemoveAt(file, line)))
  {
    var k := IndexAt(s.c.breakpoints, file, line);
    if k < |s.c.breakpoints| {
      RemovedAt(s.c, file, line, k);
      ShorterKeeps(s.c.breakpoints, k, s.used, s.c.counter);
      NumberedLater(s.c.breakpoints[..k] + s.c.breakpoints[k + 1..], s.c.counter, s.c.counter + 1);
    }
  }

  lemma ShorterKeeps(bs: seq<BreakpointWithHandle>, k: nat, used: set<string>, counter: nat)
    requires NoDuplicates(bs) && KnownIds(bs, used) && Numbered(bs, counter) && k < |bs|
    ensures var r := bs[..k] + bs[k + 1..]; NoDuplicates(r) && KnownIds(r, used) && Numbered(r, counter)
  {
  }

  lemma AnswerKeepsListed(s: System, t: string, i: string)
    requires Listed(s) && i in s.used
    ensures Listed(s.(c := Answered(s.c, t, i)))
  {
    var bs, bs' := s.c.breakpoints, Answered(s.c, t, i).breakpoints;
    forall j, k | 0 <= j < k < |bs'|
      ensures !IsAt(bs'[k], bs'[j].breakpoint.filename, bs'[j].breakpoint.lineNumber)
    {
      assert !IsAt(bs[k], bs[j].breakpoint.filename, bs[j].breakpoint.lineNumber);
    }
  }

  lemma InitKeepsListed(s: System, doBreakOnStart: bool)
    requires Listed(s)
    ensures Listed(s.(c := Initialized(s.c, doBreakOnStart))) && AllNumbered(Initialized(s.c, doBreakOnStart).breakpoints)
  {
    SamePlaces(s.c.breakpoints, s.c.counter, s.used);
    SingleRenumbered(s.c.breakpoints, s.c.counter);
    RenumberedIsOld(s.c.breakpoints, s.c.counter, s.c.counter + |s.c.breakpoints| + 7);
  }

  lemma SamePlaces(bs: seq<BreakpointWithHandle>, counter: nat, used: set<string>)
    requires NoDuplicates(bs) && KnownIds(bs, used)
    ensures NoDuplicates(Renumbered(bs, counter)) && KnownIds(Renumbered(bs, counter), used)
  {
  }

  lemma RenumberedIsOld(bs: seq<BreakpointWithHandle>, counter: nat, later: nat)
    requires counter + |bs| <= later
    ensures forall k :: 0 <= k < |bs| ==> IsOld(Renumbered(bs, counter)[k].transactionId, later)
  {
    forall k | 0 <= k < |bs| ensures IsOld(Renumbered(bs, counter)[k].transactionId, later) {
      assert Renumbered(bs, counter)[k].transactionId == Transaction(counter + k);
    }
  }

  lemma StepKeepsListed(s: System, e: Event)
    requires Listed(s) && Pipeline(s) && Can(s, e)
    ensures Listed(Do(s, e))
  {
    match e {
      case AddAt(file, handle, line) => AddKeepsListed(s, file, handle, line);
      case RemoveAt(file, line) => RemoveKeepsListed(s, file, line);
      case Request(_) => NumberedLater(s.c.breakpoints, s.c.counter, s.c.counter + 1);
      case Notified(doBreakOnStart) =>
        if s.notices[0].Answer? {
          AnswerKeepsListed(s, s.notices[0].reply.transactionId, s.notices[0].reply.breakpointId);
        } else if s.notices[0].Inited? {
          InitKeepsListed(s, doBreakOnStart);
        }
      case _ =>
    }
  }

  // ---------------------------------------------------------------- what is under way

  lemma LeftLater(commands: seq<Command>, counter: nat, later: nat, used: set<string>)
    requires LeftCommands(commands, counter, used) && counter <= later
    ensures LeftCommands(commands, later, used)
  {
    forall a | 0 <= a < |commands| ensures LeftCommand(commands[a], later, used) {
      assert LeftCommand(commands[a], counter, used);
      OldLater(commands[a].transactionId, counter, later);
    }
  }

  lemma NoticesLater(ns: seq<Notice>, counter: nat, later: nat, used: set<string>)
    requires KnownNotices(ns, counter, used) && counter <= later
    ensures KnownNotices(ns, later, used)
  {
    forall k | 0 <= k < |ns| && ns[k].Answer? ensures IsOld(ns[k].reply.transactionId, later) {
      OldLater(ns[k].reply.transactionId, counter, later);
    }
  }

  lemma TableLater(given: map<string, string>, table: map<string, Place>, counter: nat, later: nat, used: set<string>)
    requires KnownTable(given, table, counter, used) && counter <= later
    ensures KnownTable(given, table, later, used)
  {
    forall t | t in given ensures IsOld(t, later) {
      OldLater(t, counter, later);
    }
  }

  /** One more command is posted. */
  lemma PostKeepsPipeline(s: System, c: Client, command: Command)
    requires Pipeline(s) && c.commands == s.c.commands + [command] && c.counter == s.c.counter + 1
    requires command.transactionId == Transaction(s.c.counter)
    requires command.BreakpointRemove? ==> command.breakpointId == "" || command.breakpointId in s.used
    ensures Pipeline(s.(c := c))
  {
    var v := s.(c := c);
    LeftLater(Line(s), s.c.counter, c.counter, s.used);
    NoticesLater(s.notices, s.c.counter, c.counter, s.used);
    TableLater(s.given, s.table, s.c.counter, c.counter, s.used);
    assert Line(v) == Line(s) + [command];
    StaysOld("", s.c.counter);
    forall a | 0 <= a < |Line(v)| ensures LeftCommand(Line(v)[a], c.counter, s.used) {
      assert a < |Line(s)| ==> LeftCommand(Line(s)[a], c.counter, s.used);
    }
  }

  lemma AddKeepsPipeline(s: System, file: string, handle: int, line: int)
    requires Pipeline(s)
    ensures Pipeline(Do(s, AddAt(file, handle, line)))
  {
    var v := Do(s, AddAt(file, handle, line));
    if !HasBreakpointAt(s.c.breakpoints, file, line) {
      if s.c.isSessionActive {
        PostKeepsPipeline(s, v.c, v.c.commands[|s.c.commands|]);
      } else {
        assert Line(v) == Line(s);
      }
    }
  }

  lemma RemoveKeepsPipeline(s: System, file: string, line: int)
    requires Pipeline(s) && Listed(s)
    ensures Pipeline(Do(s, RemoveAt(file, line)))
  {
    var k := IndexAt(s.c.breakpoints, file, line);
    var v := Do(s, RemoveAt(file, line));
    if k < |s.c.breakpoints| {
      RemovedAt(s.c, file, line, k);
      if s.c.isSessionActive {
        PostKeepsPipeline(s, v.c, v.c.commands[|s.c.commands|]);
      } else {
        assert Line(v) == Line(s);
      }
    }
  }

  lemma InitKeepsPipeline(s: System, doBreakOnStart: bool)
    requires Pipeline(s)
    ensures Pipeline(s.(c := Initialized(s.c, doBreakOnStart)))
  {
    var v := s.(c := Initialized(s.c, doBreakOnStart));
    StartQueue(s.c, doBreakOnStart);
    assert Line(v) == Line(s) + StartCommands(s.c, doBreakOnStart);
    StartCommandsLeft(s.c, Line(s), doBreakOnStart, s.used);
    NoticesLater(s.notices, s.c.counter, v.c.counter, s.used);
    TableLater(s.given, s.table, s.c.counter, v.c.counter, s.used);
  }

  lemma EngineKeepsPipeline(s: System, id: string)
    requires Pipeline(s) && s.added != []
    ensures Pipeline(Executed(s, id))
  {
    var v := Executed(s, id);
    assert Line(s)[0] == s.added[0] && LeftCommand(Line(s)[0], s.c.counter, s.used);
    assert Line(v) == Line(s)[1..];
    forall a | 0 <= a < |Line(v)| ensures LeftCommand(Line(v)[a], v.c.counter, v.used) {
      assert LeftCommand(Line(s)[a + 1], s.c.counter, s.used);
    }
  }

  lemma StepKeepsPipeline(s: System, e: Event)
    requires Pipeline(s) && Listed(s) && Can(s, e)
    ensures Pipeline(Do(s, e))
  {
    match e {
      case AddAt(file, handle, line) => AddKeepsPipeline(s, file, handle, line);
      case RemoveAt(file, line) => RemoveKeepsPipeline(s, file, line);
      case Request(verb) => PostKeepsPipeline(s, Do(s, e).c, Other(Transaction(s.c.counter), verb));
      case EngineStep(id) => EngineKeepsPipeline(s, id);
      case Notified(doBreakOnStart) => HandledKeepsPipeline(s, doBreakOnStart);
      case OnCmd => assert Line(Do(s, e)) == Line(s);
      case Emptied => EmptiedKeepsPipeline(s);
      case _ =>
    }
  }

  lemma EmptiedKeepsPipeline(s: System)
    requires Pipeline(s) && Can(s, Emptied)
    ensures Pipeline(Do(s, Emptied))
  {
    var v := Do(s, Emptied);
    forall a | 0 <= a < |Line(v)| ensures LeftCommand(Line(v)[a], s.c.counter, s.used) {
      assert Line(v)[a] == Line(s)[|s.added| + a];
    }
  }

  lemma HandledKeepsPipeline(s: System, doBreakOnStart: bool)
    requires Pipeline(s) && s.notices != []
    ensures Pipeline(Handled(s, doBreakOnStart))
  {
    var v := s.(notices := s.notices[1..]);
    assert Line(v) == Line(s);
    if s.notices[0].Inited? {
      InitKeepsPipeline(v, doBreakOnStart);
    } else {
      assert Line(Handled(s, doBreakOnStart)) == Line(s);
    }
  }

  // ---------------------------------------------------------------- where the two threads are

  lemma InitAfterTail(ns: seq<Notice>, k: nat)
    requires ns != []
    ensures InitAfter(ns[1..], k) <==> InitAfter(ns, k + 1)
  {
    if InitAfter(ns[1..], k) {
      var j :| 0 <= j < |ns[1..]| && k < j && ns[1..][j].Inited?;
      assert ns[j + 1].Inited?;
    }
    if InitAfter(ns, k + 1) {
      var j :| 0 <= j < |ns| && k + 1 < j && ns[j].Inited?;
      assert ns[1..][j - 1].Inited?;
    }
  }

  lemma InitAfterMore(ns: seq<Notice>, n: Notice, k: nat)
    requires k < |ns|
    ensures InitAfter(ns + [n], k) <==> n.Inited? || InitAfter(ns, k)
  {
    var r := ns + [n];
    if n.Inited? {
      assert r[|ns|].Inited?;
    }
    if InitAfter(ns, k) {
      var j :| 0 <= j < |ns| && k < j && ns[j].Inited?;
      assert r[j].Inited?;
    }
  }

  lemma MoreNotices(s: System, e: Event)
    requires Status(s) && Current(s) && Can(s, e) && (e.Connect? || e.EngineStep?)
    ensures Status(Do(s, e)) && Current(Do(s, e))
  {
    var v := Do(s, e);
    if |v.notices| == |s.notices| + 1 {
      forall k | 0 <= k < |s.notices| ensures InitAfter(v.notices, k) <==> e.Connect? || InitAfter(s.notices, k) {
        InitAfterMore(s.notices, v.notices[|s.notices|], k);
      }
    }
  }

  lemma HandledKeepsStatus(s: System, doBreakOnStart: bool)
    requires Status(s) && Current(s) && s.notices != []
    ensures Status(Handled(s, doBreakOnStart)) && Current(Handled(s, doBreakOnStart))
  {
    var v := Handled(s, doBreakOnStart);
    forall k | 0 <= k < |v.notices| ensures InitAfter(v.notices, k) <==> InitAfter(s.notices, k + 1) {
      InitAfterTail(s.notices, k);
    }
  }

  lemma StepKeepsStatus(s: System, e: Event)
    requires Status(s) && Current(s) && Can(s, e)
    ensures Status(Do(s, e)) && Current(Do(s, e))
  {
    match e {
      case Connect => MoreNotices(s, e);
      case EngineStep(_) => MoreNotices(s, e);
      case Notified(doBreakOnStart) => HandledKeepsStatus(s, doBreakOnStart);
      case _ =>
    }
  }

  /** The event by which the main thread joins the session under way. */
  predicate Joins(s: System, e: Event) {
    e.Notified? && s.phase.Serving? && s.notices != [] && s.notices[0].Inited? && AllAnswers(s.notices[1..])
  }

  lemma FirstStopIsFollowed(s: System)
    requires Status(s) && s.phase.Serving? && s.notices != [] && s.notices[0].Stopped?
    ensures !AllAnswers(s.notices[1..])
  {
    var j :| 0 <= j < |s.notices| && 0 < j && s.notices[j].Inited?;
    assert s.notices[1..][j - 1].Inited?;
  }

  lemma ConnectedIsNotJoined(s: System)
    requires Can(s, Connect)
    ensures !Joined(Do(s, Connect))
  {
    assert Do(s, Connect).notices[|s.notices|].Inited?;
  }

  /** Whether a session is joined does not depend on answers. */
  lemma AnswersDoNotJoin(s: System, e: Event)
    requires Can(s, e) && Joined(Do(s, e)) && (e.EngineStep? || (e.Notified? && s.notices[0].Answer?))
    ensures Joined(s)
  {
    var v := Do(s, e);
    forall k | 0 <= k < |s.notices| ensures s.notices[k].Answer? {
      if e.EngineStep? {
        assert v.notices[k] == s.notices[k];
      } else if k > 0 {
        assert v.notices[k - 1] == s.notices[k];
      }
    }
  }

  /** A session is joined by no other event. */
  lemma OnlyJoinsJoins(s: System, e: Event)
    requires Status(s) && Can(s, e) && !Joined(s) && Joined(Do(s, e))
    ensures Joins(s, e)
  {
    match e {
      case Connect => ConnectedIsNotJoined(s);
      case EngineStep(_) => AnswersDoNotJoin(s, e);
      case Notified(_) =>
        if s.notices[0].Stopped? {
          FirstStopIsFollowed(s);
        } else if s.notices[0].Answer? {
          AnswersDoNotJoin(s, e);
        }
      case _ =>
    }
  }

  lemma JoinedStaysActive(s: System, e: Event)
    requires Active(s) && Joined(s) && Can(s, e)
    ensures Active(Do(s, e))
  {
  }

  lemma StepKeepsActive(s: System, e: Event)
    requires Base(s) && Can(s, e)
    ensures Active(Do(s, e))
  {
    if Joined(s) {
      JoinedStaysActive(s, e);
    } else if Joined(Do(s, e)) {
      OnlyJoinsJoins(s, e);
      InitKeepsListed(s, e.doBreakOnStart);
    }
  }

  lemma StepKeepsBase(s: System, e: Event)
    requires Base(s) && Can(s, e)
    ensures Base(Do(s, e))
  {
    StepKeepsListed(s, e);
    StepKeepsPipeline(s, e);
    StepKeepsStatus(s, e);
    StepKeepsActive(s, e);
  }

  lemma {:induction false} RunKeepsBase(run: seq<System>, events: seq<Event>, bs: seq<BreakpointWithHandle>, n: nat)
    requires IsRun(run, events) && IsStart(run[0], bs) && n < |run|
    ensures Base(run[n])
  {
    if n > 0 {
      RunKeepsBase(run, events, bs, n - 1);
      assert StepAt(run, events, n - 1);
      StepKeepsBase(run[n - 1], events[n - 1]);
    }
  }
}
