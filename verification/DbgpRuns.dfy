/**
  Debug sessions as runs: OnCmd adds commands to the queue, the background thread writes them and
  reads the answers, the engine answers in order, sessions end and others begin. A command is added here
  when AddCommand is called for it; that it was posted by the feature before is another matter.
 */
module DbgpRuns {
  import opened DbgpSession

  /** A command and its number among all that were added. */
  datatype Command = Command(serial: nat, text: string)

  datatype Pc =
    | Accepting
    | Ready
    | Writing(command: Command)
    | Awaiting(command: Command)
    | Draining
    | Finished

  /** A response handed on under a verb. */
  datatype Dispatch = Dispatch(verb: string, response: Response)

  datatype Sent = Sent(session: nat, command: Command)

  /**
    `sent`, `channel` and `dispatched` are the commands written, the answers not yet read, and the
    responses dispatched in the current session, the init packet first; `history` is all that was
    ever written.
   */
  datatype State = State(
    pc: Pc, cancelled: bool, queue: seq<Command>, added: nat, session: nat, sent: seq<Command>,
    channel: seq<Response>, dispatched: seq<Dispatch>, history: seq<Sent>)

  const START := State(Accepting, false, [], 0, 0, [], [], [], [])

  datatype Event =
    | Add(text: string)
    | Cancel
    | Accept(init: Response)
    | StopAccepting
    | Take
    | Leave
    | Write(succeeds: bool)
    | EngineAnswers(response: Response)
    | Read(succeeds: bool)
    | Drain

  /**
    The engine answers each command once, in order, the init packet counting as the first answer. A
    connection may still come in when the server is told to stop while it waits for one.
   */
  predicate Can(s: State, e: Event) {
    match e
    case Add(_) => true
    case Cancel => true
    case Accept(init) => s.pc.Accepting? && init.index == 0
    case StopAccepting => s.pc.Accepting?
    case Take => s.pc.Ready? && !s.cancelled
    case Leave => s.pc.Ready? && s.cancelled
    case Write(_) => s.pc.Writing?
    case EngineAnswers(r) =>
      r.index == |s.dispatched| + |s.channel| && |s.dispatched| + |s.channel| < |s.sent| + 1
    case Read(succeeds) => s.pc.Awaiting? && (succeeds ==> s.channel != [])
    case Drain => s.pc.Draining?
  }

  /** NextCommand pops; an empty command is popped and taken for no command. */
  function Rest(queue: seq<Command>): seq<Command> {
    if queue == [] then [] else queue[1..]
  }

  predicate NothingNext(queue: seq<Command>) {
    queue == [] || queue[0].text == ""
  }

  /** Between sessions the server waits for the next connection, unless it has been told to stop. */
  function Outside(s: State): Pc {
    if s.cancelled then Finished else Accepting
  }

  function Do(s: State, e: Event): State
    requires Can(s, e)
  {
    match e
    case Add(text) => s.(queue := s.queue + [Command(s.added, text)], added := s.added + 1)
    case Cancel => s.(cancelled := true)
    case Accept(init) =>
      s.(pc := Ready, session := s.session + 1, sent := [], channel := [], dispatched := [Dispatch("init", init)])
    case StopAccepting => s.(pc := Finished)
    case Take => s.(queue := Rest(s.queue), pc := if NothingNext(s.queue) then Ready else Writing(s.queue[0]))
    case Leave => s.(pc := Outside(s))
    case Write(succeeds) =>
      var c := s.pc.command;
      if !succeeds then s.(pc := Outside(s))
      else s.(pc := Awaiting(c), sent := s.sent + [c], history := s.history + [Sent(s.session, c)])
    case EngineAnswers(r) => s.(channel := s.channel + [r])
    case Read(succeeds) =>
      var c := s.pc.command;
      if !succeeds then s.(pc := Outside(s))
      else
        var r := s.channel[0];
        s.(channel := s.channel[1..], dispatched := s.dispatched + [Dispatch(Verb(c.text), r)],
           pc := if Stops(c.text, r) then Draining else Ready)
    case Drain => s.(queue := Rest(s.queue), pc := if NothingNext(s.queue) then Outside(s) else Draining)
  }

  /** A run from any state. */
  predicate Follows(run: seq<State>, events: seq<Event>) {
    && |run| == |events| + 1
    && forall n :: 0 <= n < |events| ==> Can(run[n], events[n]) && run[n + 1] == Do(run[n], events[n])
  }

  predicate IsRun(run: seq<State>, events: seq<Event>) {
    Follows(run, events) && run[0] == START
  }

  // ---------------------------------------------------------------- what every step keeps

  /** The commands still to be written, in order: the one taken, then the queue. */
  function Pending(s: State): seq<Command> {
    if s.pc.Writing? then [s.pc.command] + s.queue else s.queue
  }

  function Written(history: seq<Sent>): seq<Command> {
    seq(|history|, k requires 0 <= k < |history| => history[k].command)
  }

  /** All commands that were written or may still be, oldest first. */
  function Line(s: State): seq<Command> {
    Written(s.history) + Pending(s)
  }

  predicate Increasing(line: seq<Command>) {
    forall j, k :: 0 <= j < k < |line| ==> line[j].serial < line[k].serial
  }

  predicate Below(line: seq<Command>, added: nat) {
    forall k :: 0 <= k < |line| ==> line[k].serial < added
  }

  ghost predicate InOrder(s: State) {
    && Increasing(Line(s)) && Below(Line(s), s.added)
    && (forall j :: 0 <= j < |s.history| ==> s.history[j].command.text != "")
    && (s.pc.Writing? ==> s.pc.command.text != "")
  }

  /** What the current session wrote is the last part of all that was written. */
  ghost predicate SessionsMatch(s: State) {
    && |s.sent| <= |s.history|
    && (forall j :: 0 <= j < |s.sent| ==> s.history[|s.history| - |s.sent| + j] == Sent(s.session, s.sent[j]))
    && (forall j :: 0 <= j < |s.history| - |s.sent| ==> s.history[j].session < s.session)
  }

  predicate InSession(pc: Pc) {
    pc.Ready? || pc.Writing? || pc.Awaiting? || pc.Draining?
  }

  ghost predicate LockStep(s: State) {
    && (forall i :: 0 <= i < |s.dispatched| ==> s.dispatched[i].response.index == i)
    && (forall i :: 0 <= i < |s.channel| ==> s.channel[i].index == |s.dispatched| + i)
    && (InSession(s.pc) ==>
      && |s.dispatched| == |s.sent| + (if s.pc.Awaiting? then 0 else 1)
      && |s.dispatched| + |s.channel| <= |s.sent| + 1)
    && (s.pc.Awaiting? ==> s.sent != [] && s.sent[|s.sent| - 1] == s.pc.command)
    && (s.dispatched != [] ==> |s.dispatched| <= |s.sent| + 1 && s.dispatched[0].verb == "init")
    && (forall i :: 1 <= i < |s.dispatched| ==> i <= |s.sent| && s.dispatched[i].verb == Verb(s.sent[i - 1].text))
  }

  lemma DropOne(line: seq<Command>, k: nat, added: nat)
    requires Increasing(line) && Below(line, added) && k < |line|
    ensures Increasing(line[..k] + line[k + 1..]) && Below(line[..k] + line[k + 1..], added)
  {
  }

  /** The first command that may still be written goes. */
  lemma PendingLosesFirst(s: State, v: State)
    requires InOrder(s) && Pending(s) != [] && v.history == s.history && v.added == s.added
    requires Pending(v) == Pending(s)[1..] && !v.pc.Writing?
    ensures InOrder(v)
  {
    var k := |s.history|;
    DropOne(Line(s), k, s.added);
    assert Line(v) == Line(s)[..k] + Line(s)[k + 1..];
  }

  lemma AddKeepsOrder(s: State, text: string)
    requires InOrder(s)
    ensures InOrder(Do(s, Add(text)))
  {
    var v := Do(s, Add(text));
    assert Line(v) == Line(s) + [Command(s.added, text)];
  }

  lemma WriteKeepsOrder(s: State, succeeds: bool)
    requires InOrder(s) && s.pc.Writing?
    ensures InOrder(Do(s, Write(succeeds)))
  {
    var v := Do(s, Write(succeeds));
    assert Pending(s)[1..] == s.queue;
    if succeeds {
      assert Line(v) == Line(s);
    } else {
      PendingLosesFirst(s, v);
    }
  }

  /** Popping a command that is not written, or taking one to write it. */
  lemma PopKeepsOrder(s: State, v: State)
    requires InOrder(s) && !s.pc.Writing? && v == s.(queue := Rest(s.queue), pc := v.pc)
    requires v.pc.Writing? ==> s.queue != [] && v.pc.command == s.queue[0] && s.queue[0].text != ""
    ensures InOrder(v)
  {
    if v.pc.Writing? || s.queue == [] {
      assert Pending(v) == Pending(s);
    } else {
      PendingLosesFirst(s, v);
    }
  }

  lemma StepKeepsOrder(s: State, e: Event)
    requires InOrder(s) && Can(s, e)
    ensures InOrder(Do(s, e))
  {
    match e {
      case Add(text) => AddKeepsOrder(s, text);
      case Write(succeeds) => WriteKeepsOrder(s, succeeds);
      case Take => PopKeepsOrder(s, Do(s, e));
      case Drain => PopKeepsOrder(s, Do(s, e));
      case _ => assert Line(Do(s, e)) == Line(s);
    }
  }

  lemma StepKeepsSessions(s: State, e: Event)
    requires SessionsMatch(s) && Can(s, e)
    ensures SessionsMatch(Do(s, e))
  {
    var k := |s.history| - |s.sent|;
    forall j | 0 <= j < |s.history| ensures s.history[j].session <= s.session {
      if j >= k {
        assert s.history[k + (j - k)] == Sent(s.session, s.sent[j - k]);
      }
    }
  }

  lemma ReadKeepsLockStep(s: State, succeeds: bool)
    requires LockStep(s) && Can(s, Read(succeeds))
    ensures LockStep(Do(s, Read(succeeds)))
  {
  }

  lemma StepKeepsLockStep(s: State, e: Event)
    requires LockStep(s) && Can(s, e)
    ensures LockStep(Do(s, e))
  {
    if e.Read? {
      ReadKeepsLockStep(s, e.succeeds);
    }
  }

  lemma {:induction false} RunKeeps(run: seq<State>, events: seq<Event>, n: nat)
    requires IsRun(run, events) && n < |run|
    ensures InOrder(run[n]) && SessionsMatch(run[n]) && LockStep(run[n])
  {
    if n > 0 {
      RunKeeps(run, events, n - 1);
      StepKeepsOrder(run[n - 1], events[n - 1]);
      StepKeepsSessions(run[n - 1], events[n - 1]);
      StepKeepsLockStep(run[n - 1], events[n - 1]);
    }
  }

  // ---------------------------------------------------------------- main results

  /** Commands are written in the order in which they were added, each at most once, never an empty one. */
  lemma WrittenInOrder(run: seq<State>, events: seq<Event>, n: nat)
    requires IsRun(run, events) && n < |run|
    ensures forall j, k :: 0 <= j < k < |run[n].history| ==>
      run[n].history[j].command.serial < run[n].history[k].command.serial
    ensures forall j :: 0 <= j < |run[n].history| ==> run[n].history[j].command.text != ""
  {
    RunKeeps(run, events, n);
    var line := Line(run[n]);
    assert forall j :: 0 <= j < |run[n].history| ==> line[j] == run[n].history[j].command;
  }

  /** During a session at most one command is without its answer, and none when the next is written. */
  lemma AtMostOneUnanswered(run: seq<State>, events: seq<Event>, n: nat)
    requires IsRun(run, events) && n < |run| && InSession(run[n].pc)
    ensures |run[n].sent| - (|run[n].dispatched| - 1) == if run[n].pc.Awaiting? then 1 else 0
  {
    RunKeeps(run, events, n);
  }

  /** The i-th answer of a session is dispatched under the verb of the i-th command, the init packet under init. */
  lemma AnswersMeetTheirCommands(run: seq<State>, events: seq<Event>, n: nat, i: nat)
    requires IsRun(run, events) && n < |run| && i < |run[n].dispatched|
    ensures run[n].dispatched[i].response.index == i
    ensures if i == 0 then run[n].dispatched[i].verb == "init"
      else i <= |run[n].sent| && run[n].dispatched[i].verb == Verb(run[n].sent[i - 1].text)
  {
    RunKeeps(run, events, n);
  }

  /**
    The removal of commands begins exactly with a successful read of an answer that parses and says
    stopping, for a command built from one of five verbs; after any other answer the session goes on.
   */
  lemma DrainsExactlyWhenStopping(run: seq<State>, events: seq<Event>, n: nat, verb: string, args: string)
    requires IsRun(run, events) && n < |events| && events[n] == Read(true)
    requires run[n].pc.command.text == verb + " " + args
    requires forall k :: 0 <= k < |verb| ==> verb[k] != ' ' && !('A' <= verb[k] <= 'Z')
    ensures run[n].channel != []
    ensures run[n + 1].pc.Draining? <==>
      && (verb == "run" || verb == "step_into" || verb == "step_over" || verb == "step_out" || verb == "stop")
      && run[n].channel[0].parses && run[n].channel[0].status == Stopping
    ensures run[n + 1].pc.Draining? || run[n + 1].pc.Ready?
  {
    StepTaken(run, events, n);
    StopsExactlyWhen(verb, args, run[n].channel[0]);
  }

  /** And nothing else begins it. */
  lemma OnlyAnAnswerDrains(run: seq<State>, events: seq<Event>, n: nat)
    requires IsRun(run, events) && n < |events| && run[n + 1].pc.Draining? && !run[n].pc.Draining?
    ensures events[n] == Read(true) && run[n].pc.Awaiting? && run[n].channel != []
  {
    StepTaken(run, events, n);
  }

  // ---------------------------------------------------------------- being told to stop

  /** Since s, the server was told to stop, and wrote no more than the command it had already taken. */
  predicate Winding(s: State, t: State) {
    && t.cancelled
    && (t.pc.Writing? ==> s.pc == t.pc && t.history == s.history && t.session == s.session)
    && (t.history == s.history || (s.pc.Writing? && t.history == s.history + [Sent(s.session, s.pc.command)]))
  }

  lemma StepWinds(s: State, t: State, e: Event)
    requires Winding(s, t) && Can(t, e)
    ensures Winding(s, Do(t, e))
  {
  }

  lemma {:induction false} KeepsWinding(run: seq<State>, events: seq<Event>, n: nat, m: nat)
    requires IsRun(run, events) && n < m < |run| && events[n] == Cancel
    ensures Winding(run[n], run[m])
    decreases m
  {
    StepTaken(run, events, m - 1);
    if n + 1 < m {
      KeepsWinding(run, events, n, m - 1);
      StepWinds(run[n], run[m - 1], events[m - 1]);
    }
  }

  /**
    After the server is told to stop it writes at most one more command, the one it had taken by then;
    the session under way is the last one or, if there was none, the next.
   */
  lemma CancelStopsWriting(run: seq<State>, events: seq<Event>, n: nat, m: nat)
    requires IsRun(run, events) && n < m < |run| && events[n] == Cancel
    ensures run[m].history == run[n].history
      || (run[n].pc.Writing? && run[m].history == run[n].history + [Sent(run[n].session, run[n].pc.command)])
    ensures run[m].session == run[n].session || (run[n].pc.Accepting? && run[m].session == run[n].session + 1)
  {
    KeepsWinding(run, events, n, m);
    LastSession(run, events, n, m);
  }

  /** No further session, or one that a connection begins that comes in while the server still waits. */
  lemma {:induction false} LastSession(run: seq<State>, events: seq<Event>, n: nat, m: nat)
    requires IsRun(run, events) && n < m < |run| && events[n] == Cancel
    ensures run[m].cancelled
    ensures run[m].session == run[n].session || (run[n].pc.Accepting? && run[m].session == run[n].session + 1)
    ensures run[m].pc.Accepting? ==> run[n].pc.Accepting? && run[m].session == run[n].session
    decreases m
  {
    StepTaken(run, events, m - 1);
    if n + 1 < m {
      LastSession(run, events, n, m - 1);
    }
  }

  /** Once the server accepts no more it is done for good. */
  lemma {:induction false} NothingAfterAccepting(run: seq<State>, events: seq<Event>, n: nat, m: nat)
    requires IsRun(run, events) && n < m < |run| && events[n] == StopAccepting
    ensures run[m].pc.Finished? && run[m].history == run[n].history && run[m].session == run[n].session
    decreases m
  {
    StepTaken(run, events, m - 1);
    if n + 1 < m {
      NothingAfterAccepting(run, events, n, m - 1);
    }
  }

  // ---------------------------------------------------------------- nothing is lost

  /** A step by which a command is lost: the removal, a failed write, or an empty command taken for none. */
  predicate Loses(s: State, e: Event, c: Command) {
    || (e.Drain? && s.queue != [] && s.queue[0] == c)
    || (e == Write(false) && s.pc.Writing? && s.pc.command == c)
    || (e.Take? && s.queue != [] && s.queue[0] == c && c.text == "")
  }

  /** In every step, what is waiting stays, or is written in this session, or is lost in one of these ways. */
  lemma WaitsOrIsWritten(run: seq<State>, events: seq<Event>, n: nat, c: Command)
    requires IsRun(run, events) && n < |events| && c in Pending(run[n])
    ensures c in Pending(run[n + 1]) || Loses(run[n], events[n], c)
      || (events[n] == Write(true) && run[n + 1].history == run[n].history + [Sent(run[n].session, c)])
  {
    StepTaken(run, events, n);
    var s := run[n];
    if !s.pc.Writing? || c != s.pc.command {
      assert c in s.queue;
    }
  }

  /** No command is lost between these two. */
  predicate LosesNone(events: seq<Event>, n: nat)
    requires n <= |events|
  {
    forall k :: 0 <= k < n ==> !events[k].Drain? && events[k] != Write(false) && events[k] != Add("")
  }

  lemma LineStep(s: State, e: Event)
    requires Can(s, e) && !e.Drain? && e != Write(false) && NoneEmpty(s.queue)
    ensures Line(Do(s, e)) == if e.Add? then Line(s) + [Command(s.added, e.text)] else Line(s)
    ensures Do(s, e).added == if e.Add? then s.added + 1 else s.added
    ensures e != Add("") ==> NoneEmpty(Do(s, e).queue)
  {
    if e.Write? {
      assert Pending(s) == [s.pc.command] + s.queue;
      assert Line(Do(s, e)) == Line(s);
    } else if e.Add? {
      assert Line(Do(s, e)) == Line(s) + [Command(s.added, e.text)];
    } else {
      assert Pending(Do(s, e)) == Pending(s);
    }
  }

  /** As long as no session ends badly and no script stops, all that was added was written or waits, in that order. */
  lemma {:induction false} NothingIsLost(run: seq<State>, events: seq<Event>, n: nat)
    requires IsRun(run, events) && n < |run| && LosesNone(events, n)
    ensures Texts(Line(run[n])) == AddedBetween(events, 0, n)
    ensures NoneEmpty(run[n].queue)
  {
    if n > 0 {
      NothingIsLost(run, events, n - 1);
      StepTaken(run, events, n - 1);
      assert events[n - 1] != Add("");
      LineStep(run[n - 1], events[n - 1]);
    }
  }

  // ---------------------------------------------------------------- carrying over

  function Texts(queue: seq<Command>): seq<string> {
    seq(|queue|, k requires 0 <= k < |queue| => queue[k].text)
  }

  /** The commands added by events a up to b. */
  function AddedBetween(events: seq<Event>, a: nat, b: nat): seq<string>
    requires a <= b <= |events|
  {
    if a == b then []
    else if events[b - 1].Add? then AddedBetween(events, a, b - 1) + [events[b - 1].text]
    else AddedBetween(events, a, b - 1)
  }

  /** From a to b the background thread is removing commands, and at b it is done. */
  ghost predicate DrainsFromTo(run: seq<State>, events: seq<Event>, a: nat, b: nat) {
    && IsRun(run, events) && a < b < |run|
    && (forall n :: a <= n < b ==> run[n].pc.Draining?)
    && !run[b].pc.Draining?
  }

  lemma DrainedAfterFirst(first: string, texts: seq<string>, more: seq<string>)
    requires first != ""
    ensures Drained([first] + texts + more) == Drained(texts + more)
  {
    assert ([first] + texts + more)[1..] == texts + more;
  }

  lemma Regroup(before: seq<string>, text: string, more: seq<string>)
    ensures before + [text] + more == before + ([text] + more)
  {
  }

  /** While removing, what is removed already makes no difference to what will be left. */
  lemma {:induction false} DrainSoFar(run: seq<State>, events: seq<Event>, a: nat, n: nat, more: seq<string>)
    requires IsRun(run, events) && a <= n <= |events|
    requires forall m :: a <= m <= n ==> run[m].pc.Draining?
    ensures Drained(Texts(run[a].queue) + AddedBetween(events, a, n) + more) == Drained(Texts(run[n].queue) + more)
    decreases n
  {
    var q0 := Texts(run[a].queue);
    if n == a {
      assert q0 + [] == q0;
    } else {
      var s, e, p := run[n - 1], events[n - 1], AddedBetween(events, a, n - 1);
      StepTaken(run, events, n - 1);
      DrainSoFar(run, events, a, n - 1, if e.Add? then [e.text] + more else more);
      DrainEffect(s, e);
      if e.Add? {
        Regroup(q0 + p, e.text, more);
        Regroup(Texts(s.queue), e.text, more);
        assert q0 + (p + [e.text]) == q0 + p + [e.text];
      } else if e.Drain? {
        DrainedAfterFirst(s.queue[0].text, Texts(run[n].queue), more);
      }
    }
  }

  lemma StepTaken(run: seq<State>, events: seq<Event>, n: nat)
    requires IsRun(run, events) && n < |events|
    ensures Can(run[n], events[n]) && run[n + 1] == Do(run[n], events[n])
  {
  }

  /** One step while commands are being removed. */
  lemma DrainEffect(s: State, e: Event)
    requires s.pc.Draining? && Can(s, e) && Do(s, e).pc.Draining?
    ensures match e
      case Add(text) => Texts(Do(s, e).queue) == Texts(s.queue) + [text]
      case Drain => s.queue != [] && s.queue[0].text != "" && Texts(s.queue) == [s.queue[0].text] + Texts(Do(s, e).queue)
      case _ => Do(s, e).queue == s.queue
  {
  }

  /** What is left after the drain: as if all that was added meanwhile had been there from the start. */
  lemma DrainLeaves(run: seq<State>, events: seq<Event>, a: nat, b: nat)
    requires DrainsFromTo(run, events, a, b)
    ensures Texts(run[b].queue) == Drained(Texts(run[a].queue) + AddedBetween(events, a, b))
  {
    StepTaken(run, events, b - 1);
    DrainSoFar(run, events, a, b - 1, []);
    NoMore(Texts(run[a].queue) + AddedBetween(events, a, b - 1));
    NoMore(Texts(run[b - 1].queue));
    LastDrain(run[b - 1], events[b - 1]);
  }

  lemma NoMore(texts: seq<string>)
    ensures texts + [] == texts
  {
  }

  lemma LastDrain(s: State, e: Event)
    requires s.pc.Draining? && Can(s, e) && !Do(s, e).pc.Draining?
    ensures !e.Add? && Texts(Do(s, e).queue) == Drained(Texts(s.queue))
  {
  }

  /** Everything written after n was waiting at n, or was added later. */
  ghost predicate WrittenFrom(s: State, later: State) {
    && |s.history| <= |later.history|
    && s.added <= later.added
    && (forall j :: |s.history| <= j < |later.history| ==> WasPending(s, later.history[j].command))
    && (forall c :: c in Pending(later) ==> WasPending(s, c))
  }

  predicate WasPending(s: State, c: Command) {
    c in Pending(s) || c.serial >= s.added
  }

  lemma StepWritesFrom(s: State, t: State, e: Event)
    requires Can(t, e) && WrittenFrom(s, t)
    ensures WrittenFrom(s, Do(t, e))
  {
    var v := Do(t, e);
    forall c | c in Pending(v) ensures c in Pending(t) || c.serial >= t.added {
    }
    if e.Write? && e.succeeds {
      assert t.pc.command in Pending(t);
    }
  }

  lemma {:induction false} LaterWrites(run: seq<State>, events: seq<Event>, m: nat)
    requires Follows(run, events) && m < |run| && InOrder(run[0])
    ensures WrittenFrom(run[0], run[m]) && InOrder(run[m])
  {
    if m > 0 {
      LaterWrites(run, events, m - 1);
      StepWritesFrom(run[0], run[m - 1], events[m - 1]);
      StepKeepsOrder(run[m - 1], events[m - 1]);
    }
  }

  /** By the later state a command added before s has been written since. */
  ghost predicate WritesOld(s: State, later: State) {
    exists j {:trigger later.history[j]} :: |s.history| <= j < |later.history| && later.history[j].command.serial < s.added
  }

  ghost predicate LeadsFrom(s: State, run: seq<State>, events: seq<Event>) {
    Follows(run, events) && run[0] == s
  }

  /** Some run that goes on from s writes a command that was added before. */
  ghost predicate CarriesOver(s: State) {
    exists run, events :: LeadsFrom(s, run, events) && WritesOld(s, run[|events|])
  }

  predicate AllEmpty(queue: seq<Command>) {
    forall k :: 0 <= k < |queue| ==> queue[k].text == ""
  }

  /** Empty commands are popped and never written. */
  lemma EmptiesAreNotWritten(s: State, run: seq<State>, events: seq<Event>)
    requires LeadsFrom(s, run, events) && InOrder(s) && !s.pc.Writing? && AllEmpty(s.queue)
    ensures !WritesOld(s, run[|events|])
  {
    var later := run[|events|];
    LaterWrites(run, events, |events|);
    forall j | |s.history| <= j < |later.history| ensures later.history[j].command.serial >= s.added {
      assert WasPending(s, later.history[j].command);
    }
  }

  predicate Over(s: State) {
    s.cancelled && (s.pc.Accepting? || s.pc.Ready? || s.pc.Finished?)
  }

  /** Once cancelled between sessions no further command is written. */
  lemma {:induction false} NothingAfterCancel(run: seq<State>, events: seq<Event>, m: nat)
    requires Follows(run, events) && m < |run| && Over(run[0])
    ensures Over(run[m]) && run[m].history == run[0].history
  {
    if m > 0 {
      NothingAfterCancel(run, events, m - 1);
    }
  }

  lemma LeadsLater(s: State, e: Event, run: seq<State>, events: seq<Event>)
    requires Can(s, e) && LeadsFrom(Do(s, e), run, events)
    ensures LeadsFrom(s, [s] + run, [e] + events)
  {
    var r, es := [s] + run, [e] + events;
    forall n | 0 <= n < |es| ensures Can(r[n], es[n]) && r[n + 1] == Do(r[n], es[n]) {
      if n > 0 {
        assert r[n] == run[n - 1] && es[n] == events[n - 1];
      }
    }
  }

  /** A session that takes commands comes to the first one that is not empty. */
  lemma {:induction false} TakesFirst(s: State, added: nat) returns (run: seq<State>, events: seq<Event>)
    requires s.pc.Ready? && !s.cancelled && !AllEmpty(s.queue) && Below(s.queue, added)
    ensures LeadsFrom(s, run, events)
    ensures var later := run[|events|]; |later.history| == |s.history| + 1 && later.history[|s.history|].command.serial < added
    decreases |s.queue|
  {
    var t := Do(s, Take);
    if s.queue[0].text == "" {
      run, events := TakesFirst(t, added);
    } else {
      run, events := [t, Do(t, Write(true))], [Write(true)];
    }
    LeadsLater(s, Take, run, events);
    run, events := [s] + run, [Take] + events;
  }

  const NEXT_INIT := Response(0, true, Starting)

  lemma SomethingIsWritten(s: State) returns (run: seq<State>, events: seq<Event>)
    requires s.pc.Accepting? && !s.cancelled && !AllEmpty(s.queue) && InOrder(s)
    ensures LeadsFrom(s, run, events) && WritesOld(s, run[|events|])
  {
    var e := Accept(NEXT_INIT);
    QueueIsBelow(s);
    run, events := TakesFirst(Do(s, e), s.added);
    assert run[|events|].history[|s.history|].command.serial < s.added;
    LeadsLater(s, e, run, events);
    run, events := [s] + run, [e] + events;
  }

  lemma QueueIsBelow(s: State)
    requires InOrder(s)
    ensures Below(s.queue, s.added)
  {
    var line := Line(s);
    forall k | 0 <= k < |s.queue| ensures s.queue[k].serial < s.added {
      assert s.queue[k] == line[|line| - |s.queue| + k];
    }
  }

  lemma CarriesOverUnlessEmpty(s: State)
    requires s.pc == Outside(s) && InOrder(s)
    ensures CarriesOver(s) <==> !s.cancelled && !AllEmpty(s.queue)
  {
    if s.cancelled {
      forall run, events | LeadsFrom(s, run, events) ensures !WritesOld(s, run[|events|]) {
        NothingAfterCancel(run, events, |events|);
      }
    } else if AllEmpty(s.queue) {
      forall run, events | LeadsFrom(s, run, events) ensures !WritesOld(s, run[|events|]) {
        EmptiesAreNotWritten(s, run, events);
      }
    } else {
      var run, events := SomethingIsWritten(s);
    }
  }

  lemma TextsOfQueue(queue: seq<Command>)
    ensures AllEmpty(queue) <==> !HasCommand(Texts(queue))
  {
    if k :| 0 <= k < |queue| && queue[k].text != "" {
      assert Texts(queue)[k] != "";
    }
  }

  /**
    When a session ends because the script is stopping, some command added before the removal is
    done can be written later if and only if, of the commands then waiting or added during the
    removal, an empty one came before one that is not, and the server was not told to stop.
   */
  lemma CarriesOverExactlyWhen(run: seq<State>, events: seq<Event>, a: nat, b: nat)
    requires DrainsFromTo(run, events, a, b)
    ensures CarriesOver(run[b]) <==>
      !run[b].cancelled && EmptyBeforeCommand(Texts(run[a].queue) + AddedBetween(events, a, b))
  {
    DrainLeaves(run, events, a, b);
    DrainedHasCommand(Texts(run[a].queue) + AddedBetween(events, a, b));
    TextsOfQueue(run[b].queue);
    RunKeeps(run, events, b);
    StepTaken(run, events, b - 1);
    CarriesOverUnlessEmpty(run[b]);
  }

  // ---------------------------------------------------------------- the commands the program sends

  /** A command as the builder makes it: the verb, a space, and the transaction id and arguments. */
  ghost predicate IsBuilt(text: string) {
    exists verb: string, args: string :: text == verb + " " + args
  }

  ghost predicate SendsBuilt(events: seq<Event>) {
    forall n :: 0 <= n < |events| && events[n].Add? ==> IsBuilt(events[n].text)
  }

  predicate NoneEmpty(queue: seq<Command>) {
    forall k :: 0 <= k < |queue| ==> queue[k].text != ""
  }

  lemma {:induction false} BuiltQueue(run: seq<State>, events: seq<Event>, n: nat)
    requires IsRun(run, events) && SendsBuilt(events) && n < |run|
    ensures NoneEmpty(run[n].queue)
  {
    if n > 0 {
      BuiltQueue(run, events, n - 1);
      StepTaken(run, events, n - 1);
    }
  }

  lemma {:induction false} BuiltBetween(events: seq<Event>, a: nat, b: nat)
    requires a <= b <= |events| && SendsBuilt(events)
    ensures "" !in AddedBetween(events, a, b)
    decreases b
  {
    if a < b {
      BuiltBetween(events, a, b - 1);
    }
  }

  /**
    In every run in which only commands from the builder are added, the removal leaves nothing, and
    no command added before it is done is ever written later.
   */
  lemma NothingCarriesOver(run: seq<State>, events: seq<Event>, a: nat, b: nat)
    requires DrainsFromTo(run, events, a, b) && SendsBuilt(events)
    ensures run[b].queue == [] && !CarriesOver(run[b])
  {
    var all := Texts(run[a].queue) + AddedBetween(events, a, b);
    BuiltQueue(run, events, a);
    BuiltBetween(events, a, b);
    assert forall k :: 0 <= k < |all| ==> all[k] != "";
    DrainLeaves(run, events, a, b);
    DrainedEmpty(all);
    assert Texts(run[b].queue) == [] <==> run[b].queue == [];
    CarriesOverExactlyWhen(run, events, a, b);
  }

  // ---------------------------------------------------------------- an empty command saves the rest

  const INIT := Response(0, true, Starting)
  const STOP := Response(1, true, Stopping)
  const RUN := Command(0, "run -i 0")
  const EMPTY := Command(1, "")
  const LATE := Command(2, "stack_get -i 1")

  /** A run whose first session ends with an empty command waiting in front of another command. */
  const EVENTS: seq<Event> :=
    [Add("run -i 0"), Accept(INIT), Take, Write(true), Add(""), Add("stack_get -i 1"),
     EngineAnswers(STOP), Read(true), Drain, Accept(INIT), Take, Write(true)]

  function At(k: nat): State {
    if k == 0 then START
    else if k == 1 then START.(queue := [RUN], added := 1)
    else if k == 2 then At(1).(pc := Ready, session := 1, dispatched := [Dispatch("init", INIT)])
    else if k == 3 then At(2).(pc := Writing(RUN), queue := [])
    else if k == 4 then At(3).(pc := Awaiting(RUN), sent := [RUN], history := [Sent(1, RUN)])
    else if k == 5 then At(4).(queue := [EMPTY], added := 2)
    else if k == 6 then At(5).(queue := [EMPTY, LATE], added := 3)
    else if k == 7 then At(6).(channel := [STOP])
    else if k == 8 then At(7).(pc := Draining, channel := [], dispatched := [Dispatch("init", INIT), Dispatch("run", STOP)])
    else if k == 9 then At(8).(pc := Accepting, queue := [LATE])
    else if k == 10 then At(9).(pc := Ready, session := 2, sent := [], dispatched := [Dispatch("init", INIT)])
    else if k == 11 then At(10).(pc := Writing(LATE), queue := [])
    else At(11).(pc := Awaiting(LATE), sent := [LATE], history := [Sent(1, RUN), Sent(2, LATE)])
  }

  lemma FirstSteps(k: nat)
    requires k < 7
    ensures Can(At(k), EVENTS[k]) && At(k + 1) == Do(At(k), EVENTS[k])
  {
  }

  lemma VerbOfRun()
    ensures Verb(RUN.text) == "run"
  {
    assert "run" + " " + "-i 0" == RUN.text;
    VerbOfBuilt("run", "-i 0");
  }

  lemma StoppingStep()
    ensures Can(At(7), EVENTS[7]) && At(8) == Do(At(7), EVENTS[7])
  {
    VerbOfRun();
    assert Stops(RUN.text, STOP);
  }

  lemma LastSteps(k: nat)
    requires 8 <= k < 12
    ensures Can(At(k), EVENTS[k]) && At(k + 1) == Do(At(k), EVENTS[k])
  {
  }

  /**
    The second session writes a command added for the first: "run" is answered with stopping, and
    the removal stops at the empty command in front of "stack_get".
   */
  lemma EmptyCommandSavesTheRest()
    ensures var run := seq(13, k requires 0 <= k < 13 => At(k));
      && DrainsFromTo(run, EVENTS, 8, 9)
      && run[9].added == 3
      && run[12].history == run[9].history + [Sent(2, LATE)] && LATE.serial < 3
  {
    var run := seq(13, k requires 0 <= k < 13 => At(k));
    forall n | 0 <= n < |EVENTS| ensures Can(run[n], EVENTS[n]) && run[n + 1] == Do(run[n], EVENTS[n]) {
      if n < 7 {
        FirstSteps(n);
      } else if n == 7 {
        StoppingStep();
      } else {
        LastSteps(n);
      }
    }
  }
}
