/**
  The breakpoint list of DebuggerFeatureClass and the commands it posts to the debug engine.
 */
module Breakpoints {
  import opened DebuggerTypes
  import PathMapping

  /** What the engine is told of a breakpoint. */
  datatype Place = Place(file: string, line: int, isEnabled: bool)

  datatype Command =
    | BreakpointSet(transactionId: string, place: Place)
    | BreakpointRemove(transactionId: string, breakpointId: string)
    | Other(transactionId: string, verb: string)

  /** The part of the feature that breakpoints concern; `commands` are those posted by PostCmd and not yet added to the server's queue. */
  datatype Client = Client(
    breakpoints: seq<BreakpointWithHandle>, isSessionActive: bool, counter: nat, commands: seq<Command>,
    mappings: seq<PathMapping.Mapping>)

  // ---------------------------------------------------------------- transaction ids

  /** CurrentTransactionId for a value of the counter. */
  function TransactionId(pid: nat, n: nat): (t: string)
    ensures t != ""
  {
    "triumph-" + Decimal(pid) + "-" + Decimal(n)
  }

  /** The process id, the same for all commands; nothing depends on its value. */
  const PID: nat := 1

  function Transaction(n: nat): (t: string)
    ensures t != ""
  {
    TransactionId(PID, n)
  }

  lemma TransactionInjective(a: nat, b: nat)
    ensures Transaction(a) == Transaction(b) <==> a == b
  {
    if Transaction(a) == Transaction(b) {
      TransactionIdsDiffer(PID, a, PID, b);
    }
  }

  lemma DashEnds(a: string, b: string, c: string, d: string)
    requires a + "-" + b == c + "-" + d && '-' !in a && '-' !in c
    ensures a == c && b == d
  {
    var s, t := a + "-" + b, c + "-" + d;
    assert s[|a|] == '-' && t[|c|] == '-';
    assert |a| == |c|;
    assert a == s[..|a|] == t[..|c|] == c && b == s[|a| + 1..] == t[|c| + 1..] == d;
  }

  /** Commands of another run of the program have other ids: the process id is part of them. */
  lemma TransactionIdsDiffer(p: nat, a: nat, q: nat, b: nat)
    requires TransactionId(p, a) == TransactionId(q, b)
    ensures p == q && a == b
  {
    DecimalReads(p);
    DecimalReads(q);
    var s, t := Decimal(p) + "-" + Decimal(a), Decimal(q) + "-" + Decimal(b);
    assert TransactionId(p, a) == "triumph-" + s && TransactionId(q, b) == "triumph-" + t;
    assert s == TransactionId(p, a)[8..] == t;
    DashEnds(Decimal(p), Decimal(a), Decimal(q), Decimal(b));
    DecimalInjective(p, q);
    DecimalInjective(a, b);
  }

  // ---------------------------------------------------------------- what the handlers compute

  predicate IsAt(b: BreakpointWithHandle, file: string, line: int) {
    b.breakpoint.filename == file && b.breakpoint.lineNumber == line
  }

  predicate HasBreakpointAt(bs: seq<BreakpointWithHandle>, file: string, line: int) {
    exists k :: 0 <= k < |bs| && IsAt(bs[k], file, line)
  }

  /** The first breakpoint at the line, or the number of breakpoints. */
  function IndexAt(bs: seq<BreakpointWithHandle>, file: string, line: int): (k: nat)
    ensures k <= |bs|
  {
    if bs == [] || IsAt(bs[0], file, line) then 0 else 1 + IndexAt(bs[1..], file, line)
  }

  lemma {:induction false} IndexAtIs(bs: seq<BreakpointWithHandle>, file: string, line: int, k: nat)
    requires k <= |bs| && (k < |bs| ==> IsAt(bs[k], file, line))
    requires forall j :: 0 <= j < k ==> !IsAt(bs[j], file, line)
    ensures IndexAt(bs, file, line) == k
  {
    if k > 0 {
      assert !IsAt(bs[0], file, line);
      IndexAtIs(bs[1..], file, line, k - 1);
    }
  }

  lemma {:induction false} IndexAtFinds(bs: seq<BreakpointWithHandle>, file: string, line: int)
    ensures var k := IndexAt(bs, file, line);
      (k < |bs| <==> HasBreakpointAt(bs, file, line)) && (k < |bs| ==> IsAt(bs[k], file, line))
  {
    if bs != [] && !IsAt(bs[0], file, line) {
      IndexAtFinds(bs[1..], file, line);
      if HasBreakpointAt(bs, file, line) {
        var k :| 0 <= k < |bs| && IsAt(bs[k], file, line);
        assert IsAt(bs[1..][k - 1], file, line);
      }
    }
  }

  /** Where the engine finds a breakpoint, in its own name for the file. */
  function PlaceOf(b: BreakpointWithHandle, ms: seq<PathMapping.Mapping>): Place {
    Place(PathMapping.ToRemote(b.breakpoint.filename, ms), b.breakpoint.lineNumber, b.breakpoint.isEnabled)
  }

  function NewBreakpoint(file: string, handle: int, line: int): BreakpointWithHandle {
    BreakpointWithHandle(NO_BREAKPOINT.(filename := file, lineNumber := line, isEnabled := true), "", 0, handle, "")
  }

  function Added(c: Client, file: string, handle: int, line: int): Client {
    var b := NewBreakpoint(file, handle, line);
    if HasBreakpointAt(c.breakpoints, file, line) then c
    else if !c.isSessionActive then c.(breakpoints := c.breakpoints + [b])
    else
      var t := Transaction(c.counter);
      c.(breakpoints := c.breakpoints + [b.(transactionId := t)], counter := c.counter + 1,
         commands := c.commands + [BreakpointSet(t, PlaceOf(b, c.mappings))])
  }

  function Removed(c: Client, file: string, line: int): Client {
    var k := IndexAt(c.breakpoints, file, line);
    if k == |c.breakpoints| then c
    else
      var shorter := c.(breakpoints := c.breakpoints[..k] + c.breakpoints[k + 1..]);
      if !c.isSessionActive then shorter
      else
        shorter.(counter := c.counter + 1, commands := c.commands
          + [BreakpointRemove(Transaction(c.counter), c.breakpoints[k].breakpointId)])
  }

  /** Every breakpoint with the transaction id of the command that sets it, from the given counter on. */
  function Renumbered(bs: seq<BreakpointWithHandle>, counter: nat): seq<BreakpointWithHandle> {
    seq(|bs|, k requires 0 <= k < |bs| => bs[k].(transactionId := Transaction(counter + k)))
  }

  function SetCommands(bs: seq<BreakpointWithHandle>, counter: nat, ms: seq<PathMapping.Mapping>): seq<Command> {
    seq(|bs|, k requires 0 <= k < |bs| => BreakpointSet(Transaction(counter + k), PlaceOf(bs[k], ms)))
  }

  function Others(verbs: seq<string>, counter: nat): seq<Command> {
    seq(|verbs|, k requires 0 <= k < |verbs| => Other(Transaction(counter + k), verbs[k]))
  }

  /** What the feature asks for once the breakpoints are set. */
  function StartVerbs(doBreakOnStart: bool): seq<string> {
    ["feature_set", "feature_set", if doBreakOnStart then "step_into" else "run",
     "stack_get", "context_names", "context_get", "context_get"]
  }

  function Initialized(c: Client, doBreakOnStart: bool): Client {
    var n := |c.breakpoints|;
    Client(Renumbered(c.breakpoints, c.counter), true, c.counter + n + 7,
      c.commands + SetCommands(c.breakpoints, c.counter, c.mappings)
        + Others(StartVerbs(doBreakOnStart), c.counter + n),
      c.mappings)
  }

  function Answered(c: Client, transactionId: string, breakpointId: string): Client {
    c.(breakpoints := seq(|c.breakpoints|, k requires 0 <= k < |c.breakpoints| =>
      WithId(c.breakpoints[k], transactionId, breakpointId)))
  }

  lemma SetCommandsNext(bs: seq<BreakpointWithHandle>, counter: nat, ms: seq<PathMapping.Mapping>, k: nat)
    requires k < |bs|
    ensures SetCommands(bs[..k + 1], counter, ms)
      == SetCommands(bs[..k], counter, ms) + [BreakpointSet(Transaction(counter + k), PlaceOf(bs[k], ms))]
  {
  }

  lemma OthersNext(verbs: seq<string>, verb: string, counter: nat)
    ensures Others(verbs + [verb], counter) == Others(verbs, counter) + [Other(Transaction(counter + |verbs|), verb)]
  {
  }

  function WithId(b: BreakpointWithHandle, transactionId: string, breakpointId: string): BreakpointWithHandle {
    if b.transactionId == transactionId then b.(breakpointId := breakpointId) else b
  }

  // ---------------------------------------------------------------- the feature

  class DebuggerFeatureClass {
    var Breakpoints: seq<BreakpointWithHandle>
    var IsDebuggerSessionActive: bool
    /** The counter of the DbgpCommandClass object Cmd. */
    var Counter: nat
    /** The events posted by PostCmd and not yet handled by OnCmd, which adds them to the server's queue. */
    var Commands: seq<Command>
    var Mappings: seq<PathMapping.Mapping>
    var DoBreakOnStart: bool

    ghost function Contents(): Client
      reads this
    {
      Client(Breakpoints, IsDebuggerSessionActive, Counter, Commands, Mappings)
    }

    constructor (mappings: seq<PathMapping.Mapping>, doBreakOnStart: bool)
      ensures Contents() == Client([], false, 0, [], mappings) && DoBreakOnStart == doBreakOnStart
    {
      Breakpoints, IsDebuggerSessionActive, Counter, Commands := [], false, 0, [];
      Mappings, DoBreakOnStart := mappings, doBreakOnStart;
    }

    /** Posts a command built by Cmd, which takes the current transaction id and moves on to the next. */
    method PostCmd(command: Command)
      requires command.transactionId == Transaction(Counter)
      modifies this`Commands, this`Counter
      ensures Commands == old(Commands) + [command] && Counter == old(Counter) + 1
    {
      Commands := Commands + [command];
      Counter := Counter + 1;
    }

    method RemoveBreakpointAtLine(fileName: string, lineNumber: int) returns (found: bool)
      modifies this
      ensures Contents() == Removed(old(Contents()), fileName, lineNumber)
      ensures found == HasBreakpointAt(old(Breakpoints), fileName, lineNumber)
      ensures DoBreakOnStart == old(DoBreakOnStart)
    {
      found := false;
      var it := 0;
      ghost var before := Contents();
      IndexAtFinds(Breakpoints, fileName, lineNumber);
      while it < |Breakpoints| && !found
        invariant 0 <= it <= |Breakpoints|
        invariant DoBreakOnStart == old(DoBreakOnStart)
        invariant !found ==> Contents() == before
        invariant !found ==> forall j :: 0 <= j < it ==> !IsAt(Breakpoints[j], fileName, lineNumber)
        invariant found ==> Contents() == Removed(before, fileName, lineNumber)
        invariant found ==> IndexAt(before.breakpoints, fileName, lineNumber) < |before.breakpoints|
        decreases !found, |Breakpoints| - it
      {
        if Breakpoints[it].breakpoint.lineNumber == lineNumber && Breakpoints[it].breakpoint.filename == fileName {
          IndexAtIs(Breakpoints, fileName, lineNumber, it);
          found := true;
          if IsDebuggerSessionActive {
            PostCmd(BreakpointRemove(Transaction(Counter), Breakpoints[it].breakpointId));
          }
          Breakpoints := Breakpoints[..it] + Breakpoints[it + 1..];
        } else {
          it := it + 1;
        }
      }
      if !found {
        IndexAtIs(Breakpoints, fileName, lineNumber, |Breakpoints|);
      }
    }

    method AddBreakpointAtLine(fileName: string, handle: int, lineNumber: int) returns (added: bool)
      modifies this
      ensures Contents() == Added(old(Contents()), fileName, handle, lineNumber)
      ensures added == !HasBreakpointAt(old(Breakpoints), fileName, lineNumber)
      ensures DoBreakOnStart == old(DoBreakOnStart)
    {
      var found := false;
      var it := 0;
      while it < |Breakpoints|
        invariant 0 <= it <= |Breakpoints|
        invariant found <==> exists j :: 0 <= j < it && IsAt(Breakpoints[j], fileName, lineNumber)
      {
        if Breakpoints[it].breakpoint.lineNumber == lineNumber && Breakpoints[it].breakpoint.filename == fileName {
          assert IsAt(Breakpoints[it], fileName, lineNumber);
          found := true;
        }
        it := it + 1;
      }
      if !found {
        var breakpointWithHandle := NewBreakpoint(fileName, handle, lineNumber);
        if IsDebuggerSessionActive {
          breakpointWithHandle := breakpointWithHandle.(transactionId := Transaction(Counter));
          var remoteFile := PathMapping.ToRemoteFilename(fileName, Mappings);
          PostCmd(BreakpointSet(Transaction(Counter), Place(remoteFile, lineNumber, true)));
        }
        Breakpoints := Breakpoints + [breakpointWithHandle];
      }
      added := !found;
    }

    method OnDbgpInit()
      modifies this
      ensures Contents() == Initialized(old(Contents()), DoBreakOnStart)
      ensures DoBreakOnStart == old(DoBreakOnStart)
    {
      ghost var c := Contents();
      PostBreakpoints();
      IsDebuggerSessionActive := true;
      PostStartCommands();
    }

    /** One round of the loop over the breakpoints. */
    method PostBreakpoint(it: nat)
      requires it < |Breakpoints|
      modifies this`Breakpoints, this`Commands, this`Counter
      ensures Breakpoints == old(Breakpoints)[it := old(Breakpoints)[it].(transactionId := Transaction(old(Counter)))]
      ensures Commands == old(Commands) + [BreakpointSet(Transaction(old(Counter)), PlaceOf(old(Breakpoints)[it], Mappings))]
      ensures Counter == old(Counter) + 1
    {
      var b := Breakpoints[it].(transactionId := Transaction(Counter));
      Breakpoints := Breakpoints[it := b];
      var remoteFile := PathMapping.ToRemoteFilename(b.breakpoint.filename, Mappings);
      PostCmd(BreakpointSet(Transaction(Counter), Place(remoteFile, b.breakpoint.lineNumber, b.breakpoint.isEnabled)));
    }

    /** The loop over the breakpoints. */
    method PostBreakpoints()
      modifies this`Breakpoints, this`Commands, this`Counter
      ensures Breakpoints == Renumbered(old(Breakpoints), old(Counter))
      ensures Commands == old(Commands) + SetCommands(old(Breakpoints), old(Counter), Mappings)
      ensures Counter == old(Counter) + |old(Breakpoints)|
    {
      ghost var bs, commands, counter := Breakpoints, Commands, Counter;
      var it := 0;
      while it < |Breakpoints|
        invariant 0 <= it <= |Breakpoints| == |bs| && Counter == counter + it
        invariant forall k :: 0 <= k < it ==> Breakpoints[k] == bs[k].(transactionId := Transaction(counter + k))
        invariant forall k :: it <= k < |bs| ==> Breakpoints[k] == bs[k]
        invariant Commands == commands + SetCommands(bs[..it], counter, Mappings)
      {
        SetCommandsNext(bs, counter, Mappings, it);
        PostBreakpoint(it);
        it := it + 1;
      }
      assert bs[..it] == bs;
      assert Breakpoints == Renumbered(bs, counter);
    }

    /** PostCmd of one of the commands at the start, after those of the given verbs. */
    method PostVerb(verb: string, ghost commands: seq<Command>, ghost verbs: seq<string>, ghost counter: nat)
      returns (ghost posted: seq<string>)
      requires Commands == commands + Others(verbs, counter) && Counter == counter + |verbs|
      modifies this`Commands, this`Counter
      ensures posted == verbs + [verb]
      ensures Commands == commands + Others(posted, counter) && Counter == counter + |posted|
    {
      OthersNext(verbs, verb, counter);
      PostCmd(Other(Transaction(Counter), verb));
      posted := verbs + [verb];
    }

    /** The commands after the breakpoints. */
    method PostStartCommands()
      modifies this`Commands, this`Counter
      ensures Commands == old(Commands) + Others(StartVerbs(DoBreakOnStart), old(Counter))
      ensures Counter == old(Counter) + 7
    {
      ghost var commands, counter := Commands, Counter;
      ghost var vs := PostVerb("feature_set", commands, [], counter);
      vs := PostVerb("feature_set", commands, vs, counter);
      if DoBreakOnStart {
        vs := PostVerb("step_into", commands, vs, counter);
      } else {
        vs := PostVerb("run", commands, vs, counter);
      }
      vs := PostVerb("stack_get", commands, vs, counter);
      vs := PostVerb("context_names", commands, vs, counter);
      vs := PostVerb("context_get", commands, vs, counter);
      vs := PostVerb("context_get", commands, vs, counter);
      assert vs == StartVerbs(DoBreakOnStart);
    }

    method OnDbgpBreakpointSet(transactionId: string, breakpointId: string)
      modifies this`Breakpoints
      ensures Contents() == Answered(old(Contents()), transactionId, breakpointId)
    {
      ghost var c := Contents();
      var i := 0;
      while i < |Breakpoints|
        invariant 0 <= i <= |Breakpoints| == |c.breakpoints|
        invariant forall k :: 0 <= k < i ==> Breakpoints[k] == WithId(c.breakpoints[k], transactionId, breakpointId)
        invariant forall k :: i <= k < |Breakpoints| ==> Breakpoints[k] == c.breakpoints[k]
      {
        if Breakpoints[i].transactionId == transactionId {
          Breakpoints := Breakpoints[i := Breakpoints[i].(breakpointId := breakpointId)];
        }
        i := i + 1;
      }
      assert Breakpoints == Answered(c, transactionId, breakpointId).breakpoints;
    }
  }
}
