/**
  What the engine is told and has set, written out: the names of files on its own machine, lines, and
  whether a breakpoint is enabled; and that its names lead back to the list.
 */
module BreakpointNames {
  import opened Strings
  import opened PathMapping
  import opened DebuggerTypes
  import opened Breakpoints
  import opened BreakpointSessions
  import opened BreakpointAgreement
  import opened BreakpointTheorems

  /**
    The name for a file on the engine's machine: below a mapped local root, the remote root and what is
    below it, with forward slashes and each further occurrence of the local root replaced as well; for a
    file that no mapping is for, the same name.
   */
  predicate NameFor(file: string, name: string, ms: seq<Mapping>) {
    && (forall k :: 0 <= k < |ms| && ms[k].local != "" && StartsWith(file, ms[k].local) ==>
          name == Slashed(ms[k].remote) + Slashed(Replace(file[|ms[k].local|..], ms[k].local, ms[k].remote)))
    && ((forall k :: 0 <= k < |ms| ==> !StartsWith(MakeLower(file), MakeLower(ms[k].local))) ==> name == file)
  }

  /** And back: the name leads to the file again, up to slashes, exactly under the condition for that. */
  predicate LeadsBack(file: string, name: string, ms: seq<Mapping>) {
    forall k :: 0 <= k < |ms| && ms[k].local != "" && StartsWith(file, ms[k].local) ==>
      var r := file[|ms[k].local|..];
      ToLocal(Uri(name), ms) == ms[k].local + Slashed(r) <==> IsUndone(ms[k], r)
  }

  lemma RemoteIsNameFor(file: string, ms: seq<Mapping>)
    requires RootsPrefixFree(ms)
    ensures NameFor(file, ToRemote(file, ms), ms) && LeadsBack(file, ToRemote(file, ms), ms)
  {
    forall k | 0 <= k < |ms| && ms[k].local != "" && StartsWith(file, ms[k].local)
      ensures ToRemote(file, ms)
        == Slashed(ms[k].remote) + Slashed(Replace(file[|ms[k].local|..], ms[k].local, ms[k].remote))
      ensures ToLocal(Uri(ToRemote(file, ms)), ms) == ms[k].local + Slashed(file[|ms[k].local|..])
        <==> IsUndone(ms[k], file[|ms[k].local|..])
    {
      var r := file[|ms[k].local|..];
      assert file == ms[k].local + r;
      OutwardAny(ms, k, r);
      ComesBackExactlyWhen(ms, k, r);
    }
    if forall k :: 0 <= k < |ms| ==> !StartsWith(MakeLower(file), MakeLower(ms[k].local)) {
      FirstLocalIs(ms, file, |ms|);
    }
  }

  /** The command sets a breakpoint in that file, by a name that leads back, at that line. */
  predicate SetsAt(command: Command, n: nat, file: string, line: int, isEnabled: bool, ms: seq<Mapping>) {
    && command.BreakpointSet?
    && command.transactionId == Transaction(n)
    && NameFor(file, command.place.file, ms) && LeadsBack(file, command.place.file, ms)
    && command.place.line == line && command.place.isEnabled == isEnabled
  }

  /** A breakpoint added during a session: one entry, and one command that sets it where it is, enabled. */
  lemma AddedTells(c: Client, file: string, handle: int, line: int)
    requires RootsPrefixFree(c.mappings)
    requires forall j :: 0 <= j < |c.breakpoints| ==>
      !(c.breakpoints[j].breakpoint.filename == file && c.breakpoints[j].breakpoint.lineNumber == line)
    ensures var d := Added(c, file, handle, line); var n := |c.breakpoints|;
      && |d.breakpoints| == n + 1 && d.breakpoints[..n] == c.breakpoints
      && d.breakpoints[n].breakpoint == NO_BREAKPOINT.(filename := file, lineNumber := line, isEnabled := true)
      && d.breakpoints[n].handle == handle && d.breakpoints[n].breakpointId == ""
      && (c.isSessionActive ==>
            && d.breakpoints[n].transactionId == Transaction(c.counter) && d.counter == c.counter + 1
            && |d.commands| == |c.commands| + 1 && d.commands[..|c.commands|] == c.commands
            && SetsAt(d.commands[|c.commands|], c.counter, file, line, true, c.mappings))
      && (!c.isSessionActive ==>
            d.breakpoints[n].transactionId == "" && d.counter == c.counter && d.commands == c.commands)
  {
    RemoteIsNameFor(file, c.mappings);
    assert !HasBreakpointAt(c.breakpoints, file, line);
  }

  /** Where there is one, none is added. */
  lemma AddedRefuses(c: Client, file: string, handle: int, line: int, k: nat)
    requires k < |c.breakpoints|
    requires c.breakpoints[k].breakpoint.filename == file && c.breakpoints[k].breakpoint.lineNumber == line
    ensures Added(c, file, handle, line) == c
  {
    assert IsAt(c.breakpoints[k], file, line);
  }

  /** The first breakpoint at that line of that file goes, and in a session the engine is told so by its own id. */
  lemma RemovedTells(c: Client, file: string, line: int, k: nat)
    requires k <= |c.breakpoints|
    requires forall j :: 0 <= j < k ==>
      !(c.breakpoints[j].breakpoint.filename == file && c.breakpoints[j].breakpoint.lineNumber == line)
    ensures k == |c.breakpoints| ==> Removed(c, file, line) == c
    ensures k < |c.breakpoints| && c.breakpoints[k].breakpoint.filename == file && c.breakpoints[k].breakpoint.lineNumber == line ==>
      var d := Removed(c, file, line);
      && d.breakpoints == c.breakpoints[..k] + c.breakpoints[k + 1..]
      && d.isSessionActive == c.isSessionActive && d.mappings == c.mappings
      && (c.isSessionActive ==>
            && d.counter == c.counter + 1
            && d.commands == c.commands + [BreakpointRemove(Transaction(c.counter), c.breakpoints[k].breakpointId)])
      && (!c.isSessionActive ==> d.counter == c.counter && d.commands == c.commands)
  {
    if k == |c.breakpoints| || IsAt(c.breakpoints[k], file, line) {
      IndexAtIs(c.breakpoints, file, line, k);
    }
  }

  /** At the start of a session the k-th command sets the k-th breakpoint where it is, and the rest is always the same. */
  lemma StartTells(c: Client, doBreakOnStart: bool, k: nat)
    requires RootsPrefixFree(c.mappings)
    ensures var d := Initialized(c, doBreakOnStart); var first, n := |c.commands|, |c.breakpoints|;
      && d.isSessionActive && d.mappings == c.mappings
      && |d.commands| == first + n + 7 && d.commands[..first] == c.commands
      && (k < n ==>
            && d.breakpoints[k].transactionId == Transaction(c.counter + k)
            && d.breakpoints[k].breakpoint == c.breakpoints[k].breakpoint
            && SetsAt(d.commands[first + k], c.counter + k, c.breakpoints[k].breakpoint.filename,
                 c.breakpoints[k].breakpoint.lineNumber, c.breakpoints[k].breakpoint.isEnabled, c.mappings))
  {
    var d := Initialized(c, doBreakOnStart);
    if k < |c.breakpoints| {
      RemoteIsNameFor(c.breakpoints[k].breakpoint.filename, c.mappings);
      assert d.commands[|c.commands| + k] == SetCommands(c.breakpoints, c.counter, c.mappings)[k];
    }
  }

  /** After the breakpoints come seven commands that set none, the third of which lets the script go. */
  lemma StartAsks(c: Client, doBreakOnStart: bool)
    ensures var verbs := ["feature_set", "feature_set", if doBreakOnStart then "step_into" else "run",
              "stack_get", "context_names", "context_get", "context_get"];
      var d := Initialized(c, doBreakOnStart); var first, n := |c.commands| + |c.breakpoints|, c.counter + |c.breakpoints|;
      && |d.commands| == first + 7 && d.counter == n + 7
      && forall j :: 0 <= j < 7 ==> d.commands[first..][j] == Other(Transaction(n + j), verbs[j])
  {
    var d := Initialized(c, doBreakOnStart);
    var first := |c.commands| + |c.breakpoints|;
    assert d.commands[first..] == Others(StartVerbs(doBreakOnStart), c.counter + |c.breakpoints|);
  }

  /** In every run, that is what handling a session's start posts, for the list as it is by then. */
  lemma StartIsPosted(run: seq<System>, events: seq<Event>, n: nat, k: nat)
    requires IsRun(run, events) && n < |events| && events[n].Notified?
    requires run[n].notices != [] && run[n].notices[0].Inited? && RootsPrefixFree(run[n].c.mappings)
    ensures var c, d := run[n].c, run[n + 1].c; var first, bs := |c.commands|, c.breakpoints;
      var verbs := ["feature_set", "feature_set", if events[n].doBreakOnStart then "step_into" else "run",
        "stack_get", "context_names", "context_get", "context_get"];
      && d.isSessionActive && |d.commands| == first + |bs| + 7 && d.commands[..first] == c.commands
      && (k < |bs| ==>
            SetsAt(d.commands[first + k], c.counter + k, bs[k].breakpoint.filename, bs[k].breakpoint.lineNumber,
              bs[k].breakpoint.isEnabled, c.mappings))
      && forall j :: 0 <= j < 7 ==> d.commands[first + |bs|..][j] == Other(Transaction(c.counter + |bs| + j), verbs[j])
  {
    StepOf(run, events, n);
    StartTells(run[n].c, events[n].doBreakOnStart, k);
    StartAsks(run[n].c, events[n].doBreakOnStart);
  }

  /**
    Where list and table agree, the engine has each breakpoint of the list under its own name for the
    file, which leads back to the list's, at its line, enabled or not as in the list.
   */
  lemma AgreementNames(s: System, k: nat)
    requires Agrees(s) && RootsPrefixFree(s.c.mappings) && k < |s.c.breakpoints|
    ensures var b := s.c.breakpoints[k];
      && b.breakpointId in s.table
      && NameFor(b.breakpoint.filename, s.table[b.breakpointId].file, s.c.mappings)
      && LeadsBack(b.breakpoint.filename, s.table[b.breakpointId].file, s.c.mappings)
      && s.table[b.breakpointId].line == b.breakpoint.lineNumber
      && s.table[b.breakpointId].isEnabled == b.breakpoint.isEnabled
  {
    RemoteIsNameFor(s.c.breakpoints[k].breakpoint.filename, s.c.mappings);
  }

  /** In every settled state of a careful session. */
  lemma EngineHasTheList(run: seq<System>, events: seq<Event>, bs: seq<BreakpointWithHandle>, m: nat, n: nat, k: nat)
    requires IsRun(run, events) && IsStart(run[0], bs) && NeverRepeats(run, events)
    requires JoinedFrom(run, events, m, n) && CarefulBetween(run, events, m, n) && IsSettled(run[n])
    requires RootsPrefixFree(run[n].c.mappings) && k < |run[n].c.breakpoints|
    ensures var s := run[n]; var b := s.c.breakpoints[k];
      && b.breakpointId in s.table
      && NameFor(b.breakpoint.filename, s.table[b.breakpointId].file, s.c.mappings)
      && LeadsBack(b.breakpoint.filename, s.table[b.breakpointId].file, s.c.mappings)
      && s.table[b.breakpointId].line == b.breakpoint.lineNumber
      && s.table[b.breakpointId].isEnabled == b.breakpoint.isEnabled
  {
    SettledVerdict(run, events, bs, m, n);
    AgreementNames(run[n], k);
  }
}
