/**
  DebuggerServerActionClass: commands added by the main thread at any time, written to the engine
  one at a time, each answer read before the next command is written.
 */
module DbgpSession {
  import opened Strings

  // ---------------------------------------------------------------- verbs

  /** The command up to its first space, in lower case. */
  function Verb(cmd: string): string {
    if cmd == "" || cmd[0] == ' ' then "" else [LowerChar(cmd[0])] + Verb(cmd[1..])
  }

  /** Section 7.5 of the protocol: the commands after which the script runs on. */
  predicate IsContinuation(verb: string) {
    verb in {"run", "step_into", "step_over", "step_out", "stop"}
  }

  /** What is looked at of a command: everything before its first space, and of that capitals as small letters. */
  lemma {:induction false} VerbIs(cmd: string, n: nat)
    requires n <= |cmd| && (n == |cmd| || cmd[n] == ' ') && forall k :: 0 <= k < n ==> cmd[k] != ' '
    ensures |Verb(cmd)| == n
    ensures forall k :: 0 <= k < n ==>
      Verb(cmd)[k] == if 'A' <= cmd[k] <= 'Z' then (cmd[k] as int - 'A' as int + 'a' as int) as char else cmd[k]
  {
    if n > 0 {
      VerbIs(cmd[1..], n - 1);
    }
  }

  /** Commands are built as the verb, a space, and arguments; the verb is what comes back. */
  lemma VerbOfBuilt(verb: string, args: string)
    requires forall k :: 0 <= k < |verb| ==> verb[k] != ' ' && !('A' <= verb[k] <= 'Z')
    ensures Verb(verb + " " + args) == verb
  {
    VerbIs(verb + " " + args, |verb|);
  }

  datatype Status = Starting | Stopping | Stopped | Running | Break

  /** What becomes of a response: its number in the session, and the outcome of parsing it. */
  datatype Response = Response(index: nat, parses: bool, status: Status)

  predicate Stops(cmd: string, r: Response) {
    IsContinuation(Verb(cmd)) && r.parses && r.status == Stopping
  }

  /**
    A command built from a verb ends the script exactly when the verb is one of these five and the
    answer parses and says that the script is stopping.
   */
  lemma StopsExactlyWhen(verb: string, args: string, r: Response)
    requires forall k :: 0 <= k < |verb| ==> verb[k] != ' ' && !('A' <= verb[k] <= 'Z')
    ensures Stops(verb + " " + args, r) <==>
      && (verb == "run" || verb == "step_into" || verb == "step_over" || verb == "step_out" || verb == "stop")
      && r.parses && r.status == Stopping
  {
    VerbOfBuilt(verb, args);
  }

  // ---------------------------------------------------------------- the command queue

  /** What the loop that removes commands after the end of a script leaves. */
  function Drained(texts: seq<string>): seq<string> {
    if texts == [] then [] else if texts[0] == "" then texts[1..] else Drained(texts[1..])
  }

  /** Nothing is left exactly when no empty command comes before another command. */
  lemma {:induction false} DrainedEmpty(texts: seq<string>)
    ensures Drained(texts) == [] <==> forall k :: 0 <= k < |texts| - 1 ==> texts[k] != ""
  {
    if texts != [] {
      DrainedEmpty(texts[1..]);
      if texts[0] != "" {
        if forall k :: 0 <= k < |texts| - 1 ==> texts[k] != "" {
          assert forall k :: 0 <= k < |texts[1..]| - 1 ==> texts[1..][k] == texts[k + 1];
        }
        if forall k :: 0 <= k < |texts[1..]| - 1 ==> texts[1..][k] != "" {
          assert forall k :: 0 < k < |texts| - 1 ==> texts[k] == texts[1..][k - 1];
        }
      }
    }
  }

  /** An empty command comes before one that is not. */
  ghost predicate EmptyBeforeCommand(texts: seq<string>) {
    exists j, k :: 0 <= j < k < |texts| && texts[j] == "" && texts[k] != ""
  }

  ghost predicate HasCommand(texts: seq<string>) {
    exists k :: 0 <= k < |texts| && texts[k] != ""
  }

  /** A command other than an empty one is left exactly when an empty one came before one. */
  lemma {:induction false} DrainedHasCommand(texts: seq<string>)
    ensures HasCommand(Drained(texts)) <==> EmptyBeforeCommand(texts)
  {
    if texts != [] {
      var rest := texts[1..];
      if texts[0] == "" {
        EmptyFirst(texts);
      } else {
        DrainedHasCommand(rest);
        if j, k :| 0 <= j < k < |rest| && rest[j] == "" && rest[k] != "" {
          assert texts[j + 1] == "" && texts[k + 1] != "";
        }
        if j, k :| 0 <= j < k < |texts| && texts[j] == "" && texts[k] != "" {
          assert rest[j - 1] == "" && rest[k - 1] != "";
        }
      }
    }
  }

  lemma EmptyFirst(texts: seq<string>)
    requires texts != [] && texts[0] == ""
    ensures HasCommand(texts[1..]) <==> EmptyBeforeCommand(texts)
  {
    var rest := texts[1..];
    if k :| 0 <= k < |rest| && rest[k] != "" {
      assert texts[0] == "" && texts[k + 1] != "";
    }
    if j, k :| 0 <= j < k < |texts| && texts[j] == "" && texts[k] != "" {
      assert rest[k - 1] != "";
    }
  }

  class DebuggerServerActionClass {
    var Commands: seq<string>

    constructor ()
      ensures Commands == []
    {
      Commands := [];
    }

    method AddCommand(cmd: string)
      modifies this
      ensures Commands == old(Commands) + [cmd]
    {
      Commands := Commands + [cmd];
    }

    /** The front command, or the empty string when there is none. */
    method NextCommand() returns (cmd: string)
      modifies this
      ensures old(Commands) == [] ==> cmd == "" && Commands == []
      ensures old(Commands) != [] ==> cmd == old(Commands)[0] && Commands == old(Commands)[1..]
    {
      cmd := "";
      if Commands == [] {
        return;
      }
      cmd := Commands[0];
      Commands := Commands[1..];
    }

    /** The end of SessionWork after a response that says the script is stopping. */
    method RemoveCommands()
      modifies this
      ensures Commands == Drained(old(Commands))
    {
      var next := NextCommand();
      while next != ""
        invariant next != "" ==> Drained(Commands) == Drained(old(Commands))
        invariant next == "" ==> Commands == Drained(old(Commands))
        decreases |Commands|, next != ""
      {
        next := NextCommand();
      }
    }

    /** Only a continuation command whose answer parses decides whether the script has stopped. */
    method ParseAndPost(r: Response, cmd: string, isDebuggerStopped0: bool) returns (isDebuggerStopped: bool)
      ensures !isDebuggerStopped0 ==> (isDebuggerStopped <==>
        && (Verb(cmd) == "run" || Verb(cmd) == "step_into" || Verb(cmd) == "step_over" || Verb(cmd) == "step_out"
            || Verb(cmd) == "stop")
        && r.parses && r.status == Stopping)
      ensures !isDebuggerStopped0 ==> (isDebuggerStopped <==> Stops(cmd, r))
    {
      isDebuggerStopped := isDebuggerStopped0;
      var cmdOnly := Verb(cmd);
      if cmdOnly == "run" || cmdOnly == "step_into" || cmdOnly == "step_over" || cmdOnly == "step_out" || cmdOnly == "stop" {
        if r.parses {
          isDebuggerStopped := r.status == Stopping;
        }
      }
    }
  }
}
