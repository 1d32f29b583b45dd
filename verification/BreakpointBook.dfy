/**
  The list of breakpoints read as a book by transaction ids, and the commands with which a session
  begins: they set exactly what the book has.
 */
module BreakpointBook {
  import opened DebuggerTypes
  import opened Breakpoints
  import opened BreakpointWire
  import PathMapping

  function EntryOf(b: BreakpointWithHandle, ms: seq<PathMapping.Mapping>): Entry {
    Entry(PlaceOf(b, ms), b.breakpointId)
  }

  function BookOf(bs: seq<BreakpointWithHandle>, ms: seq<PathMapping.Mapping>): Book {
    if bs == [] then map[] else BookOf(bs[1..], ms)[bs[0].transactionId := EntryOf(bs[0], ms)]
  }

  predicate SingleIds(bs: seq<BreakpointWithHandle>) {
    forall j, k :: 0 <= j < k < |bs| ==> bs[j].transactionId != bs[k].transactionId
  }

  /** The book has an entry for exactly the transaction ids of the list. */
  lemma {:induction false} InBook(bs: seq<BreakpointWithHandle>, ms: seq<PathMapping.Mapping>, t: string)
    ensures t in BookOf(bs, ms) <==> exists k :: 0 <= k < |bs| && bs[k].transactionId == t
  {
    if bs != [] {
      InBook(bs[1..], ms, t);
      if t in BookOf(bs[1..], ms) {
        var k :| 0 <= k < |bs[1..]| && bs[1..][k].transactionId == t;
        assert bs[k + 1] == bs[1..][k];
      }
      if k :| 0 <= k < |bs| && bs[k].transactionId == t {
        assert k > 0 ==> bs[1..][k - 1] == bs[k];
      }
    }
  }

  lemma {:induction false} EntryAt(bs: seq<BreakpointWithHandle>, ms: seq<PathMapping.Mapping>, k: nat)
    requires SingleIds(bs) && k < |bs|
    ensures bs[k].transactionId in BookOf(bs, ms) && BookOf(bs, ms)[bs[k].transactionId] == EntryOf(bs[k], ms)
  {
    if k > 0 {
      EntryAt(bs[1..], ms, k - 1);
    }
  }

  lemma {:induction false} BookLast(bs: seq<BreakpointWithHandle>, ms: seq<PathMapping.Mapping>, b: BreakpointWithHandle)
    requires b.transactionId !in BookOf(bs, ms)
    ensures BookOf(bs + [b], ms) == BookOf(bs, ms)[b.transactionId := EntryOf(b, ms)]
    ensures SingleIds(bs) ==> SingleIds(bs + [b])
  {
    InBook(bs, ms, b.transactionId);
    if bs != [] {
      assert (bs + [b])[1..] == bs[1..] + [b];
      InBook(bs[1..], ms, b.transactionId);
      BookLast(bs[1..], ms, b);
    }
  }

  lemma CutFirst(bs: seq<BreakpointWithHandle>, k: nat)
    requires 0 < k < |bs|
    ensures bs[..k] + bs[k + 1..] == [bs[0]] + (bs[1..][..k - 1] + bs[1..][k..])
  {
  }

  lemma BookFirst(b: BreakpointWithHandle, bs: seq<BreakpointWithHandle>, ms: seq<PathMapping.Mapping>)
    ensures BookOf([b] + bs, ms) == BookOf(bs, ms)[b.transactionId := EntryOf(b, ms)]
  {
    assert ([b] + bs)[1..] == bs;
  }

  lemma {:induction false} BookWithout(bs: seq<BreakpointWithHandle>, ms: seq<PathMapping.Mapping>, k: nat)
    requires SingleIds(bs) && k < |bs|
    ensures BookOf(bs[..k] + bs[k + 1..], ms) == BookOf(bs, ms) - {bs[k].transactionId}
  {
    if k == 0 {
      assert bs[..k] + bs[k + 1..] == bs[1..];
      InBook(bs[1..], ms, bs[0].transactionId);
    } else {
      var rest := bs[1..];
      BookWithout(rest, ms, k - 1);
      CutFirst(bs, k);
      BookFirst(bs[0], rest[..k - 1] + rest[k..], ms);
    }
  }

  function WithIds(bs: seq<BreakpointWithHandle>, t: string, i: string): seq<BreakpointWithHandle> {
    seq(|bs|, k requires 0 <= k < |bs| => WithId(bs[k], t, i))
  }

  function BookWithId(book: Book, t: string, i: string): Book {
    if t in book then book[t := book[t].(breakpointId := i)] else book
  }

  lemma {:induction false} BookAnswered(bs: seq<BreakpointWithHandle>, ms: seq<PathMapping.Mapping>, t: string, i: string)
    requires SingleIds(bs)
    ensures BookOf(WithIds(bs, t, i), ms) == BookWithId(BookOf(bs, ms), t, i)
  {
    if bs != [] {
      var b, rest := bs[0], bs[1..];
      assert WithIds(bs, t, i) == [WithId(b, t, i)] + WithIds(rest, t, i);
      BookFirst(WithId(b, t, i), WithIds(rest, t, i), ms);
      InBook(rest, ms, b.transactionId);
      BookAnswered(rest, ms, t, i);
    }
  }

  // ---------------------------------------------------------------- the start of a session

  /** The commands set exactly the breakpoints of the book, under n transaction ids from the counter on. */
  ghost predicate Announces(commands: seq<Command>, book: Book, counter: nat, n: nat) {
    && SingleSets(commands)
    && Sets(commands).Keys == book.Keys
    && (forall t :: t in book ==> book[t].place == Sets(commands)[t] && Between(t, counter, n))
  }

  ghost predicate Between(t: string, counter: nat, n: nat) {
    exists m :: counter <= m < counter + n && t == Transaction(m)
  }

  lemma AnnounceFirst(c: Command, commands: seq<Command>, e: Entry, book: Book, counter: nat, n: nat)
    requires Announces(commands, book, counter + 1, n) && c == BreakpointSet(Transaction(counter), e.place)
    ensures Announces([c] + commands, book[Transaction(counter) := e], counter, n + 1)
  {
    assert ([c] + commands)[1..] == commands;
    if Transaction(counter) in book {
      var m :| counter + 1 <= m < counter + 1 + n && Transaction(counter) == Transaction(m);
      TransactionInjective(counter, m);
    }
    var bigger := book[Transaction(counter) := e];
    forall t | t in bigger ensures Between(t, counter, n + 1) {
      if t in book {
        var m :| counter + 1 <= m < counter + 1 + n && t == Transaction(m);
      }
    }
  }

  lemma FirstRenumbered(bs: seq<BreakpointWithHandle>, counter: nat)
    requires bs != []
    ensures Renumbered(bs, counter) == [bs[0].(transactionId := Transaction(counter))] + Renumbered(bs[1..], counter + 1)
  {
  }

  lemma FirstSet(bs: seq<BreakpointWithHandle>, counter: nat, ms: seq<PathMapping.Mapping>)
    requires bs != []
    ensures SetCommands(bs, counter, ms)
      == [BreakpointSet(Transaction(counter), PlaceOf(bs[0], ms))] + SetCommands(bs[1..], counter + 1, ms)
  {
  }

  lemma FirstToStart(bs: seq<BreakpointWithHandle>, counter: nat, ms: seq<PathMapping.Mapping>, others: seq<Command>)
    requires bs != []
    ensures SetCommands(bs, counter, ms) + others
      == [BreakpointSet(Transaction(counter), PlaceOf(bs[0], ms))] + (SetCommands(bs[1..], counter + 1, ms) + others)
  {
    FirstSet(bs, counter, ms);
  }

  lemma {:induction false} StartBook(
      bs: seq<BreakpointWithHandle>, counter: nat, ms: seq<PathMapping.Mapping>, others: seq<Command>)
    requires Sets(others) == map[] && SingleSets(others)
    ensures Announces(SetCommands(bs, counter, ms) + others, BookOf(Renumbered(bs, counter), ms), counter, |bs|)
    decreases |bs|
  {
    if bs == [] {
      assert SetCommands(bs, counter, ms) + others == others;
    } else {
      var b := bs[0].(transactionId := Transaction(counter));
      var commands := SetCommands(bs[1..], counter + 1, ms) + others;
      StartBook(bs[1..], counter + 1, ms, others);
      AnnounceFirst(BreakpointSet(Transaction(counter), PlaceOf(bs[0], ms)), commands, EntryOf(b, ms),
        BookOf(Renumbered(bs[1..], counter + 1), ms), counter, |bs| - 1);
      FirstToStart(bs, counter, ms, others);
      FirstRenumbered(bs, counter);
      BookFirst(b, Renumbered(bs[1..], counter + 1), ms);
    }
  }

  lemma {:induction false} OthersSetNothing(verbs: seq<string>, counter: nat)
    ensures var c := Others(verbs, counter); Sets(c) == map[] && SingleSets(c)
    decreases |verbs|
  {
    if verbs != [] {
      OthersSetNothing(verbs[1..], counter + 1);
      assert Others(verbs, counter)[1..] == Others(verbs[1..], counter + 1);
    }
  }

  predicate NoSets(commands: seq<Command>) {
    forall a :: 0 <= a < |commands| ==> !commands[a].BreakpointSet?
  }

  /** Commands left over that set nothing make no difference to what is set. */
  lemma {:induction false} LeftoversFirst(left: seq<Command>, commands: seq<Command>)
    requires NoSets(left)
    ensures Sets(left + commands) == Sets(commands) && (SingleSets(commands) ==> SingleSets(left + commands))
  {
    if left == [] {
      assert left + commands == commands;
    } else {
      assert (left + commands)[1..] == left[1..] + commands;
      LeftoversFirst(left[1..], commands);
    }
  }

  lemma OldLater(t: string, counter: nat, later: nat)
    requires IsOld(t, counter) && counter <= later
    ensures IsOld(t, later)
  {
  }

  lemma OldCommands(bs: seq<BreakpointWithHandle>, counter: nat, ms: seq<PathMapping.Mapping>, verbs: seq<string>)
    ensures var commands := SetCommands(bs, counter, ms) + Others(verbs, counter + |bs|);
      forall a :: 0 <= a < |commands| ==>
        !commands[a].BreakpointRemove? && IsOld(commands[a].transactionId, counter + |bs| + |verbs|)
  {
    var commands := SetCommands(bs, counter, ms) + Others(verbs, counter + |bs|);
    forall a | 0 <= a < |commands| ensures IsOld(commands[a].transactionId, counter + |bs| + |verbs|) {
      assert commands[a].transactionId == Transaction(counter + a);
    }
  }

  lemma SingleRenumbered(bs: seq<BreakpointWithHandle>, counter: nat)
    ensures SingleIds(Renumbered(bs, counter))
  {
    var r := Renumbered(bs, counter);
    forall j, k | 0 <= j < k < |r| ensures r[j].transactionId != r[k].transactionId {
      TransactionInjective(counter + j, counter + k);
    }
  }

  lemma StartMatches(w: Wire, counter: nat, n: nat)
    requires Announces(w.commands, w.book, counter, n)
    requires w.replies == [] && w.table == map[] && w.given == map[]
    ensures Single(w) && Linked(LinkOf(w))
  {
  }

  /** The commands with which a session begins. */
  function StartCommands(c: Client, doBreakOnStart: bool): seq<Command> {
    SetCommands(c.breakpoints, c.counter, c.mappings) + Others(StartVerbs(doBreakOnStart), c.counter + |c.breakpoints|)
  }

  lemma StartAnnounces(c: Client, doBreakOnStart: bool)
    ensures Announces(StartCommands(c, doBreakOnStart), BookOf(Renumbered(c.breakpoints, c.counter), c.mappings),
              c.counter, |c.breakpoints|)
  {
    var others := Others(StartVerbs(doBreakOnStart), c.counter + |c.breakpoints|);
    OthersSetNothing(StartVerbs(doBreakOnStart), c.counter + |c.breakpoints|);
    assert StartCommands(c, doBreakOnStart) == SetCommands(c.breakpoints, c.counter, c.mappings) + others;
    StartBook(c.breakpoints, c.counter, c.mappings, others);
  }

  lemma StartQueue(c: Client, doBreakOnStart: bool)
    ensures Initialized(c, doBreakOnStart).commands == c.commands + StartCommands(c, doBreakOnStart)
  {
  }

  /** A command left in the queue: from an earlier transaction, about an id the engine gave at some time. */
  ghost predicate LeftCommand(c: Command, counter: nat, used: set<string>) {
    IsOld(c.transactionId, counter) && (c.BreakpointRemove? ==> c.breakpointId == "" || c.breakpointId in used)
  }

  ghost predicate LeftCommands(commands: seq<Command>, counter: nat, used: set<string>) {
    forall a :: 0 <= a < |commands| ==> LeftCommand(commands[a], counter, used)
  }

  lemma StartCommandsLeft(c: Client, left: seq<Command>, doBreakOnStart: bool, used: set<string>)
    requires LeftCommands(left, c.counter, used)
    ensures LeftCommands(left + StartCommands(c, doBreakOnStart), c.counter + |c.breakpoints| + 7, used)
  {
    var later, counter := StartCommands(c, doBreakOnStart), c.counter + |c.breakpoints| + 7;
    OldCommands(c.breakpoints, c.counter, c.mappings, StartVerbs(doBreakOnStart));
    forall a | 0 <= a < |left + later| ensures LeftCommand((left + later)[a], counter, used) {
      if a < |left| {
        assert LeftCommand(left[a], c.counter, used);
        OldLater(left[a].transactionId, c.counter, counter);
      } else {
        assert (left + later)[a] == later[a - |left|];
      }
    }
  }

  lemma NewIdsOnly(t: string, counter: nat, n: nat)
    requires IsOld(t, counter)
    ensures !Between(t, counter, n)
  {
    var m :| 0 <= m < counter && t == Transaction(m);
    forall j: nat | counter <= j < counter + n ensures t != Transaction(j) {
      TransactionInjective(m, j);
    }
  }

  lemma RemovedAt(c: Client, file: string, line: int, k: nat)
    requires k == IndexAt(c.breakpoints, file, line) && k < |c.breakpoints|
    ensures Removed(c, file, line).breakpoints == c.breakpoints[..k] + c.breakpoints[k + 1..]
    ensures c.isSessionActive ==> (Removed(c, file, line)
      == c.(breakpoints := c.breakpoints[..k] + c.breakpoints[k + 1..], counter := c.counter + 1,
            commands := c.commands + [BreakpointRemove(Transaction(c.counter), c.breakpoints[k].breakpointId)]))
  {
  }
}
