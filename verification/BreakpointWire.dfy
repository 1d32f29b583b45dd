/**
  The breakpoints of one debug session between the feature and the engine: commands on their way
  there, answers on their way back, and what keeps the two tables together.
 */
module BreakpointWire {
  import opened Breakpoints

  /** What the feature holds under a transaction id. */
  datatype Entry = Entry(place: Place, breakpointId: string)

  /** The answer to a BreakpointSet command. */
  datatype Reply = Reply(transactionId: string, breakpointId: string)

  /**
    `book` is the feature's list by transaction id, `table` the engine's by its own ids. `given`
    records under which id the engine has set a transaction's breakpoint, `used` all ids it ever gave.
   */
  datatype Wire = Wire(
    book: map<string, Entry>, counter: nat, commands: seq<Command>, replies: seq<Reply>,
    table: map<string, Place>, given: map<string, string>, used: set<string>)

  // ---------------------------------------------------------------- steps

  function Add(w: Wire, place: Place): Wire {
    var t := Transaction(w.counter);
    w.(book := w.book[t := Entry(place, "")], counter := w.counter + 1, commands := w.commands + [BreakpointSet(t, place)])
  }

  function Remove(w: Wire, t: string): Wire
    requires t in w.book
  {
    w.(book := w.book - {t}, counter := w.counter + 1,
       commands := w.commands + [BreakpointRemove(Transaction(w.counter), w.book[t].breakpointId)])
  }

  function Post(w: Wire, verb: string): Wire {
    w.(counter := w.counter + 1, commands := w.commands + [Other(Transaction(w.counter), verb)])
  }

  /** The engine executes a command; a breakpoint it sets gets the given id. */
  function Execute(w: Wire, id: string): Wire
    requires w.commands != []
  {
    var rest := w.(commands := w.commands[1..]);
    match w.commands[0]
    case BreakpointSet(t, place) =>
      rest.(table := w.table[id := place], given := w.given[t := id], used := w.used + {id},
            replies := w.replies + [Reply(t, id)])
    case BreakpointRemove(_, i) => rest.(table := w.table - {i})
    case Other(_, _) => rest
  }

  /** An id the engine has not given in this session, and that nobody is about to remove. */
  predicate MayGive(w: Wire, id: string) {
    w.commands != [] && (w.commands[0].BreakpointSet? ==> id != "" && id !in w.given.Values && id !in Removes(w.commands))
  }

  /** An id the engine has never given in any session. */
  predicate IsNew(w: Wire, id: string) {
    w.commands != [] && (w.commands[0].BreakpointSet? ==> id != "" && id !in w.used)
  }

  function Deliver(w: Wire): Wire
    requires w.replies != []
  {
    var r := w.replies[0];
    w.(replies := w.replies[1..],
       book := if r.transactionId in w.book then
           w.book[r.transactionId := w.book[r.transactionId].(breakpointId := r.breakpointId)]
         else w.book)
  }

  // ---------------------------------------------------------------- what holds whatever is removed

  ghost predicate IsOld(t: string, counter: nat) {
    exists n :: 0 <= n < counter && t == Transaction(n)
  }

  /** Transaction ids are those of earlier commands, breakpoint ids those the engine gave. */
  ghost predicate Known(w: Wire) {
    && "" !in w.used
    && (forall t :: t in w.book ==> IsOld(t, w.counter) && (w.book[t].breakpointId == "" || w.book[t].breakpointId in w.used))
    && (forall t :: t in w.given ==> IsOld(t, w.counter) && w.given[t] in w.used)
    && (forall a :: 0 <= a < |w.commands| ==> KnownCommand(w, w.commands[a]))
    && (forall b :: 0 <= b < |w.replies| ==>
      IsOld(w.replies[b].transactionId, w.counter) && w.replies[b].breakpointId in w.used)
    && (forall i :: i in w.table ==> i in w.used)
  }

  ghost predicate KnownCommand(w: Wire, c: Command) {
    && IsOld(c.transactionId, w.counter)
    && (c.BreakpointRemove? ==> c.breakpointId == "" || c.breakpointId in w.used)
  }

  // ---------------------------------------------------------------- what keeps the tables together

  /** The breakpoints still to be set, by transaction id. */
  function Sets(commands: seq<Command>): map<string, Place> {
    if commands == [] then map[]
    else if commands[0].BreakpointSet? then Sets(commands[1..])[commands[0].transactionId := commands[0].place]
    else Sets(commands[1..])
  }

  /** The ids still to be removed. */
  function Removes(commands: seq<Command>): set<string> {
    if commands == [] then {}
    else if commands[0].BreakpointRemove? then Removes(commands[1..]) + {commands[0].breakpointId}
    else Removes(commands[1..])
  }

  function Answers(replies: seq<Reply>): map<string, string> {
    if replies == [] then map[]
    else Answers(replies[1..])[replies[0].transactionId := replies[0].breakpointId]
  }

  /** No transaction id comes twice. */
  predicate Single(w: Wire) {
    SingleSets(w.commands) && SingleAnswers(w.replies)
  }

  predicate SingleSets(commands: seq<Command>) {
    commands == [] || (SingleSets(commands[1..])
      && (commands[0].BreakpointSet? ==> commands[0].transactionId !in Sets(commands[1..])))
  }

  predicate SingleAnswers(replies: seq<Reply>) {
    replies == [] || (SingleAnswers(replies[1..]) && replies[0].transactionId !in Answers(replies[1..]))
  }

  /** The wire with its two queues read as tables. */
  datatype Link = Link(
    book: map<string, Entry>, sets: map<string, Place>, removes: set<string>, answers: map<string, string>,
    table: map<string, Place>, given: map<string, string>)

  function LinkOf(w: Wire): Link {
    Link(w.book, Sets(w.commands), Removes(w.commands), Answers(w.replies), w.table, w.given)
  }

  type Book = map<string, Entry>

  /** A breakpoint is either still to be set or set, and what is to be set is in the book. */
  predicate OneWayOrOther(book: Book, sets: map<string, Place>, given: map<string, string>) {
    && (forall t :: t in sets ==> t in book && t !in given && book[t].place == sets[t])
    && (forall t :: t in book ==> t in given || t in sets)
  }

  /** The engine's answer is on its way, or it is in the book. */
  predicate AnsweredOrOnTheWay(book: Book, answers: map<string, string>, given: map<string, string>) {
    && (forall t :: t in answers ==> t in book && t in given && given[t] == answers[t])
    && (forall t :: t in book && t in given && t !in answers ==> book[t].breakpointId == given[t])
  }

  predicate IdsDiffer(given: map<string, string>) {
    forall t, u :: t in given && u in given && t != u ==> given[t] != given[u]
  }

  /** An id in the book that was not given in this session is nobody's now. */
  predicate StaleIdsAreFree(book: Book, answers: map<string, string>, given: map<string, string>) {
    forall t, u :: t in book && u in given && (t !in given || t in answers) ==> book[t].breakpointId != given[u]
  }

  predicate TableHasBook(book: Book, given: map<string, string>, table: map<string, Place>, removes: set<string>) {
    forall t :: t in book && t in given ==>
      given[t] in table && table[given[t]] == book[t].place && given[t] !in removes
  }

  predicate Owned(book: Book, given: map<string, string>, i: string) {
    exists t :: t in given && t in book && given[t] == i
  }

  predicate BookHasTable(book: Book, given: map<string, string>, table: map<string, Place>, removes: set<string>) {
    forall i :: i in table ==> Owned(book, given, i) || i in removes
  }

  predicate Linked(l: Link) {
    && OneWayOrOther(l.book, l.sets, l.given)
    && AnsweredOrOnTheWay(l.book, l.answers, l.given)
    && IdsDiffer(l.given)
    && TableHasBook(l.book, l.given, l.table, l.removes)
    && BookHasTable(l.book, l.given, l.table, l.removes)
  }

  /** The breakpoint is set and the feature knows its id. */
  predicate IsAnswered(l: Link, t: string) {
    t in l.given && t !in l.answers
  }

  ghost predicate Matched(w: Wire) {
    Known(w) && Single(w) && Linked(LinkOf(w))
  }

  /** What holds besides when the engine never gives an id again. */
  predicate Apart(w: Wire) {
    StaleIdsAreFree(w.book, Answers(w.replies), w.given)
  }

  // ---------------------------------------------------------------- each step keeps what is known

  lemma Fresh(counter: nat)
    ensures !IsOld(Transaction(counter), counter)
  {
    forall n: nat | n < counter ensures Transaction(n) != Transaction(counter) {
      TransactionInjective(n, counter);
    }
  }

  lemma StaysOld(t: string, counter: nat)
    ensures IsOld(t, counter) ==> IsOld(t, counter + 1)
    ensures IsOld(Transaction(counter), counter + 1)
  {
  }

  lemma KnownLater(w: Wire, v: Wire)
    requires Known(w) && v == w.(counter := w.counter + 1)
    ensures Known(v)
  {
    forall t | IsOld(t, w.counter) ensures IsOld(t, v.counter) {
      StaysOld(t, w.counter);
    }
    forall a | 0 <= a < |w.commands| ensures KnownCommand(v, v.commands[a]) {
      assert KnownCommand(w, w.commands[a]);
    }
  }

  lemma PostKeepsKnown(w: Wire, c: Command)
    requires Known(w) && c.transactionId == Transaction(w.counter)
    requires c.BreakpointRemove? ==> c.breakpointId == "" || c.breakpointId in w.used
    ensures Known(w.(counter := w.counter + 1, commands := w.commands + [c]))
  {
    var v := w.(counter := w.counter + 1);
    KnownLater(w, v);
    StaysOld("", w.counter);
    var u := v.(commands := w.commands + [c]);
    forall a | 0 <= a < |u.commands| ensures KnownCommand(u, u.commands[a]) {
      assert a < |w.commands| ==> KnownCommand(v, v.commands[a]);
    }
  }

  lemma AddKeepsKnown(w: Wire, place: Place)
    requires Known(w)
    ensures Known(Add(w, place))
  {
    PostKeepsKnown(w, BreakpointSet(Transaction(w.counter), place));
    StaysOld("", w.counter);
    KnownBook(w.(counter := w.counter + 1, commands := w.commands + [BreakpointSet(Transaction(w.counter), place)]),
      Transaction(w.counter), place);
  }

  lemma KnownBook(w: Wire, t: string, place: Place)
    requires Known(w) && IsOld(t, w.counter)
    ensures Known(w.(book := w.book[t := Entry(place, "")]))
  {
    var v := w.(book := w.book[t := Entry(place, "")]);
    forall a | 0 <= a < |v.commands| ensures KnownCommand(v, v.commands[a]) {
      assert KnownCommand(w, w.commands[a]);
    }
  }

  lemma RemoveKeepsKnown(w: Wire, t: string)
    requires Known(w) && t in w.book
    ensures Known(Remove(w, t))
  {
    PostKeepsKnown(w, BreakpointRemove(Transaction(w.counter), w.book[t].breakpointId));
    var u := w.(counter := w.counter + 1,
      commands := w.commands + [BreakpointRemove(Transaction(w.counter), w.book[t].breakpointId)]);
    var v := u.(book := w.book - {t});
    forall a | 0 <= a < |v.commands| ensures KnownCommand(v, v.commands[a]) {
      assert KnownCommand(u, u.commands[a]);
    }
    assert v == Remove(w, t);
  }

  lemma ExecuteKeepsKnown(w: Wire, id: string)
    requires Known(w) && w.commands != [] && (w.commands[0].BreakpointSet? ==> id != "")
    ensures Known(Execute(w, id))
  {
    var v := Execute(w, id);
    assert KnownCommand(w, w.commands[0]);
    forall a | 0 <= a < |v.commands| ensures KnownCommand(v, v.commands[a]) {
      assert KnownCommand(w, w.commands[a + 1]);
    }
  }

  lemma DeliverKeepsKnown(w: Wire)
    requires Known(w) && w.replies != []
    ensures Known(Deliver(w))
  {
    var v := Deliver(w);
    forall a | 0 <= a < |v.commands| ensures KnownCommand(v, v.commands[a]) {
      assert KnownCommand(w, w.commands[a]);
    }
  }

  // ---------------------------------------------------------------- the queues as tables

  lemma {:induction false} SetsLast(commands: seq<Command>, c: Command)
    requires c.BreakpointSet? ==> c.transactionId !in Sets(commands)
    ensures Sets(commands + [c])
      == if c.BreakpointSet? then Sets(commands)[c.transactionId := c.place] else Sets(commands)
    ensures SingleSets(commands) ==> SingleSets(commands + [c])
  {
    if commands != [] {
      assert (commands + [c])[1..] == commands[1..] + [c];
      SetsLast(commands[1..], c);
    }
  }

  lemma {:induction false} RemovesLast(commands: seq<Command>, c: Command)
    ensures Removes(commands + [c]) == Removes(commands) + if c.BreakpointRemove? then {c.breakpointId} else {}
  {
    if commands != [] {
      assert (commands + [c])[1..] == commands[1..] + [c];
      RemovesLast(commands[1..], c);
    }
  }

  lemma {:induction false} AnswersLast(replies: seq<Reply>, r: Reply)
    requires r.transactionId !in Answers(replies)
    ensures Answers(replies + [r]) == Answers(replies)[r.transactionId := r.breakpointId]
    ensures SingleAnswers(replies) ==> SingleAnswers(replies + [r])
  {
    if replies != [] {
      assert (replies + [r])[1..] == replies[1..] + [r];
      AnswersLast(replies[1..], r);
    }
  }

  // ---------------------------------------------------------------- each step keeps the tables together

  lemma OwnersStay(
      book: Book, given: map<string, string>, table: map<string, Place>, removes: set<string>,
      book': Book, given': map<string, string>, table': map<string, Place>, removes': set<string>)
    requires BookHasTable(book, given, table, removes)
    requires table'.Keys <= table.Keys && removes * table'.Keys <= removes'
    requires forall t :: t in given && t in book && given[t] in table' ==>
      (t in given' && t in book' && given'[t] == given[t]) || given[t] in removes'
    ensures BookHasTable(book', given', table', removes')
  {
    forall i | i in table' ensures Owned(book', given', i) || i in removes' {
      if Owned(book, given, i) {
        var t :| t in given && t in book && given[t] == i;
        assert (t in given' && t in book' && given'[t] == i) || i in removes';
      }
    }
  }

  lemma LinkAdd(l: Link, t: string, place: Place)
    requires Linked(l) && t !in l.book && t !in l.given
    ensures Linked(l.(book := l.book[t := Entry(place, "")], sets := l.sets[t := place]))
  {
    var book := l.book[t := Entry(place, "")];
    assert OneWayOrOther(book, l.sets[t := place], l.given);
    assert AnsweredOrOnTheWay(book, l.answers, l.given);
    OwnersStay(l.book, l.given, l.table, l.removes, book, l.given, l.table, l.removes);
  }

  /** Removing a breakpoint the engine has answered for. */
  lemma LinkRemove(l: Link, t: string)
    requires Linked(l) && t in l.book && IsAnswered(l, t)
    ensures Linked(l.(book := l.book - {t}, removes := l.removes + {l.book[t].breakpointId}))
  {
    var id := l.book[t].breakpointId;
    var book, removes := l.book - {t}, l.removes + {id};
    assert id == l.given[t];
    ShrinkOneWay(l.book, t, l.sets, l.given);
    ShrinkOnTheWay(l.book, t, l.answers, l.given);
    OthersKept(l.book, t, l.given, l.table, l.removes);
    OwnersStay(l.book, l.given, l.table, l.removes, book, l.given, l.table, removes);
  }

  lemma ShrinkOneWay(book: Book, t: string, sets: map<string, Place>, given: map<string, string>)
    requires OneWayOrOther(book, sets, given) && t in given
    ensures OneWayOrOther(book - {t}, sets, given)
  {
  }

  lemma ShrinkOnTheWay(book: Book, t: string, answers: map<string, string>, given: map<string, string>)
    requires AnsweredOrOnTheWay(book, answers, given) && t !in answers
    ensures AnsweredOrOnTheWay(book - {t}, answers, given)
  {
  }

  lemma OthersKept(book: Book, t: string, given: map<string, string>, table: map<string, Place>, removes: set<string>)
    requires TableHasBook(book, given, table, removes) && IdsDiffer(given) && t in given
    ensures TableHasBook(book - {t}, given, table, removes + {given[t]})
  {
  }

  lemma SetDiffers(given: map<string, string>, t: string, id: string)
    requires IdsDiffer(given) && t !in given && forall u :: u in given ==> given[u] != id
    ensures IdsDiffer(given[t := id])
  {
  }

  lemma SetTable(book: Book, given: map<string, string>, table: map<string, Place>, removes: set<string>, t: string, id: string)
    requires TableHasBook(book, given, table, removes) && t in book && id !in removes
    requires forall u :: u in given ==> given[u] != id
    ensures TableHasBook(book, given[t := id], table[id := book[t].place], removes)
  {
  }

  lemma SetOwned(book: Book, given: map<string, string>, table: map<string, Place>, removes: set<string>, t: string, id: string)
    requires BookHasTable(book, given, table, removes) && t in book && t !in given
    ensures BookHasTable(book, given[t := id], table[id := book[t].place], removes)
  {
    var given' := given[t := id];
    forall i | i in table[id := book[t].place] ensures Owned(book, given', i) || i in removes {
      if i == id {
        assert t in given' && t in book && given'[t] == i;
      } else if Owned(book, given, i) {
        var u :| u in given && u in book && given[u] == i;
        assert u in given' && given'[u] == i;
      }
    }
  }

  lemma LinkSet(l: Link, t: string, id: string)
    requires Linked(l) && t in l.sets && id !in l.removes
    requires forall u :: u in l.given ==> l.given[u] != id
    ensures Linked(
      Link(l.book, l.sets - {t}, l.removes, l.answers[t := id], l.table[id := l.sets[t]], l.given[t := id]))
  {
    SetDiffers(l.given, t, id);
    SetTable(l.book, l.given, l.table, l.removes, t, id);
    SetOwned(l.book, l.given, l.table, l.removes, t, id);
    assert OneWayOrOther(l.book, l.sets - {t}, l.given[t := id]);
    assert AnsweredOrOnTheWay(l.book, l.answers[t := id], l.given[t := id]);
  }

  lemma LinkDrop(l: Link, removes: set<string>, i: string)
    requires Linked(l) && i in l.removes && l.removes - {i} <= removes <= l.removes
    ensures Linked(l.(table := l.table - {i}, removes := removes))
  {
    OwnersStay(l.book, l.given, l.table, l.removes, l.book, l.given, l.table - {i}, removes);
  }

  lemma LinkDeliver(l: Link, t: string)
    requires Linked(l) && t in l.answers && t in l.book
    ensures Linked(l.(answers := l.answers - {t}, book := l.book[t := l.book[t].(breakpointId := l.answers[t])]))
  {
    var book := l.book[t := l.book[t].(breakpointId := l.answers[t])];
    assert OneWayOrOther(book, l.sets, l.given);
    assert AnsweredOrOnTheWay(book, l.answers - {t}, l.given);
    assert TableHasBook(book, l.given, l.table, l.removes);
    OwnersStay(l.book, l.given, l.table, l.removes, book, l.given, l.table, l.removes);
  }

  lemma PostIsKnown(w: Wire, verb: string)
    requires Known(w)
    ensures Known(Post(w, verb))
  {
    PostKeepsKnown(w, Other(Transaction(w.counter), verb));
  }

  lemma PostLink(w: Wire, verb: string)
    ensures LinkOf(Post(w, verb)) == LinkOf(w) && (Single(w) ==> Single(Post(w, verb)))
  {
    var c := Other(Transaction(w.counter), verb);
    SetsLast(w.commands, c);
    RemovesLast(w.commands, c);
  }

  lemma PostKeepsMatched(w: Wire, verb: string)
    requires Matched(w)
    ensures Matched(Post(w, verb))
  {
    PostIsKnown(w, verb);
    PostLink(w, verb);
  }

  lemma AddKeepsMatched(w: Wire, place: Place)
    requires Matched(w)
    ensures Matched(Add(w, place)) && Transaction(w.counter) !in w.book
  {
    var t := Transaction(w.counter);
    var c := BreakpointSet(t, place);
    AddKeepsKnown(w, place);
    Fresh(w.counter);
    SetsLast(w.commands, c);
    RemovesLast(w.commands, c);
    LinkAdd(LinkOf(w), t, place);
  }

  lemma RemoveKeepsMatched(w: Wire, t: string)
    requires Matched(w) && t in w.book && IsAnswered(LinkOf(w), t)
    ensures Matched(Remove(w, t))
  {
    RemoveKeepsKnown(w, t);
    RemoveLink(w, t);
    LinkRemove(LinkOf(w), t);
  }

  lemma RemoveLink(w: Wire, t: string)
    requires t in w.book
    ensures var l := LinkOf(w);
      LinkOf(Remove(w, t)) == l.(book := l.book - {t}, removes := l.removes + {l.book[t].breakpointId})
    ensures Single(w) ==> Single(Remove(w, t))
  {
    var c := BreakpointRemove(Transaction(w.counter), w.book[t].breakpointId);
    SetsLast(w.commands, c);
    RemovesLast(w.commands, c);
  }

  lemma {:induction false} RemovesKnown(w: Wire, commands: seq<Command>, id: string)
    requires forall a :: 0 <= a < |commands| ==> KnownCommand(w, commands[a])
    requires id !in w.used && id != ""
    ensures id !in Removes(commands)
  {
    if commands != [] {
      assert KnownCommand(w, commands[0]);
      forall a | 0 <= a < |commands[1..]| ensures KnownCommand(w, commands[1..][a]) {
        assert KnownCommand(w, commands[a + 1]);
      }
      RemovesKnown(w, commands[1..], id);
    }
  }

  lemma ExecuteSet(w: Wire, id: string)
    requires Matched(w) && MayGive(w, id) && w.commands[0].BreakpointSet?
    ensures var l, c := LinkOf(w), w.commands[0]; var t := c.transactionId;
      t in l.sets && LinkOf(Execute(w, id))
        == Link(l.book, l.sets - {t}, l.removes, l.answers[t := id], l.table[id := l.sets[t]], l.given[t := id])
    ensures Single(Execute(w, id)) && id !in Removes(w.commands)
  {
    AnswersLast(w.replies, Reply(w.commands[0].transactionId, id));
  }

  lemma ExecuteOther(w: Wire, id: string)
    requires Single(w) && w.commands != [] && !w.commands[0].BreakpointSet?
    ensures var l, c := LinkOf(w), w.commands[0];
      LinkOf(Execute(w, id)) == if c.Other? then l
        else l.(table := l.table - {c.breakpointId}, removes := Removes(w.commands[1..]))
    ensures Single(Execute(w, id))
  {
  }

  lemma ExecuteKeepsMatched(w: Wire, id: string)
    requires Matched(w) && MayGive(w, id)
    ensures Matched(Execute(w, id))
  {
    ExecuteKeepsKnown(w, id);
    var c := w.commands[0];
    if c.BreakpointSet? {
      ExecuteSet(w, id);
      LinkSet(LinkOf(w), c.transactionId, id);
    } else {
      ExecuteOther(w, id);
      if c.BreakpointRemove? {
        LinkDrop(LinkOf(w), Removes(w.commands[1..]), c.breakpointId);
      }
    }
  }

  lemma DeliverLink(w: Wire)
    requires Single(w) && w.replies != [] && w.replies[0].transactionId in w.book
    ensures var l, t := LinkOf(w), w.replies[0].transactionId;
      t in l.answers && l.answers[t] == w.replies[0].breakpointId && LinkOf(Deliver(w))
        == l.(answers := l.answers - {t}, book := l.book[t := l.book[t].(breakpointId := l.answers[t])])
    ensures Single(Deliver(w))
  {
    assert Answers(w.replies[1..]) == Answers(w.replies) - {w.replies[0].transactionId};
  }

  lemma DeliverKeepsMatched(w: Wire)
    requires Matched(w) && w.replies != []
    ensures Matched(Deliver(w))
  {
    DeliverKeepsKnown(w);
    ReplyAnswers(w);
    DeliverLink(w);
    LinkDeliver(LinkOf(w), w.replies[0].transactionId);
  }

  // ---------------------------------------------------------------- ids that are never given again

  lemma NewMayBeGiven(w: Wire, id: string)
    requires Known(w) && IsNew(w, id)
    ensures MayGive(w, id)
  {
    if w.commands[0].BreakpointSet? {
      RemovesKnown(w, w.commands, id);
    }
  }

  lemma AddKeepsApart(w: Wire, place: Place)
    requires Known(w) && Apart(w)
    ensures Apart(Add(w, place))
  {
    Fresh(w.counter);
  }

  lemma RemoveKeepsApart(w: Wire, t: string)
    requires Apart(w) && t in w.book
    ensures Apart(Remove(w, t))
  {
  }

  lemma ExecuteKeepsApart(w: Wire, id: string)
    requires Matched(w) && Apart(w) && IsNew(w, id)
    ensures Apart(Execute(w, id))
  {
    if w.commands[0].BreakpointSet? {
      var t := w.commands[0].transactionId;
      NewMayBeGiven(w, id);
      ExecuteSet(w, id);
      SetStale(w.book, Answers(w.replies), w.given, t, id);
    }
  }

  lemma SetStale(book: Book, answers: map<string, string>, given: map<string, string>, t: string, id: string)
    requires StaleIdsAreFree(book, answers, given) && t !in given
    requires forall u :: u in book ==> book[u].breakpointId != id
    ensures StaleIdsAreFree(book, answers[t := id], given[t := id])
  {
  }

  lemma DeliverKeepsApart(w: Wire)
    requires Matched(w) && Apart(w) && w.replies != []
    ensures Apart(Deliver(w))
  {
    ReplyAnswers(w);
    DeliverLink(w);
    var l, t := LinkOf(w), w.replies[0].transactionId;
    DeliverStale(l.book, l.answers, l.given, t, Deliver(w).book);
  }

  lemma DeliverStale(book: Book, answers: map<string, string>, given: map<string, string>, t: string, book': Book)
    requires StaleIdsAreFree(book, answers, given) && t in book && t in given
    requires t in book' && book' == book[t := book'[t]]
    ensures StaleIdsAreFree(book', answers - {t}, given)
  {
  }

  /** An answer is for a breakpoint in the book, and names the entry of the engine's table for it. */
  lemma ReplyAnswers(w: Wire)
    requires Matched(w) && w.replies != []
    ensures w.replies[0].transactionId in w.book && w.replies[0].breakpointId in w.table
    ensures w.table[w.replies[0].breakpointId] == w.book[w.replies[0].transactionId].place
  {
    var l := LinkOf(w);
    assert w.replies[0].transactionId in l.answers;
  }

  /** Once all messages are consumed, the two tables agree. */
  lemma SettledAgrees(w: Wire)
    requires Matched(w) && w.commands == [] && w.replies == []
    ensures forall t :: t in w.book ==>
      w.book[t].breakpointId in w.table && w.table[w.book[t].breakpointId] == w.book[t].place
    ensures forall t, u :: t in w.book && u in w.book && t != u ==> w.book[t].breakpointId != w.book[u].breakpointId
    ensures forall i :: i in w.table ==> exists t :: t in w.book && w.book[t].breakpointId == i
  {
    var l := LinkOf(w);
    forall i | i in w.table ensures exists t :: t in w.book && w.book[t].breakpointId == i {
      assert Owned(l.book, l.given, i);
      var t :| t in l.given && t in l.book && l.given[t] == i;
      assert w.book[t].breakpointId == i;
    }
  }

  // ---------------------------------------------------------------- a breakpoint nobody knows

  predicate HasSet(commands: seq<Command>, t: string) {
    exists a :: 0 <= a < |commands| && commands[a].BreakpointSet? && commands[a].transactionId == t
  }

  lemma HasSetLater(commands: seq<Command>, c: Command, t: string)
    requires HasSet(commands, t) || (c.BreakpointSet? && c.transactionId == t)
    ensures HasSet(commands + [c], t)
  {
    if HasSet(commands, t) {
      var a :| 0 <= a < |commands| && commands[a].BreakpointSet? && commands[a].transactionId == t;
      assert (commands + [c])[a] == commands[a];
    } else {
      assert (commands + [c])[|commands|] == c;
    }
  }

  lemma HasSetFirst(commands: seq<Command>, t: string)
    requires commands != []
    ensures HasSet(commands, t)
      <==> HasSet(commands[1..], t) || (commands[0].BreakpointSet? && commands[0].transactionId == t)
  {
    if HasSet(commands[1..], t) {
      var a :| 0 <= a < |commands[1..]| && commands[1..][a].BreakpointSet? && commands[1..][a].transactionId == t;
      assert commands[a + 1] == commands[1..][a];
    }
    if HasSet(commands, t) {
      var a :| 0 <= a < |commands| && commands[a].BreakpointSet? && commands[a].transactionId == t;
      assert a > 0 ==> commands[1..][a - 1] == commands[a];
    }
  }

  /**
    The engine has, or will have, a breakpoint that no entry of the book stands for and that nobody
    is going to remove.
   */
  ghost predicate Orphaned(w: Wire) {
    (exists t :: OrphanCommand(w, t)) || (exists i :: OrphanEntry(w, i))
  }

  predicate OrphanCommand(w: Wire, t: string) {
    t !in w.book && HasSet(w.commands, t)
  }

  predicate OrphanEntry(w: Wire, i: string) {
    && i in w.table && i in w.used && i !in Removes(w.commands)
    && (forall t :: t in w.book ==> w.book[t].breakpointId != i)
    && (forall b :: 0 <= b < |w.replies| && w.replies[b].breakpointId == i ==> w.replies[b].transactionId !in w.book)
  }

  lemma HasSetOld(w: Wire, t: string)
    requires Known(w) && HasSet(w.commands, t)
    ensures t != Transaction(w.counter)
  {
    var a :| 0 <= a < |w.commands| && w.commands[a].BreakpointSet? && w.commands[a].transactionId == t;
    assert KnownCommand(w, w.commands[a]);
    Fresh(w.counter);
  }

  lemma AddKeepsOrphan(w: Wire, place: Place)
    requires Known(w) && Orphaned(w)
    ensures Orphaned(Add(w, place))
  {
    var t := Transaction(w.counter);
    var c, v := BreakpointSet(t, place), Add(w, place);
    Fresh(w.counter);
    RemovesLast(w.commands, c);
    if u :| OrphanCommand(w, u) {
      HasSetOld(w, u);
      HasSetLater(w.commands, c, u);
      assert OrphanCommand(v, u);
    } else {
      var i :| OrphanEntry(w, i);
      assert OrphanEntry(v, i);
    }
  }

  lemma PostKeepsOrphan(w: Wire, verb: string)
    requires Known(w) && Orphaned(w)
    ensures Orphaned(Post(w, verb))
  {
    var c, v := Other(Transaction(w.counter), verb), Post(w, verb);
    RemovesLast(w.commands, c);
    if u :| OrphanCommand(w, u) {
      HasSetLater(w.commands, c, u);
      assert OrphanCommand(v, u);
    } else {
      var i :| OrphanEntry(w, i);
      assert OrphanEntry(v, i);
    }
  }

  lemma RemoveKeepsOrphan(w: Wire, t: string)
    requires Known(w) && Orphaned(w) && t in w.book
    ensures Orphaned(Remove(w, t))
  {
    var c, v := BreakpointRemove(Transaction(w.counter), w.book[t].breakpointId), Remove(w, t);
    RemovesLast(w.commands, c);
    if u :| OrphanCommand(w, u) {
      HasSetLater(w.commands, c, u);
      assert OrphanCommand(v, u);
    } else {
      var i :| OrphanEntry(w, i);
      assert OrphanEntry(v, i);
    }
  }

  lemma ExecuteKeepsOrphan(w: Wire, id: string)
    requires Known(w) && Orphaned(w) && IsNew(w, id)
    ensures Orphaned(Execute(w, id))
  {
    var v := Execute(w, id);
    var c := w.commands[0];
    if u :| OrphanCommand(w, u) {
      HasSetFirst(w.commands, u);
      if HasSet(w.commands[1..], u) {
        assert OrphanCommand(v, u);
      } else {
        RemovesKnown(w, w.commands, id);
        assert OrphanEntry(v, id);
      }
    } else {
      var i :| OrphanEntry(w, i);
      assert OrphanEntry(v, i);
    }
  }

  lemma DeliverKeepsOrphan(w: Wire)
    requires Known(w) && Orphaned(w) && w.replies != []
    ensures Orphaned(Deliver(w))
  {
    var v := Deliver(w);
    if u :| OrphanCommand(w, u) {
      assert OrphanCommand(v, u);
    } else {
      var i :| OrphanEntry(w, i);
      assert OrphanEntry(v, i);
    }
  }

  /** An orphan is still there when all messages are consumed. */
  lemma OrphanDisagrees(w: Wire)
    requires Orphaned(w) && w.commands == []
    ensures exists i :: i in w.table && forall t :: t in w.book ==> w.book[t].breakpointId != i
  {
    forall u ensures !OrphanCommand(w, u) {
    }
    var i :| OrphanEntry(w, i);
  }

  lemma {:induction false} InSets(commands: seq<Command>, t: string)
    ensures t in Sets(commands) <==> HasSet(commands, t)
  {
    if commands != [] {
      InSets(commands[1..], t);
      HasSetFirst(commands, t);
    }
  }

  lemma {:induction false} InAnswers(replies: seq<Reply>, b: nat)
    requires b < |replies| && SingleAnswers(replies)
    ensures replies[b].transactionId in Answers(replies)
    ensures Answers(replies)[replies[b].transactionId] == replies[b].breakpointId
  {
    if b > 0 {
      InAnswers(replies[1..], b - 1);
    }
  }

  /** Removing a breakpoint before the engine's answer has arrived leaves an orphan. */
  lemma RemoveTooEarly(w: Wire, t: string)
    requires Matched(w) && Apart(w) && t in w.book && !IsAnswered(LinkOf(w), t)
    ensures Orphaned(Remove(w, t))
  {
    var l, v := LinkOf(w), Remove(w, t);
    var c := BreakpointRemove(Transaction(w.counter), w.book[t].breakpointId);
    RemovesLast(w.commands, c);
    if t in l.sets {
      InSets(w.commands, t);
      HasSetLater(w.commands, c, t);
      assert OrphanCommand(v, t);
    } else {
      var i := w.given[t];
      forall b | 0 <= b < |v.replies| && v.replies[b].breakpointId == i ensures v.replies[b].transactionId !in v.book {
        InAnswers(w.replies, b);
      }
      OnlyHere(l, t);
      assert OrphanEntry(v, i);
    }
  }

  /** An id on its way to the book is not there yet, under any transaction. */
  lemma OnlyHere(l: Link, t: string)
    requires StaleIdsAreFree(l.book, l.answers, l.given) && Linked(l) && t in l.book && t in l.given && t in l.answers
    ensures forall u :: u in l.book ==> l.book[u].breakpointId != l.given[t]
  {
  }
}
