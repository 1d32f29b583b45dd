/**
  The results about the breakpoints of whole runs, over any number of sessions.
 */
module BreakpointTheorems {
  import opened DebuggerTypes
  import opened Breakpoints
  import opened BreakpointWire
  import opened BreakpointBook
  import opened BreakpointSessions
  import opened BreakpointAgreement
  import opened BreakpointJoin

  /** No id is given twice, in all sessions together. */
  predicate NeverRepeats(run: seq<System>, events: seq<Event>)
    requires |run| == |events| + 1
  {
    forall n :: 0 <= n < |events| ==> NewAt(run, events, n)
  }

  predicate NewAt(run: seq<System>, events: seq<Event>, n: int)
    requires 0 <= n < |events| < |run|
  {
    GivesNew(run[n], events[n])
  }

  /** The session of the n-th state was joined by the m-th event. */
  predicate JoinedFrom(run: seq<System>, events: seq<Event>, m: nat, n: nat)
    requires |run| == |events| + 1
  {
    m < n <= |events| && Joins(run[m], events[m]) && forall j :: m < j <= n ==> Joined(run[j])
  }

  predicate CarefulBetween(run: seq<System>, events: seq<Event>, m: nat, n: nat)
    requires |run| == |events| + 1 && n <= |events|
  {
    forall j :: m <= j < n ==> CarefulAt(run, events, j)
  }

  predicate CarefulAt(run: seq<System>, events: seq<Event>, n: int)
    requires 0 <= n < |events| < |run|
  {
    Careful(run[n], events[n])
  }

  // ---------------------------------------------------------------- settled states

  lemma MatchedAgrees(s: System)
    requires Base(s) && IsSettled(s) && Matched(Outer(s))
    ensures Agrees(s)
  {
    JoinedBasics(s);
    var bs, w := s.c.breakpoints, Outer(s);
    SettledAgrees(w);
    forall k | 0 <= k < |bs|
      ensures bs[k].breakpointId in s.table && IsSetAs(bs[k], s.table[bs[k].breakpointId], s.c.mappings)
      ensures bs[k].transactionId in w.book && w.book[bs[k].transactionId].breakpointId == bs[k].breakpointId
    {
      EntryAt(bs, s.c.mappings, k);
    }
    forall i | i in s.table ensures exists k :: 0 <= k < |bs| && bs[k].breakpointId == i {
      var t :| t in w.book && w.book[t].breakpointId == i;
      InBook(bs, s.c.mappings, t);
      var k :| 0 <= k < |bs| && bs[k].transactionId == t;
    }
  }

  lemma OrphanedDisagrees(s: System)
    requires Base(s) && IsSettled(s) && Orphaned(Outer(s))
    ensures !Agrees(s)
  {
    JoinedBasics(s);
    var bs, w := s.c.breakpoints, Outer(s);
    OrphanDisagrees(w);
    var i :| i in w.table && forall t :: t in w.book ==> w.book[t].breakpointId != i;
    forall k | 0 <= k < |bs| ensures bs[k].breakpointId != i {
      EntryAt(bs, s.c.mappings, k);
    }
  }

  // ---------------------------------------------------------------- one session

  lemma StepOf(run: seq<System>, events: seq<Event>, n: nat)
    requires IsRun(run, events) && n < |events|
    ensures Can(run[n], events[n]) && run[n + 1] == Do(run[n], events[n])
  {
    assert StepAt(run, events, n);
  }

  lemma {:induction false} RunKeepsHidden(run: seq<System>, events: seq<Event>, bs: seq<BreakpointWithHandle>, n: nat)
    requires IsRun(run, events) && IsStart(run[0], bs) && NeverRepeats(run, events) && n < |run|
    ensures AllHidden(run[n])
  {
    if n > 0 && !Joined(run[n]) {
      RunKeepsHidden(run, events, bs, n - 1);
      RunKeepsBase(run, events, bs, n - 1);
      StepOf(run, events, n - 1);
      assert NewAt(run, events, n - 1);
      StepKeepsHidden(run[n - 1], events[n - 1]);
    }
  }

  /** A session without a careless event keeps the tables together; one with such an event leaves an orphan. */
  ghost predicate Verdict(s: System, careful: bool) {
    if careful then Matched(Outer(s)) && Apart(Outer(s)) else Orphaned(Outer(s))
  }

  lemma JoinVerdict(s: System, e: Event)
    requires Base(s) && AllHidden(s) && Can(s, e) && Joins(s, e)
    ensures Verdict(Do(s, e), Careful(s, e))
  {
    if IsClean(s) {
      CleanJoinMatches(s, e);
    } else {
      UncleanJoinOrphans(s, e);
    }
  }

  lemma StepVerdict(s: System, e: Event, v: System, careful: bool)
    requires Base(s) && Joined(s) && Can(s, e) && v == Do(s, e) && Joined(v) && GivesNew(s, e) && Verdict(s, careful)
    ensures Verdict(v, careful && Careful(s, e))
  {
    if !careful {
      StepKeepsOrphan(s, e);
    } else if Careful(s, e) {
      CarefulStep(s, e);
      StepKeepsApart(s, e);
    } else {
      CarelessStepOrphans(s, e);
    }
  }

  lemma CarefulNext(run: seq<System>, events: seq<Event>, m: nat, n: nat)
    requires |run| == |events| + 1 && m < n <= |events|
    ensures CarefulBetween(run, events, m, n) <==> CarefulBetween(run, events, m, n - 1) && Careful(run[n - 1], events[n - 1])
  {
    assert CarefulAt(run, events, n - 1) <==> Careful(run[n - 1], events[n - 1]);
  }

  ghost predicate VerdictAt(run: seq<System>, events: seq<Event>, m: nat, n: nat)
    requires |run| == |events| + 1 && n <= |events|
  {
    Verdict(run[n], CarefulBetween(run, events, m, n))
  }

  lemma FirstVerdict(run: seq<System>, events: seq<Event>, bs: seq<BreakpointWithHandle>, m: nat)
    requires IsRun(run, events) && IsStart(run[0], bs) && NeverRepeats(run, events) && m < |events| && Joins(run[m], events[m])
    ensures VerdictAt(run, events, m, m + 1)
  {
    RunKeepsBase(run, events, bs, m);
    RunKeepsHidden(run, events, bs, m);
    StepOf(run, events, m);
    CarefulNext(run, events, m, m + 1);
    JoinVerdict(run[m], events[m]);
  }

  /** A step within a joined session. */
  ghost predicate StepWithin(run: seq<System>, events: seq<Event>, n: int)
    requires 0 <= n < |events| < |run|
  {
    StepAt(run, events, n) && NewAt(run, events, n) && Base(run[n]) && Joined(run[n]) && Joined(run[n + 1])
  }

  lemma NextVerdict(run: seq<System>, events: seq<Event>, m: nat, n: nat)
    requires |run| == |events| + 1 && m + 1 < n <= |events| && StepWithin(run, events, n - 1)
    requires VerdictAt(run, events, m, n - 1)
    ensures VerdictAt(run, events, m, n)
  {
    CarefulNext(run, events, m, n);
    var s, v := run[n - 1], run[n];
    assert Base(s) && Joined(s) && Joined(v) && v == Do(s, events[n - 1]);
    StepVerdict(s, events[n - 1], v, CarefulBetween(run, events, m, n - 1));
  }

  /** The session of the n-th state in a run, joined by the m-th event; no id is given twice. */
  ghost predicate InSession(run: seq<System>, events: seq<Event>, bs: seq<BreakpointWithHandle>, m: nat, n: nat) {
    IsRun(run, events) && IsStart(run[0], bs) && NeverRepeats(run, events) && JoinedFrom(run, events, m, n)
  }

  lemma InSessionBefore(run: seq<System>, events: seq<Event>, bs: seq<BreakpointWithHandle>, m: nat, n: nat)
    requires InSession(run, events, bs, m, n) && m + 1 < n
    ensures InSession(run, events, bs, m, n - 1)
  {
  }

  lemma VerdictFirst(run: seq<System>, events: seq<Event>, bs: seq<BreakpointWithHandle>, m: nat, n: nat)
    requires InSession(run, events, bs, m, n) && n == m + 1
    ensures VerdictAt(run, events, m, n)
  {
    FirstVerdict(run, events, bs, m);
  }

  lemma VerdictNext(run: seq<System>, events: seq<Event>, bs: seq<BreakpointWithHandle>, m: nat, n: nat)
    requires InSession(run, events, bs, m, n) && m + 1 < n && VerdictAt(run, events, m, n - 1)
    ensures VerdictAt(run, events, m, n)
  {
    RunKeepsBase(run, events, bs, n - 1);
    assert StepAt(run, events, n - 1) && NewAt(run, events, n - 1);
    NextVerdict(run, events, m, n);
  }

  lemma {:induction false} SessionVerdict(run: seq<System>, events: seq<Event>, bs: seq<BreakpointWithHandle>, m: nat, n: nat)
    requires InSession(run, events, bs, m, n)
    ensures VerdictAt(run, events, m, n)
    decreases n
  {
    if n == m + 1 {
      VerdictFirst(run, events, bs, m, n);
    } else {
      InSessionBefore(run, events, bs, m, n);
      SessionVerdict(run, events, bs, m, n - 1);
      VerdictNext(run, events, bs, m, n);
    }
  }

  /** Every joined session was joined at some event. */
  lemma {:induction false} SessionIsJoined(run: seq<System>, events: seq<Event>, bs: seq<BreakpointWithHandle>, n: nat) returns (m: nat)
    requires IsRun(run, events) && IsStart(run[0], bs) && n < |run| && Joined(run[n])
    ensures JoinedFrom(run, events, m, n)
  {
    assert n > 0;
    RunKeepsBase(run, events, bs, n - 1);
    StepOf(run, events, n - 1);
    if Joined(run[n - 1]) {
      m := SessionIsJoined(run, events, bs, n - 1);
    } else {
      OnlyJoinsJoins(run[n - 1], events[n - 1]);
      m := n - 1;
    }
  }

  // ---------------------------------------------------------------- main results

  /**
    In every run, whenever all messages of a session are consumed: each breakpoint of the list is in
    the engine's table under its id and nothing else is, if and only if, when the main thread joined
    the session, nothing was set and nothing under way would set a breakpoint, and since then each
    breakpoint was removed only after the engine had answered for it.
   */
  lemma TablesAgree(run: seq<System>, events: seq<Event>, bs: seq<BreakpointWithHandle>, n: nat) returns (m: nat)
    requires IsRun(run, events) && IsStart(run[0], bs) && NeverRepeats(run, events)
    requires n < |run| && IsSettled(run[n])
    ensures JoinedFrom(run, events, m, n) && (Agrees(run[n]) <==> CarefulBetween(run, events, m, n))
  {
    m := SessionIsJoined(run, events, bs, n);
    SettledVerdict(run, events, bs, m, n);
  }

  lemma SettledVerdict(run: seq<System>, events: seq<Event>, bs: seq<BreakpointWithHandle>, m: nat, n: nat)
    requires IsRun(run, events) && IsStart(run[0], bs) && NeverRepeats(run, events)
    requires JoinedFrom(run, events, m, n) && IsSettled(run[n])
    ensures Agrees(run[n]) <==> CarefulBetween(run, events, m, n)
  {
    RunKeepsBase(run, events, bs, n);
    SessionVerdict(run, events, bs, m, n);
    if CarefulBetween(run, events, m, n) {
      MatchedAgrees(run[n]);
    } else {
      OrphanedDisagrees(run[n]);
    }
  }

  /** No two breakpoints are ever at the same place or have the same transaction id. */
  lemma NoTwoAtOnePlace(run: seq<System>, events: seq<Event>, bs: seq<BreakpointWithHandle>, n: nat)
    requires IsRun(run, events) && IsStart(run[0], bs) && n < |run|
    ensures NoDuplicates(run[n].c.breakpoints) && (Joined(run[n]) ==> SingleIds(run[n].c.breakpoints))
  {
    RunKeepsBase(run, events, bs, n);
    if Joined(run[n]) {
      JoinedBasics(run[n]);
    }
  }

  // ---------------------------------------------------------------- ids that come again in another session

  /** Nothing that is under way removes a breakpoint but those this session has set. */
  ghost predicate RemovesGiven(w: Wire) {
    forall i :: i in Removes(w.commands) ==> i == "" || i in w.given.Values
  }

  lemma GivenIsMayGive(s: System, id: string)
    requires Joined(s) && RemovesGiven(Outer(s)) && Can(s, EngineStep(id))
    ensures MayGive(Outer(s), id)
  {
    EngineOnWire(s, id);
  }

  lemma UserStepRemovesGiven(s: System, e: Event)
    requires Base(s) && Joined(s) && Matched(Outer(s)) && RemovesGiven(Outer(s)) && Can(s, e) && Careful(s, e)
    requires e.AddAt? || e.RemoveAt? || e.Request? || e.OnCmd?
    ensures RemovesGiven(Outer(Do(s, e)))
  {
    JoinedBasics(s);
    match e {
      case AddAt(file, handle, line) =>
        if !HasBreakpointAt(s.c.breakpoints, file, line) {
          var place := PlaceOf(NewBreakpoint(file, handle, line), s.c.mappings);
          AddOnWire(s, file, handle, line);
          RemovesLast(Line(s), BreakpointSet(Transaction(s.c.counter), place));
        }
      case RemoveAt(file, line) => RemovalRemovesGiven(s, file, line);
      case Request(verb) =>
        RequestOnWire(s, verb);
        RemovesLast(Line(s), Other(Transaction(s.c.counter), verb));
      case OnCmd => OnCmdOnWire(s);
    }
  }

  lemma RemovalRemovesGiven(s: System, file: string, line: int)
    requires s.c.isSessionActive && SingleIds(s.c.breakpoints) && Matched(Outer(s)) && RemovesGiven(Outer(s)) && Joined(s)
    requires Careful(s, RemoveAt(file, line))
    ensures RemovesGiven(Outer(Do(s, RemoveAt(file, line))))
  {
    var k := IndexAt(s.c.breakpoints, file, line);
    IndexAtFinds(s.c.breakpoints, file, line);
    if k < |s.c.breakpoints| {
      var w, t := Outer(s), s.c.breakpoints[k].transactionId;
      RemoveOnWire(s, file, line);
      RemovesLast(w.commands, BreakpointRemove(Transaction(w.counter), w.book[t].breakpointId));
      assert w.book[t].breakpointId == w.given[t];
    } else {
      assert Do(s, RemoveAt(file, line)) == s;
    }
  }

  lemma EngineRemovesGiven(w: Wire, id: string)
    requires Matched(w) && MayGive(w, id) && RemovesGiven(w)
    ensures RemovesGiven(Execute(w, id))
  {
    var v := Execute(w, id);
    assert Removes(v.commands) <= Removes(w.commands);
    if w.commands[0].BreakpointSet? {
      ExecuteSet(w, id);
      var t := w.commands[0].transactionId;
      forall i | i in w.given.Values ensures i in v.given.Values {
        var u :| u in w.given && w.given[u] == i;
        assert u in v.given && v.given[u] == i;
      }
    }
  }

  lemma CarefulStepWithoutNew(s: System, e: Event)
    requires Base(s) && Joined(s) && Matched(Outer(s)) && RemovesGiven(Outer(s))
    requires Can(s, e) && Joined(Do(s, e)) && Careful(s, e)
    ensures Matched(Outer(Do(s, e))) && RemovesGiven(Outer(Do(s, e)))
  {
    StaysJoined(s, e);
    if e.EngineStep? {
      GivenIsMayGive(s, e.id);
      MessageStep(s, e);
      EngineOnWire(s, e.id);
      EngineRemovesGiven(Outer(s), e.id);
    } else if e.Notified? {
      JoinedBasics(s);
      MessageStep(s, e);
      DeliverOnWire(s, e.doBreakOnStart);
    } else {
      CarefulUserStep(s, e);
      UserStepRemovesGiven(s, e);
    }
  }

  lemma CleanJoinRemovesGiven(s: System, e: Event)
    requires Base(s) && Can(s, e) && Joins(s, e) && IsClean(s) && Removes(Line(s)) <= {""}
    ensures RemovesGiven(Outer(Do(s, e)))
  {
    HandledRemoves(s, e.doBreakOnStart);
  }

  lemma FirstMatches(run: seq<System>, events: seq<Event>, bs: seq<BreakpointWithHandle>, m: nat)
    requires IsRun(run, events) && IsStart(run[0], bs) && m < |events| && Joins(run[m], events[m])
    requires Careful(run[m], events[m]) && Removes(Line(run[m])) <= {""}
    ensures Matched(Outer(run[m + 1])) && RemovesGiven(Outer(run[m + 1]))
  {
    RunKeepsBase(run, events, bs, m);
    StepOf(run, events, m);
    CleanJoinMatches(run[m], events[m]);
    CleanJoinRemovesGiven(run[m], events[m]);
  }

  ghost predicate StaysMatched(s: System) {
    Base(s) && Joined(s) && Matched(Outer(s)) && RemovesGiven(Outer(s))
  }

  lemma NextMatches(s: System, e: Event, v: System)
    requires StaysMatched(s) && Can(s, e) && v == Do(s, e) && Joined(v) && Careful(s, e)
    ensures StaysMatched(v)
  {
    StepKeepsBase(s, e);
    CarefulStepWithoutNew(s, e);
  }

  lemma MatchesNext(run: seq<System>, events: seq<Event>, bs: seq<BreakpointWithHandle>, n: nat)
    requires IsRun(run, events) && IsStart(run[0], bs) && 0 < n <= |events|
    requires Joined(run[n - 1]) && Joined(run[n]) && CarefulAt(run, events, n - 1)
    requires Matched(Outer(run[n - 1])) && RemovesGiven(Outer(run[n - 1]))
    ensures Matched(Outer(run[n])) && RemovesGiven(Outer(run[n]))
  {
    RunKeepsBase(run, events, bs, n - 1);
    StepOf(run, events, n - 1);
    NextMatches(run[n - 1], events[n - 1], run[n]);
  }

  lemma {:induction false} SessionMatches(run: seq<System>, events: seq<Event>, bs: seq<BreakpointWithHandle>, m: nat, n: nat)
    requires IsRun(run, events) && IsStart(run[0], bs) && JoinedFrom(run, events, m, n)
    requires CarefulBetween(run, events, m, n) && Removes(Line(run[m])) <= {""}
    ensures Matched(Outer(run[n])) && RemovesGiven(Outer(run[n]))
    decreases n
  {
    assert CarefulAt(run, events, n - 1);
    if n == m + 1 {
      FirstMatches(run, events, bs, m);
    } else {
      SessionMatches(run, events, bs, m, n - 1);
      MatchesNext(run, events, bs, n);
    }
  }

  /**
    An engine may give an id again in another session, as long as it repeats none within a session:
    when nothing left over removes a breakpoint, a careful session still keeps the tables together.
   */
  lemma TablesAgreeWithRepeatedIds(run: seq<System>, events: seq<Event>, bs: seq<BreakpointWithHandle>, m: nat, n: nat)
    requires IsRun(run, events) && IsStart(run[0], bs) && JoinedFrom(run, events, m, n) && IsSettled(run[n])
    requires CarefulBetween(run, events, m, n) && Removes(Line(run[m])) <= {""}
    ensures Agrees(run[n])
  {
    RunKeepsBase(run, events, bs, n);
    SessionMatches(run, events, bs, m, n);
    MatchedAgrees(run[n]);
  }

  // ---------------------------------------------------------------- answers

  /** Some breakpoint of the list has the transaction id. */
  predicate IsListed(bs: seq<BreakpointWithHandle>, t: string) {
    exists k :: 0 <= k < |bs| && bs[k].transactionId == t
  }

  /** Just the breakpoint with the reply's transaction id has its breakpoint id now. */
  predicate UpdatesOne(before: seq<BreakpointWithHandle>, after: seq<BreakpointWithHandle>, r: Reply) {
    exists k ::
      0 <= k < |before| && before[k].transactionId == r.transactionId && after == before[k := before[k].(breakpointId := r.breakpointId)]
  }

  lemma OneAtMost(bs: seq<BreakpointWithHandle>, counter: nat, t: string, i: string, k: nat)
    requires Numbered(bs, counter) && t != "" && k < |bs| && bs[k].transactionId == t
    ensures WithIds(bs, t, i) == bs[k := bs[k].(breakpointId := i)]
  {
  }

  lemma NoneListed(bs: seq<BreakpointWithHandle>, t: string, i: string)
    requires !IsListed(bs, t)
    ensures WithIds(bs, t, i) == bs
  {
  }

  lemma OldIsNotEmpty(t: string, counter: nat)
    requires IsOld(t, counter)
    ensures t != ""
  {
  }

  /** In every state of every run an answer changes the one breakpoint with its transaction id, or none if there is none. */
  lemma AnswerUpdatesAtMostOne(run: seq<System>, events: seq<Event>, bs: seq<BreakpointWithHandle>, n: nat)
    requires IsRun(run, events) && IsStart(run[0], bs) && n < |events|
    requires events[n].Notified? && run[n].notices != [] && run[n].notices[0].Answer?
    ensures var r, before, after := run[n].notices[0].reply, run[n].c.breakpoints, run[n + 1].c.breakpoints;
      if IsListed(before, r.transactionId) then UpdatesOne(before, after, r) else after == before
  {
    StepOf(run, events, n);
    RunKeepsBase(run, events, bs, n);
    var r, before := run[n].notices[0].reply, run[n].c.breakpoints;
    assert run[n + 1].c.breakpoints == WithIds(before, r.transactionId, r.breakpointId);
    if IsListed(before, r.transactionId) {
      var k :| 0 <= k < |before| && before[k].transactionId == r.transactionId;
      OldIsNotEmpty(r.transactionId, run[n].c.counter);
      OneAtMost(before, run[n].c.counter, r.transactionId, r.breakpointId, k);
    } else {
      NoneListed(before, r.transactionId, r.breakpointId);
    }
  }

  /** In a careful session every answer finds its breakpoint, and the engine's table has it under the answer's id. */
  lemma AnswerFindsItsBreakpoint(run: seq<System>, events: seq<Event>, bs: seq<BreakpointWithHandle>, m: nat, n: nat)
    returns (k: nat)
    requires IsRun(run, events) && IsStart(run[0], bs) && NeverRepeats(run, events)
    requires JoinedFrom(run, events, m, n) && CarefulBetween(run, events, m, n) && run[n].notices != []
    ensures var s, r := run[n], run[n].notices[0].reply;
      && k < |s.c.breakpoints| && s.c.breakpoints[k].transactionId == r.transactionId
      && r.breakpointId in s.table && IsSetAs(s.c.breakpoints[k], s.table[r.breakpointId], s.c.mappings)
  {
    RunKeepsBase(run, events, bs, n);
    SessionVerdict(run, events, bs, m, n);
    k := MatchedAnswerFinds(run[n]);
  }

  lemma MatchedAnswerFinds(s: System) returns (k: nat)
    requires Base(s) && Joined(s) && Matched(Outer(s)) && s.notices != []
    ensures k < |s.c.breakpoints| && s.c.breakpoints[k].transactionId == s.notices[0].reply.transactionId
    ensures s.notices[0].reply.breakpointId in s.table
    ensures IsSetAs(s.c.breakpoints[k], s.table[s.notices[0].reply.breakpointId], s.c.mappings)
  {
    JoinedBasics(s);
    var r := s.notices[0].reply;
    assert Outer(s).replies[0] == r;
    ReplyAnswers(Outer(s));
    InBook(s.c.breakpoints, s.c.mappings, r.transactionId);
    k :| 0 <= k < |s.c.breakpoints| && s.c.breakpoints[k].transactionId == r.transactionId;
    EntryAt(s.c.breakpoints, s.c.mappings, k);
  }

  ghost predicate Newer(t: string, counter: nat) {
    exists j: nat :: counter <= j && t == Transaction(j)
  }

  ghost predicate AllNewer(c: Client, counter: nat) {
    counter <= c.counter && forall k :: 0 <= k < |c.breakpoints| ==> Newer(c.breakpoints[k].transactionId, counter)
  }

  lemma JoinedIsNewer(s: System, e: Event)
    requires Can(s, e) && Joins(s, e)
    ensures AllNewer(Do(s, e).c, s.c.counter)
  {
    var v := Do(s, e);
    forall k | 0 <= k < |v.c.breakpoints| ensures Newer(v.c.breakpoints[k].transactionId, s.c.counter) {
      assert v.c.breakpoints[k].transactionId == Transaction(s.c.counter + k);
    }
  }

  lemma StepStaysNewer(s: System, e: Event, counter: nat)
    requires Joined(s) && Can(s, e) && Joined(Do(s, e)) && s.c.isSessionActive && AllNewer(s.c, counter)
    ensures AllNewer(Do(s, e).c, counter)
  {
    StaysJoined(s, e);
    if e.AddAt? {
      assert Newer(Transaction(s.c.counter), counter);
    } else if e.RemoveAt? && IndexAt(s.c.breakpoints, e.file, e.line) < |s.c.breakpoints| {
      RemovedAt(s.c, e.file, e.line, IndexAt(s.c.breakpoints, e.file, e.line));
    }
  }

  lemma NextIsNewer(run: seq<System>, events: seq<Event>, counter: nat, n: nat)
    requires IsRun(run, events) && 0 < n <= |events| && Joined(run[n - 1]) && Joined(run[n]) && Active(run[n - 1])
    requires AllNewer(run[n - 1].c, counter)
    ensures AllNewer(run[n].c, counter)
  {
    StepOf(run, events, n - 1);
    StepStaysNewer(run[n - 1], events[n - 1], counter);
  }

  lemma FirstIsNewer(run: seq<System>, events: seq<Event>, m: nat)
    requires IsRun(run, events) && m < |events| && Joins(run[m], events[m])
    ensures AllNewer(run[m + 1].c, run[m].c.counter)
  {
    StepOf(run, events, m);
    JoinedIsNewer(run[m], events[m]);
  }

  lemma {:induction false} SessionIsNewer(run: seq<System>, events: seq<Event>, bs: seq<BreakpointWithHandle>, m: nat, n: nat)
    requires IsRun(run, events) && IsStart(run[0], bs) && JoinedFrom(run, events, m, n)
    ensures AllNewer(run[n].c, run[m].c.counter)
    decreases n
  {
    if n == m + 1 {
      FirstIsNewer(run, events, m);
    } else {
      SessionIsNewer(run, events, bs, m, n - 1);
      RunKeepsBase(run, events, bs, n - 1);
      NextIsNewer(run, events, run[m].c.counter, n);
    }
  }

  /** The answer to a command posted before the session was joined matches no breakpoint. */
  lemma OldAnswerMatchesNothing(run: seq<System>, events: seq<Event>, bs: seq<BreakpointWithHandle>, m: nat, n: nat)
    requires IsRun(run, events) && IsStart(run[0], bs) && JoinedFrom(run, events, m, n) && run[n].notices != []
    requires IsOld(run[n].notices[0].reply.transactionId, run[m].c.counter)
    ensures !IsListed(run[n].c.breakpoints, run[n].notices[0].reply.transactionId)
  {
    var t := run[n].notices[0].reply.transactionId;
    SessionIsNewer(run, events, bs, m, n);
    var i: nat :| i < run[m].c.counter && t == Transaction(i);
    forall k | 0 <= k < |run[n].c.breakpoints| ensures run[n].c.breakpoints[k].transactionId != t {
      assert Newer(run[n].c.breakpoints[k].transactionId, run[m].c.counter);
      var j: nat :| run[m].c.counter <= j && run[n].c.breakpoints[k].transactionId == Transaction(j);
      TransactionInjective(i, j);
    }
  }

  // ---------------------------------------------------------------- what the main thread takes for a session

  /** The starts and stops of sessions that the background thread has told of, in order; true for a start. */
  function Told(events: seq<Event>, n: nat): seq<bool>
    requires n <= |events|
  {
    if n == 0 then []
    else if events[n - 1].Connect? then Told(events, n - 1) + [true]
    else if events[n - 1].ScriptStops? then Told(events, n - 1) + [false]
    else Told(events, n - 1)
  }

  function ToldBy(ns: seq<Notice>): seq<bool> {
    if ns == [] then []
    else (if ns[0].Inited? then [true] else if ns[0].Stopped? then [false] else []) + ToldBy(ns[1..])
  }

  lemma {:induction false} ToldLast(ns: seq<Notice>, notice: Notice)
    ensures ToldBy(ns + [notice])
      == ToldBy(ns) + if notice.Inited? then [true] else if notice.Stopped? then [false] else []
  {
    if ns != [] {
      assert (ns + [notice])[1..] == ns[1..] + [notice];
      ToldLast(ns[1..], notice);
    }
  }

  /** The main thread has handled the first k of what it was told, and goes by the last of them. */
  predicate KnowsSession(s: System, told: seq<bool>, k: nat) {
    && k <= |told| && ToldBy(s.notices) == told[k..]
    && s.c.isSessionActive == (k > 0 && told[k - 1])
  }

  lemma PostsTold(s: System, notice: Notice, v: System, told: seq<bool>, k: nat)
    requires KnowsSession(s, told, k) && v.notices == s.notices + [notice] && v.c.isSessionActive == s.c.isSessionActive
    ensures KnowsSession(v, told + if notice.Inited? then [true] else if notice.Stopped? then [false] else [], k)
  {
    ToldLast(s.notices, notice);
  }

  lemma HandlesTold(s: System, doBreakOnStart: bool, v: System, told: seq<bool>, k: nat) returns (k': nat)
    requires s.notices != [] && v == Handled(s, doBreakOnStart) && KnowsSession(s, told, k)
    ensures KnowsSession(v, told, k')
  {
    k' := k;
    if !s.notices[0].Answer? {
      k' := k + 1;
      assert told[k..][1..] == told[k'..] && told[k] == told[k..][0];
    }
  }

  lemma QuietStep(s: System, e: Event)
    requires Can(s, e) && !e.Connect? && !e.ScriptStops? && !e.Notified? && !e.EngineStep?
    ensures var v := Do(s, e); v.notices == s.notices && v.c.isSessionActive == s.c.isSessionActive
  {
  }

  function ToldNow(e: Event): seq<bool> {
    if e.Connect? then [true] else if e.ScriptStops? then [false] else []
  }

  lemma NothingTold(told: seq<bool>)
    ensures told + [] == told
  {
  }

  lemma StepKnowsSession(s: System, e: Event, v: System, told: seq<bool>, k: nat) returns (k': nat)
    requires Can(s, e) && v == Do(s, e) && KnowsSession(s, told, k)
    ensures KnowsSession(v, told + ToldNow(e), k')
  {
    k' := k;
    NothingTold(told);
    match e {
      case Connect => PostsTold(s, Inited, v, told, k);
      case ScriptStops => PostsTold(s, Stopped, v, told, k);
      case EngineStep(id) =>
        if s.added[0].BreakpointSet? {
          PostsTold(s, Answer(Reply(s.added[0].transactionId, id)), v, told, k);
        }
      case Notified(doBreakOnStart) => k' := HandlesTold(s, doBreakOnStart, v, told, k);
      case _ => QuietStep(s, e);
    }
  }

  /**
    In every run the main thread takes a session to be active exactly when the last start or stop it has
    handled was a start. Each connection and each stopping script tells it so once, in order; a
    connection that breaks tells it nothing.
   */
  lemma {:induction false} SessionIsKnown(run: seq<System>, events: seq<Event>, bs: seq<BreakpointWithHandle>, n: nat)
    returns (k: nat)
    requires IsRun(run, events) && IsStart(run[0], bs) && n < |run|
    ensures k <= |Told(events, n)| && ToldBy(run[n].notices) == Told(events, n)[k..]
    ensures run[n].c.isSessionActive == (k > 0 && Told(events, n)[k - 1])
  {
    if n == 0 {
      k := 0;
    } else {
      k := SessionIsKnown(run, events, bs, n - 1);
      StepOf(run, events, n - 1);
      k := StepKnowsSession(run[n - 1], events[n - 1], run[n], Told(events, n - 1), k);
      NothingTold(Told(events, n - 1));
    }
  }
}
