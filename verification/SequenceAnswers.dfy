/**
  What each handler of a sequence does, said of the steps' answers alone: which steps are asked, which
  of them runs, which are deleted and by whom, and what is posted.
 */
module SequenceAnswers {
  import opened Sequence
  import opened SequenceLaws
  import opened SequencePool

  /** The list q goes on with the numbers from a up to b. */
  predicate GoesOn(before: seq<int>, q: seq<int>, a: int, b: int) {
    && a <= b && |q| == |before| + (b - a) && q[..|before|] == before
    && forall k :: |before| <= k < |q| ==> q[k] == a + (k - |before|)
  }

  /**
    From step `first` on: every step asked said no, but for the last one if there is one; that one is
    the front now and runs, in the pool if it is asynchronous.
   */
  ghost predicate AskedFrom(v: View, w: View, first: int, declined: set<Ptr>) {
    && 0 <= first <= FrontSerial(w) <= |w.added|
    && (forall n :: first <= n < FrontSerial(w) ==> w.added[n].ptr in declined)
    && (w.steps != [] ==> w.steps[0].ptr !in declined)
    && w.isRunning == (w.steps != [])
    && GoesOn(v.inits, w.inits, first, if w.steps != [] then FrontSerial(w) + 1 else FrontSerial(w))
    && w.queued == v.queued + if w.steps != [] && w.steps[0].isAsync then [FrontSerial(w)] else []
  }

  /** Build while nothing runs. */
  ghost predicate Builds(v: View, actions: seq<SeqStep>, declined: set<Ptr>, w: View) {
    && w.added == v.added + actions
    && AskedFrom(v, w, |v.added|, declined)
    && GoesOn(v.freed, w.freed, |v.added|, FrontSerial(w))
    && w.posted == v.posted + [Start] + if actions != [] && w.steps == [] then [Complete] else []
  }

  /** A completion event: the front step, if there is one, is over, and freed by the pool if it was asynchronous. */
  ghost predicate Completes(v: View, declined: set<Ptr>, w: View) {
    var first := FrontSerial(v) + if v.steps != [] then 1 else 0;
    var freed := if v.steps != [] && !v.steps[0].isAsync then v.freed + [first - 1] else v.freed;
    && w.added == v.added
    && AskedFrom(v, w, first, declined)
    && GoesOn(freed, w.freed, first, FrontSerial(w))
    && w.posted == v.posted + if w.steps == [] then [Complete] else []
  }

  /** Stop: nothing is asked, and everything is freed but a front step that is the pool's. */
  ghost predicate Stops(v: View, w: View) {
    && w.added == v.added && w.steps == [] && !w.isRunning
    && w.inits == v.inits && w.queued == v.queued
    && GoesOn(v.freed, w.freed, FrontSerial(v) + if v.steps != [] && v.steps[0].isAsync then 1 else 0, |v.added|)
    && w.posted == v.posted + [Complete]
  }

  ghost predicate Does(v: View, h: Handler, w: View) {
    match h
    case Build(actions, declined) => if v.isRunning then w == v else Builds(v, actions, declined, w)
    case ActionComplete(declined) => Completes(v, declined, w)
    case StopIt => Stops(v, w)
  }

  // ---------------------------------------------------------------- why

  lemma {:induction false} RangeGoesOn(before: seq<nat>, a: nat, b: nat)
    requires a <= b
    ensures GoesOn(before, before + Range(a, b), a, b)
    decreases b - a
  {
    if a < b {
      RangeGoesOn(before, a, b - 1);
      assert before + Range(a, b) == (before + Range(a, b - 1)) + [b - 1];
    }
  }

  lemma OneMore(before: seq<int>, q: seq<int>, a: int, b: nat)
    requires GoesOn(before, q, a, b)
    ensures GoesOn(before, q + [b], a, b + 1)
  {
  }

  lemma {:induction false} AllDecline(steps: seq<SeqStep>, declined: set<Ptr>, n: nat)
    requires n < FirstAccepted(steps, declined)
    ensures steps[n].ptr in declined
  {
    FirstAcceptedAt(steps, declined, n);
  }

  lemma SkippedAnswers(v: View, declined: set<Ptr>, n: nat)
    requires Ready(v) && n <= FirstAccepted(v.steps, declined)
    ensures var w := Skipped(v, n);
      && (forall i :: FrontSerial(v) <= i < FrontSerial(w) ==> w.added[i].ptr in declined)
      && GoesOn(v.inits, w.inits, FrontSerial(v), FrontSerial(w))
      && GoesOn(v.freed, w.freed, FrontSerial(v), FrontSerial(w))
  {
    var w, front := Skipped(v, n), FrontSerial(v);
    RangeGoesOn(v.inits, front, front + n);
    RangeGoesOn(v.freed, front, front + n);
    forall i | front <= i < FrontSerial(w) ensures w.added[i].ptr in declined {
      AllDecline(v.steps, declined, i - front);
      assert v.steps[i - front] == v.added[i];
    }
  }

  lemma AcceptedAnswers(v: View, u: View, declined: set<Ptr>)
    requires u.added == v.added && u.steps != [] && u.steps[0].ptr !in declined && u.queued == v.queued
    requires 0 <= FrontSerial(v) <= FrontSerial(u)
    requires forall i :: FrontSerial(v) <= i < FrontSerial(u) ==> u.added[i].ptr in declined
    requires GoesOn(v.inits, u.inits, FrontSerial(v), FrontSerial(u))
    ensures AskedFrom(v, Accepted(u), FrontSerial(v), declined)
  {
    OneMore(v.inits, u.inits, FrontSerial(v), FrontSerial(u));
  }

  lemma AdvancedAnswers(v: View, declined: set<Ptr>)
    requires Ready(v) && v.steps != []
    ensures var w := Advanced(v, declined);
      && w.added == v.added
      && AskedFrom(v, w, FrontSerial(v), declined)
      && GoesOn(v.freed, w.freed, FrontSerial(v), FrontSerial(w))
      && w.posted == v.posted + if w.steps == [] then [Complete] else []
  {
    var k := FirstAccepted(v.steps, declined);
    SkippedAnswers(v, declined, k);
    if k < |v.steps| {
      FirstAcceptedAt(v.steps, declined, k);
      AcceptedAnswers(v, Skipped(v, k), declined);
    }
  }

  lemma WithStepsReady(v: View, actions: seq<SeqStep>)
    requires SeqInv(v) && !v.isRunning
    ensures var w := WithSteps(v, actions); Ready(w) && w.steps == actions && FrontSerial(w) == |v.added|
  {
    var w := WithSteps(v, actions);
    assert w.steps == actions && FrontSerial(w) == |v.added| && w.steps == w.added[FrontSerial(w)..];
  }

  lemma NothingAsked(v: View, w: View, declined: set<Ptr>)
    requires w.steps == [] && !w.isRunning && w.inits == v.inits && w.queued == v.queued
    ensures AskedFrom(v, w, |w.added|, declined)
  {
  }

  lemma EmptyBuildDoes(v: View, declined: set<Ptr>)
    requires SeqInv(v) && !v.isRunning
    ensures Builds(v, [], declined, Built(v, [], declined))
  {
    var w := WithSteps(v, []);
    assert Built(v, [], declined) == w && w.added == v.added && w.steps == [];
    NothingAsked(v, w, declined);
  }

  lemma BuildDoes(v: View, actions: seq<SeqStep>, declined: set<Ptr>)
    requires SeqInv(v) && !v.isRunning
    ensures Builds(v, actions, declined, Built(v, actions, declined))
  {
    if actions == [] {
      EmptyBuildDoes(v, declined);
    } else {
      var w := WithSteps(v, actions);
      WithStepsReady(v, actions);
      AdvancedAnswers(w, declined);
    }
  }

  /** The last step is over, or there was none. */
  lemma LastCompleteDoes(v: View, declined: set<Ptr>)
    requires SeqInv(v) && |v.steps| <= 1
    ensures Completes(v, declined, Completed(v, declined))
  {
    NothingAsked(v, Completed(v, declined), declined);
  }

  lemma NextCompleteDoes(v: View, u: View, w: View, declined: set<Ptr>)
    requires SeqInv(v) && v.steps != [] && u == Popped(v).(isRunning := true) && FrontSerial(u) == FrontSerial(v) + 1
    requires w.added == u.added && AskedFrom(u, w, FrontSerial(u), declined)
    requires GoesOn(u.freed, w.freed, FrontSerial(u), FrontSerial(w))
    requires w.posted == u.posted + if w.steps == [] then [Complete] else []
    ensures Completes(v, declined, w)
  {
  }

  lemma CompleteDoes(v: View, declined: set<Ptr>)
    requires SeqInv(v)
    ensures Completes(v, declined, Completed(v, declined))
  {
    if |v.steps| > 1 {
      var u := Popped(v).(isRunning := true);
      PoppedReady(v);
      PoppedSuffix(v);
      AdvancedAnswers(u, declined);
      NextCompleteDoes(v, u, Advanced(u, declined), declined);
    } else {
      LastCompleteDoes(v, declined);
    }
  }

  lemma StopDoes(v: View)
    requires SeqInv(v)
    ensures Stops(v, Stopped(v))
  {
    RangeGoesOn(v.freed, FrontSerial(v) + if v.steps != [] && v.isCurrentStepAsync then 1 else 0, |v.added|);
  }

  /** Every handler, called in any state between handlers, does that. */
  lemma HandlerDoes(v: View, h: Handler)
    requires SeqInv(v)
    ensures Does(v, h, Handle(v, h))
  {
    match h
    case Build(actions, declined) => if !v.isRunning { BuildDoes(v, actions, declined); }
    case ActionComplete(declined) => CompleteDoes(v, declined);
    case StopIt => StopDoes(v);
  }

  /** The answers a handler was given. */
  function Answers(h: Handler): set<Ptr> {
    if h.StopIt? then {} else h.declined
  }

  lemma DoesDecide(v: View, h: Handler, w: View, k: nat)
    requires Does(v, h, w) && Suffix(w) && 0 <= |v.inits| <= k < |w.inits|
    ensures var n := w.inits[k];
      && n < |w.added|
      && (w.added[n].ptr in Answers(h) <==> !(w.isRunning && k == |w.inits| - 1))
      && (w.isRunning && k == |w.inits| - 1 ==> n == FrontSerial(w) && w.steps[0] == w.added[n])
  {
  }

  /**
    A step that runs after it was asked said yes, and every step that was asked and passed over said no.
   */
  lemma AnswersDecide(v: View, h: Handler, w: View, k: nat)
    requires SeqInv(v) && w == Handle(v, h) && |v.inits| <= k < |w.inits|
    ensures var n := w.inits[k];
      && n < |w.added|
      && (w.added[n].ptr in Answers(h) <==> !(w.isRunning && k == |w.inits| - 1))
      && (w.isRunning && k == |w.inits| - 1 ==> n == FrontSerial(w) && w.steps[0] == w.added[n])
  {
    HandlerDoes(v, h);
    HandleInv(v, h);
    DoesDecide(v, h, w, k);
  }

  // ---------------------------------------------------------------- in the log

  lemma {:induction false} InitCallsAt(asked: seq<nat>, running: bool, k: nat)
    requires k < |asked|
    ensures |InitCalls(asked, running)| == |asked|
    ensures InitCalls(asked, running)[k] == InitCall(asked[k], running && k == |asked| - 1)
  {
    if k > 0 {
      InitCallsAt(asked[1..], running, k - 1);
    } else if |asked| > 1 {
      InitCallsAt(asked[1..], running, 0);
    }
  }

  lemma HandledParts(s: Sys, h: Handler, t: Sys, asked: seq<nat>)
    requires |s.view.steps| <= |s.view.added| && (h.ActionComplete? ==> s.pending != []) && t == Handled(s, h)
    requires |s.view.inits| <= |t.view.inits| && asked == t.view.inits[|s.view.inits|..]
    ensures t.view == Handle(s.view, h)
    ensures t.log == s.log + Occasion(s, h) + InitCalls(asked, t.view.isRunning)
  {
  }

  lemma OccasionAsksNothing(s: Sys, h: Handler)
    requires h.ActionComplete? ==> s.pending != []
    ensures forall k :: 0 <= k < |Occasion(s, h)| ==> !Occasion(s, h)[k].InitCall?
  {
  }

  lemma InitsGrow(v: View, h: Handler)
    requires SeqInv(v)
    ensures |v.inits| <= |Handle(v, h).inits|
  {
    HandlerDoes(v, h);
  }

  lemma LogEntry(log: seq<Entry>, occasion: seq<Entry>, all: seq<Entry>, asked: seq<nat>, running: bool, k: nat)
    requires all == log + occasion + InitCalls(asked, running)
    requires forall j :: 0 <= j < |occasion| ==> !occasion[j].InitCall?
    requires |log| <= k < |all| && all[k].InitCall?
    ensures var j := k - |log| - |occasion|; 0 <= j < |asked| && all[k] == InitCall(asked[j], running && j == |asked| - 1)
  {
    var j := k - |log| - |occasion|;
    assert all[k] == InitCalls(asked, running)[j];
    if asked != [] {
      InitCallsAt(asked, running, 0);
      InitCallsAt(asked, running, j);
    }
  }

  /** Build while a sequence runs changes nothing at all: not the sequence, the pool, the events or the log. */
  lemma RefusedBuildChangesNothing(s: Sys, actions: seq<SeqStep>, declined: set<Ptr>)
    requires s.view.isRunning && |s.view.steps| <= |s.view.added|
    ensures Handled(s, Build(actions, declined)) == s
  {
    assert Handle(s.view, Build(actions, declined)) == s.view;
    assert s.view.inits[|s.view.inits|..] == [];
    assert s.log + [] + [] == s.log;
  }

  /** An entry for the j-th step just asked, said with its place among all that were asked. */
  lemma EntryMeans(w: View, first: nat, j: nat, answers: set<Ptr>, entry: Entry)
    requires first + j < |w.inits|
    requires entry == InitCall(w.inits[first..][j], w.isRunning && j == |w.inits[first..]| - 1)
    requires var n := w.inits[first + j];
      n < |w.added| && (w.added[n].ptr in answers <==> !(w.isRunning && first + j == |w.inits| - 1))
    ensures entry.n < |w.added| && (entry.accepted <==> w.added[entry.n].ptr !in answers)
  {
  }

  lemma EntryOfHandled(s: Sys, h: Handler, t: Sys, k: nat) returns (j: nat)
    requires SeqInv(s.view) && (h.ActionComplete? ==> s.pending != []) && t == Handled(s, h)
    requires |s.log| <= k < |t.log| && t.log[k].InitCall?
    ensures t.view == Handle(s.view, h) && |s.view.inits| + j < |t.view.inits|
    ensures var asked := t.view.inits[|s.view.inits|..];
      t.log[k] == InitCall(asked[j], t.view.isRunning && j == |asked| - 1)
  {
    InitsGrow(s.view, h);
    OccasionAsksNothing(s, h);
    var asked := t.view.inits[|s.view.inits|..];
    HandledParts(s, h, t, asked);
    LogEntry(s.log, Occasion(s, h), t.log, asked, t.view.isRunning, k);
    j := k - |s.log| - |Occasion(s, h)|;
  }

  /** Each Init call that a handler adds to the log is recorded with the answer the step gave. */
  lemma LogTellsAnswers(s: Sys, h: Handler, t: Sys, k: nat)
    requires SeqInv(s.view) && (h.ActionComplete? ==> s.pending != []) && t == Handled(s, h)
    requires |s.log| <= k < |t.log| && t.log[k].InitCall?
    ensures var n := t.log[k].n; n < |t.view.added| && (t.log[k].accepted <==> t.view.added[n].ptr !in Answers(h))
  {
    var j := EntryOfHandled(s, h, t, k);
    AnswersDecide(s.view, h, t.view, |s.view.inits| + j);
    EntryMeans(t.view, |s.view.inits|, j, Answers(h), t.log[k]);
  }
}
