/**
  What every series of calls into a sequence keeps: who frees each step, in which order the
  steps are initialised, and how START and COMPLETE events balance.
 */
module SequenceLaws {
  import opened Sequence
  import PoolOwnership

  function Count(q: seq<nat>, i: nat): nat {
    PoolOwnership.Count(q, i)
  }

  function One(b: bool): nat {
    PoolOwnership.One(b)
  }

  lemma {:induction false} CountConcat(a: seq<nat>, b: seq<nat>, i: nat)
    ensures Count(a + b, i) == Count(a, i) + Count(b, i)
  {
    if b == [] {
      assert a + b == a;
    } else {
      assert (a + b)[..|a + b| - 1] == a + b[..|b| - 1];
      CountConcat(a, b[..|b| - 1], i);
    }
  }

  lemma {:induction false} CountRange(a: int, b: int, i: nat)
    requires 0 <= a
    ensures Count(Range(a, b), i) == One(a <= i < b)
    decreases b - a
  {
    if a < b {
      CountRange(a, b - 1, i);
      PoolOwnership.CountPush(Range(a, b - 1), b - 1, i);
    }
  }

  /** Everything before `bound` was initialised in order, nothing else. */
  ghost predicate InOrder(inits: seq<nat>, bound: int) {
    && (forall j, k :: 0 <= j < k < |inits| ==> inits[j] < inits[k])
    && (forall j :: 0 <= j < |inits| ==> inits[j] < bound)
  }

  /** Each step before `bound` is freed by exactly one of the two, once; none from there on is. */
  ghost predicate Fates(freed: seq<nat>, queued: seq<nat>, bound: int) {
    forall i: nat :: Count(freed, i) + Count(queued, i) == One(i < bound)
  }

  ghost predicate QueuedAsync(v: View) {
    forall i: nat :: Count(v.queued, i) > 0 ==> i < |v.added| && v.added[i].isAsync
  }

  ghost predicate Suffix(v: View) {
    |v.steps| <= |v.added| && v.steps == v.added[|v.added| - |v.steps|..]
  }

  /** Between handlers. */
  ghost predicate SeqInv(v: View) {
    && Suffix(v) && QueuedAsync(v)
    && (v.isRunning <==> v.steps != [])
    && (v.steps != [] ==> v.isCurrentStepAsync == v.steps[0].isAsync)
    && InOrder(v.inits, FrontSerial(v) + One(v.steps != []))
    && (v.steps != [] ==> v.inits != [] && v.inits[|v.inits| - 1] == FrontSerial(v))
    && Fates(v.freed, v.queued, FrontSerial(v) + One(v.steps != [] && v.isCurrentStepAsync))
    && (v.steps != [] && v.isCurrentStepAsync ==> Count(v.queued, FrontSerial(v)) > 0)
  }

  /** When the front step has not been asked yet. */
  ghost predicate Ready(v: View) {
    && Suffix(v) && QueuedAsync(v)
    && InOrder(v.inits, FrontSerial(v))
    && Fates(v.freed, v.queued, FrontSerial(v))
  }

  lemma NewInv()
    ensures SeqInv(NEW)
  {
  }

  lemma InOrderRange(inits: seq<nat>, bound: int, n: nat)
    requires 0 <= bound && InOrder(inits, bound)
    ensures InOrder(inits + Range(bound, bound + n), bound + n)
  {
    if n > 0 {
      InOrderRange(inits, bound, n - 1);
      var r := inits + Range(bound, bound + n - 1);
      assert inits + Range(bound, bound + n) == r + [bound + n - 1];
    } else {
      assert inits + Range(bound, bound) == inits;
    }
  }

  lemma FatesRange(freed: seq<nat>, queued: seq<nat>, a: int, b: int)
    requires 0 <= a <= b && Fates(freed, queued, a)
    ensures Fates(freed + Range(a, b), queued, b)
  {
    forall i: nat ensures Count(freed + Range(a, b), i) + Count(queued, i) == One(i < b) {
      CountConcat(freed, Range(a, b), i);
      CountRange(a, b, i);
      assert Count(freed, i) + Count(queued, i) == One(i < a);
    }
  }

  lemma FatesQueue(freed: seq<nat>, queued: seq<nat>, a: nat)
    requires Fates(freed, queued, a)
    ensures Fates(freed, queued + [a], a + 1)
  {
    forall i: nat ensures Count(freed, i) + Count(queued + [a], i) == One(i < a + 1) {
      PoolOwnership.CountPush(queued, a, i);
      assert Count(freed, i) + Count(queued, i) == One(i < a);
    }
  }

  lemma SkippedReady(v: View, n: nat)
    requires Ready(v) && n <= |v.steps|
    ensures Ready(Skipped(v, n))
  {
    var front := FrontSerial(v);
    InOrderRange(v.inits, front, n);
    FatesRange(v.freed, v.queued, front, front + n);
  }

  lemma AcceptedInv(w: View)
    requires Ready(w) && w.steps != []
    ensures SeqInv(Accepted(w))
  {
    var front := FrontSerial(w);
    if w.steps[0].isAsync {
      FatesQueue(w.freed, w.queued, front);
      PoolOwnership.CountPush(w.queued, front, front);
      forall i: nat | Count(w.queued + [front], i) > 0 ensures i < |w.added| && w.added[i].isAsync {
        PoolOwnership.CountPush(w.queued, front, i);
      }
    }
  }

  lemma AdvancedInv(v: View, declined: set<Ptr>)
    requires Ready(v) && (v.steps == [] ==> !v.isRunning)
    ensures SeqInv(Advanced(v, declined))
  {
    if v.steps != [] {
      var k := FirstAccepted(v.steps, declined);
      SkippedReady(v, k);
      if k < |v.steps| {
        AcceptedInv(Skipped(v, k));
      }
    }
  }

  lemma FatesFree(freed: seq<nat>, queued: seq<nat>, a: nat)
    requires Fates(freed, queued, a)
    ensures Fates(freed + [a], queued, a + 1)
  {
    forall i: nat ensures Count(freed + [a], i) + Count(queued, i) == One(i < a + 1) {
      PoolOwnership.CountPush(freed, a, i);
      assert Count(freed, i) + Count(queued, i) == One(i < a);
    }
  }

  lemma PoppedSuffix(v: View)
    requires Suffix(v) && v.steps != []
    ensures Suffix(Popped(v)) && FrontSerial(Popped(v)) == FrontSerial(v) + 1
  {
  }

  lemma PoppedReady(v: View)
    requires SeqInv(v) && v.steps != []
    ensures Ready(Popped(v))
  {
    PoppedSuffix(v);
    if !v.isCurrentStepAsync {
      FatesFree(v.freed, v.queued, FrontSerial(v));
    }
  }

  // ---------------------------------------------------------------- series of calls

  datatype Handler = Build(actions: seq<SeqStep>, declined: set<Ptr>) | ActionComplete(declined: set<Ptr>) | StopIt

  function Handle(v: View, h: Handler): View
    requires |v.steps| <= |v.added|
  {
    match h
    case Build(actions, declined) => Built(v, actions, declined)
    case ActionComplete(declined) => Completed(v, declined)
    case StopIt => Stopped(v)
  }

  lemma BuildInv(v: View, actions: seq<SeqStep>, declined: set<Ptr>)
    requires SeqInv(v)
    ensures SeqInv(Built(v, actions, declined))
  {
    if !v.isRunning {
      var w := WithSteps(v, actions);
      assert FrontSerial(w) == FrontSerial(v) && w.steps == w.added[FrontSerial(w)..];
      AdvancedInv(w, declined);
    }
  }

  lemma CompleteInv(v: View, declined: set<Ptr>)
    requires SeqInv(v)
    ensures SeqInv(Completed(v, declined))
  {
    if |v.steps| > 1 {
      PoppedReady(v);
      AdvancedInv(Popped(v).(isRunning := true), declined);
    } else if |v.steps| == 1 {
      PoppedReady(v);
      LastStepInv(Popped(v).(isRunning := false, posted := v.posted + [Complete]));
    }
  }

  lemma LastStepInv(w: View)
    requires Ready(w) && w.steps == [] && !w.isRunning
    ensures SeqInv(w)
  {
  }

  lemma StopInv(v: View)
    requires SeqInv(v)
    ensures SeqInv(Stopped(v))
  {
    var first := FrontSerial(v) + One(v.steps != [] && v.isCurrentStepAsync);
    FatesRange(v.freed, v.queued, first, |v.added|);
  }

  lemma HandleInv(v: View, h: Handler)
    requires SeqInv(v)
    ensures SeqInv(Handle(v, h))
  {
    match h
    case Build(actions, declined) => BuildInv(v, actions, declined);
    case ActionComplete(declined) => CompleteInv(v, declined);
    case StopIt => StopInv(v);
  }

  /** The sequence after a series of calls on a new one. */
  function After(calls: seq<Handler>): (v: View)
    ensures SeqInv(v)
  {
    if calls == [] then NewInv(); NEW
    else
      var v := After(calls[..|calls| - 1]);
      HandleInv(v, calls[|calls| - 1]);
      Handle(v, calls[|calls| - 1])
  }

  function CountNotice(posted: seq<Notice>, n: Notice): nat {
    if posted == [] then 0 else CountNotice(posted[..|posted| - 1], n) + One(posted[|posted| - 1] == n)
  }

  lemma PostedBy(posted: seq<Notice>, more: seq<Notice>)
    requires |more| <= 1
    ensures forall n :: CountNotice(posted + more, n) == CountNotice(posted, n) + (if |more| == 1 then One(more[0] == n) else 0)
  {
    if more == [] {
      assert posted + more == posted;
    } else {
      assert (posted + more)[..|posted|] == posted;
    }
  }

  // ---------------------------------------------------------------- START and COMPLETE

  /** RunNextStep posts a COMPLETE only when it leaves no steps. */
  lemma AdvancedCompletes(v: View, declined: set<Ptr>)
    requires |v.steps| <= |v.added|
    ensures Advanced(v, declined).steps == [] || Advanced(v, declined).posted == v.posted
  {
  }

  /** A COMPLETE is only ever posted when no steps remain. */
  lemma CompleteMeansEmpty(v: View, h: Handler)
    requires SeqInv(v)
    requires CountNotice(Handle(v, h).posted, Complete) > CountNotice(v.posted, Complete)
    ensures Handle(v, h).steps == []
  {
    match h
    case Build(actions, declined) =>
      if !v.isRunning {
        PostedBy(v.posted, [Start]);
        AdvancedCompletes(WithSteps(v, actions), declined);
      }
    case ActionComplete(declined) =>
      if |v.steps| > 1 {
        AdvancedCompletes(Popped(v).(isRunning := true), declined);
      }
    case StopIt =>
  }

  /** Build with no actions while nothing runs: a START without a COMPLETE. */
  predicate EmptyBuild(v: View, h: Handler) {
    h.Build? && h.actions == [] && !v.isRunning
  }

  /** Stop, or a completion event, while nothing runs: a COMPLETE without a START. */
  predicate StrayEnd(v: View, h: Handler) {
    (h.StopIt? || h.ActionComplete?) && !v.isRunning
  }

  function EmptyBuilds(calls: seq<Handler>): nat {
    if calls == [] then 0
    else
      var before := calls[..|calls| - 1];
      EmptyBuilds(before) + One(EmptyBuild(After(before), calls[|calls| - 1]))
  }

  function StrayEnds(calls: seq<Handler>): nat {
    if calls == [] then 0
    else
      var before := calls[..|calls| - 1];
      StrayEnds(before) + One(StrayEnd(After(before), calls[|calls| - 1]))
  }

  /** RunNextStep leaves a sequence with steps running or posts its COMPLETE. */
  lemma AdvancedBalance(v: View, declined: set<Ptr>)
    requires |v.steps| <= |v.added| && v.steps != []
    ensures var w := Advanced(v, declined);
      && CountNotice(w.posted, Complete) + One(w.isRunning) == CountNotice(v.posted, Complete) + 1
      && CountNotice(w.posted, Start) == CountNotice(v.posted, Start)
  {
    PostedBy(v.posted, [Complete]);
  }

  ghost predicate Balanced(v: View, h: Handler, w: View) {
    CountNotice(w.posted, Complete) + One(w.isRunning) + One(EmptyBuild(v, h)) + CountNotice(v.posted, Start)
    == CountNotice(v.posted, Complete) + One(v.isRunning) + One(StrayEnd(v, h)) + CountNotice(w.posted, Start)
  }

  lemma BuildBalance(v: View, h: Handler)
    requires SeqInv(v) && h.Build?
    ensures Balanced(v, h, Handle(v, h))
  {
    if !v.isRunning {
      PostedBy(v.posted, [Start]);
      var w := WithSteps(v, h.actions);
      assert CountNotice(w.posted, Start) == CountNotice(v.posted, Start) + 1;
      assert CountNotice(w.posted, Complete) == CountNotice(v.posted, Complete);
      assert w.steps == [] <==> h.actions == [];
      if h.actions != [] {
        AdvancedBalance(w, h.declined);
      } else {
        assert Advanced(w, h.declined) == w;
      }
    }
  }

  lemma CompleteBalance(v: View, h: Handler)
    requires SeqInv(v) && h.ActionComplete?
    ensures Balanced(v, h, Handle(v, h))
  {
    PostedBy(v.posted, [Complete]);
    if |v.steps| > 1 {
      AdvancedBalance(Popped(v).(isRunning := true), h.declined);
    }
  }

  lemma HandleBalance(v: View, h: Handler)
    requires SeqInv(v)
    ensures Balanced(v, h, Handle(v, h))
  {
    match h
    case Build(_, _) => BuildBalance(v, h);
    case ActionComplete(_) => CompleteBalance(v, h);
    case StopIt => PostedBy(v.posted, [Complete]);
  }

  /**
    Over any series of calls, COMPLETE events, the sequence still running, and empty builds
    together balance START events and stray ends.
   */
  lemma {:induction false} StartsAndCompletes(calls: seq<Handler>)
    ensures CountNotice(After(calls).posted, Complete) + One(After(calls).isRunning) + EmptyBuilds(calls)
         == CountNotice(After(calls).posted, Start) + StrayEnds(calls)
  {
    if calls != [] {
      var before := calls[..|calls| - 1];
      StartsAndCompletes(before);
      HandleBalance(After(before), calls[|calls| - 1]);
    }
  }

  /** Each step is asked to initialise at most once, in the order the steps were added. */
  lemma InitsInOrder(calls: seq<Handler>)
    ensures var v := After(calls); InOrder(v.inits, |v.added|)
    ensures var v := After(calls); v.isRunning <==> v.steps != []
    ensures var v := After(calls); v.steps != [] ==> FrontSerial(v) in v.inits && forall i :: FrontSerial(v) < i < |v.added| ==> i !in v.inits
  {
    var v := After(calls);
    if v.steps != [] {
      assert v.inits[|v.inits| - 1] in v.inits;
    }
  }

  /** A delivered completion event consumes a step, so the steps left are a termination measure. */
  lemma CompletionConsumes(v: View, declined: set<Ptr>)
    requires SeqInv(v) && v.steps != []
    ensures |Completed(v, declined).steps| < |v.steps|
    ensures Completed(v, declined).added == v.added
  {
  }
}
