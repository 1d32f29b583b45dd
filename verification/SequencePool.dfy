/**
  A sequence on top of the pool: the two together, main thread and workers interleaved. The
  sequence's handlers run on the main thread between the pool's own calls; a step they queue is
  the pool's from then on, and its completion event comes back through the event queue. The
  sequence knows completion events by their event id only, and other actions of the same pool
  carry the same ids: their events come to it as well.
 */
module SequencePool {
  import opened Sequence
  import opened SequenceLaws
  import P = Pool
  import O = PoolOwnership
  import T = PoolTheorems

  /** Who posted a completion event. */
  datatype Sender = OfStep(n: nat) | OfOther(p: Ptr)

  /** What happened, in order; steps are named by serial numbers. */
  datatype Entry = BuiltAt(n: nat) | InitCall(n: nat, accepted: bool) | Finished(n: nat) | Delivered(sender: Sender)

  /**
    `tagged` are the actions that are no steps but carry one of the event ids the sequence listens
    to, `pending` the completion events with such ids not delivered yet; `finished` and `log` are history.
   */
  datatype Sys = Sys(
    pool: P.State, view: View, tagged: set<Ptr>, pending: seq<Sender>, finished: set<nat>, log: seq<Entry>)

  datatype SysEvent = PoolEvent(e: P.Event) | SyncFinish | Call(h: Handler)

  function Ptrs(added: seq<SeqStep>): set<Ptr> {
    set n | 0 <= n < |added| :: added[n].ptr
  }

  /** The serial number of the step at p, if there is one. */
  function SerialOf(added: seq<SeqStep>, p: Ptr): (r: P.Option<nat>)
    ensures r.Some? ==> r.value < |added| && added[r.value].ptr == p
    ensures r.None? ==> forall n :: 0 <= n < |added| ==> added[n].ptr != p
  {
    if added == [] then P.None
    else if added[|added| - 1].ptr == p then P.Some(|added| - 1)
    else SerialOf(added[..|added| - 1], p)
  }

  predicate DistinctSteps(added: seq<SeqStep>) {
    forall j, k :: 0 <= j < k < |added| ==> added[j].ptr != added[k].ptr
  }

  /** New objects, each passed once. */
  predicate NewSteps(s: Sys, actions: seq<SeqStep>) {
    && DistinctSteps(s.view.added + actions)
    && forall n :: 0 <= n < |actions| ==> actions[n].ptr !in s.pool.data.given && actions[n].ptr !in s.tagged
  }

  ghost predicate CanSys(s: Sys, e: SysEvent) {
    match e
    case PoolEvent(e) =>
      && P.Can(s.pool, e)
      && (e.MainStep? && s.pool.main.Idle? && e.call.CallQueue? ==> e.call.p !in Ptrs(s.view.added))
    case SyncFinish =>
      |s.view.steps| <= |s.view.added| && s.view.isRunning && !s.view.isCurrentStepAsync && FrontSerial(s.view) !in s.finished
    case Call(h) =>
      && s.pool.main.Idle?
      && |s.view.steps| <= |s.view.added|
      && (h.Build? ==> NewSteps(s, h.actions))
      && (h.ActionComplete? ==> s.pending != [])
  }

  /** The step's completion event enters the event queue. */
  function Signal(s: Sys, n: nat): Sys {
    s.(pending := s.pending + [OfStep(n)], finished := s.finished + {n}, log := s.log + [Finished(n)])
  }

  function PoolMoves(s: Sys, e: P.Event): Sys
    requires P.Can(s.pool, e)
  {
    var pool := P.Next(s.pool, e);
    var t := s.(pool := pool);
    if |pool.data.completed| <= |s.pool.data.completed| then t
    else
      var p := pool.data.completed[|s.pool.data.completed|];
      var n := SerialOf(s.view.added, p);
      if n.Some? then Signal(t, n.value) else if p in s.tagged then t.(pending := t.pending + [OfOther(p)]) else t
  }

  /** Log entries for the steps just asked: only the last one can have accepted. */
  function InitCalls(asked: seq<nat>, running: bool): seq<Entry> {
    if asked == [] then []
    else [InitCall(asked[0], running && |asked| == 1)] + InitCalls(asked[1..], running)
  }

  function Occasion(s: Sys, h: Handler): seq<Entry>
    requires h.ActionComplete? ==> s.pending != []
  {
    match h
    case Build(_, _) => if s.view.isRunning then [] else [BuiltAt(|s.view.added|)]
    case ActionComplete(_) => [Delivered(s.pending[0])]
    case StopIt => []
  }

  /** A handler runs; if it queues a step, the main thread is now inside the pool's Queue. */
  function Handled(s: Sys, h: Handler): Sys
    requires |s.view.steps| <= |s.view.added| && (h.ActionComplete? ==> s.pending != [])
  {
    var v := Handle(s.view, h);
    var asked := if |v.inits| >= |s.view.inits| then v.inits[|s.view.inits|..] else [];
    Sys(if |v.queued| > |s.view.queued| then Queue(s.pool, v) else s.pool,
        v,
        s.tagged,
        if h.ActionComplete? then s.pending[1..] else s.pending,
        s.finished,
        s.log + Occasion(s, h) + InitCalls(asked, v.isRunning))
  }

  function Queue(pool: P.State, v: View): P.State
    requires v.queued != []
  {
    var n := v.queued[|v.queued| - 1];
    if n < |v.added| then P.MainNext(pool, P.CallQueue(v.added[n].ptr)) else pool
  }

  ghost function NextSys(s: Sys, e: SysEvent): Sys
    requires CanSys(s, e)
  {
    match e
    case PoolEvent(e) => PoolMoves(s, e)
    case SyncFinish => Signal(s, FrontSerial(s.view))
    case Call(h) => Handled(s, h)
  }

  /** Every step given to the pool has signalled its end or was deleted without. */
  ghost predicate StepsSettled(s: Sys) {
    forall n {:trigger s.view.added[n]} :: 0 <= n < |s.view.added| && Count(s.view.queued, n) > 0 ==>
      n in s.finished || s.pool.data.deleted[s.view.added[n].ptr] >= 1
  }

  /** So has every other action with one of the sequence's event ids. */
  ghost predicate OthersSettled(s: Sys) {
    forall p {:trigger p in s.tagged} :: p in s.tagged && p in s.pool.data.given ==>
      p in s.pool.data.completed || s.pool.data.deleted[p] >= 1
  }

  /** No completion event that the sequence listens to is pending or still to come. */
  ghost predicate Settled(s: Sys) {
    s.pending == [] && StepsSettled(s) && OthersSettled(s)
  }

  /** The event begins a sequence. */
  predicate Starts(s: Sys, e: SysEvent) {
    e.Call? && e.h.Build? && !s.view.isRunning
  }

  /** The event hands the pool an action that is no step but carries one of the sequence's event ids. */
  predicate QueuesOther(s: Sys, e: SysEvent) {
    e.PoolEvent? && e.e.MainStep? && s.pool.main.Idle? && e.e.call.CallQueue? && e.e.call.p in s.tagged
  }

  /** A sequence starts only when all is settled, and no such action is queued while it runs. */
  ghost predicate Orderly(s: Sys, e: SysEvent) {
    && (Starts(s, e) ==> Settled(s))
    && (QueuesOther(s, e) ==> s.view.steps == [])
  }

  ghost predicate Begins(s: Sys) {
    s.pool.max >= 1 && s == Sys(P.Init(s.pool.max), NEW, s.tagged, [], {}, [])
  }

  ghost predicate SysStepAt(run: seq<Sys>, events: seq<SysEvent>, n: int)
    requires 0 <= n < |events| < |run|
  {
    CanSys(run[n], events[n]) && run[n + 1] == NextSys(run[n], events[n])
  }

  ghost predicate OrderlyAt(run: seq<Sys>, events: seq<SysEvent>, n: int)
    requires 0 <= n < |events| < |run|
  {
    Orderly(run[n], events[n])
  }

  /** A run from any state. */
  ghost predicate Continues(run: seq<Sys>, events: seq<SysEvent>) {
    && |run| == |events| + 1
    && forall n :: 0 <= n < |events| ==> SysStepAt(run, events, n)
  }

  ghost predicate IsSysRun(run: seq<Sys>, events: seq<SysEvent>) {
    Continues(run, events) && Begins(run[0])
  }

  /** From the given event on, the run is orderly. */
  ghost predicate IsOrderly(run: seq<Sys>, events: seq<SysEvent>, from: nat)
    requires |events| < |run|
  {
    forall n :: from <= n < |events| ==> OrderlyAt(run, events, n)
  }

  // ---------------------------------------------------------------- ownership

  /** The pool was given exactly the steps the sequence queued, of all steps. */
  ghost predicate Linked(s: Sys) {
    forall n {:trigger s.view.added[n]} :: 0 <= n < |s.view.added| ==>
      (Count(s.view.queued, n) > 0 <==> s.view.added[n].ptr in s.pool.data.given)
  }

  /** The sequence's side of the invariant. */
  ghost predicate StepsLinked(s: Sys) {
    && SeqInv(s.view) && DistinctSteps(s.view.added) && Linked(s)
    && forall n :: 0 <= n < |s.view.added| ==> s.view.added[n].ptr !in s.tagged
  }

  ghost predicate SysInv(s: Sys) {
    T.Inv(s.pool) && StepsLinked(s)
  }

  lemma GivenGrows(s: P.State, e: P.Event)
    requires P.Can(s, e)
    ensures P.Next(s, e).data.given == s.data.given +
      if e.MainStep? && s.main.Idle? && e.call.CallQueue? then {e.call.p} else {}
  {
    match e
    case MainStep(c) =>
      var m := P.MainMoves(s, c);
      assert m.effect.Give? || m.effect.Refuse? <==> s.main.Idle? && c.CallQueue?;
    case WorkerStep(i, c) => O.WorkerHandLocal(s.workers[i], i, s.data.queue, c);
  }

  lemma PoolMovesView(s: Sys, e: P.Event)
    requires P.Can(s.pool, e)
    ensures PoolMoves(s, e).view == s.view && PoolMoves(s, e).pool == P.Next(s.pool, e)
    ensures PoolMoves(s, e).tagged == s.tagged
  {
  }

  lemma PoolKeepsSysInv(s: Sys, e: P.Event)
    requires SysInv(s) && CanSys(s, PoolEvent(e))
    ensures SysInv(PoolMoves(s, e))
  {
    T.StepInv(s.pool, e);
    GivenGrows(s.pool, e);
    PoolMovesView(s, e);
  }

  lemma AdvancedGrows(v: View, declined: set<Ptr>)
    requires |v.steps| <= |v.added|
    ensures var w := Advanced(v, declined);
      && w.added == v.added && FrontSerial(w) >= FrontSerial(v)
      && (w.queued == v.queued || (w.steps != [] && w.queued == v.queued + [FrontSerial(w)]))
  {
  }

  /** The serial number of the first step a handler may ask. */
  function FirstAsked(v: View, h: Handler): int {
    if h.Build? && !v.isRunning then |v.added| else FrontSerial(v) + One(v.steps != [])
  }

  /** What a handler changes: it adds steps, moves on, and queues at most the step that is then in front. */
  ghost predicate Grown(v: View, h: Handler, w: View) {
    && SeqInv(w)
    && w.added == v.added + (if h.Build? && !v.isRunning then h.actions else [])
    && (w.queued == v.queued || (w.steps != [] && w != v && w.queued == v.queued + [FrontSerial(w)]))
    && (w != v && w.steps != [] ==> FrontSerial(w) >= FirstAsked(v, h))
    && FrontSerial(w) + One(w.steps != []) >= FrontSerial(v) + One(v.steps != [])
  }

  lemma HandleGrows(v: View, h: Handler)
    requires SeqInv(v)
    ensures Grown(v, h, Handle(v, h))
  {
    HandleInv(v, h);
    assert v.added + [] == v.added;
    match h
    case Build(actions, declined) =>
      if !v.isRunning {
        AdvancedGrows(WithSteps(v, actions), declined);
      }
    case ActionComplete(declined) =>
      if |v.steps| > 1 {
        AdvancedGrows(Popped(v).(isRunning := true), declined);
      }
    case StopIt =>
  }

  ghost predicate CallCan(s: Sys, h: Handler) {
    StepsLinked(s) && CanSys(s, Call(h))
  }

  lemma AddedStaysDistinct(s: Sys, h: Handler, w: View)
    requires CallCan(s, h) && Grown(s.view, h, w)
    ensures DistinctSteps(w.added)
    ensures |s.view.added| <= |w.added| && w.added[..|s.view.added|] == s.view.added
    ensures forall k :: |s.view.added| <= k < |w.added| ==> w.added[k].ptr !in s.pool.data.given
    ensures forall k :: 0 <= k < |w.added| ==> w.added[k].ptr !in s.tagged
  {
    assert s.view.added + [] == s.view.added;
    if h.Build? && !s.view.isRunning {
      forall k | |s.view.added| <= k < |w.added|
        ensures w.added[k].ptr !in s.pool.data.given && w.added[k].ptr !in s.tagged
      {
        assert w.added[k] == h.actions[k - |s.view.added|];
      }
    }
  }

  lemma QueuedOnce(v: View, n: nat)
    requires SeqInv(v)
    ensures Count(v.queued, n) <= 1 && (Count(v.queued, n) == 1 ==> n < FrontSerial(v) + One(v.steps != []))
  {
    var bound := FrontSerial(v) + One(v.steps != [] && v.isCurrentStepAsync);
    assert Count(v.freed, n) + Count(v.queued, n) == One(n < bound);
  }

  /** The step a handler queues is new to the pool. */
  lemma NewlyQueued(s: Sys, h: Handler, w: View)
    requires CallCan(s, h) && Grown(s.view, h, w) && w.queued != s.view.queued
    ensures w.added[FrontSerial(w)].ptr !in s.pool.data.given
    ensures Count(s.view.queued, FrontSerial(w)) == 0
  {
    var n := FrontSerial(w);
    AddedStaysDistinct(s, h, w);
    QueuedOnce(w, n);
    O.CountPush(s.view.queued, n, n);
    if n < |s.view.added| {
      assert w.added[n] == s.view.added[n];
    }
  }

  lemma LinkGrows(s: Sys, h: Handler, w: View, pool: P.State)
    requires CallCan(s, h) && Grown(s.view, h, w)
    requires pool.data.given == s.pool.data.given + if w.queued == s.view.queued then {} else {w.added[FrontSerial(w)].ptr}
    ensures Linked(s.(pool := pool, view := w))
  {
    AddedStaysDistinct(s, h, w);
    forall k {:trigger w.added[k]} | 0 <= k < |w.added| ensures Count(w.queued, k) > 0 <==> w.added[k].ptr in pool.data.given {
      LinkBefore(s, w, k);
      if w.queued != s.view.queued {
        O.CountPush(s.view.queued, FrontSerial(w), k);
        assert w.added[k].ptr == w.added[FrontSerial(w)].ptr <==> k == FrontSerial(w);
      }
    }
  }

  lemma LinkBefore(s: Sys, w: View, k: nat)
    requires StepsLinked(s) && k < |w.added| && |s.view.added| <= |w.added| && w.added[..|s.view.added|] == s.view.added
    requires forall k :: |s.view.added| <= k < |w.added| ==> w.added[k].ptr !in s.pool.data.given
    ensures Count(s.view.queued, k) > 0 <==> w.added[k].ptr in s.pool.data.given
  {
    QueuedOnce(s.view, k);
    if k < |s.view.added| {
      assert w.added[k] == s.view.added[k];
    }
  }

  /** The pool after a handler: one step into Queue, or the same. */
  lemma HandledPool(s: Sys, h: Handler, w: View)
    requires CallCan(s, h) && Grown(s.view, h, w) && w == Handle(s.view, h)
    ensures var t := Handled(s, h);
      && t.view == w && t.finished == s.finished && t.tagged == s.tagged
      && t.pool == (if w.queued == s.view.queued then s.pool else P.MainNext(s.pool, P.CallQueue(w.added[FrontSerial(w)].ptr)))
      && t.pending == (if h.ActionComplete? then s.pending[1..] else s.pending)
  {
  }

  lemma CallKeepsSysInv(s: Sys, h: Handler)
    requires SysInv(s) && CanSys(s, Call(h))
    ensures SysInv(Handled(s, h))
  {
    var w := Handle(s.view, h);
    HandleGrows(s.view, h);
    HandledPool(s, h, w);
    QueueKeepsSysInv(s, h, w, Handled(s, h));
  }

  lemma QueueKeepsPool(pool: P.State, p: Ptr)
    requires T.Inv(pool) && pool.main.Idle? && p !in pool.data.given
    ensures var t := P.MainNext(pool, P.CallQueue(p)); T.Inv(t) && t.data.given == pool.data.given + {p}
  {
    var e := P.MainStep(P.CallQueue(p));
    T.StepInv(pool, e);
    GivenGrows(pool, e);
  }

  lemma QueueKeepsSysInv(s: Sys, h: Handler, w: View, t: Sys)
    requires T.Inv(s.pool) && CallCan(s, h) && Grown(s.view, h, w) && t.view == w && t.tagged == s.tagged
    requires t.pool == if w.queued == s.view.queued then s.pool else P.MainNext(s.pool, P.CallQueue(w.added[FrontSerial(w)].ptr))
    ensures SysInv(t)
  {
    AddedStaysDistinct(s, h, w);
    if w.queued != s.view.queued {
      NewlyQueued(s, h, w);
      QueueKeepsPool(s.pool, w.added[FrontSerial(w)].ptr);
    }
    LinkGrows(s, h, w, t.pool);
  }

  lemma SysStepInv(s: Sys, e: SysEvent)
    requires SysInv(s) && CanSys(s, e)
    ensures SysInv(NextSys(s, e))
  {
    match e
    case PoolEvent(e) => PoolKeepsSysInv(s, e);
    case SyncFinish =>
    case Call(h) => CallKeepsSysInv(s, h);
  }

  lemma BeginsLinked(s: Sys)
    requires Begins(s)
    ensures StepsLinked(s)
  {
    NewInv();
  }

  lemma FirstSys(run: seq<Sys>, events: seq<SysEvent>)
    requires IsSysRun(run, events)
    ensures SysInv(run[0])
  {
    T.InitInv(run[0].pool.max);
    BeginsLinked(run[0]);
  }

  lemma StepToInv(s: Sys, e: SysEvent, t: Sys)
    requires SysInv(s) && CanSys(s, e) && t == NextSys(s, e)
    ensures SysInv(t)
  {
    SysStepInv(s, e);
  }

  lemma NextSysInv(run: seq<Sys>, events: seq<SysEvent>, k: nat)
    requires Continues(run, events) && 0 < k < |run| && SysInv(run[k - 1])
    ensures SysInv(run[k])
  {
    assert SysStepAt(run, events, k - 1);
    StepToInv(run[k - 1], events[k - 1], run[k]);
  }

  lemma {:induction false} SysRunInv(run: seq<Sys>, events: seq<SysEvent>, k: nat)
    requires IsSysRun(run, events) && k < |run|
    ensures SysInv(run[k])
  {
    if k == 0 {
      FirstSys(run, events);
    } else {
      SysRunInv(run, events, k - 1);
      NextSysInv(run, events, k);
    }
  }

  /** Deletes of step n, by the sequence and by the pool. */
  function Frees(s: Sys, n: nat): nat
    requires n < |s.view.added|
  {
    Count(s.view.freed, n) + s.pool.data.deleted[s.view.added[n].ptr]
  }

  /** In every run, events of earlier sequences and of other actions included, no step is freed twice. */
  lemma FreedAtMostOnce(run: seq<Sys>, events: seq<SysEvent>, k: nat, n: nat)
    requires IsSysRun(run, events) && k < |run| && n < |run[k].view.added|
    ensures Frees(run[k], n) <= 1
  {
    var s := run[k];
    SysRunInv(run, events, k);
    Freed(s, n);
  }

  lemma Freed(s: Sys, n: nat)
    requires SysInv(s) && n < |s.view.added|
    ensures Frees(s, n) <= 1
    ensures Count(s.view.queued, n) == 0 ==> s.pool.data.deleted[s.view.added[n].ptr] == 0
  {
    var p := s.view.added[n].ptr;
    assert O.Places(s.pool, p) == O.One(p in s.pool.data.given);
    var bound := FrontSerial(s.view) + One(s.view.steps != [] && s.view.isCurrentStepAsync);
    assert Count(s.view.freed, n) + Count(s.view.queued, n) == One(n < bound);
  }

  /** Once the sequence has no steps and the pool no threads, every step ever added is freed exactly once. */
  lemma FreedExactlyOnce(run: seq<Sys>, events: seq<SysEvent>, k: nat, n: nat)
    requires IsSysRun(run, events) && k < |run| && n < |run[k].view.added|
    requires run[k].view.steps == [] && run[k].pool.main.Idle? && run[k].pool.base == |run[k].pool.workers|
    ensures Frees(run[k], n) == 1
  {
    var s := run[k];
    SysRunInv(run, events, k);
    var p := s.view.added[n].ptr;
    T.NoHands(s.pool.workers, p);
    assert O.Places(s.pool, p) == O.One(p in s.pool.data.given);
    assert Count(s.view.freed, n) + Count(s.view.queued, n) == One(n < FrontSerial(s.view));
  }
}
