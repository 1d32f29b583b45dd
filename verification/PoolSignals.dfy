/**
  An action posts its completion event at most once, and only while it is still alive.
 */
module PoolSignals {
  import opened Pool
  import opened PoolLocks
  import opened PoolOwnership
  import opened PoolSafety
  import opened PoolTheorems

  /** The action whose completion event this worker has posted, until it is deleted. */
  function Signalled(pc: WorkerPc): Option<Ptr> {
    match pc
    case LockClear(p, _) => Some(p)
    case Delete(p, _) => Some(p)
    case _ => None
  }

  ghost predicate HasSignalled(workers: seq<WorkerState>, p: Ptr) {
    exists i {:trigger workers[i]} :: 0 <= i < |workers| && Signalled(workers[i].pc) == Some(p)
  }

  /** An action that has posted its event is deleted or about to be, and only such an action is about to be. */
  ghost predicate SignalsKnown(s: State) {
    && (forall p {:trigger p in s.data.completed} :: p in s.data.completed ==>
          s.data.deleted[p] >= 1 || HasSignalled(s.workers, p))
    && (forall i {:trigger s.workers[i]} :: 0 <= i < |s.workers| && Signalled(s.workers[i].pc).Some? ==>
          Signalled(s.workers[i].pc).value in s.data.completed)
  }

  lemma WorkerSignalLocal(w: WorkerState, i: nat, queue: seq<Ptr>, c: WorkChoice)
    ensures var m := WorkerMoves(w, i, queue, c);
      && (m.effect.Signal? ==> Hand(w.pc) == Signalled(m.pc) == Some(m.effect.p) && Signalled(w.pc) == None)
      && (Signalled(w.pc).Some? ==> Signalled(m.pc) == Signalled(w.pc) || m.effect == Free(Signalled(w.pc).value))
      && (Signalled(m.pc).Some? ==> Signalled(m.pc) == Signalled(w.pc) || m.effect == Signal(Signalled(m.pc).value))
  {
  }

  lemma DeletedGrows(d: Data, e: Effect, max: nat, p: Ptr)
    ensures Apply(d, e, max).deleted[p] >= d.deleted[p]
    ensures Apply(d, e, max).completed == d.completed + if e.Signal? then [e.p] else []
  {
  }

  lemma WorkerKeepsSignals(s: State, i: nat, c: WorkChoice)
    requires i < |s.workers| && SignalsKnown(s)
    ensures SignalsKnown(WorkerNext(s, i, c))
  {
    var s' := WorkerNext(s, i, c);
    var m := WorkerMoves(s.workers[i], i, s.data.queue, c);
    WorkerSignalLocal(s.workers[i], i, s.data.queue, c);
    DeletedGrows(s.data, m.effect, s.max, 0);
    forall p | p in s'.data.completed ensures s'.data.deleted[p] >= 1 || HasSignalled(s'.workers, p) {
      DeletedGrows(s.data, m.effect, s.max, p);
      if p in s.data.completed && s.data.deleted[p] == 0 {
        var j :| 0 <= j < |s.workers| && Signalled(s.workers[j].pc) == Some(p);
        if j != i {
          assert s'.workers[j] == s.workers[j];
        } else {
          assert s'.workers[i].pc == m.pc;
        }
      } else if p !in s.data.completed {
        assert s'.workers[i].pc == m.pc;
      }
    }
  }

  lemma MainKeepsSignals(s: State, c: Call)
    requires SignalsKnown(s)
    ensures SignalsKnown(MainNext(s, c))
    ensures MainNext(s, c).data.completed == s.data.completed
  {
    var s' := MainNext(s, c);
    var m := MainMoves(s, c);
    assert !m.effect.Signal?;
    DeletedGrows(s.data, m.effect, s.max, 0);
    forall p | p in s'.data.completed ensures s'.data.deleted[p] >= 1 || HasSignalled(s'.workers, p) {
      DeletedGrows(s.data, m.effect, s.max, p);
      if s.data.deleted[p] == 0 {
        var j :| 0 <= j < |s.workers| && Signalled(s.workers[j].pc) == Some(p);
        assert s'.workers[j].pc == s.workers[j].pc;
      }
    }
  }

  lemma {:induction false} TwoHands(workers: seq<WorkerState>, i: nat, j: nat, p: Ptr)
    requires i < j < |workers| && Hand(workers[i].pc) == Hand(workers[j].pc) == Some(p)
    ensures HandCount(workers, p) >= 2
  {
    var front := workers[..|workers| - 1];
    if j == |workers| - 1 {
      HandCounts(front, i, p);
    } else {
      TwoHands(front, i, j, p);
    }
  }

  /** A worker that is about to post a completion event posts the first one for that action. */
  lemma SignalsOnce(s: State, i: nat, c: WorkChoice)
    requires Inv(s) && SignalsKnown(s) && i < |s.workers|
    requires WorkerMoves(s.workers[i], i, s.data.queue, c).effect.Signal?
    ensures var p := WorkerMoves(s.workers[i], i, s.data.queue, c).effect.p;
      p !in s.data.completed && Live(s, p) && p in s.data.given
  {
    var p := WorkerMoves(s.workers[i], i, s.data.queue, c).effect.p;
    WorkerSignalLocal(s.workers[i], i, s.data.queue, c);
    HandIsLive(s, i, p);
    assert Places(s, p) == One(p in s.data.given);
    if p in s.data.completed {
      var j :| 0 <= j < |s.workers| && Signalled(s.workers[j].pc) == Some(p);
      assert Hand(s.workers[j].pc) == Some(p);
      if i < j {
        TwoHands(s.workers, i, j, p);
      } else {
        TwoHands(s.workers, j, i, p);
      }
      assert false;
    }
  }

  lemma CompletedWereGiven(s: State, p: Ptr)
    requires Inv(s) && SignalsKnown(s) && p in s.data.completed
    ensures p in s.data.given
  {
    assert Places(s, p) == One(p in s.data.given);
    if s.data.deleted[p] == 0 {
      var j :| 0 <= j < |s.workers| && Signalled(s.workers[j].pc) == Some(p);
      HandCounts(s.workers, j, p);
    }
  }

  // ---------------------------------------------------------------- over runs of the pool alone

  predicate NoneTwice(q: seq<Ptr>) {
    forall j, k :: 0 <= j < k < |q| ==> q[j] != q[k]
  }

  lemma StepKeepsSignals(s: State, s': State)
    requires Inv(s) && SignalsKnown(s) && NoneTwice(s.data.completed) && Step(s, s')
    ensures SignalsKnown(s') && NoneTwice(s'.data.completed)
  {
    var e :| Can(s, e) && s' == Next(s, e);
    match e {
      case MainStep(c) => MainKeepsSignals(s, c);
      case WorkerStep(i, c) =>
        WorkerKeepsSignals(s, i, c);
        var m := WorkerMoves(s.workers[i], i, s.data.queue, c);
        DeletedGrows(s.data, m.effect, s.max, 0);
        if m.effect.Signal? {
          SignalsOnce(s, i, c);
        }
    }
  }

  /**
    In every run of the pool no action posts its completion event twice, and every action that has
    posted it was given to the pool.
   */
  lemma {:induction false} EachSignalsAtMostOnce(run: seq<State>, k: nat)
    requires IsRun(run) && k < |run|
    ensures SignalsKnown(run[k]) && NoneTwice(run[k].data.completed)
    ensures forall p :: p in run[k].data.completed ==> p in run[k].data.given
  {
    if k > 0 {
      EachSignalsAtMostOnce(run, k - 1);
      RunInv(run, k - 1);
      assert StepAt(run, k);
      StepKeepsSignals(run[k - 1], run[k]);
    }
    RunInv(run, k);
    forall p | p in run[k].data.completed ensures p in run[k].data.given {
      CompletedWereGiven(run[k], p);
    }
  }
}
