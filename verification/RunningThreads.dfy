/**
  The bodies that RunningThreadsClass runs under its queue mutex, in the form of the source: a
  queue of owned actions pushed, popped and rebuilt by loops. The state machine in module Pool
  takes the same loops one iteration at a time.
 */
module RunningThreads {
  import opened Pool
  import opened PoolOwnership

  class RunningThreadsClass {
    var Actions: seq<Ptr>
    var ActionIds: map<Ptr, int>
    var NextActionId: int
    /** RunningAction of each thread. */
    var ThreadActions: seq<Option<Ptr>>
    /** The actions whose Cancelled flag is set. */
    var Cancelled: set<Ptr>
    /** Every delete so far. */
    var Deleted: multiset<Ptr>

    constructor ()
      ensures Actions == [] && ActionIds == map[] && NextActionId == 0 && ThreadActions == []
      ensures Cancelled == {} && Deleted == multiset{}
    {
      Actions, ActionIds, NextActionId, ThreadActions, Cancelled, Deleted := [], map[], 0, [], {}, multiset{};
    }

    /** Queue: the action goes to the back and gets the next id. */
    method Queue(action: Ptr) returns (actionId: int)
      modifies this`Actions, this`ActionIds, this`NextActionId
      ensures Actions == old(Actions) + [action]
      ensures actionId == old(NextActionId) && NextActionId == actionId + 1
      ensures ActionIds == old(ActionIds)[action := actionId]
    {
      Actions := Actions + [action];
      actionId := NextActionId;
      NextActionId := NextActionId + 1;
      ActionIds := ActionIds[action := actionId];
    }

    /** NextAction: the front leaves the queue and becomes the thread's RunningAction, null when there is none. */
    method NextAction(thread: nat) returns (action: Option<Ptr>)
      requires thread < |ThreadActions|
      modifies this`Actions, this`ThreadActions
      ensures action == Front(old(Actions)) && Actions == Tail(old(Actions))
      ensures ThreadActions == old(ThreadActions)[thread := action]
    {
      action := None;
      if Actions != [] {
        action := Some(Actions[0]);
        Actions := Actions[1..];
      }
      ThreadActions := ThreadActions[thread := action];
    }

    /** CancelAction, which leaves everything as it is when nothing is queued. */
    method CancelAction(actionId: int)
      modifies this`Actions, this`Cancelled, this`Deleted
      ensures Actions == Keep(old(Actions), ActionIds, actionId)
      ensures forall p :: Deleted[p] == old(Deleted)[p] + if IdOf(ActionIds, p) == actionId then Count(old(Actions), p) else 0
      ensures forall p :: p in Cancelled <==>
        p in old(Cancelled) || (old(Actions) != [] && Some(p) in ThreadActions && IdOf(ActionIds, p) == actionId)
    {
      if Actions == [] {
        return;
      }
      DeleteQueued(actionId);
      CancelRunningIf(actionId);
      AimsAreRunning(ThreadActions, ActionIds, actionId);
    }

    /** The two queue loops of CancelAction. */
    method DeleteQueued(actionId: int)
      modifies this`Actions, this`Deleted
      ensures Actions == Keep(old(Actions), ActionIds, actionId)
      ensures forall p :: Deleted[p] == old(Deleted)[p] + CountWithId(old(Actions), ActionIds, actionId, p)
    {
      var checked: seq<Ptr> := [];
      ghost var orig := Actions;
      ghost var none := orig[..|orig| - |Actions|];
      assert none == [] && forall p :: CountWithId(none, ActionIds, actionId, p) == 0;
      while Actions != []
        invariant |Actions| <= |orig| && Actions == orig[|orig| - |Actions|..]
        invariant checked == Keep(orig[..|orig| - |Actions|], ActionIds, actionId)
        invariant forall p :: Deleted[p] == old(Deleted)[p] + CountWithId(orig[..|orig| - |Actions|], ActionIds, actionId, p)
        decreases |Actions|
      {
        ghost var k := |orig| - |Actions|;
        assert orig[..k + 1][..k] == orig[..k];
        var action := Actions[0];
        if IdOf(ActionIds, action) != actionId {
          checked := checked + [action];
        } else {
          Deleted := Deleted + multiset{action};
        }
        Actions := Actions[1..];
      }
      assert orig[..|orig|] == orig;
      ghost var deleted := Deleted;
      while checked != []
        invariant Actions + checked == Keep(orig, ActionIds, actionId) && Deleted == deleted
        decreases |checked|
      {
        assert Actions + checked == (Actions + [checked[0]]) + checked[1..];
        Actions := Actions + [checked[0]];
        checked := checked[1..];
      }
    }

    /** CancelRunningActionIf on every thread. */
    method CancelRunningIf(actionId: int)
      modifies this`Cancelled
      ensures Cancelled == old(Cancelled) + Aims(ThreadActions, ActionIds, actionId)
    {
      var thread := 0;
      while thread < |ThreadActions|
        invariant thread <= |ThreadActions|
        invariant Cancelled == old(Cancelled) + Aims(ThreadActions[..thread], ActionIds, actionId)
      {
        assert ThreadActions[..thread + 1][..thread] == ThreadActions[..thread];
        var running := ThreadActions[thread];
        if running.Some? && IdOf(ActionIds, running.value) == actionId {
          Cancelled := Cancelled + {running.value};
        }
        thread := thread + 1;
      }
      assert ThreadActions[..|ThreadActions|] == ThreadActions;
    }

    /** CleanupAllActions, which StopAll does as well. */
    method CleanupAllActions()
      modifies this`Actions, this`Deleted
      ensures Actions == []
      ensures forall p :: Deleted[p] == old(Deleted)[p] + Count(old(Actions), p)
    {
      while Actions != []
        invariant forall p :: Deleted[p] + Count(Actions, p) == old(Deleted)[p] + Count(old(Actions), p)
        decreases |Actions|
      {
        forall p ensures Count(Actions, p) == One(Actions[0] == p) + Count(Actions[1..], p) {
          CountTail(Actions, p);
        }
        Deleted := Deleted + multiset{Actions[0]};
        Actions := Actions[1..];
      }
    }
  }

  /** How often p is in the queue, if it has that id. */
  function CountWithId(q: seq<Ptr>, ids: map<Ptr, int>, id: int, p: Ptr): nat {
    if IdOf(ids, p) == id then Count(q, p) else 0
  }

  /** The running actions with that id. */
  function Aims(threads: seq<Option<Ptr>>, ids: map<Ptr, int>, id: int): set<Ptr> {
    if threads == [] then {}
    else
      var last := threads[|threads| - 1];
      Aims(threads[..|threads| - 1], ids, id)
      + if last.Some? && IdOf(ids, last.value) == id then {last.value} else {}
  }

  lemma {:induction false} AimsAreRunning(threads: seq<Option<Ptr>>, ids: map<Ptr, int>, id: int)
    ensures forall p :: p in Aims(threads, ids, id) <==> Some(p) in threads && IdOf(ids, p) == id
  {
    if threads != [] {
      AimsAreRunning(threads[..|threads| - 1], ids, id);
      assert threads == threads[..|threads| - 1] + [threads[|threads| - 1]];
    }
  }
}
