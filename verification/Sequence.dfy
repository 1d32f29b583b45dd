/**
  SequenceClass: steps run one at a time, driven by completion events. The class below is the
  source's; the functions on View say in closed form what each of its handlers does.
 */
module Sequence {
  type Ptr = nat

  /** A step as added: where it lives and what DoAsync answers. */
  datatype SeqStep = SeqStep(ptr: Ptr, isAsync: bool)

  datatype Notice = Start | Complete

  /**
    A sequence with the traces of what it did. A step is known by its serial number, its position
    in `added`. `freed` lists the steps the sequence deleted, `queued` those it gave to the pool,
    `inits` those whose Init it called, `posted` the events it posted.
   */
  datatype View = View(
    steps: seq<SeqStep>, isRunning: bool, isCurrentStepAsync: bool,
    added: seq<SeqStep>, freed: seq<nat>, queued: seq<nat>, inits: seq<nat>, posted: seq<Notice>)

  const NEW := View([], false, false, [], [], [], [], [])

  /** The serial number of the front step. */
  function FrontSerial(v: View): int {
    |v.added| - |v.steps|
  }

  function Range(a: int, b: int): seq<nat>
    requires 0 <= a
    decreases b - a
  {
    if a < b then Range(a, b - 1) + [b - 1] else []
  }

  // ---------------------------------------------------------------- the handlers in closed form

  /** The first step whose Init accepts; the number of steps when all decline. */
  function FirstAccepted(steps: seq<SeqStep>, declined: set<Ptr>): (k: nat)
    ensures k <= |steps|
  {
    if steps == [] || steps[0].ptr !in declined then 0 else 1 + FirstAccepted(steps[1..], declined)
  }

  /** All steps before the first accepting one decline, and it accepts. */
  lemma {:induction false} FirstAcceptedAt(steps: seq<SeqStep>, declined: set<Ptr>, n: nat)
    requires n <= FirstAccepted(steps, declined) && n < |steps|
    ensures steps[n].ptr in declined <==> n < FirstAccepted(steps, declined)
  {
    if steps[0].ptr in declined && n > 0 {
      FirstAcceptedAt(steps[1..], declined, n - 1);
    }
  }

  /** After the first n steps were asked and declined. */
  function Skipped(v: View, n: nat): View
    requires n <= |v.steps| <= |v.added|
  {
    var front := FrontSerial(v);
    v.(steps := v.steps[n..], isRunning := false, isCurrentStepAsync := n > 0 && v.steps[n - 1].isAsync,
       freed := v.freed + Range(front, front + n), inits := v.inits + Range(front, front + n))
  }

  /** The front step's Init was called. */
  function Asked(w: View): View
    requires w.steps != [] && |w.steps| <= |w.added|
  {
    w.(isCurrentStepAsync := w.steps[0].isAsync, inits := w.inits + [FrontSerial(w)])
  }

  /** The front step is deleted and removed. */
  function Dropped(w: View): View
    requires w.steps != [] && |w.steps| <= |w.added|
  {
    w.(steps := w.steps[1..], freed := w.freed + [FrontSerial(w)])
  }

  lemma SkipOne(v: View, n: nat)
    requires n < |v.steps| <= |v.added|
    ensures Skipped(v, n + 1) == Dropped(Asked(Skipped(v, n)))
  {
    var front := FrontSerial(v);
    assert Range(front, front + n + 1) == Range(front, front + n) + [front + n];
  }

  /** The front step initialised and running; an asynchronous one is in the pool. */
  function Accepted(w: View): View
    requires w.steps != [] && |w.steps| <= |w.added|
  {
    Asked(w).(isRunning := true, queued := if w.steps[0].isAsync then w.queued + [FrontSerial(w)] else w.queued)
  }

  /** RunNextStep: the declining steps are deleted, the first accepting one runs; if there is none the sequence is over. */
  function Advanced(v: View, declined: set<Ptr>): View
    requires |v.steps| <= |v.added|
  {
    if v.steps == [] then v
    else
      var k := FirstAccepted(v.steps, declined);
      var w := Skipped(v, k);
      if k == |v.steps| then w.(posted := v.posted + [Complete]) else Accepted(w)
  }

  lemma AdvancedAt(v: View, n: nat, declined: set<Ptr>)
    requires n <= |v.steps| <= |v.added| && v.steps != [] && n <= FirstAccepted(v.steps, declined)
    requires n < |v.steps| ==> v.steps[n].ptr !in declined
    ensures Advanced(v, declined) ==
      if n == |v.steps| then Skipped(v, n).(posted := v.posted + [Complete]) else Accepted(Skipped(v, n))
  {
    if n < |v.steps| {
      FirstAcceptedAt(v.steps, declined, n);
    }
  }

  /** The front step is over: deleted unless the pool does that. */
  function Popped(v: View): View
    requires v.steps != [] && |v.steps| <= |v.added|
  {
    if v.isCurrentStepAsync then v.(steps := v.steps[1..]) else Dropped(v)
  }

  /** OnActionComplete. */
  function Completed(v: View, declined: set<Ptr>): View
    requires |v.steps| <= |v.added|
  {
    if |v.steps| > 1 then Advanced(Popped(v).(isRunning := true), declined)
    else
      var w := if v.steps == [] then v else Popped(v);
      w.(isRunning := false, posted := v.posted + [Complete])
  }

  /** Stop: the front as above, the others are deleted unrun. */
  function Stopped(v: View): View
    requires |v.steps| <= |v.added|
  {
    var first := FrontSerial(v) + if v.steps != [] && v.isCurrentStepAsync then 1 else 0;
    v.(steps := [], isRunning := false, freed := v.freed + Range(first, |v.added|), posted := v.posted + [Complete])
  }

  /** The steps appended and START posted. */
  function WithSteps(v: View, actions: seq<SeqStep>): View {
    v.(steps := v.steps + actions, added := v.added + actions, posted := v.posted + [Start], isRunning := false)
  }

  /** Build, and AppStart and the other named sequences with their own lists of actions. */
  function Built(v: View, actions: seq<SeqStep>, declined: set<Ptr>): View
    requires |v.steps| <= |v.added|
  {
    if v.isRunning then v else Advanced(WithSteps(v, actions), declined)
  }

  // ---------------------------------------------------------------- the class

  /**
    `declined` stands for the answers of the steps' virtual Init methods: those of the steps in it
    return false. Each step's Init is asked at most once (InitsInOrder).
   */
  class SequenceClass {
    var Steps: seq<SeqStep>
    var IsRunning: bool
    var IsCurrentStepAsync: bool
    // traces
    var Added: seq<SeqStep>
    var Freed: seq<nat>
    var Queued: seq<nat>
    var Inits: seq<nat>
    var Posted: seq<Notice>

    function Contents(): View
      reads this
    {
      View(Steps, IsRunning, IsCurrentStepAsync, Added, Freed, Queued, Inits, Posted)
    }

    constructor ()
      ensures Contents() == NEW
    {
      Steps, IsRunning, IsCurrentStepAsync := [], false, false;
      Added, Freed, Queued, Inits, Posted := [], [], [], [], [];
    }

    function Front(): int
      reads this
    {
      |Added| - |Steps|
    }

    method AddStep(step: SeqStep)
      modifies this`Steps, this`Added
      ensures Contents() == old(Contents()).(steps := old(Steps) + [step], added := old(Added) + [step])
    {
      Steps := Steps + [step];
      Added := Added + [step];
    }

    /** delete Steps.front() and pop it */
    method DeleteFront()
      requires Steps != [] && |Steps| <= |Added|
      modifies this`Freed, this`Steps
      ensures Contents() == Dropped(old(Contents()))
    {
      Freed := Freed + [|Added| - |Steps|];
      Steps := Steps[1..];
    }

    /** Ask the front step to initialise; an asynchronous one that accepts goes to the pool. */
    method InitFront(declined: set<Ptr>) returns (isInit: bool)
      requires Steps != [] && |Steps| <= |Added|
      modifies this`IsRunning, this`IsCurrentStepAsync, this`Queued, this`Inits
      ensures isInit == (old(Steps)[0].ptr !in declined)
      ensures Contents() == if isInit then Accepted(old(Contents())) else Asked(old(Contents()))
    {
      IsCurrentStepAsync := Steps[0].isAsync;
      Inits := Inits + [|Added| - |Steps|];
      isInit := Steps[0].ptr !in declined;
      if isInit {
        if IsCurrentStepAsync {
          Queued := Queued + [|Added| - |Steps|];
        }
        IsRunning := true;
      }
    }

    method RunNextStep(declined: set<Ptr>)
      requires |Steps| <= |Added|
      modifies this
      ensures Contents() == Advanced(old(Contents()), declined)
    {
      if Steps == [] {
        return;
      }
      IsRunning := false;
      IsCurrentStepAsync := false;
      var isSequenceDone := false;
      ghost var v := old(Contents());
      ghost var n := 0;
      while Steps != []
        invariant n <= FirstAccepted(v.steps, declined) && Contents() == Skipped(v, n)
        invariant isSequenceDone <==> Steps == []
        decreases |Steps|
      {
        FirstAcceptedAt(v.steps, declined, n);
        var isInit := InitFront(declined);
        if isInit {
          assert Contents() == Accepted(Skipped(v, n));
          AdvancedAt(v, n, declined);
          break;
        }
        DeleteFront();
        SkipOne(v, n);
        n := n + 1;
        if Steps == [] {
          isSequenceDone := true;
        }
      }
      if isSequenceDone {
        AdvancedAt(v, n, declined);
        Posted := Posted + [Complete];
      }
    }

    method Run(declined: set<Ptr>)
      requires |Steps| <= |Added|
      modifies this
      ensures Contents() == Advanced(old(Contents()).(isRunning := false, posted := old(Posted) + [Start]), declined)
    {
      Posted := Posted + [Start];
      IsRunning := false;
      RunNextStep(declined);
    }

    method OnActionComplete(declined: set<Ptr>)
      requires |Steps| <= |Added|
      modifies this
      ensures Contents() == Completed(old(Contents()), declined)
    {
      if Steps != [] {
        if !IsCurrentStepAsync {
          DeleteFront();
        } else {
          Steps := Steps[1..];
        }
      }
      IsRunning := Steps != [];
      if IsRunning {
        RunNextStep(declined);
      } else {
        Posted := Posted + [Complete];
      }
    }

    method Stop()
      requires |Steps| <= |Added|
      modifies this
      ensures Contents() == Stopped(old(Contents()))
    {
      ghost var v := old(Contents());
      ghost var first := FrontSerial(v) + if v.steps != [] && v.isCurrentStepAsync then 1 else 0;
      if Steps != [] {
        if !IsCurrentStepAsync {
          DeleteFront();
        } else {
          Steps := Steps[1..];
        }
      }
      while Steps != []
        invariant |Steps| <= |Added| && Front() >= first
        invariant Freed == v.freed + Range(first, Front())
        invariant Contents() == v.(steps := Steps, freed := Freed)
        decreases |Steps|
      {
        DeleteFront();
      }
      IsRunning := false;
      Posted := Posted + [Complete];
    }

    method Build(actions: seq<SeqStep>, declined: set<Ptr>) returns (started: bool)
      requires |Steps| <= |Added|
      modifies this
      ensures started == !old(IsRunning)
      ensures Contents() == Built(old(Contents()), actions, declined)
    {
      if IsRunning {
        return false;
      }
      var i := 0;
      while i < |actions|
        invariant i <= |actions|
        invariant Contents() == old(Contents()).(steps := old(Steps) + actions[..i], added := old(Added) + actions[..i])
      {
        AddStep(actions[i]);
        i := i + 1;
        assert actions[..i] == actions[..i - 1] + [actions[i - 1]];
      }
      assert actions[..i] == actions;
      Run(declined);
      started := true;
    }
  }
}
