/** The scheduler of internal/task/scheduler.go: a control section guarded by a
    mutex, a trigger channel with room for one token, and one goroutine for each
    started loop. Properties are stated for each loop, since a Start during a
    pending Stop launches a second one. */
module Scheduler {
  import opened Basics

  datatype Phase = Waiting | Running | Done

  /** `cancelled` is the state of the loop's own context. */
  datatype Loop = Loop(phase: Phase, cancelled: bool)

  /** A call of Stop: which loop it took under the mutex, and how far it got. */
  datatype StopStage = Took | AwaitsDone | Returned
  datatype StopCall = StopCall(loop: Option<nat>, stage: StopStage)

  datatype State = State(current: Option<nat>, token: bool, loops: seq<Loop>, stops: seq<StopCall>)

  datatype Step =
    | Start
    | Trigger
    | StopTakes           // Stop, under the mutex
    | StopCancels(k: nat) // Stop, after unlocking
    | StopReturns(k: nat) // Stop, once the loop's done channel is closed
    | ContextEnds(l: nat) // the caller's context is cancelled
    | TakeToken(l: nat)   // the loop receives a token and starts a run
    | TimerFires(l: nat)  // the loop's timer fires and starts a run
    | RunEnds(l: nat)
    | LoopExits(l: nat)

  const INITIAL := State(None, false, [], [])

  predicate Enabled(s: State, step: Step) {
    match step
    case StopCancels(k) => k < |s.stops| && s.stops[k].stage.Took?
    case StopReturns(k) =>
      && k < |s.stops| && s.stops[k].stage.AwaitsDone?
      && (s.stops[k].loop.Some? ==>
            s.stops[k].loop.value < |s.loops| && s.loops[s.stops[k].loop.value].phase.Done?)
    case ContextEnds(l) => l < |s.loops|
    case TakeToken(l) => l < |s.loops| && s.loops[l].phase.Waiting? && s.token
    case TimerFires(l) => l < |s.loops| && s.loops[l].phase.Waiting?
    case RunEnds(l) => l < |s.loops| && s.loops[l].phase.Running?
    case LoopExits(l) => l < |s.loops| && s.loops[l].phase.Waiting? && s.loops[l].cancelled
    case _ => true
  }

  function Cancelled(loops: seq<Loop>, l: Option<nat>): seq<Loop> {
    if l.Some? && l.value < |loops| then loops[l.value := loops[l.value].(cancelled := true)] else loops
  }

  function InPhase(s: State, l: nat, phase: Phase): State
    requires l < |s.loops|
  {
    s.(loops := s.loops[l := s.loops[l].(phase := phase)])
  }

  function Next(s: State, step: Step): State
    requires Enabled(s, step)
  {
    match step
    case Start =>
      if s.current.Some? then s
      else s.(current := Some(|s.loops|), loops := s.loops + [Loop(Waiting, false)])
    case Trigger => s.(token := true)
    case StopTakes => s.(current := None, stops := s.stops + [StopCall(s.current, Took)])
    case StopCancels(k) =>
      s.(loops := Cancelled(s.loops, s.stops[k].loop), stops := s.stops[k := s.stops[k].(stage := AwaitsDone)])
    case StopReturns(k) => s.(stops := s.stops[k := s.stops[k].(stage := Returned)])
    case ContextEnds(l) => s.(loops := Cancelled(s.loops, Some(l)))
    case TakeToken(l) => InPhase(s.(token := false), l, Running)
    case TimerFires(l) => InPhase(s, l, Running)
    case RunEnds(l) => InPhase(s, l, Waiting)
    case LoopExits(l) => InPhase(s, l, Done)
  }

  // ----------------------------------------------------------- the class

  class TaskScheduler {
    var cancel: Option<nat>
    var trigger: bool
    var loops: seq<Loop>
    var stops: seq<StopCall>

    function Current(): State
      reads this
    {
      State(cancel, trigger, loops, stops)
    }

    constructor ()
      ensures Current() == INITIAL
    {
      cancel, trigger, loops, stops := None, false, [], [];
    }

    method Launch()
      modifies this
      ensures Current() == Next(old(Current()), Start)
    {
      if cancel.Some? { return; }
      cancel := Some(|loops|);
      loops := loops + [Loop(Waiting, false)];
    }

    method Signal()
      modifies this
      ensures Current() == Next(old(Current()), Trigger)
    {
      if !trigger { trigger := true; }
    }

    method StopTake() returns (k: nat)
      modifies this
      ensures Current() == Next(old(Current()), StopTakes) && k == |old(stops)|
    {
      k := |stops|;
      stops := stops + [StopCall(cancel, Took)];
      cancel := None;
    }

    method StopCancel(k: nat)
      requires Enabled(Current(), StopCancels(k))
      modifies this
      ensures Current() == Next(old(Current()), StopCancels(k))
    {
      if stops[k].loop.Some? && stops[k].loop.value < |loops| {
        var l := stops[k].loop.value;
        loops := loops[l := loops[l].(cancelled := true)];
      }
      stops := stops[k := stops[k].(stage := AwaitsDone)];
    }

    /** One turn of a loop's select, by the arm named. */
    method Turn(l: nat, arm: Step)
      requires arm in {TakeToken(l), TimerFires(l), LoopExits(l)} && Enabled(Current(), arm)
      modifies this
      ensures Current() == Next(old(Current()), arm)
    {
      match arm
      case TakeToken(_) =>
        trigger := false;
        loops := loops[l := loops[l].(phase := Running)];
      case TimerFires(_) =>
        loops := loops[l := loops[l].(phase := Running)];
      case LoopExits(_) =>
        loops := loops[l := loops[l].(phase := Done)];
    }

    method FinishRun(l: nat)
      requires Enabled(Current(), RunEnds(l))
      modifies this
      ensures Current() == Next(old(Current()), RunEnds(l))
    {
      loops := loops[l := loops[l].(phase := Waiting)];
    }
  }

  // ---------------------------------------------------------------- runs

  ghost predicate Run(states: seq<State>, steps: seq<Step>) {
    && |states| == |steps| + 1
    && states[0] == INITIAL
    && forall i :: 0 <= i < |steps| ==> Enabled(states[i], steps[i]) && states[i + 1] == Next(states[i], steps[i])
  }

  predicate StartsRun(step: Step, l: nat) {
    step == TakeToken(l) || step == TimerFires(l)
  }

  lemma StepKeepsToken(s: State, step: Step)
    requires Enabled(s, step) && s.token && !step.TakeToken?
    ensures Next(s, step).token
  {
  }

  /** No trigger is lost: it is still held as the token, or a run was started
      with a token after it. */
  lemma {:induction false} TriggerIsNotLost(states: seq<State>, steps: seq<Step>, i: nat, j: nat)
    requires Run(states, steps) && i < j <= |steps| && steps[i].Trigger?
    ensures states[j].token || exists k :: i < k < j && steps[k].TakeToken?
    decreases j
  {
    if i + 1 < j {
      TriggerIsNotLost(states, steps, i, j - 1);
      if states[j - 1].token && !steps[j - 1].TakeToken? {
        StepKeepsToken(states[j - 1], steps[j - 1]);
      }
    }
  }

  ghost function Triggers(steps: seq<Step>, n: nat): nat
    requires n <= |steps|
  {
    if n == 0 then 0 else Triggers(steps, n - 1) + if steps[n - 1].Trigger? then 1 else 0
  }

  ghost function TokenRuns(steps: seq<Step>, n: nat): nat
    requires n <= |steps|
  {
    if n == 0 then 0 else TokenRuns(steps, n - 1) + if steps[n - 1].TakeToken? then 1 else 0
  }

  lemma TokenNeedsTrigger(s: State, step: Step)
    requires Enabled(s, step) && Next(s, step).token
    ensures step.Trigger? || (s.token && !step.TakeToken?)
  {
  }

  /** Triggers coalesce but never multiply. */
  lemma {:induction false} TokenRunsNeverExceedTriggers(states: seq<State>, steps: seq<Step>, n: nat)
    requires Run(states, steps) && n <= |steps|
    ensures TokenRuns(steps, n) + (if states[n].token then 1 else 0) <= Triggers(steps, n)
  {
    if n > 0 {
      TokenRunsNeverExceedTriggers(states, steps, n - 1);
      if states[n].token {
        TokenNeedsTrigger(states[n - 1], steps[n - 1]);
      }
    }
  }

  lemma StepKeepsLoop(s: State, step: Step, l: nat)
    requires Enabled(s, step) && l < |s.loops|
    ensures l < |Next(s, step).loops|
    ensures s.loops[l].phase.Running? && step != RunEnds(l) ==> Next(s, step).loops[l].phase.Running?
    ensures s.loops[l].phase.Done? ==> Next(s, step).loops[l].phase.Done?
    ensures s.loops[l].cancelled ==> Next(s, step).loops[l].cancelled
  {
  }

  lemma {:induction false} RunningUntilItEnds(states: seq<State>, steps: seq<Step>, i: nat, j: nat, l: nat)
    requires Run(states, steps) && i < j <= |steps| && StartsRun(steps[i], l)
    requires forall k :: i < k < j ==> steps[k] != RunEnds(l)
    ensures l < |states[j].loops| && states[j].loops[l].phase.Running?
    decreases j
  {
    if i + 1 < j {
      RunningUntilItEnds(states, steps, i, j - 1, l);
      StepKeepsLoop(states[j - 1], steps[j - 1], l);
    }
  }

  /** Runs of one loop never overlap: between two starts lies an end. */
  lemma RunsOfALoopDoNotOverlap(states: seq<State>, steps: seq<Step>, i: nat, j: nat, l: nat)
    requires Run(states, steps) && i < j < |steps|
    requires StartsRun(steps[i], l) && StartsRun(steps[j], l)
    ensures exists k :: i < k < j && steps[k] == RunEnds(l)
  {
    if forall k :: i < k < j ==> steps[k] != RunEnds(l) {
      RunningUntilItEnds(states, steps, i, j, l);
    }
  }

  lemma {:induction false} DoneForGood(states: seq<State>, steps: seq<Step>, i: nat, j: nat, l: nat)
    requires Run(states, steps) && i <= j <= |steps|
    requires l < |states[i].loops| && states[i].loops[l].phase.Done?
    ensures l < |states[j].loops| && states[j].loops[l].phase.Done?
    decreases j
  {
    if i < j {
      DoneForGood(states, steps, i, j - 1, l);
      StepKeepsLoop(states[j - 1], steps[j - 1], l);
    }
  }

  /** When the Stop that took a loop returns, that loop is in no run and never
      starts one again. */
  lemma StopReturnsAfterTheLastRun(states: seq<State>, steps: seq<Step>, i: nat, j: nat, k: nat, l: nat)
    requires Run(states, steps) && i < j < |steps|
    requires steps[i] == StopReturns(k) && states[i].stops[k].loop == Some(l)
    ensures !StartsRun(steps[j], l) && steps[j] != RunEnds(l)
  {
    DoneForGood(states, steps, i, j, l);
  }

  /** The loop a Stop took has been cancelled before the Stop returns. */
  ghost predicate StopsCancelled(s: State) {
    forall k :: 0 <= k < |s.stops| && s.stops[k].loop.Some? ==>
      s.stops[k].loop.value < |s.loops|
      && (!s.stops[k].stage.Took? ==> s.loops[s.stops[k].loop.value].cancelled)
  }

  /** Every loop is the current one or was taken by exactly one Stop. */
  ghost predicate TakenOnce(s: State) {
    && (s.current.Some? ==> s.current.value < |s.loops|)
    && (forall k :: 0 <= k < |s.stops| && s.stops[k].loop.Some? ==> s.stops[k].loop != s.current)
    && (forall j, k :: 0 <= j < k < |s.stops| && s.stops[j].loop.Some? ==> s.stops[j].loop != s.stops[k].loop)
    && (forall l: nat :: l < |s.loops| && s.current != Some(l) ==>
          exists k :: 0 <= k < |s.stops| && s.stops[k].loop == Some(l))
  }

  lemma StopKeepsOwnership(s: State)
    requires TakenOnce(s)
    ensures TakenOnce(Next(s, StopTakes))
  {
    var t := Next(s, StopTakes);
    forall l: nat | l < |t.loops| ensures exists k :: 0 <= k < |t.stops| && t.stops[k].loop == Some(l) {
      if s.current == Some(l) {
        assert t.stops[|s.stops|].loop == Some(l);
      } else {
        var k :| 0 <= k < |s.stops| && s.stops[k].loop == Some(l);
        assert t.stops[k] == s.stops[k];
      }
    }
  }

  lemma SameStopsSameOwners(s: State, t: State)
    requires TakenOnce(s) && t.current == s.current && |t.loops| == |s.loops| && |t.stops| == |s.stops|
    requires forall k :: 0 <= k < |s.stops| ==> t.stops[k].loop == s.stops[k].loop
    ensures TakenOnce(t)
  {
    forall l: nat | l < |t.loops| && t.current != Some(l)
      ensures exists k :: 0 <= k < |t.stops| && t.stops[k].loop == Some(l)
    {
      var k :| 0 <= k < |s.stops| && s.stops[k].loop == Some(l);
      assert t.stops[k].loop == Some(l);
    }
  }

  lemma StartKeepsOwnership(s: State)
    requires TakenOnce(s) && StopsCancelled(s)
    ensures TakenOnce(Next(s, Start))
  {
    if s.current.None? {
      var t := Next(s, Start);
      forall l: nat | l < |s.loops| ensures exists k :: 0 <= k < |t.stops| && t.stops[k].loop == Some(l) {
        assert l < |s.loops| && s.current != Some(l);
        var k :| 0 <= k < |s.stops| && s.stops[k].loop == Some(l);
        assert t.stops[k] == s.stops[k];
      }
    }
  }

  lemma StepKeepsStopsCancelled(s: State, step: Step)
    requires TakenOnce(s) && StopsCancelled(s) && Enabled(s, step)
    ensures StopsCancelled(Next(s, step))
  {
    var t := Next(s, step);
    forall k | 0 <= k < |t.stops| && t.stops[k].loop.Some?
      ensures t.stops[k].loop.value < |t.loops|
      ensures !t.stops[k].stage.Took? ==> t.loops[t.stops[k].loop.value].cancelled
    {
      if k < |s.stops| {
        assert t.stops[k].loop == s.stops[k].loop;
        StepKeepsLoop(s, step, s.stops[k].loop.value);
      }
    }
  }

  lemma StepKeepsShape(s: State, step: Step)
    requires Enabled(s, step) && !step.Start? && !step.StopTakes?
    ensures var t := Next(s, step);
            && t.current == s.current && |t.loops| == |s.loops| && |t.stops| == |s.stops|
            && forall k :: 0 <= k < |s.stops| ==> t.stops[k].loop == s.stops[k].loop
  {
  }

  lemma StepKeepsOwnership(s: State, step: Step)
    requires TakenOnce(s) && StopsCancelled(s) && Enabled(s, step)
    ensures TakenOnce(Next(s, step))
  {
    if step.Start? {
      StartKeepsOwnership(s);
    } else if step.StopTakes? {
      StopKeepsOwnership(s);
    } else {
      StepKeepsShape(s, step);
      SameStopsSameOwners(s, Next(s, step));
    }
  }

  lemma {:induction false} EveryLoopHasOneOwner(states: seq<State>, steps: seq<Step>, n: nat)
    requires Run(states, steps) && n < |states|
    ensures TakenOnce(states[n]) && StopsCancelled(states[n])
  {
    if n > 0 {
      EveryLoopHasOneOwner(states, steps, n - 1);
      StepKeepsOwnership(states[n - 1], steps[n - 1]);
      StepKeepsStopsCancelled(states[n - 1], steps[n - 1]);
    }
  }

  // ------------------------------------------------- the life of a loop

  lemma StepKeepsWaiting(s: State, step: Step, l: nat)
    requires Enabled(s, step) && l < |s.loops| && s.loops[l].phase.Waiting?
    requires !StartsRun(step, l) && step != LoopExits(l)
    ensures l < |Next(s, step).loops| && Next(s, step).loops[l].phase.Waiting?
  {
  }

  /** A loop that has finished a run waits for the next trigger or timer, until it
      starts another run or exits. */
  lemma {:induction false} WaitsAfterARun(states: seq<State>, steps: seq<Step>, i: nat, j: nat, l: nat)
    requires Run(states, steps) && i < j <= |steps| && steps[i] == RunEnds(l)
    requires forall k :: i < k < j ==> !StartsRun(steps[k], l) && steps[k] != LoopExits(l)
    ensures l < |states[j].loops| && states[j].loops[l].phase.Waiting?
    decreases j
  {
    if i + 1 < j {
      WaitsAfterARun(states, steps, i, j - 1, l);
      StepKeepsWaiting(states[j - 1], steps[j - 1], l);
    }
  }

  /** The step cancels loop l: its context ends, or a Stop that took it cancels it. */
  predicate CancelsLoop(s: State, step: Step, l: nat) {
    step == ContextEnds(l)
    || (step.StopCancels? && step.k < |s.stops| && s.stops[step.k].loop == Some(l))
  }

  lemma StepCancels(s: State, step: Step, l: nat)
    requires Enabled(s, step) && l < |Next(s, step).loops|
    ensures Next(s, step).loops[l].cancelled
       <==> (l < |s.loops| && s.loops[l].cancelled) || (l < |s.loops| && CancelsLoop(s, step, l))
    ensures Next(s, step).loops[l].phase.Done?
       <==> (l < |s.loops| && s.loops[l].phase.Done?) || step == LoopExits(l)
  {
  }

  /** Among the first n steps, one has cancelled loop l. */
  ghost predicate WasCancelled(states: seq<State>, steps: seq<Step>, n: nat, l: nat)
    requires n <= |steps| < |states|
  {
    exists k :: 0 <= k < n && l < |states[k].loops| && CancelsLoop(states[k], steps[k], l)
  }

  lemma WasCancelledSnoc(states: seq<State>, steps: seq<Step>, n: nat, l: nat)
    requires 0 < n <= |steps| < |states|
    ensures WasCancelled(states, steps, n, l)
       <==> WasCancelled(states, steps, n - 1, l)
            || (l < |states[n - 1].loops| && CancelsLoop(states[n - 1], steps[n - 1], l))
  {
  }

  /** A loop is cancelled exactly when its context has ended or a Stop that took it has
      cancelled it. */
  lemma {:induction false} CancelledExactly(states: seq<State>, steps: seq<Step>, n: nat, l: nat)
    requires Run(states, steps) && n <= |steps| && l < |states[n].loops|
    ensures states[n].loops[l].cancelled <==> WasCancelled(states, steps, n, l)
  {
    if n > 0 {
      StepCancels(states[n - 1], steps[n - 1], l);
      WasCancelledSnoc(states, steps, n, l);
      if l < |states[n - 1].loops| {
        CancelledExactly(states, steps, n - 1, l);
      } else {
        LoopsOnlyGrow(states, steps, n - 1, l);
      }
    }
  }

  /** A loop is done exactly when it has exited. */
  lemma {:induction false} DoneExactly(states: seq<State>, steps: seq<Step>, n: nat, l: nat)
    requires Run(states, steps) && n <= |steps| && l < |states[n].loops|
    ensures states[n].loops[l].phase.Done? <==> exists k :: 0 <= k < n && steps[k] == LoopExits(l)
  {
    if n > 0 {
      StepCancels(states[n - 1], steps[n - 1], l);
      if l < |states[n - 1].loops| {
        DoneExactly(states, steps, n - 1, l);
      } else {
        LoopsOnlyGrow(states, steps, n - 1, l);
      }
    }
  }

  lemma ExitsOnlyCancelled(s: State, step: Step, l: nat)
    requires Enabled(s, step) && l < |Next(s, step).loops|
    requires l < |s.loops| && s.loops[l].phase.Done? ==> s.loops[l].cancelled
    ensures Next(s, step).loops[l].phase.Done? ==> Next(s, step).loops[l].cancelled
  {
  }

  /** A loop ends only when it has been cancelled: no run, trigger or timer ends it. */
  lemma {:induction false} LoopsEndOnlyWhenCancelled(states: seq<State>, steps: seq<Step>, n: nat, l: nat)
    requires Run(states, steps) && n <= |steps| && l < |states[n].loops|
    ensures states[n].loops[l].phase.Done? ==> WasCancelled(states, steps, n, l)
  {
    CancelledExactly(states, steps, n, l);
    DoneLoopsAreCancelled(states, steps, n, l);
  }

  lemma {:induction false} DoneLoopsAreCancelled(states: seq<State>, steps: seq<Step>, n: nat, l: nat)
    requires Run(states, steps) && n <= |steps| && l < |states[n].loops|
    ensures states[n].loops[l].phase.Done? ==> states[n].loops[l].cancelled
  {
    if n > 0 {
      if l < |states[n - 1].loops| {
        DoneLoopsAreCancelled(states, steps, n - 1, l);
      }
      ExitsOnlyCancelled(states[n - 1], steps[n - 1], l);
    }
  }

  lemma StepAddsLoops(s: State, step: Step)
    requires Enabled(s, step)
    ensures |s.loops| <= |Next(s, step).loops|
  {
  }

  /** Before a loop is launched no step concerns it. */
  lemma {:induction false} LoopsOnlyGrow(states: seq<State>, steps: seq<Step>, n: nat, l: nat)
    requires Run(states, steps) && n < |states| && l >= |states[n].loops|
    ensures forall k :: 0 <= k <= n ==> |states[k].loops| <= l
    ensures forall k :: 0 <= k < n ==> steps[k] != LoopExits(l)
  {
    if n > 0 {
      StepAddsLoops(states[n - 1], steps[n - 1]);
      LoopsOnlyGrow(states, steps, n - 1, l);
    }
  }

  // ------------------------------------------------- the life of a Stop

  lemma StepOfStop(s: State, step: Step, k: nat)
    requires Enabled(s, step) && k < |s.stops|
    ensures k < |Next(s, step).stops|
    ensures Next(s, step).stops[k].stage.Took? <==> s.stops[k].stage.Took? && step != StopCancels(k)
    ensures Next(s, step).stops[k].stage.Returned? <==> s.stops[k].stage.Returned? || step == StopReturns(k)
  {
  }

  /** Of the steps after i, up to n, one returns the Stop. */
  predicate ReturnsWithin(steps: seq<Step>, i: nat, n: nat, k: nat)
    requires n <= |steps|
  {
    exists j :: i < j < n && steps[j] == StopReturns(k)
  }

  /** Of the steps after i, up to n, one cancels for the Stop. */
  predicate CancelsWithin(steps: seq<Step>, i: nat, n: nat, k: nat)
    requires n <= |steps|
  {
    exists j :: i < j < n && steps[j] == StopCancels(k)
  }

  lemma OneMoreWithin(steps: seq<Step>, i: nat, n: nat, k: nat)
    requires i + 1 < n <= |steps|
    ensures ReturnsWithin(steps, i, n, k) <==> ReturnsWithin(steps, i, n - 1, k) || steps[n - 1] == StopReturns(k)
    ensures CancelsWithin(steps, i, n, k) <==> CancelsWithin(steps, i, n - 1, k) || steps[n - 1] == StopCancels(k)
  {
  }

  /** A Stop cancels the loop it took and then returns, each once and in this order:
      its stage tells which of the two has happened since it took the loop. */
  lemma {:induction false} StagesOfAStop(states: seq<State>, steps: seq<Step>, i: nat, n: nat, k: nat)
    requires Run(states, steps) && i < n <= |steps| && steps[i].StopTakes? && k == |states[i].stops|
    ensures k < |states[n].stops|
    ensures states[n].stops[k].stage.Took? <==> !CancelsWithin(steps, i, n, k)
    ensures states[n].stops[k].stage.Returned? <==> ReturnsWithin(steps, i, n, k)
    decreases n
  {
    if i + 1 < n {
      StagesOfAStop(states, steps, i, n - 1, k);
      StepOfStop(states[n - 1], steps[n - 1], k);
      OneMoreWithin(steps, i, n, k);
    }
  }

  // ------------------------------------------------------ several loops

  predicate AllDone(s: State) {
    forall l :: 0 <= l < |s.loops| ==> s.loops[l].phase.Done?
  }

  predicate AtMostOneAlive(s: State) {
    forall j, k :: 0 <= j < k < |s.loops| ==> s.loops[j].phase.Done? || s.loops[k].phase.Done?
  }

  lemma SecondLoopCondition(s: State)
    requires s.current.None? && AtMostOneAlive(s)
    ensures AtMostOneAlive(Next(s, Start)) <==> AllDone(s)
  {
    var t := Next(s, Start);
    assert t.loops[|s.loops|].phase.Waiting?;
    if l :| 0 <= l < |s.loops| && !s.loops[l].phase.Done? {
      assert !t.loops[l].phase.Done?;
    }
  }

  /** The step is a Start that launches a loop. */
  predicate Launches(s: State, step: Step) {
    step.Start? && s.current.None?
  }

  lemma OtherStepsKeepOneAlive(s: State, step: Step)
    requires Enabled(s, step) && AtMostOneAlive(s) && !Launches(s, step)
    ensures AtMostOneAlive(Next(s, step))
  {
    var t := Next(s, step);
    forall j, k | 0 <= j < k < |t.loops| ensures t.loops[j].phase.Done? || t.loops[k].phase.Done? {
      StepKeepsLoop(s, step, j);
      StepKeepsLoop(s, step, k);
    }
  }

  /** At every point of the first n steps at most one loop is alive. */
  predicate AlwaysOneAlive(states: seq<State>, n: nat)
    requires n < |states|
  {
    forall m :: 0 <= m <= n ==> AtMostOneAlive(states[m])
  }

  /** Every Start that launched a loop found all earlier loops finished. */
  predicate LaunchesAfterAllDone(states: seq<State>, steps: seq<Step>, n: nat)
    requires n <= |steps| < |states|
  {
    forall k :: 0 <= k < n && Launches(states[k], steps[k]) ==> AllDone(states[k])
  }

  /** In a run at most one loop is alive throughout, if and only if every Start that
      launches a loop comes after all earlier loops have finished. The source's own
      guard, that no loop is current, does not ensure it. */
  lemma {:induction false} OneLoopAliveExactly(states: seq<State>, steps: seq<Step>, n: nat)
    requires Run(states, steps) && n <= |steps|
    ensures AlwaysOneAlive(states, n) <==> LaunchesAfterAllDone(states, steps, n)
  {
    if n > 0 {
      var s, step := states[n - 1], steps[n - 1];
      OneLoopAliveExactly(states, steps, n - 1);
      assert AlwaysOneAlive(states, n) <==> AlwaysOneAlive(states, n - 1) && AtMostOneAlive(states[n]);
      assert LaunchesAfterAllDone(states, steps, n)
        <==> LaunchesAfterAllDone(states, steps, n - 1) && (Launches(s, step) ==> AllDone(s));
      if AtMostOneAlive(s) {
        if Launches(s, step) {
          SecondLoopCondition(s);
        } else {
          OtherStepsKeepOneAlive(s, step);
        }
      }
    }
  }

  /** A Stop that has returned saw the loop it took finish. */
  ghost predicate ReturnedMeansDone(s: State) {
    forall k :: 0 <= k < |s.stops| && s.stops[k].loop.Some? && s.stops[k].stage.Returned? ==>
      s.stops[k].loop.value < |s.loops| && s.loops[s.stops[k].loop.value].phase.Done?
  }

  lemma StepKeepsReturnedMeansDone(s: State, step: Step)
    requires ReturnedMeansDone(s) && Enabled(s, step)
    ensures ReturnedMeansDone(Next(s, step))
  {
    var t := Next(s, step);
    forall k | 0 <= k < |t.stops| && t.stops[k].loop.Some? && t.stops[k].stage.Returned?
      ensures t.stops[k].loop.value < |t.loops| && t.loops[t.stops[k].loop.value].phase.Done?
    {
      assert k < |s.stops| && t.stops[k].loop == s.stops[k].loop;
      StepKeepsLoop(s, step, s.stops[k].loop.value);
    }
  }

  lemma {:induction false} ReturnedStopsAreDone(states: seq<State>, steps: seq<Step>, n: nat)
    requires Run(states, steps) && n <= |steps|
    ensures ReturnedMeansDone(states[n])
  {
    if n > 0 {
      ReturnedStopsAreDone(states, steps, n - 1);
      StepKeepsReturnedMeansDone(states[n - 1], steps[n - 1]);
    }
  }

  /** Every Stop that took a loop has returned: what a caller of Start can know. */
  predicate AllStopsReturned(s: State) {
    forall k :: 0 <= k < |s.stops| && s.stops[k].loop.Some? ==> s.stops[k].stage.Returned?
  }

  lemma ReturnedStopsLeaveNoneAlive(s: State)
    requires TakenOnce(s) && ReturnedMeansDone(s) && s.current.None? && AllStopsReturned(s)
    ensures AllDone(s)
  {
    forall l: nat | l < |s.loops| ensures s.loops[l].phase.Done? {
      assert s.current != Some(l);
      var k :| 0 <= k < |s.stops| && s.stops[k].loop == Some(l);
    }
  }

  /** A caller that starts a loop only when every Stop that took one has returned
      never has two loops alive. */
  lemma StartAfterStopsReturned(states: seq<State>, steps: seq<Step>, n: nat)
    requires Run(states, steps) && n <= |steps|
    requires forall k :: 0 <= k < n && Launches(states[k], steps[k]) ==> AllStopsReturned(states[k])
    ensures AlwaysOneAlive(states, n)
  {
    forall k | 0 <= k < n && Launches(states[k], steps[k]) ensures AllDone(states[k]) {
      EveryLoopHasOneOwner(states, steps, k);
      ReturnedStopsAreDone(states, steps, k);
      ReturnedStopsLeaveNoneAlive(states[k]);
    }
    OneLoopAliveExactly(states, steps, n);
  }

  /** A Start between the two halves of a Stop: both loops are in a run at once. */
  lemma LoopsMayOverlap()
    ensures exists states: seq<State>, steps: seq<Step> ::
              Run(states, steps)
              && states[|steps|].loops == [Loop(Running, false), Loop(Running, false)]
  {
    var states, steps := [INITIAL], [];
    states, steps := Extend(states, steps, Start);
    states, steps := Extend(states, steps, TimerFires(0));
    states, steps := Extend(states, steps, StopTakes);
    states, steps := Extend(states, steps, Start);
    states, steps := Extend(states, steps, TimerFires(1));
  }

  lemma Extend(states: seq<State>, steps: seq<Step>, step: Step)
    returns (states': seq<State>, steps': seq<Step>)
    requires Run(states, steps) && Enabled(states[|steps|], step)
    ensures Run(states', steps')
    ensures |steps'| == |steps| + 1 && states'[|steps'|] == Next(states[|steps|], step)
  {
    states' := states + [Next(states[|steps|], step)];
    steps' := steps + [step];
  }
}
