/**
 The wake-up protocol of BoundedQueue (src/util/queue.hpp): any number of producers and consumers,
 with notify_one issued after the mutex is released.

 A thread is outside the queue, asleep on one of the two condition variables, woken but not yet
 holding the mutex again, or between releasing the mutex and notifying. Each section under the mutex is
 one step, and so is each notification.
 */
module WakeUps {
  import opened Counting
  import opened Options
  import opened Queues

  datatype Call<T> = Producing(item: T) | TimedProducing(item: T) | Consuming

  datatype Phase<T> =
    | Outside
    | Asleep(call: Call<T>)
    | Woken(call: Call<T>)      // by a notification, a timeout, a stop, or spuriously
    | Signalling(call: Call<T>) // the call succeeded; its notify_one is still to be issued
    | ClosingEmpty              // Close set the flag; both notify_all calls are still to be issued
    | ClosingFull               // Close has yet to notify the producers

  datatype State<T> = State(
    queue: Queue<T>,
    threads: seq<Phase<T>>,
    stop: bool,
    stopCallbacks: bool, // a stop was requested and its callbacks have yet to wake the waiters
    pushed: seq<T>,      // every item accepted so far, in order
    popped: seq<T>       // every item handed out so far, in order
  )

  datatype Step<T> =
    | Begin(thread: nat, call: Call<T>)
    | Recheck(thread: nat, expired: bool)
    | Notify(thread: nat, target: Option<nat>)
    | Spurious(thread: nat)
    | BeginClose(thread: nat)
    | NotifyConsumers(thread: nat)
    | NotifyProducers(thread: nat)
    | RequestStop
    | RunStopCallbacks

  predicate IsAsleep<T>(p: Phase<T>) {
    p.Asleep?
  }

  predicate IsClosingEmpty<T>(p: Phase<T>) {
    p.ClosingEmpty?
  }

  predicate IsClosing<T>(p: Phase<T>) {
    p.ClosingEmpty? || p.ClosingFull?
  }

  predicate AsleepProducing<T>(p: Phase<T>) {
    p.Asleep? && !p.call.Consuming?
  }

  predicate AsleepConsuming<T>(p: Phase<T>) {
    p.Asleep? && p.call.Consuming?
  }

  /** Whether `p` waits on the condition variable that a successful `call` signals. */
  predicate WaitsFor<T>(p: Phase<T>, call: Call<T>) {
    if call.Consuming? then AsleepProducing(p) else AsleepConsuming(p)
  }

  function Wake<T>(p: Phase<T>): Phase<T> {
    if p.Asleep? then Woken(p.call) else p
  }

  ghost predicate Enabled<T(!new)>(s: State<T>, step: Step<T>) {
    match step
    case Begin(t, call) => t < |s.threads| && s.threads[t].Outside?
    case Recheck(t, expired) => t < |s.threads| && s.threads[t].Woken?
    case Notify(t, target) =>
      && t < |s.threads| && s.threads[t].Signalling?
      && (target.Some? ==> target.value < |s.threads| && WaitsFor(s.threads[target.value], s.threads[t].call))
      && (target.None? ==> forall i :: 0 <= i < |s.threads| ==> !WaitsFor(s.threads[i], s.threads[t].call))
    case Spurious(t) => t < |s.threads| && s.threads[t].Asleep?
    case BeginClose(t) => t < |s.threads| && s.threads[t].Outside?
    case NotifyConsumers(t) => t < |s.threads| && s.threads[t].ClosingEmpty?
    case NotifyProducers(t) => t < |s.threads| && s.threads[t].ClosingFull?
    case RequestStop => !s.stop
    case RunStopCallbacks => s.stopCallbacks
  }

  /** Evaluate the wait predicate of `call` under the mutex, and act on it. */
  function Attempt<T>(s: State<T>, t: nat, call: Call<T>, expired: bool): State<T>
    requires t < |s.threads|
  {
    match call
    case Consuming => AfterPop(s, t, Pop(s.queue, s.stop))
    case Producing(item) => AfterPush(s, t, call, item, Push(s.queue, item, s.stop))
    case TimedProducing(item) => AfterPush(s, t, call, item, PushFor(s.queue, item, expired, s.stop))
  }

  function AfterPop<T>(s: State<T>, t: nat, result: (Queue<T>, PopResult<T>)): State<T>
    requires t < |s.threads|
  {
    var phase := match result.1
      case Popped(_) => Signalling(Consuming)
      case PopBlocked => Asleep(Consuming)
      case Drained => Outside;
    s.(queue := result.0, threads := s.threads[t := phase],
       popped := if result.1.Popped? then s.popped + [result.1.item] else s.popped)
  }

  function AfterPush<T>(s: State<T>, t: nat, call: Call<T>, item: T, result: (Queue<T>, PushResult)): State<T>
    requires t < |s.threads|
  {
    var phase := match result.1
      case Pushed => Signalling(call)
      case PushBlocked => Asleep(call)
      case _ => Outside;
    s.(queue := result.0, threads := s.threads[t := phase],
       pushed := if result.1.Pushed? then s.pushed + [item] else s.pushed)
  }

  function WakeWhere<T>(threads: seq<Phase<T>>, who: Phase<T> -> bool): (r: seq<Phase<T>>)
    ensures |r| == |threads|
    ensures forall i :: 0 <= i < |r| ==> r[i] == if who(threads[i]) then Wake(threads[i]) else threads[i]
  {
    seq(|threads|, i requires 0 <= i < |threads| => if who(threads[i]) then Wake(threads[i]) else threads[i])
  }

  ghost function Next<T(!new)>(s: State<T>, step: Step<T>): State<T>
    requires Enabled(s, step)
  {
    match step
    case Begin(t, call) => Attempt(s, t, call, false)
    case Recheck(t, expired) => Attempt(s, t, s.threads[t].call, expired)
    case Notify(t, target) =>
      var threads := s.threads[t := Outside];
      s.(threads := if target.None? then threads
                    else threads[target.value := Wake(s.threads[target.value])])
    case Spurious(t) => s.(threads := s.threads[t := Wake(s.threads[t])])
    case BeginClose(t) => s.(queue := Close(s.queue), threads := s.threads[t := ClosingEmpty])
    case NotifyConsumers(t) => s.(threads := WakeWhere(s.threads, AsleepConsuming)[t := ClosingFull])
    case NotifyProducers(t) => s.(threads := WakeWhere(s.threads, AsleepProducing)[t := Outside])
    case RequestStop => s.(stop := true, stopCallbacks := true)
    case RunStopCallbacks => s.(threads := WakeWhere(s.threads, IsAsleep), stopCallbacks := false)
  }

  ghost predicate Init<T>(s: State<T>) {
    && s.queue.Valid() && s.queue.items == [] && !s.queue.closed
    && (forall i :: 0 <= i < |s.threads| ==> s.threads[i].Outside?)
    && !s.stop && !s.stopCallbacks && s.pushed == s.popped == []
  }

  // ---------------------------------------------------------------- counting wake-ups

  /** Wake-ups on their way to consumers: notifications due, and woken consumers yet to look again. */
  function ForConsumers<T>(p: Phase<T>): nat {
    if p.Signalling? && !p.call.Consuming? then 1 else if p.Woken? && p.call.Consuming? then 1 else 0
  }

  function ForProducers<T>(p: Phase<T>): nat {
    if p.Signalling? && p.call.Consuming? then 1 else if p.Woken? && !p.call.Consuming? then 1 else 0
  }

  // ---------------------------------------------------------------- the invariant

  /** While the queue is open, sleepers are covered by enough wake-ups under way. */
  ghost predicate NoLostWakeUp<T>(s: State<T>) {
    !s.queue.closed && !s.stop ==>
      && (Any(s.threads, AsleepConsuming) ==> |s.queue.items| <= Sum(s.threads, ForConsumers))
      && (Any(s.threads, AsleepProducing) ==>
            s.queue.capacity - |s.queue.items| <= Sum(s.threads, ForProducers))
  }

  /** Once closed or stopped, anyone still asleep is about to be woken by a notify_all. */
  ghost predicate ShutdownWakes<T>(s: State<T>) {
    && (s.queue.closed && Any(s.threads, AsleepConsuming) ==> Any(s.threads, IsClosingEmpty))
    && (s.queue.closed && Any(s.threads, AsleepProducing) ==> Any(s.threads, IsClosing))
    && (s.stop && Any(s.threads, IsAsleep) ==> s.stopCallbacks)
    && (s.stopCallbacks ==> s.stop)
    && (Any(s.threads, IsClosing) ==> s.queue.closed)
  }

  /** First in, first out, each item exactly once. */
  ghost predicate Fifo<T>(s: State<T>) {
    s.queue.Valid() && s.pushed == s.popped + s.queue.items
  }

  ghost predicate Inv<T>(s: State<T>) {
    NoLostWakeUp(s) && ShutdownWakes(s) && Fifo(s)
  }

  lemma InitInv<T>(s: State<T>)
    requires Init(s)
    ensures Inv(s)
  {
  }

  lemma AttemptInv<T>(s: State<T>, t: nat, call: Call<T>, expired: bool)
    requires Inv(s) && t < |s.threads|
    requires s.threads[t].Outside? || s.threads[t] == Woken(call)
    ensures Inv(Attempt(s, t, call, expired))
  {
    match call
    case Consuming => AfterPopInv(s, t, Pop(s.queue, s.stop));
    case Producing(item) => AfterPushInv(s, t, call, item, Push(s.queue, item, s.stop));
    case TimedProducing(item) => AfterPushInv(s, t, call, item, PushFor(s.queue, item, expired, s.stop));
  }

  lemma AfterPopInv<T>(s: State<T>, t: nat, result: (Queue<T>, PopResult<T>))
    requires Inv(s) && t < |s.threads|
    requires s.threads[t].Outside? || s.threads[t] == Woken(Consuming)
    requires if result.1.Popped?
             then s.queue.items == [result.1.item] + result.0.items && result.0 == s.queue.(items := s.queue.items[1..])
             else result.0 == s.queue && s.queue.items == []
    requires result.1.PopBlocked? ==> !s.queue.closed && !s.stop
    ensures Inv(AfterPop(s, t, result))
  {
    hide Any, Sum;
    var s' := AfterPop(s, t, result);
    var p := s'.threads[t];
    assert s'.threads == s.threads[t := p];
    OneThread(s.threads, t, p);
    assert NoLostWakeUp(s') && ShutdownWakes(s') by { assert !IsClosing(p); }
  }

  lemma AfterPushInv<T>(s: State<T>, t: nat, call: Call<T>, item: T, result: (Queue<T>, PushResult))
    requires Inv(s) && t < |s.threads| && !call.Consuming?
    requires s.threads[t].Outside? || s.threads[t] == Woken(call)
    requires result.1.Pushed? ==> !s.queue.closed && |s.queue.items| < s.queue.capacity
    requires result.0 == if result.1.Pushed? then s.queue.(items := s.queue.items + [item]) else s.queue
    requires !s.queue.closed && !s.stop && !result.1.Pushed? ==> |s.queue.items| == s.queue.capacity
    requires result.1.PushBlocked? ==> !s.queue.closed && !s.stop
    ensures Inv(AfterPush(s, t, call, item, result))
  {
    hide Any, Sum;
    var s' := AfterPush(s, t, call, item, result);
    var p := s'.threads[t];
    assert s'.threads == s.threads[t := p];
    OneThread(s.threads, t, p);
    assert NoLostWakeUp(s') && ShutdownWakes(s') by { assert !IsClosing(p); }
    assert Fifo(s') by {
      assert s.popped + (s.queue.items + [item]) == (s.popped + s.queue.items) + [item];
    }
  }

  /** Everything the invariant looks at, after thread `t` moves to phase `p`. */
  lemma OneThread<T>(threads: seq<Phase<T>>, t: nat, p: Phase<T>)
    requires t < |threads|
    ensures Sum(threads[t := p], ForConsumers) ==
            Sum(threads, ForConsumers) - ForConsumers(threads[t]) + ForConsumers(p)
    ensures Sum(threads[t := p], ForProducers) ==
            Sum(threads, ForProducers) - ForProducers(threads[t]) + ForProducers(p)
    ensures Changed(threads, t, p, AsleepConsuming) && Changed(threads, t, p, AsleepProducing)
    ensures Changed(threads, t, p, IsAsleep)
    ensures Changed(threads, t, p, IsClosing) && Changed(threads, t, p, IsClosingEmpty)
  {
    SumUpdate(threads, t, p, ForConsumers);
    SumUpdate(threads, t, p, ForProducers);
    OneChanged(threads, t, p, AsleepConsuming);
    OneChanged(threads, t, p, AsleepProducing);
    OneChanged(threads, t, p, IsAsleep);
    OneChanged(threads, t, p, IsClosing);
    OneChanged(threads, t, p, IsClosingEmpty);
  }

  lemma NotifyInv<T(!new)>(s: State<T>, t: nat, target: Option<nat>)
    requires Inv(s) && Enabled(s, Notify(t, target))
    ensures Inv(Next(s, Notify(t, target)))
  {
    if target.None? { NotifyNobody(s, t); } else { NotifyOne(s, t, target.value); }
  }

  lemma NotifyNobody<T(!new)>(s: State<T>, t: nat)
    requires Inv(s) && Enabled(s, Notify(t, None))
    ensures Inv(Next(s, Notify(t, None)))
  {
    hide Sum;
    OneThread(s.threads, t, Outside);
  }

  lemma NotifyOne<T(!new)>(s: State<T>, t: nat, target: nat)
    requires Inv(s) && Enabled(s, Notify(t, Some(target)))
    ensures Inv(Next(s, Notify(t, Some(target))))
  {
    hide Any, Sum;
    OneThread(s.threads, t, Outside);
    OneThread(s.threads[t := Outside], target, Wake(s.threads[target]));
  }

  lemma BeginCloseInv<T(!new)>(s: State<T>, t: nat)
    requires Inv(s) && Enabled(s, BeginClose(t))
    ensures Inv(Next(s, BeginClose(t)))
  {
    OneThread(s.threads, t, ClosingEmpty);
  }

  lemma SpuriousInv<T(!new)>(s: State<T>, t: nat)
    requires Inv(s) && Enabled(s, Spurious(t))
    ensures Inv(Next(s, Spurious(t)))
  {
    OneThread(s.threads, t, Wake(s.threads[t]));
  }

  lemma NotifyConsumersInv<T(!new)>(s: State<T>, t: nat)
    requires Inv(s) && Enabled(s, NotifyConsumers(t))
    ensures Inv(Next(s, NotifyConsumers(t)))
  {
    var s' := Next(s, NotifyConsumers(t));
    assert IsClosing(s.threads[t]) && IsClosing(s'.threads[t]);
    if Any(s'.threads, IsAsleep) {
      var i :| 0 <= i < |s'.threads| && IsAsleep(s'.threads[i]);
      assert IsAsleep(s.threads[i]);
    }
  }

  lemma NotifyProducersInv<T(!new)>(s: State<T>, t: nat)
    requires Inv(s) && Enabled(s, NotifyProducers(t))
    ensures Inv(Next(s, NotifyProducers(t)))
  {
    var s' := Next(s, NotifyProducers(t));
    assert IsClosing(s.threads[t]);
    if Any(s'.threads, IsAsleep) {
      var i :| 0 <= i < |s'.threads| && IsAsleep(s'.threads[i]);
      assert IsAsleep(s.threads[i]);
    }
    if Any(s'.threads, AsleepConsuming) {
      var i :| 0 <= i < |s'.threads| && AsleepConsuming(s'.threads[i]);
      assert AsleepConsuming(s.threads[i]);
      var j :| 0 <= j < |s.threads| && IsClosingEmpty(s.threads[j]);
      assert IsClosingEmpty(s'.threads[j]);
    }
  }

  lemma RunStopCallbacksInv<T(!new)>(s: State<T>)
    requires Inv(s) && Enabled(s, RunStopCallbacks)
    ensures Inv(Next(s, RunStopCallbacks))
  {
    var s' := Next(s, RunStopCallbacks);
    if Any(s'.threads, IsClosing) {
      var j :| 0 <= j < |s'.threads| && IsClosing(s'.threads[j]);
      assert IsClosing(s.threads[j]);
    }
  }

  lemma StepInv<T(!new)>(s: State<T>, step: Step<T>)
    requires Inv(s) && Enabled(s, step)
    ensures Inv(Next(s, step))
  {
    match step
    case Begin(t, call) => AttemptInv(s, t, call, false);
    case Recheck(t, expired) => AttemptInv(s, t, s.threads[t].call, expired);
    case Notify(t, target) => NotifyInv(s, t, target);
    case Spurious(t) => SpuriousInv(s, t);
    case BeginClose(t) => BeginCloseInv(s, t);
    case NotifyConsumers(t) => NotifyConsumersInv(s, t);
    case NotifyProducers(t) => NotifyProducersInv(s, t);
    case RequestStop =>
    case RunStopCallbacks => RunStopCallbacksInv(s);
  }

  // ---------------------------------------------------------------- whole runs

  ghost predicate IsRun<T(!new)>(states: seq<State<T>>, steps: seq<Step<T>>) {
    && |states| == |steps| + 1
    && Init(states[0])
    && forall i :: 0 <= i < |steps| ==> Enabled(states[i], steps[i]) && states[i + 1] == Next(states[i], steps[i])
  }

  lemma {:induction false} RunInv<T(!new)>(states: seq<State<T>>, steps: seq<Step<T>>, n: nat)
    requires IsRun(states, steps) && n < |states|
    ensures Inv(states[n])
  {
    if n == 0 {
      InitInv(states[0]);
    } else {
      RunInv(states, steps, n - 1);
      StepInv(states[n - 1], steps[n - 1]);
    }
  }

  /** Steps a thread inside the queue takes by itself, without new calls or spurious wake-ups. */
  predicate Internal<T>(step: Step<T>) {
    step.Recheck? || step.Notify? || step.NotifyConsumers? || step.NotifyProducers? || step.RunStopCallbacks?
  }

  ghost predicate Quiescent<T(!new)>(s: State<T>) {
    forall step | Enabled(s, step) :: !Internal(step)
  }

  /**
   No lost wake-ups: once every notification has been delivered and every woken thread has looked again,
   whoever is still asleep waits for a condition that is really false. Producers and consumers are never
   asleep at the same time, so the queue itself cannot deadlock.
   */
  lemma NobodySleepsOnATrueCondition<T(!new)>(states: seq<State<T>>, steps: seq<Step<T>>)
    requires IsRun(states, steps) && Quiescent(states[|steps|])
    ensures
      var s := states[|steps|];
      && (Any(s.threads, IsAsleep) ==> !s.queue.closed && !s.stop)
      && (Any(s.threads, AsleepConsuming) ==> s.queue.items == [])
      && (Any(s.threads, AsleepProducing) ==> |s.queue.items| == s.queue.capacity)
      && !(Any(s.threads, AsleepConsuming) && Any(s.threads, AsleepProducing))
  {
    var s := states[|steps|];
    RunInv(states, steps, |steps|);
    QuiescentThreads(s);
    SumZero(s.threads, ForConsumers);
    SumZero(s.threads, ForProducers);
    if Any(s.threads, IsAsleep) {
      var i :| 0 <= i < |s.threads| && IsAsleep(s.threads[i]);
      assert AsleepConsuming(s.threads[i]) || AsleepProducing(s.threads[i]);
    }
  }

  lemma QuiescentThreads<T(!new)>(s: State<T>)
    requires Quiescent(s)
    ensures !s.stopCallbacks
    ensures forall i :: 0 <= i < |s.threads| ==> s.threads[i].Outside? || s.threads[i].Asleep?
  {
    assert !Enabled(s, RunStopCallbacks) by { assert Internal<T>(RunStopCallbacks); }
    forall i | 0 <= i < |s.threads| ensures s.threads[i].Outside? || s.threads[i].Asleep? {
      match s.threads[i]
      case Outside =>
      case Asleep(_) =>
      case Woken(_) => assert Enabled(s, Recheck(i, false)) && Internal<T>(Recheck(i, false));
      case Signalling(call) =>
        if j :| 0 <= j < |s.threads| && WaitsFor(s.threads[j], call) {
          assert Enabled(s, Notify(i, Some(j))) && Internal<T>(Notify(i, Some(j)));
        } else {
          assert Enabled(s, Notify(i, None)) && Internal<T>(Notify(i, None));
        }
      case ClosingEmpty => assert Enabled(s, NotifyConsumers(i)) && Internal<T>(NotifyConsumers(i));
      case ClosingFull => assert Enabled(s, NotifyProducers(i)) && Internal<T>(NotifyProducers(i));
    }
  }

  // ---------------------------------------------------------------- the queue settles

  function Broadcasts<T>(p: Phase<T>): nat {
    match p
    case ClosingEmpty => 2
    case ClosingFull => 1
    case _ => 0
  }

  function Work<T>(p: Phase<T>): nat {
    match p
    case Asleep(_) => 2
    case Woken(_) => 3
    case Signalling(_) => 2
    case _ => 0
  }

  function BroadcastRank<T>(s: State<T>): nat {
    Sum(s.threads, Broadcasts) + if s.stopCallbacks then 1 else 0
  }

  ghost predicate Descends<T>(s: State<T>, s': State<T>) {
    || BroadcastRank(s') < BroadcastRank(s)
    || (BroadcastRank(s') == BroadcastRank(s) && Sum(s'.threads, Work) < Sum(s.threads, Work))
  }

  lemma RecheckDescends<T(!new)>(s: State<T>, t: nat, expired: bool)
    requires Enabled(s, Recheck(t, expired))
    ensures Descends(s, Next(s, Recheck(t, expired)))
  {
    var s' := Next(s, Recheck(t, expired));
    var p := s'.threads[t];
    assert p.Signalling? || p.Outside? || p.Asleep?;
    assert s'.threads == s.threads[t := p] && s'.stopCallbacks == s.stopCallbacks;
    SumUpdate(s.threads, t, p, Broadcasts);
    SumUpdate(s.threads, t, p, Work);
  }

  lemma NotifyDescends<T(!new)>(s: State<T>, t: nat, target: Option<nat>)
    requires Enabled(s, Notify(t, target))
    ensures Descends(s, Next(s, Notify(t, target)))
  {
    var middle := s.threads[t := Outside];
    SumUpdate(s.threads, t, Outside, Broadcasts);
    SumUpdate(s.threads, t, Outside, Work);
    if target.Some? {
      var p := Wake(s.threads[target.value]);
      SumUpdate(middle, target.value, p, Broadcasts);
      SumUpdate(middle, target.value, p, Work);
    }
  }

  lemma BroadcastDescends<T(!new)>(s: State<T>, t: nat, who: Phase<T> -> bool, p: Phase<T>)
    requires t < |s.threads| && IsClosing(s.threads[t]) && Broadcasts(p) < Broadcasts(s.threads[t])
    ensures Sum(WakeWhere(s.threads, who)[t := p], Broadcasts) < Sum(s.threads, Broadcasts)
  {
    var middle := WakeWhere(s.threads, who);
    SumEqual(s.threads, middle, Broadcasts);
    SumUpdate(middle, t, p, Broadcasts);
  }

  /** Every internal step lowers (BroadcastRank, work), so the queue always settles. */
  lemma InternalStepDescends<T(!new)>(s: State<T>, step: Step<T>)
    requires Enabled(s, step) && Internal(step)
    ensures Descends(s, Next(s, step))
  {
    match step
    case Recheck(t, expired) => RecheckDescends(s, t, expired);
    case Notify(t, target) => NotifyDescends(s, t, target);
    case NotifyConsumers(t) => BroadcastDescends(s, t, AsleepConsuming, ClosingFull);
    case NotifyProducers(t) => BroadcastDescends(s, t, AsleepProducing, Outside);
    case RunStopCallbacks => SumEqual(s.threads, Next(s, step).threads, Broadcasts);
  }

  ghost predicate InternalRun<T(!new)>(states: seq<State<T>>, steps: seq<Step<T>>) {
    && |states| == |steps| + 1
    && forall i :: 0 <= i < |steps| ==>
         Internal(steps[i]) && Enabled(states[i], steps[i]) && states[i + 1] == Next(states[i], steps[i])
  }

  /** From any reachable state, some run of internal steps ends with every notification delivered. */
  lemma {:induction false} QueueSettles<T(!new)>(s: State<T>) returns (states: seq<State<T>>, steps: seq<Step<T>>)
    requires Inv(s)
    ensures InternalRun(states, steps) && states[0] == s && Quiescent(states[|steps|])
    decreases BroadcastRank(s), Sum(s.threads, Work)
  {
    hide Inv;
    if Quiescent(s) {
      states, steps := [s], [];
    } else {
      var step :| Enabled(s, step) && Internal(step);
      InternalStepDescends(s, step);
      StepInv(s, step);
      var rest, restSteps := QueueSettles(Next(s, step));
      Prepend(s, step, rest, restSteps);
      states, steps := [s] + rest, [step] + restSteps;
    }
  }

  lemma Prepend<T(!new)>(s: State<T>, step: Step<T>, rest: seq<State<T>>, restSteps: seq<Step<T>>)
    requires InternalRun(rest, restSteps) && Internal(step) && Enabled(s, step) && rest[0] == Next(s, step)
    ensures InternalRun([s] + rest, [step] + restSteps)
  {
    hide Enabled, Next;
    var states, steps := [s] + rest, [step] + restSteps;
    forall i | 0 <= i < |steps|
      ensures Internal(steps[i]) && Enabled(states[i], steps[i]) && states[i + 1] == Next(states[i], steps[i])
    {
      if i > 0 { assert states[i] == rest[i - 1] && steps[i] == restSteps[i - 1] && states[i + 1] == rest[i]; }
    }
  }

  ghost predicate InternalAt<T(!new)>(run: nat -> State<T>, steps: nat -> Step<T>, i: nat) {
    Internal(steps(i)) && Enabled(run(i), steps(i)) && run(i + 1) == Next(run(i), steps(i))
  }

  /** And no schedule of internal steps, however unfair, goes on forever. */
  lemma {:induction false} NoEndlessSignalling<T(!new)>(run: nat -> State<T>, steps: nat -> Step<T>, n: nat)
    ensures exists i: nat :: i >= n && !InternalAt(run, steps, i)
    decreases BroadcastRank(run(n)), Sum(run(n).threads, Work)
  {
    if InternalAt(run, steps, n) {
      InternalStepDescends(run(n), steps(n));
      NoEndlessSignalling(run, steps, n + 1);
    }
  }
}
