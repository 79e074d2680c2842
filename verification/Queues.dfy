/**
 The bounded, closable FIFO that connects pipeline stages (src/util/queue.hpp).

 Every operation is one section under the queue's mutex. `Blocked` stands for the state in which the
 C++20 stop-aware wait (ISO/IEC 14882:2020, section 32.6.4.2) puts the caller to sleep: the predicate
 is false and no stop was requested. Once a stop was requested the wait returns the predicate's value,
 so Push and Pop still succeed after a stop if there is room or data.
 */
module Queues {

  datatype Queue<T> = Queue(items: seq<T>, capacity: nat, closed: bool)
  {
    ghost predicate Valid() {
      capacity >= 1 && |items| <= capacity
    }

    /** What Push and PushFor wait for. */
    predicate CanPush() {
      closed || |items| < capacity
    }

    /** What Pop waits for. */
    predicate CanPop() {
      closed || items != []
    }
  }

  datatype PushResult = Pushed | TimedOut | Refused | PushBlocked

  datatype PopResult<+T> = Popped(item: T) | Drained | PopBlocked

  function Empty<T>(capacity: nat): (q: Queue<T>)
    ensures q.Valid() && q.items == [] && !q.closed
  {
    Queue([], if capacity == 0 then 1 else capacity, false)
  }

  /** One evaluation of Push's wait predicate, and what follows from it. */
  function Push<T>(q: Queue<T>, item: T, stop: bool): (r: (Queue<T>, PushResult))
    ensures q.Valid() ==> r.0.Valid()
  {
    if !q.CanPush() then (q, if stop then Refused else PushBlocked)
    else if q.closed then (q, Refused)
    else (q.(items := q.items + [item]), Pushed)
  }

  /** One evaluation of PushFor's wait predicate; `expired` says whether the timeout has passed. */
  function PushFor<T>(q: Queue<T>, item: T, expired: bool, stop: bool): (r: (Queue<T>, PushResult))
    ensures q.Valid() ==> r.0.Valid()
  {
    if q.closed || stop then (q, Refused)
    else if q.CanPush() then (q.(items := q.items + [item]), Pushed)
    else (q, if expired then TimedOut else PushBlocked)
  }

  /** One evaluation of Pop's wait predicate, and what follows from it. */
  function Pop<T>(q: Queue<T>, stop: bool): (r: (Queue<T>, PopResult<T>))
    ensures q.Valid() ==> r.0.Valid()
  {
    if !q.CanPop() then (q, if stop then Drained else PopBlocked)
    else if q.items == [] then (q, Drained)
    else (q.(items := q.items[1..]), Popped(q.items[0]))
  }

  function Close<T>(q: Queue<T>): Queue<T> {
    q.(closed := true)
  }

  /** The queue object itself: its fields, and each section that holds its mutex. */
  class BoundedQueue<T> {
    const capacity: nat
    var items: seq<T>
    var closed: bool

    ghost function State(): Queue<T>
      reads this
    {
      Queue(items, capacity, closed)
    }

    ghost predicate Valid()
      reads this
    {
      State().Valid()
    }

    constructor (capacity: nat)
      ensures Valid() && State() == Empty(capacity)
    {
      this.capacity := if capacity == 0 then 1 else capacity;
      items := [];
      closed := false;
    }

    method TryPush(item: T, stop: bool) returns (r: PushResult)
      requires Valid()
      modifies this
      ensures Valid() && (State(), r) == Push(old(State()), item, stop)
      ensures r.Pushed? <==> !old(closed) && |old(items)| < capacity
      ensures r.PushBlocked? <==> !old(closed) && |old(items)| == capacity && !stop
      ensures r != TimedOut && closed == old(closed)
      ensures items == if r.Pushed? then old(items) + [item] else old(items)
    {
      if !closed && |items| >= capacity {
        return if stop then Refused else PushBlocked;
      }
      if closed { return Refused; }
      items := items + [item];
      r := Pushed;
    }

    method TryPushFor(item: T, expired: bool, stop: bool) returns (r: PushResult)
      requires Valid()
      modifies this
      ensures Valid() && (State(), r) == PushFor(old(State()), item, expired, stop)
      ensures r.Refused? <==> old(closed) || stop
      ensures !old(closed) && !stop ==>
        r == if |old(items)| < capacity then Pushed else if expired then TimedOut else PushBlocked
      ensures closed == old(closed) && items == if r.Pushed? then old(items) + [item] else old(items)
    {
      var ready := closed || |items| < capacity;
      if closed || stop { return Refused; }
      if !ready {
        return if expired then TimedOut else PushBlocked;
      }
      items := items + [item];
      r := Pushed;
    }

    method TryPop(stop: bool) returns (r: PopResult<T>)
      requires Valid()
      modifies this
      ensures Valid() && (State(), r) == Pop(old(State()), stop)
      ensures r.Popped? <==> old(items) != []
      ensures r.PopBlocked? <==> old(items) == [] && !old(closed) && !stop
      ensures closed == old(closed) && if r.Popped? then old(items) == [r.item] + items else items == []
    {
      if !closed && items == [] {
        return if stop then Drained else PopBlocked;
      }
      if items == [] { return Drained; }
      var item := items[0];
      items := items[1..];
      r := Popped(item);
    }

    method DoClose()
      requires Valid()
      modifies this
      ensures Valid() && State() == Close(old(State()))
      ensures closed && items == old(items)
    {
      closed := true;
    }

    method Size() returns (n: nat)
      ensures n == |items|
    {
      n := |items|;
    }
  }
}
