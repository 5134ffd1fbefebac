// groundhog/clock.py: virtual time.
module Clocks {
  import opened Types
  import opened Events

  class SimClock {
    const queue: EventQueue
    var current: Tick

    /** Nothing is waiting to happen in the past. */
    ghost predicate Valid()
      reads this, queue
    {
      queue.Valid() && forall e :: e in queue.live ==> e.tick >= current
    }

    constructor (queue: EventQueue)
      requires queue.Valid()
      ensures Valid() && this.queue == queue && current == 0
    {
      this.queue := queue;
      current := 0;
    }

    method After(delay: int, task: nat) returns (status: Status, event: Event)
      requires Valid()
      modifies queue
      ensures Valid() && queue.popped == old(queue.popped) && queue.cancelled == old(queue.cancelled)
      ensures status == if delay < 0 then Raised(ValueError) else Ok
      ensures status.Raised? ==>
        queue.live == old(queue.live) && queue.nextSeq == old(queue.nextSeq) && queue.made == old(queue.made)
      ensures status.Ok? ==>
        && event == Event(current + delay, old(queue.nextSeq), task) && queue.nextSeq == old(queue.nextSeq) + 1
        && queue.made == old(queue.made) + [event]
        && event !in old(queue.live) && queue.live == old(queue.live) + {event}
    {
      event := Event(0, 0, task);
      if delay < 0 {
        return Raised(ValueError), event;
      }
      status, event := queue.Schedule(current + delay, task);
    }

    /** Time moves to `tick`, unless that is behind it. What was scheduled stays ahead of the
        clock if it is no earlier than `tick`. */
    method AdvanceTo(tick: Tick) returns (status: Status)
      modifies this
      ensures status == if tick < old(current) then Raised(RuntimeError) else Ok
      ensures current == if status.Ok? then tick else old(current)
      ensures status.Ok? && queue.Valid() && (forall e :: e in queue.live ==> e.tick >= tick) ==> Valid()
      ensures status.Raised? && old(Valid()) ==> Valid()
    {
      if tick < current {
        return Raised(RuntimeError);
      }
      current := tick;
      status := Ok;
    }
  }
}
