// groundhog/sim/world.py: the run loop.
module Simulators {
  import opened Types
  import opened Events
  import opened Clocks

  /** What an event's action may ask of the clock: the action itself is anybody's code. */
  datatype Request = After(delay: int, task: nat) | Cancel(event: Event)

  predicate BadRequest(request: Request) {
    request.After? && request.delay < 0
  }

  predicate BadAction(requests: seq<Request>) {
    exists i :: 0 <= i < |requests| && BadRequest(requests[i])
  }

  /** What the queue has been asked for: every event scheduled, under its number, and the
      numbers cancelled before they could run. */
  datatype Agenda = Agenda(made: seq<Event>, cancelled: set<nat>)

  function Asked(a: Agenda, popped: set<nat>, now: Tick, request: Request): Agenda
    requires !BadRequest(request)
  {
    match request
    case After(delay, task) => a.(made := a.made + [Event(now + delay, |a.made|, task)])
    case Cancel(event) =>
      if event.seqNo < |a.made| && event.seqNo !in popped then a.(cancelled := a.cancelled + {event.seqNo}) else a
  }

  /** All that one action asks for, up to a bad request. */
  function AllAsked(a: Agenda, popped: set<nat>, now: Tick, requests: seq<Request>): Agenda
    decreases |requests|
  {
    if requests == [] || BadRequest(requests[0]) then a
    else AllAsked(Asked(a, popped, now, requests[0]), popped, now, requests[1..])
  }

  /** All that the events of `ran` after the first `from` have asked for, where the action of an
      event may depend on everything that has run. */
  function AskedBy(a: Agenda, ran: seq<Event>, from: nat, actions: seq<Event> -> seq<Request>): Agenda
    decreases |ran|
  {
    if |ran| <= from then a
    else
      var before := ran[..|ran| - 1];
      AllAsked(AskedBy(a, before, from, actions), Numbers(ran), ran[|ran| - 1].tick, actions(ran))
  }

  lemma OneMoreAsked(a: Agenda, ran: seq<Event>, e: Event, from: nat, actions: seq<Event> -> seq<Request>)
    requires from <= |ran|
    ensures AskedBy(a, ran + [e], from, actions)
         == AllAsked(AskedBy(a, ran, from, actions), Numbers(ran + [e]), e.tick, actions(ran + [e]))
  {
    var more := ran + [e];
    assert more[..|more| - 1] == ran;
    hide AllAsked, Numbers;
  }

  // -- what becomes of a request

  /** Request `i` of an action is reached: neither it nor an earlier one is bad. */
  predicate Reached(requests: seq<Request>, i: nat) {
    i < |requests| && forall j :: 0 <= j <= i ==> !BadRequest(requests[j])
  }

  lemma {:induction false} AgendaGrows(a: Agenda, popped: set<nat>, now: Tick, requests: seq<Request>)
    ensures var a' := AllAsked(a, popped, now, requests); a.made <= a'.made && a.cancelled <= a'.cancelled
    decreases |requests|
  {
    if requests != [] && !BadRequest(requests[0]) {
      AgendaGrows(Asked(a, popped, now, requests[0]), popped, now, requests[1..]);
    }
  }

  /** An event asked for is scheduled, exactly `delay` from now. */
  lemma {:induction false} AfterIsMade(a: Agenda, popped: set<nat>, now: Tick, requests: seq<Request>, i: nat)
    returns (s: nat)
    requires Reached(requests, i) && requests[i].After?
    ensures var a' := AllAsked(a, popped, now, requests);
            |a.made| <= s < |a'.made| && a'.made[s] == Event(now + requests[i].delay, s, requests[i].task)
    decreases |requests|
  {
    var next := Asked(a, popped, now, requests[0]);
    if i == 0 {
      s := |a.made|;
      AgendaGrows(next, popped, now, requests[1..]);
    } else {
      assert Reached(requests[1..], i - 1);
      s := AfterIsMade(next, popped, now, requests[1..], i - 1);
    }
  }

  /** An event cancelled before it has run is cancelled for good. */
  lemma {:induction false} CancelIsHeeded(a: Agenda, popped: set<nat>, now: Tick, requests: seq<Request>, i: nat)
    requires Reached(requests, i) && requests[i].Cancel?
    requires requests[i].event.seqNo < |a.made| && requests[i].event.seqNo !in popped
    ensures requests[i].event.seqNo in AllAsked(a, popped, now, requests).cancelled
    decreases |requests|
  {
    var next := Asked(a, popped, now, requests[0]);
    if i == 0 {
      AgendaGrows(next, popped, now, requests[1..]);
    } else {
      assert Reached(requests[1..], i - 1);
      CancelIsHeeded(next, popped, now, requests[1..], i - 1);
    }
  }

  /** Nothing is cancelled that was not asked to be, or that had run. */
  lemma {:induction false} OnlyAskedIsCancelled(a: Agenda, popped: set<nat>, now: Tick, requests: seq<Request>, s: nat)
    requires s in AllAsked(a, popped, now, requests).cancelled && s !in a.cancelled
    ensures s !in popped && exists i: nat :: Reached(requests, i) && requests[i].Cancel? && requests[i].event.seqNo == s
    decreases |requests|
  {
    var next := Asked(a, popped, now, requests[0]);
    if s in next.cancelled {
      assert Reached(requests, 0) && requests[0].Cancel? && requests[0].event.seqNo == s;
    } else {
      OnlyAskedIsCancelled(next, popped, now, requests[1..], s);
      var i: nat :| Reached(requests[1..], i) && requests[1..][i].Cancel? && requests[1..][i].event.seqNo == s;
      assert Reached(requests, i + 1) && requests[i + 1] == requests[1..][i];
    }
  }

  lemma {:induction false} AskedByGrows(a: Agenda, ran: seq<Event>, k: nat, from: nat,
                                        actions: seq<Event> -> seq<Request>)
    requires from <= k <= |ran|
    ensures var a0, a1 := AskedBy(a, ran[..k], from, actions), AskedBy(a, ran, from, actions);
            a0.made <= a1.made && a0.cancelled <= a1.cancelled
    decreases |ran|
  {
    if k == |ran| {
      assert ran[..k] == ran;
    } else {
      var before := ran[..|ran| - 1];
      assert before[..k] == ran[..k];
      AskedByGrows(a, before, k, from, actions);
      AgendaGrows(AskedBy(a, before, from, actions), Numbers(ran), ran[|ran| - 1].tick, actions(ran));
    }
  }

  lemma AgendaOnlyGrows(a: Agenda, ran: seq<Event>, from: nat, actions: seq<Event> -> seq<Request>)
    requires from <= |ran|
    ensures |a.made| <= |AskedBy(a, ran, from, actions).made|
  {
    AskedByGrows(a, ran, from, from, actions);
  }

  /** No event after the first `from`, up to the first `upTo`, has made a bad request. */
  predicate NoneBad(ran: seq<Event>, from: nat, upTo: nat, actions: seq<Event> -> seq<Request>)
    requires upTo <= |ran|
  {
    forall k :: from < k <= upTo ==> !BadAction(actions(ran[..k]))
  }

  lemma NothingAskedYet(a: Agenda, ran: seq<Event>, actions: seq<Event> -> seq<Request>)
    ensures AskedBy(a, ran, |ran|, actions) == a && NoneBad(ran, |ran|, |ran|, actions)
  {
  }

  lemma OneMoreGood(ran: seq<Event>, e: Event, from: nat, actions: seq<Event> -> seq<Request>)
    requires from <= |ran| && NoneBad(ran, from, |ran|, actions)
    ensures NoneBad(ran + [e], from, |ran|, actions)
    ensures !BadAction(actions(ran + [e])) ==> NoneBad(ran + [e], from, |ran| + 1, actions)
  {
    hide BadAction;
    var more := ran + [e];
    assert more[..|more|] == more;
    forall k | from < k <= |ran| ensures !BadAction(actions(more[..k])) {
      assert more[..k] == ran[..k];
    }
  }

  datatype StopReason = Idle | MaxTicks | OutOfSteps

  /** Events in the order they ran: strictly increasing in `(tick, seq)`. */
  predicate Increasing(ran: seq<Event>) {
    forall i, j :: 0 <= i < j < |ran| ==> Before(ran[i], ran[j])
  }

  predicate NoRepeats(ran: seq<Event>) {
    forall i, j :: 0 <= i < |ran| && 0 <= j < |ran| && ran[i].seqNo == ran[j].seqNo ==> i == j
  }

  lemma NoRepeatsNext(ran: seq<Event>, e: Event)
    requires NoRepeats(ran) && e.seqNo !in Numbers(ran)
    ensures NoRepeats(ran + [e])
  {
  }

  /** Everything that has run comes before everything still to come. */
  ghost predicate Behind(ran: seq<Event>, live: set<Event>, nextSeq: nat, now: Tick) {
    && Increasing(ran)
    && (forall i :: 0 <= i < |ran| ==> ran[i].tick <= now && ran[i].seqNo < nextSeq)
    && (forall i, e :: 0 <= i < |ran| && e in live ==> Before(ran[i], e))
  }

  lemma BehindNext(ran: seq<Event>, live: set<Event>, nextSeq: nat, now: Tick, e: Event)
    requires Behind(ran, live, nextSeq, now) && IsLeast(e, live) && e.tick >= now && e.seqNo < nextSeq
    ensures Behind(ran + [e], live - {e}, nextSeq, e.tick)
  {
  }

  /** A new event, no earlier than now, is not overtaken by what has run. */
  lemma BehindScheduled(ran: seq<Event>, live: set<Event>, nextSeq: nat, now: Tick, e: Event)
    requires Behind(ran, live, nextSeq, now) && e.tick >= now && e.seqNo == nextSeq
    ensures Behind(ran, live + {e}, nextSeq + 1, now)
  {
  }

  lemma BehindFewer(ran: seq<Event>, live: set<Event>, fewer: set<Event>, nextSeq: nat, now: Tick)
    requires Behind(ran, live, nextSeq, now) && fewer <= live
    ensures Behind(ran, fewer, nextSeq, now)
  {
  }

  function Numbers(ran: seq<Event>): (numbers: set<nat>)
    ensures forall i :: 0 <= i < |ran| ==> ran[i].seqNo in numbers
  {
    if ran == [] then {} else Numbers(ran[..|ran| - 1]) + {ran[|ran| - 1].seqNo}
  }

  class Simulator {
    const queue: EventQueue
    const clock: SimClock

    /** The trace: every event the loop has run, in order. */
    var ran: seq<Event>

    ghost predicate Valid()
      reads this, queue, clock
    {
      && clock.queue == queue && clock.Valid()
      && Behind(ran, queue.live, queue.nextSeq, clock.current)
      && queue.popped == Numbers(ran) && NoRepeats(ran)
      && forall i :: 0 <= i < |ran| ==> ran[i].seqNo < |queue.made| && queue.made[ran[i].seqNo] == ran[i]
    }

    ghost function View(): Agenda
      reads queue
    {
      Agenda(queue.made, queue.cancelled)
    }

    constructor ()
      ensures Valid() && ran == [] && queue.live == {} && queue.nextSeq == 0 && queue.cancelled == {}
              && clock.current == 0 && queue.made == []
      ensures fresh(queue) && fresh(clock)
    {
      var events := new EventQueue();
      queue := events;
      clock := new SimClock(events);
      ran := [];
    }

    method Ask(request: Request) returns (status: Status)
      requires Valid()
      modifies queue
      ensures Valid()
      ensures status == if BadRequest(request) then Raised(ValueError) else Ok
      ensures View() == if BadRequest(request) then old(View())
                        else Asked(old(View()), Numbers(ran), clock.current, request)
    {
      match request {
        case After(delay, task) =>
          var event;
          ghost var live, nextSeq := queue.live, queue.nextSeq;
          status, event := clock.After(delay, task);
          if status.Ok? {
            BehindScheduled(ran, live, nextSeq, clock.current, event);
          }
        case Cancel(event) =>
          ghost var live := queue.live;
          QueueKeepsAll(event.seqNo);
          var was := queue.Cancel(event);
          BehindFewer(ran, live, queue.live, queue.nextSeq, clock.current);
          status := Ok;
      }
    }

    /** Run one event's action: whatever it schedules or cancels, up to a bad request. */
    method Act(requests: seq<Request>) returns (status: Status)
      requires Valid()
      modifies queue
      ensures Valid()
      ensures status == if BadAction(requests) then Raised(ValueError) else Ok
      ensures View() == AllAsked(old(View()), Numbers(ran), clock.current, requests)
    {
      hide Behind, Numbers, NoRepeats, EventQueue.Valid, Asked, BadRequest;
      var i := 0;
      while i < |requests|
        invariant 0 <= i <= |requests| && Valid()
        invariant forall k :: 0 <= k < i ==> !BadRequest(requests[k])
        invariant AllAsked(View(), Numbers(ran), clock.current, requests[i..])
               == AllAsked(old(View()), Numbers(ran), clock.current, requests)
      {
        assert requests[i..][0] == requests[i] && requests[i..][1..] == requests[i + 1..];
        :- Ask(requests[i]);
        i := i + 1;
      }
      status := Ok;
    }

    /** The least live event joins `ran`, and the clock stands at its tick. */
    method Next() returns (event: Event)
      requires Valid() && queue.live != {}
      modifies this, queue, clock
      ensures Valid() && IsLeast(event, old(queue.live)) && queue.live == old(queue.live) - {event}
      ensures ran == old(ran) + [event] && clock.current == event.tick && View() == old(View())
    {
      hide Behind, NoRepeats;
      ghost var live := queue.live;
      var popped := queue.Pop();
      event := popped.value;
      NoRepeatsNext(ran, event);
      BehindNext(ran, live, queue.nextSeq, clock.current, event);
      var status := clock.AdvanceTo(event.tick);
      assert (ran + [event])[..|ran|] == ran;
      ran := ran + [event];
    }

    /** The tick of the next event to run. */
    method Peek() returns (tick: Option<Tick>)
      requires Valid()
      modifies queue`heap
      ensures Valid() && View() == old(View())
      ensures tick.None? <==> queue.live == {}
      ensures tick.Some? ==> exists e :: IsLeast(e, queue.live) && e.tick == tick.value
      ensures tick.Some? ==> forall e :: e in queue.live ==> e.tick >= tick.value
    {
      hide Behind, Numbers, NoRepeats;
      tick := queue.PeekTick();
      if tick.Some? {
        LeastIsLater(queue.live, tick.value);
      }
    }

    /** Runs live events in order until none is left, the least is past `maxTicks`, or `steps`
        of them have run. A bad request in an action ends the run with that event. */
    method Run(maxTicks: Tick, steps: nat, actions: seq<Event> -> seq<Request>)
      returns (status: Status, reason: StopReason, events: nat)
      requires Valid()
      modifies this, queue, clock
      ensures Valid() && old(ran) <= ran && events == |ran| - |old(ran)| <= steps
      ensures View() == AskedBy(old(View()), ran, |old(ran)|, actions)
      ensures clock.current == if events == 0 then old(clock.current) else ran[|ran| - 1].tick
      ensures status == if events > 0 && BadAction(actions(ran)) then Raised(ValueError) else Ok
      ensures NoneBad(ran, |old(ran)|, if status.Ok? then |ran| else |ran| - 1, actions)
      ensures forall i :: |old(ran)| <= i < |ran| ==> ran[i].tick <= maxTicks
      ensures status.Ok? && reason.Idle? ==> queue.live == {}
      ensures status.Ok? && reason.MaxTicks? ==> queue.live != {} && forall e :: e in queue.live ==> e.tick > maxTicks
      ensures status.Ok? && reason.OutOfSteps? ==> events == steps
    {
      hide Behind, Numbers, NoRepeats, EventQueue.Valid, AllAsked, AskedBy, BadAction, NoneBad, Simulator.Valid;
      NothingAskedYet(View(), ran, actions);
      events := 0;
      while events < steps
        invariant Valid() && old(ran) <= ran && events == |ran| - |old(ran)| <= steps
        invariant View() == AskedBy(old(View()), ran, |old(ran)|, actions)
        invariant clock.current == if events == 0 then old(clock.current) else ran[|ran| - 1].tick
        invariant NoneBad(ran, |old(ran)|, |ran|, actions) && (events > 0 ==> !BadAction(actions(ran)))
        invariant forall i :: |old(ran)| <= i < |ran| ==> ran[i].tick <= maxTicks
      {
        var nextTick := Peek();
        if nextTick.None? {
          return Ok, Idle, events;
        }
        if nextTick.value > maxTicks {
          return Ok, MaxTicks, events;
        }
        ghost var live, before := queue.live, ran;
        var event := Next();
        SameLeast(live, event, nextTick.value);
        events := events + 1;
        OneMoreAsked(old(View()), before, event, |old(ran)|, actions);
        OneMoreGood(before, event, |old(ran)|, actions);
        status := Act(actions(ran));
        if status.Raised? {
          return status, Idle, events;
        }
      }
      return Ok, OutOfSteps, events;
    }

    /** Every event ever scheduled has run once, or was cancelled, or is still to come. */
    lemma NothingIsLost(s: nat)
      requires Valid()
      ensures s < queue.nextSeq <==>
        s in queue.cancelled || (exists e :: e in queue.live && e.seqNo == s)
          || (exists i :: 0 <= i < |ran| && ran[i].seqNo == s)
      ensures NoRepeats(ran)
      ensures forall i :: 0 <= i < |ran| ==> ran[i].seqNo !in queue.cancelled && ran[i] !in queue.live
    {
      NumbersAre(ran, s);
      hide EventQueue.Valid;
      QueueKeepsAll(s);
      forall i | 0 <= i < |ran| ensures ran[i].seqNo !in queue.cancelled && ran[i] !in queue.live {
        assert ran[i].seqNo in queue.popped;
      }
    }

    /** Every event that the action of event k asked for is on the agenda at exactly its tick,
        and has run, was cancelled, or is still to come. */
    lemma RequestIsKept(a: Agenda, from: nat, actions: seq<Event> -> seq<Request>, k: nat, i: nat) returns (e: Event)
      requires Valid() && View() == AskedBy(a, ran, from, actions) && from <= k < |ran|
      requires Reached(actions(ran[..k + 1]), i) && actions(ran[..k + 1])[i].After?
      ensures var request := actions(ran[..k + 1])[i];
              e.tick == ran[k].tick + request.delay && e.task == request.task && e.seqNo >= |a.made|
      ensures e.seqNo in queue.cancelled || e in queue.live || e in ran
    {
      hide Behind, Numbers, NoRepeats, AllAsked, Reached;
      var upTo := ran[..k + 1];
      assert upTo[..|upTo| - 1] == ran[..k] && upTo[k] == ran[k];
      var before := AskedBy(a, ran[..k], from, actions);
      var s := AfterIsMade(before, Numbers(upTo), ran[k].tick, actions(upTo), i);
      AskedByGrows(a, ran, k + 1, from, actions);
      AgendaOnlyGrows(a, ran[..k], from, actions);
      e := queue.made[s];
      WhereItIs(s);
    }

    lemma WhereItIs(s: nat)
      requires Valid() && s < |queue.made|
      ensures s in queue.cancelled || queue.made[s] in queue.live || queue.made[s] in ran
    {
      NothingIsLost(s);
      hide Behind, Numbers, NoRepeats;
    }

    lemma QueueKeepsAll(s: nat)
      requires queue.Valid()
      ensures s < queue.nextSeq <==>
        s in queue.cancelled || s in queue.popped || exists e :: e in queue.live && e.seqNo == s
      ensures queue.popped !! queue.cancelled
      ensures forall e :: e in queue.live ==> e.seqNo !in queue.popped
    {
      if s in queue.pendings {
        assert queue.pendings[s] in queue.live;
      }
    }
  }

  lemma {:induction false} NumbersAre(ran: seq<Event>, s: nat)
    ensures s in Numbers(ran) <==> exists i :: 0 <= i < |ran| && ran[i].seqNo == s
    decreases |ran|
  {
    if ran != [] {
      NumbersAre(ran[..|ran| - 1], s);
    }
  }

  lemma LeastIsLater(live: set<Event>, tick: Tick)
    requires exists e :: IsLeast(e, live) && e.tick == tick
    ensures live != {} && forall e :: e in live ==> e.tick >= tick
  {
  }

  lemma SameLeast(live: set<Event>, event: Event, tick: Tick)
    requires IsLeast(event, live) && exists e :: IsLeast(e, live) && e.tick == tick
    ensures event.tick == tick
  {
  }
}
