// groundhog/sim/event.py: the event queue, with lazy cancellation.
//
// The heap is kept as a sequence whose least entry is extracted, which is all that `heapq`
// promises. What is proved is the queue's own work: it behaves as a sorted set of the live
// events, although cancelled ones stay in the heap until they surface.
module Events {
  import opened Types

  /** `task` stands for the callable, which the queue never looks at. */
  datatype Event = Event(tick: Tick, seqNo: nat, task: nat)

  /** The `(tick, seq)` order; no two events share a `seq`. */
  predicate Before(a: Event, b: Event) {
    a.tick < b.tick || (a.tick == b.tick && a.seqNo < b.seqNo)
  }

  predicate Distinct(events: set<Event>) {
    forall a, b :: a in events && b in events && a.seqNo == b.seqNo ==> a == b
  }

  predicate IsLeast(e: Event, live: set<Event>) {
    e in live && forall x :: x in live && x != e ==> Before(e, x)
  }

  lemma {:induction false} LeastExists(live: set<Event>)
    requires live != {} && Distinct(live)
    ensures exists e :: IsLeast(e, live)
    decreases |live|
  {
    var x :| x in live;
    if live == {x} {
      assert IsLeast(x, live);
    } else {
      assert live - {x} != {};
      LeastExists(live - {x});
      var y :| IsLeast(y, live - {x});
      if Before(x, y) {
        forall z | z in live && z != x ensures Before(x, z) {
          assert z in live - {x};
        }
        assert IsLeast(x, live);
      } else {
        assert Before(y, x);
        assert IsLeast(y, live);
      }
    }
  }

  /** Live events in the order in which popping would return them. */
  ghost function Drained(live: set<Event>): (events: seq<Event>)
    requires Distinct(live)
    decreases |live|
  {
    if live == {} then
      []
    else
      LeastExists(live);
      var e :| IsLeast(e, live);
      [e] + Drained(live - {e})
  }

  lemma DrainedBy(e: Event, live: set<Event>)
    requires Distinct(live) && IsLeast(e, live)
    ensures Drained(live) == [e] + Drained(live - {e})
  {
  }

  /** Draining is sorting: every live event once, in strictly increasing order. */
  lemma {:induction false} DrainedIsSorted(live: set<Event>)
    requires Distinct(live)
    ensures forall e :: e in Drained(live) <==> e in live
    ensures |Drained(live)| == |live|
    ensures forall i, j :: 0 <= i < j < |Drained(live)| ==> Before(Drained(live)[i], Drained(live)[j])
    decreases |live|
  {
    if live != {} {
      LeastExists(live);
      var e :| IsLeast(e, live);
      DrainedBy(e, live);
      DrainedIsSorted(live - {e});
    }
  }

  /** `pendings` maps the sequence number of each live event to it, and nothing else. */
  ghost predicate Holds(pendings: map<nat, Event>, live: set<Event>) {
    && (forall s :: s in pendings ==> pendings[s].seqNo == s && pendings[s] in live)
    && (forall e :: e in live ==> e.seqNo in pendings && pendings[e.seqNo] == e)
  }

  lemma HoldsDistinct(pendings: map<nat, Event>, live: set<Event>)
    requires Holds(pendings, live)
    ensures Distinct(live)
  {
  }

  lemma HoldsLess(pendings: map<nat, Event>, live: set<Event>, e: Event)
    requires Holds(pendings, live) && IsLeast(e, live) && Distinct(live)
    ensures e.seqNo in pendings && Holds(pendings - {e.seqNo}, live - {e}) && Distinct(live - {e})
    ensures forall before: seq<Event> :: before + Drained(live) == (before + [e]) + Drained(live - {e})
  {
    DrainedBy(e, live);
    forall before: seq<Event> ensures before + Drained(live) == (before + [e]) + Drained(live - {e}) {
      assert before + ([e] + Drained(live - {e})) == (before + [e]) + Drained(live - {e});
    }
  }

  lemma HoldsNothing(live: set<Event>)
    requires Holds(map[], live)
    ensures live == {}
  {
  }

  class EventQueue {
    var heap: seq<Event>
    var nextSeq: nat
    var pendings: map<nat, Event>

    /** Of the sequence numbers handed out so far: those popped, and those cancelled. */
    ghost var popped: set<nat>
    ghost var cancelled: set<nat>

    /** The events scheduled and neither popped nor cancelled. */
    ghost var live: set<Event>

    /** Every event ever scheduled, under its number. */
    ghost var made: seq<Event>

    ghost predicate Valid()
      reads this
    {
      && Holds(pendings, live)
      && (forall e :: e in live ==> e in heap)
      && (forall e :: e in heap && e.seqNo in pendings ==> pendings[e.seqNo] == e)
      && (forall i, j :: 0 <= i < j < |heap| ==> heap[i].seqNo != heap[j].seqNo)
      && (forall s: nat :: s < nextSeq <==> s in pendings || s in popped || s in cancelled)
      && |made| == nextSeq
      && (forall e :: e in heap ==> e.seqNo < nextSeq && made[e.seqNo] == e)
      && pendings.Keys !! popped && pendings.Keys !! cancelled && popped !! cancelled
    }

    constructor ()
      ensures Valid() && live == {} && nextSeq == 0 && popped == {} && cancelled == {} && made == []
    {
      heap, nextSeq, pendings := [], 0, map[];
      popped, cancelled, live, made := {}, {}, {}, [];
    }

    /** The number of live events, whatever else the heap holds. */
    method Size() returns (size: nat)
      requires Valid()
      ensures size == |live|
    {
      size := |pendings|;
      SameSize(pendings, live);
    }

    method Schedule(tick: int, task: nat) returns (status: Status, event: Event)
      requires Valid()
      modifies this
      ensures Valid() && popped == old(popped) && cancelled == old(cancelled)
      ensures status == if tick < 0 then Raised(ValueError) else Ok
      ensures status.Raised? ==> live == old(live) && nextSeq == old(nextSeq) && made == old(made)
      ensures status.Ok? ==>
        && event == Event(tick, old(nextSeq), task) && nextSeq == old(nextSeq) + 1
        && made == old(made) + [event]
        && event !in old(live) && live == old(live) + {event}
    {
      event := Event(0, nextSeq, task);
      if tick < 0 {
        return Raised(ValueError), event;
      }
      event := Event(tick, nextSeq, task);
      assert nextSeq !in pendings;
      nextSeq := nextSeq + 1;
      pendings := pendings[event.seqNo := event];
      heap := heap + [event];
      live := live + {event};
      made := made + [event];
      status := Ok;
    }

    /** Takes the live event with this number, if there is one, out of the live set. */
    method Cancel(event: Event) returns (was: bool)
      requires Valid()
      modifies this
      ensures Valid() && popped == old(popped) && nextSeq == old(nextSeq) && made == old(made)
      ensures was <==> exists e :: e in old(live) && e.seqNo == event.seqNo
      ensures live == set e | e in old(live) && e.seqNo != event.seqNo
      ensures cancelled == if was then old(cancelled) + {event.seqNo} else old(cancelled)
    {
      was := event.seqNo in pendings;
      if was {
        live := live - {pendings[event.seqNo]};
        pendings := pendings - {event.seqNo};
        cancelled := cancelled + {event.seqNo};
      }
    }

    // -- the heap

    /** `heapq.heappop`: take out the least entry. */
    method PopHeap() returns (least: Event)
      requires Valid() && heap != []
      modifies this`heap
      ensures least in old(heap) && forall e :: e in old(heap) && e != least ==> Before(least, e)
      ensures forall e :: e in heap <==> e in old(heap) && e != least
      ensures forall i, j :: 0 <= i < j < |heap| ==> heap[i].seqNo != heap[j].seqNo
      ensures |heap| < |old(heap)|
    {
      var k := LeastIndex();
      least := heap[k];
      heap := heap[..k] + heap[k + 1..];
    }

    method LeastIndex() returns (k: nat)
      requires Valid() && heap != []
      ensures k < |heap| && forall i :: 0 <= i < |heap| && i != k ==> Before(heap[k], heap[i])
    {
      k := 0;
      for i := 1 to |heap|
        invariant k < i
        invariant forall j :: 0 <= j < i && j != k ==> Before(heap[k], heap[j])
      {
        if Before(heap[i], heap[k]) {
          k := i;
        }
      }
    }

    /** Takes out the least live event, passing over whatever in the heap is not live. */
    method Pop() returns (event: Option<Event>)
      requires Valid()
      modifies this
      ensures Valid() && cancelled == old(cancelled) && nextSeq == old(nextSeq) && made == old(made)
      ensures event.None? <==> old(live) == {}
      ensures event.None? ==> live == {} && popped == old(popped)
      ensures event.Some? ==>
        && IsLeast(event.value, old(live))
        && live == old(live) - {event.value}
        && popped == old(popped) + {event.value.seqNo}
    {
      while heap != []
        invariant Valid() && live == old(live) && popped == old(popped)
        invariant cancelled == old(cancelled) && nextSeq == old(nextSeq) && made == old(made)
        decreases |heap|
      {
        var least := PopHeap();
        if least.seqNo in pendings {
          live := live - {least};
          pendings := pendings - {least.seqNo};
          popped := popped + {least.seqNo};
          return Some(least);
        }
      }
      event := None;
    }

    /** The tick of the least live event; no live event is touched. */
    method PeekTick() returns (tick: Option<Tick>)
      requires Valid()
      modifies this`heap
      ensures Valid() && live == old(live)
      ensures tick.None? <==> live == {}
      ensures tick.Some? ==> exists e :: IsLeast(e, live) && e.tick == tick.value
    {
      DropCancelledHead();
      if heap == [] {
        return None;
      }
      var k := LeastIndex();
      assert heap[k] in heap && IsLeast(heap[k], live);
      tick := Some(heap[k].tick);
    }

    method DropCancelledHead()
      requires Valid()
      modifies this`heap
      ensures Valid()
      ensures heap == [] || exists k :: 0 <= k < |heap| && heap[k].seqNo in pendings
                                        && forall i :: 0 <= i < |heap| && i != k ==> Before(heap[k], heap[i])
    {
      while heap != []
        invariant Valid()
        decreases |heap|
      {
        var k := LeastIndex();
        if heap[k].seqNo in pendings {
          return;
        }
        var gone := PopHeap();
      }
    }

    /** Equals what popping until nothing is left would give. */
    method Pending() returns (events: seq<Event>)
      requires Valid()
      ensures Distinct(live) && events == Drained(live)
    {
      HoldsDistinct(pendings, live);
      hide EventQueue.Valid, Holds, Distinct, IsLeast;
      var left := pendings;
      ghost var rest := live;
      events := [];
      while left != map[]
        invariant Holds(left, rest) && Distinct(rest)
        invariant events + Drained(rest) == Drained(live)
        decreases |left|
      {
        var e := LeastOf(left, rest);
        HoldsLess(left, rest, e);
        events := events + [e];
        left := left - {e.seqNo};
        rest := rest - {e};
      }
      HoldsNothing(rest);
    }

    method LeastOf(left: map<nat, Event>, ghost rest: set<Event>) returns (least: Event)
      requires left != map[] && Holds(left, rest)
      ensures IsLeast(least, rest)
    {
      var keys := left.Keys;
      var k :| k in keys;
      least := left[k];
      keys := keys - {k};
      while keys != {}
        invariant keys <= left.Keys && least.seqNo in left && left[least.seqNo] == least
        invariant forall s :: s in left && s !in keys && s != least.seqNo ==> Before(least, left[s])
      {
        k :| k in keys;
        keys := keys - {k};
        if Before(left[k], least) {
          least := left[k];
        }
      }
    }
  }

  lemma {:induction false} SameSize(pendings: map<nat, Event>, live: set<Event>)
    requires Holds(pendings, live)
    ensures |pendings| == |live|
    decreases |pendings|
  {
    if pendings == map[] {
      assert live == {};
    } else {
      var s :| s in pendings;
      SameSize(pendings - {s}, live - {pendings[s]});
    }
  }
}
