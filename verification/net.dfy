// groundhog/sim/net.py: the switchboard between the nodes.
//
// `flight` is what it has put on the clock and has not yet arrived, in scheduling order.
// The loss and duplication draws are parameters; latency decides only which arrives when.
module Networks {
  import opened Types
  import opened Messages

  datatype Health = Running | Crashed | Hung

  datatype Partition = Partition(sideA: set<NodeId>, sideB: set<NodeId>, oneWay: bool)

  predicate Blocks(p: Partition, frm: NodeId, to: NodeId) {
    (frm in p.sideA && to in p.sideB) || (!p.oneWay && frm in p.sideB && to in p.sideA)
  }

  /** A two-way cut of the nodes blocks exactly the pairs it separates; a one-way cut, of two
      separated nodes, blocks one direction and lets the other through. */
  lemma CutsApart(p: Partition, frm: NodeId, to: NodeId)
    requires p.sideA !! p.sideB && frm in p.sideA + p.sideB && to in p.sideA + p.sideB
    ensures !p.oneWay ==> (Blocks(p, frm, to) <==> (frm in p.sideA <==> to in p.sideB))
    ensures p.oneWay && (frm in p.sideA <==> to in p.sideB) ==> (Blocks(p, frm, to) <==> !Blocks(p, to, frm))
    ensures Blocks(p, frm, to) ==> frm != to
  {
  }

  class SimNetwork {
    var health: map<NodeId, Health>
    var held: map<NodeId, seq<Packet>>
    var partition: Option<Partition>
    var flight: seq<Packet>
    var delivered: nat
    var dropped: nat

    /** Every packet a node ever gave the network. */
    ghost var sent: set<Packet>

    /** Nothing travels or waits that was not sent, and only a hung node keeps anything waiting. */
    ghost predicate Valid()
      reads this
    {
      && held.Keys == health.Keys
      && (forall p :: p in flight ==> p in sent && p.dst in health)
      && (forall id, p :: id in held && p in held[id] ==> p in sent && p.dst == id)
      && (forall id :: id in held && !health[id].Hung? ==> held[id] == [])
    }

    constructor ()
      ensures Valid() && health == map[] && flight == [] && sent == {} && partition == None
      ensures held == map[] && delivered == 0 && dropped == 0
    {
      health, held, partition, flight, delivered, dropped := map[], map[], None, [], 0, 0;
      sent := {};
    }

    method Register(id: NodeId) returns (status: Status)
      requires Valid()
      modifies this
      ensures Valid() && flight == old(flight) && sent == old(sent) && partition == old(partition)
      ensures delivered == old(delivered) && dropped == old(dropped)
      ensures held == if status.Ok? then old(held)[id := []] else old(held)
      ensures status == if id in old(health) then Raised(ValueError) else Ok
      ensures health == if status.Ok? then old(health)[id := Running] else old(health)
    {
      if id in health {
        return Raised(ValueError);
      }
      health := health[id := Running];
      held := held[id := []];
      status := Ok;
    }

    method Send(p: Packet, lose: bool, duplicate: bool) returns (status: Status)
      requires Valid()
      modifies this
      ensures Valid() && health == old(health) && held == old(held) && partition == old(partition)
      ensures status == if p.dst !in health then Raised(ValueError) else Ok
      ensures sent == if status.Ok? then old(sent) + {p} else old(sent)
      ensures delivered == old(delivered) && dropped == old(dropped) + (if status.Ok? && lose then 1 else 0)
      ensures flight == old(flight) + if status.Raised? || lose then [] else if duplicate then [p, p] else [p]
    {
      if p.dst !in health {
        assert flight + [] == flight;
        return Raised(ValueError);
      }
      sent := sent + {p};
      if lose {
        dropped := dropped + 1;
        assert flight + [] == flight;
        return Ok;
      }
      flight := flight + [p];
      if duplicate {
        flight := flight + [p];
      }
      status := Ok;
    }

    /** From here on the two sides are cut off from each other; `None` heals the cut. */
    method Cut(now: Option<Partition>)
      requires Valid()
      modifies this`partition
      ensures Valid() && partition == now
    {
      partition := now;
    }

    /** The k-th packet in flight arrives: it is delivered only if nothing cuts it off and its
        receiver runs, and a hung receiver will have it later. */
    method Arrive(k: nat) returns (inbox: Option<Packet>)
      requires Valid() && k < |flight|
      modifies this
      ensures Valid() && sent == old(sent) && health == old(health) && partition == old(partition)
      ensures flight == old(flight[..k] + flight[k + 1..])
      ensures var p := old(flight[k]);
              var cut := partition.Some? && Blocks(partition.value, p.src, p.dst);
              && (inbox.Some? <==> !cut && health[p.dst].Running?)
              && (inbox.Some? ==> inbox.value == p && p in sent)
              && held == (if !cut && health[p.dst].Hung? then old(held)[p.dst := old(held)[p.dst] + [p]] else old(held))
              && delivered == old(delivered) + (if inbox.Some? then 1 else 0)
              && dropped == old(dropped) + (if cut || health[p.dst].Crashed? then 1 else 0)
    {
      var p := flight[k];
      assert p in flight;
      flight := flight[..k] + flight[k + 1..];
      inbox := None;
      if partition.Some? && Blocks(partition.value, p.src, p.dst) {
        dropped := dropped + 1;
        return;
      }
      match health[p.dst] {
        case Crashed =>
          dropped := dropped + 1;
        case Hung =>
          held := held[p.dst := held[p.dst] + [p]];
        case Running =>
          delivered := delivered + 1;
          inbox := Some(p);
      }
    }

    /** A node that wakes up gets what it missed, in arrival order; one that crashes loses it. */
    method SetState(id: NodeId, now: Health)
      requires Valid() && id in health
      modifies this
      ensures Valid() && sent == old(sent) && health == old(health)[id := now] && partition == old(partition)
      ensures delivered == old(delivered) && dropped == old(dropped)
      ensures held == if now.Hung? && !old(health[id]).Hung? then old(held)
                      else if now.Crashed? || old(health[id]).Hung? then old(held)[id := []]
                      else old(held)
      ensures flight == old(flight) + if old(health[id]).Hung? && !now.Crashed? then old(held[id]) else []
    {
      var previous := health[id];
      health := health[id := now];
      if now.Crashed? {
        held := held[id := []];
        assert flight + [] == flight;
      } else if previous.Hung? {
        Release(id);
      } else {
        assert flight + [] == flight;
      }
    }

    method Release(id: NodeId)
      requires id in held && held.Keys == health.Keys
      requires forall p :: p in held[id] ==> p.dst == id
      modifies this`held, this`flight
      ensures held == old(held)[id := []] && flight == old(flight) + old(held[id])
    {
      var waiting := held[id];
      held := held[id := []];
      var i := 0;
      while i < |waiting|
        invariant 0 <= i <= |waiting|
        invariant held == old(held)[id := []] && flight == old(flight) + waiting[..i]
      {
        flight := flight + [waiting[i]];
        i := i + 1;
      }
      assert waiting[..i] == waiting;
    }
  }
}
