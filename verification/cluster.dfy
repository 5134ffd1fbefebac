// The cluster of groundhog/raft/world.py as a step system.
//
// The network is the set of all packets ever sent: a sent packet may be delivered at any
// time, any number of times, or never, which covers loss, delay, duplication, reordering,
// hangs and partitions. Timers fire at any running node at any time. A disk error in the
// middle of a handler keeps any prefix of the records that handler writes.
module Cluster {
  import opened Types
  import opened Kv
  import opened Log
  import opened Messages
  import opened Wal
  import opened NodeSpec

  datatype Config = Config(ids: seq<NodeId>)

  const CLIENT_ID: NodeId := 0

  predicate ValidConfig(c: Config) {
    && |c.ids| > 0
    && CLIENT_ID !in c.ids
    && forall i, j :: 0 <= i < j < |c.ids| ==> c.ids[i] != c.ids[j]
  }

  function Members(c: Config): set<NodeId> {
    SetOf(c.ids)
  }

  function Without(ids: seq<NodeId>, id: NodeId): seq<NodeId> {
    if ids == [] then [] else (if ids[0] == id then [] else [ids[0]]) + Without(ids[1..], id)
  }

  /** Every node but `id`, in the cluster's order. */
  function Peers(c: Config, id: NodeId): seq<NodeId> {
    Without(c.ids, id)
  }

  datatype System = System(
    nodes: map<NodeId, NodeState>,
    wals: map<NodeId, seq<Record>>,
    net: set<Packet>,
    raised: bool)

  predicate WellFormed(c: Config, s: System) {
    s.nodes.Keys == Members(c) && s.wals.Keys == Members(c)
  }

  datatype Event =
    | Deliver(packet: Packet)
    | DeliverAndFail(packet: Packet, cut: nat)
    | ElectionTimeout(id: NodeId)
    | ElectionTimeoutAndFail(id: NodeId, cut: nat)
    | Heartbeat(id: NodeId)
    | Crash(id: NodeId)
    | Restart(id: NodeId)
    | Submit(to: NodeId, requestId: nat, command: Command)

  function Initial(c: Config): System {
    System(FromKeys(c.ids, INITIAL_NODE), FromKeys(c.ids, []), {}, false)
  }

  function PacketSet(packets: seq<Packet>): set<Packet> {
    set p | p in packets
  }

  /** The handler ran to its end: everything written is synced, then everything is sent. */
  function Complete(s: System, id: NodeId, effect: Effect): System
    requires id in s.wals
  {
    System(s.nodes[id := effect.node],
           s.wals[id := s.wals[id] + effect.written],
           s.net + PacketSet(effect.sent),
           s.raised)
  }

  /** The disk failed under the handler: nothing was sent, and `cut` of its records survive. */
  function Fail(s: System, id: NodeId, effect: Effect, cut: nat): System
    requires id in s.nodes && id in s.wals
  {
    System(s.nodes[id := Crashed(s.nodes[id])],
           s.wals[id := s.wals[id] + effect.written[..Min(cut, |effect.written|)]],
           s.net,
           s.raised)
  }

  /** A node that is up and whose packet is on the network. */
  predicate CanReceive(c: Config, s: System, p: Packet)
    requires WellFormed(c, s)
  {
    p in s.net && p.dst in Members(c) && s.nodes[p.dst].running
  }

  predicate IsUp(c: Config, s: System, id: NodeId)
    requires WellFormed(c, s)
  {
    id in Members(c) && s.nodes[id].running
  }

  function Received(c: Config, s: System, p: Packet): Effect
    requires WellFormed(c, s)
    requires CanReceive(c, s, p) && Ready(s.nodes[p.dst], p.msg)
  {
    Dispatch(p.dst, Peers(c, p.dst), s.nodes[p.dst], p.src, p.msg)
  }

  function TimedOut(c: Config, s: System, id: NodeId): Effect
    requires WellFormed(c, s) && IsUp(c, s, id)
  {
    OnElectionTimeout(id, Peers(c, id), s.nodes[id])
  }

  /** One event. An event that cannot happen changes nothing. */
  function Apply(c: Config, s: System, ev: Event): (s': System)
    requires WellFormed(c, s)
    ensures WellFormed(c, s')
  {
    match ev
    case Deliver(p) =>
      if !CanReceive(c, s, p) then s
      else if !Ready(s.nodes[p.dst], p.msg) then s.(raised := true)
      else Complete(s, p.dst, Received(c, s, p))
    case DeliverAndFail(p, cut) =>
      if !CanReceive(c, s, p) then s
      else if !Ready(s.nodes[p.dst], p.msg) then s.(raised := true)
      else Fail(s, p.dst, Received(c, s, p), cut)
    case ElectionTimeout(id) =>
      if !IsUp(c, s, id) then s else Complete(s, id, TimedOut(c, s, id))
    case ElectionTimeoutAndFail(id, cut) =>
      if !IsUp(c, s, id) then s else Fail(s, id, TimedOut(c, s, id), cut)
    case Heartbeat(id) =>
      if !IsUp(c, s, id) || !s.nodes[id].role.Leader? then s
      else if !NextIndexOk(s.nodes[id]) then s.(raised := true)
      else Complete(s, id, SendHeartbeats(id, Peers(c, id), s.nodes[id]))
    case Crash(id) =>
      if id !in Members(c) then s else s.(nodes := s.nodes[id := Crashed(s.nodes[id])])
    case Restart(id) =>
      if id !in Members(c) then s
      else if !Contiguous(Replay(s.wals[id]).log) then s.(raised := true)
      else s.(nodes := s.nodes[id := Restarted(s.nodes[id], Replay(s.wals[id]))])
    case Submit(to, requestId, command) =>
      s.(net := s.net + {Packet(CLIENT_ID, to, ClientRequest(requestId, command))})
  }

  // -- one event at a time

  lemma DeliverEvent(c: Config, s: System, p: Packet, cut: nat)
    requires WellFormed(c, s) && CanReceive(c, s, p) && Ready(s.nodes[p.dst], p.msg)
    ensures Apply(c, s, Deliver(p)) == Complete(s, p.dst, Received(c, s, p))
    ensures Apply(c, s, DeliverAndFail(p, cut)) == Fail(s, p.dst, Received(c, s, p), cut)
  {
    hide Received, Complete, Fail, Ready;
  }

  lemma TimeoutEvent(c: Config, s: System, id: NodeId, cut: nat)
    requires WellFormed(c, s) && IsUp(c, s, id)
    ensures Apply(c, s, ElectionTimeout(id)) == Complete(s, id, TimedOut(c, s, id))
    ensures Apply(c, s, ElectionTimeoutAndFail(id, cut)) == Fail(s, id, TimedOut(c, s, id), cut)
  {
    hide TimedOut, Complete, Fail;
  }

  lemma HeartbeatEvent(c: Config, s: System, id: NodeId)
    requires WellFormed(c, s) && IsUp(c, s, id) && s.nodes[id].role.Leader? && NextIndexOk(s.nodes[id])
    ensures Apply(c, s, Heartbeat(id)) == Complete(s, id, SendHeartbeats(id, Peers(c, id), s.nodes[id]))
  {
    hide SendHeartbeats, Complete, Peers;
  }

  lemma CrashEvent(c: Config, s: System, id: NodeId)
    requires WellFormed(c, s) && id in Members(c)
    ensures Apply(c, s, Crash(id)) == s.(nodes := s.nodes[id := Crashed(s.nodes[id])])
  {
    hide Received, TimedOut, Ready, Complete, Fail, Crashed;
  }

  lemma RestartEvent(c: Config, s: System, id: NodeId)
    requires WellFormed(c, s) && id in Members(c) && Contiguous(Replay(s.wals[id]).log)
    ensures var s' := Apply(c, s, Restart(id));
            s'.nodes[id] == Restarted(s.nodes[id], Replay(s.wals[id])) && s'.wals == s.wals && s'.net == s.net
  {
    hide Replay, Restarted, Contiguous;
  }

  // -- what a stretch of events leaves alone

  /** Only nodes of `touched` differ between the two states, and nothing sent is gone. */
  ghost predicate OnlyTouched(c: Config, s: System, s': System, touched: set<NodeId>)
    requires WellFormed(c, s) && WellFormed(c, s')
  {
    && s.net <= s'.net
    && forall v {:trigger s'.nodes[v]} :: v in Members(c) && v !in touched ==> s'.nodes[v] == s.nodes[v]
  }

  lemma TouchedThen(c: Config, s: System, s1: System, s2: System, first: set<NodeId>, second: set<NodeId>)
    requires WellFormed(c, s) && WellFormed(c, s1) && WellFormed(c, s2)
    requires OnlyTouched(c, s, s1, first) && OnlyTouched(c, s1, s2, second)
    ensures OnlyTouched(c, s, s2, first + second)
  {
  }

  /** The state a run reaches; a prefix of `events` gives an earlier moment of the same run. */
  function Run(c: Config, events: seq<Event>): (s: System)
    ensures WellFormed(c, s)
    decreases |events|, 1
  {
    if events == [] then Initial(c) else AfterLast(c, events)
  }

  function AfterLast(c: Config, events: seq<Event>): (s: System)
    requires events != []
    ensures WellFormed(c, s)
    decreases |events|, 0
  {
    Apply(c, Run(c, events[..|events| - 1]), events[|events| - 1])
  }
}
