// groundhog/raft/world.py: a node and its disk as one thing that events happen to.
//
// Each method is one thing that happens to the node, and is proved to be an event of the
// step system in Cluster: whatever the draws of the disk, what the objects hold afterwards
// is what `Apply` says, for some event that could happen.
module SimNodes {
  import opened Types
  import opened Log
  import opened Messages
  import opened Wal
  import opened Codec
  import opened Persist
  import opened Disk
  import opened RaftStorages
  import opened NodeSpec
  import opened Cluster
  import opened RaftNodes
  import opened Theorems

  /** How much of what a failing handler wrote is left, when recovery will read `k` records. */
  lemma WritesCut(before: seq<Record>, written: seq<Record>, now: seq<Record>, k: nat)
    requires before <= now <= before + written && |before| <= k <= |now|
    ensures now[..k] == before + written[..k - |before|]
  {
    assert now == (before + written)[..|now|];
  }

  // -- one more event of a run, as it looks from the node it happens to

  lemma OneCrash(c: Config, events: seq<Event>, id: NodeId)
    requires id in Members(c)
    ensures var s, s' := Run(c, events), Run(c, events + [Event.Crash(id)]);
            s'.nodes[id] == Crashed(s.nodes[id]) && s'.wals == s.wals && s'.net == s.net
  {
    OneMore(c, events, Event.Crash(id));
    hide Run, Apply, Crashed;
    CrashEvent(c, Run(c, events), id);
  }

  lemma OneRestart(c: Config, events: seq<Event>, id: NodeId)
    requires ValidConfig(c) && id in Members(c)
    ensures var s, s' := Run(c, events), Run(c, events + [Event.Restart(id)]);
            && Contiguous(Replay(s.wals[id]).log)
            && s'.nodes[id] == Restarted(s.nodes[id], Replay(s.wals[id])) && s'.wals == s.wals && s'.net == s.net
  {
    RestartIsHandled(c, events, id);
    OneMore(c, events, Event.Restart(id));
    RestartEvent(c, Run(c, events), id);
    hide Run, Replay, Restarted, Contiguous, Apply;
  }

  lemma OneDelivery(c: Config, events: seq<Event>, p: Packet)
    requires ValidConfig(c) && CanReceive(c, Run(c, events), p)
    ensures var s := Run(c, events);
            && Ready(s.nodes[p.dst], p.msg) && NamesNode(p.msg)
            && Run(c, events + [Deliver(p)]) == Complete(s, p.dst, Received(c, s, p))
            && forall cut {:trigger DeliverAndFail(p, cut)} ::
                 Run(c, events + [DeliverAndFail(p, cut)]) == Fail(s, p.dst, Received(c, s, p), cut)
  {
    EveryPacketIsHandled(c, events, p);
    hide Run, Apply, Ready, Received, Complete, Fail, CanReceive;
    OneMore(c, events, Deliver(p));
    DeliverEvent(c, Run(c, events), p, 0);
    forall cut
      ensures Run(c, events + [DeliverAndFail(p, cut)])
           == Fail(Run(c, events), p.dst, Received(c, Run(c, events), p), cut)
    {
      OneMore(c, events, DeliverAndFail(p, cut));
      DeliverEvent(c, Run(c, events), p, cut);
    }
  }

  lemma ReceivedIs(c: Config, s: System, p: Packet)
    requires WellFormed(c, s) && CanReceive(c, s, p) && Ready(s.nodes[p.dst], p.msg)
    ensures Received(c, s, p) == NodeSpec.Dispatch(p.dst, Peers(c, p.dst), s.nodes[p.dst], p.src, p.msg)
  {
  }

  lemma NoDelivery(c: Config, events: seq<Event>, p: Packet)
    requires !CanReceive(c, Run(c, events), p)
    ensures Run(c, events + [Deliver(p)]) == Run(c, events)
  {
    OneMore(c, events, Deliver(p));
  }

  lemma OneTimeout(c: Config, events: seq<Event>, id: NodeId)
    requires IsUp(c, Run(c, events), id)
    ensures var s := Run(c, events);
            && Run(c, events + [ElectionTimeout(id)]) == Complete(s, id, TimedOut(c, s, id))
            && forall cut {:trigger ElectionTimeoutAndFail(id, cut)} ::
                 Run(c, events + [ElectionTimeoutAndFail(id, cut)]) == Fail(s, id, TimedOut(c, s, id), cut)
  {
    hide Run, Apply, TimedOut, Complete, Fail;
    OneMore(c, events, ElectionTimeout(id));
    TimeoutEvent(c, Run(c, events), id, 0);
    forall cut
      ensures Run(c, events + [ElectionTimeoutAndFail(id, cut)])
           == Fail(Run(c, events), id, TimedOut(c, Run(c, events), id), cut)
    {
      OneMore(c, events, ElectionTimeoutAndFail(id, cut));
      TimeoutEvent(c, Run(c, events), id, cut);
    }
  }

  lemma OneHeartbeat(c: Config, events: seq<Event>, id: NodeId)
    requires ValidConfig(c) && Leads(c, Run(c, events), id)
    ensures var s := Run(c, events);
            && NextIndexOk(s.nodes[id])
            && Run(c, events + [Heartbeat(id)]) == Complete(s, id, SendHeartbeats(id, Peers(c, id), s.nodes[id]))
  {
    HeartbeatIsHandled(c, events, id);
    OneMore(c, events, Heartbeat(id));
    HeartbeatEvent(c, Run(c, events), id);
  }

  lemma SentNothing(net: set<Packet>, sent: seq<Packet>)
    ensures net + PacketSet(sent[|sent|..]) == net
  {
  }

  /** What a crash leaves of `bytes`, of which the first `durable` are safe. */
  function TornTail(bytes: seq<byte>, durable: nat, tail: (bool, nat)): (left: seq<byte>)
    requires durable <= |bytes|
    ensures bytes[..durable] <= left <= bytes
  {
    bytes[..durable + if tail.0 then 0 else tail.1 % (|bytes| - durable + 1)]
  }

  class SimNode {
    const node: RaftNode
    const disk: SimStorage

    /** Between events: everything on the disk is durable, and a running node's disk is up. */
    ghost predicate Valid()
      reads node, node.log, node.storage, disk
    {
      && node.storage.disk == disk
      && node.Valid()
      && disk.durable == |disk.bytes|
      && (node.running ==> disk.Up() && node.Synced())
    }

    /** What recovery would read back now. */
    ghost function Kept(): (records: seq<Record>)
      requires node.storage.disk == disk && node.storage.Valid() && disk.durable == |disk.bytes|
      reads node.storage, disk
      ensures records <= node.storage.wal && disk.synced <= |records|
    {
      SurvivingRecords(disk.crc, disk.attempted, disk.synced, disk.durable, disk.bytes);
      node.storage.wal[..|Decode(disk.crc, disk.bytes)|]
    }

    /** The objects are in the state that `s` gives this node. */
    ghost predicate Plays(c: Config, s: System)
      reads node, node.log, node.kv, node.storage, disk
    {
      && Valid() && WellFormed(c, s)
      && node.nodeId in Members(c) && node.peers == Peers(c, node.nodeId)
      && s.nodes[node.nodeId] == node.View()
      && s.wals[node.nodeId] == Kept()
    }

    lemma UpInRun(c: Config, s: System)
      requires Plays(c, s) && node.running
      ensures WellFormed(c, s) && IsUp(c, s, node.nodeId)
    {
      hide RaftStorage.Valid, Peers, RealVote, Contiguous, SimNode.Kept;
    }

    lemma NothingToLose()
      requires node.storage.disk == disk && node.storage.Valid() && node.Synced()
      ensures disk.durable == |disk.bytes| && Kept() == node.storage.wal
    {
      assert disk.attempted[..|disk.attempted|] == disk.attempted;
      DecodeFrames(disk.crc, disk.attempted);
    }

    constructor (node: RaftNode)
      requires node.Valid() && node.storage.disk.Up() && node.Synced()
      requires node.storage.disk.durable == |node.storage.disk.bytes|
      ensures Valid() && this.node == node
    {
      this.node := node;
      disk := node.storage.disk;
    }

    /** The objects this node is made of; a crash gives it a new log and a new store. */
    function Parts(): (parts: set<object>)
      reads node
      ensures node in parts
    {
      {node, node.log, node.kv, node.storage, disk, node.net}
    }

    lemma PartsAre()
      ensures {node, node.log, node.kv, node.storage, disk, node.net} == Parts()
    {
    }

    twostate predicate SameOrNew()
      reads node
    {
      (node.log == old(node.log) || fresh(node.log)) && (node.kv == old(node.kv) || fresh(node.kv))
    }

    twostate lemma NoneTaken()
      requires SameOrNew()
      ensures fresh(Parts() - old(Parts()))
    {
    }

    twostate lemma StillApartFrom(other: SimNode)
      requires old(Parts() !! other.Parts()) && SameOrNew() && other.Parts() == old(other.Parts())
      ensures Parts() !! other.Parts()
    {
    }

    twostate predicate Untouched()
      reads Parts()
    {
      Parts() == old(Parts()) && unchanged(Parts())
    }

    twostate lemma UntouchedPlays()
      requires Untouched()
      ensures Parts() == old(Parts()) && node.net.sent == old(node.net.sent)
      ensures forall c, s :: old(Plays(c, s)) ==> Plays(c, s)
    {
    }

    // -- dying and coming back

    /** A disk error reached the guard: the process dies, and the supervisor crashes the disk. */
    method Die(ghost before: seq<Record>, ghost written: seq<Record>)
      requires node.storage.disk == disk && node.Valid() && node.running
      requires before <= node.storage.wal <= before + written && disk.synced == |before|
      modifies node, disk
      ensures Valid() && SameOrNew() && node.View() == INITIAL_NODE.(running := false)
      ensures |before| <= |Kept()| <= |before| + |written|
      ensures Kept() == before + written[..|Kept()| - |before|]
      ensures disk.bytes == TornTail(old(disk.bytes), old(disk.durable), node.storage.tails(node.storage.writes))
    {
      node.Crash();
      CrashDisk();
      WritesCut(before, written, node.storage.wal, |Kept()|);
    }

    method CrashDisk()
      requires disk.Valid()
      modifies disk
      ensures disk.Valid() && !disk.online && disk.durable == |disk.bytes|
      ensures disk.attempted == old(disk.attempted) && disk.synced == old(disk.synced)
      ensures old(disk.durable) == |old(disk.bytes)| ==> disk.bytes == old(disk.bytes)
      ensures old(disk.durable) <= |old(disk.bytes)|
      ensures disk.bytes == TornTail(old(disk.bytes), old(disk.durable), node.storage.tails(node.storage.writes))
    {
      var (lose, draw) := node.storage.tails(node.storage.writes);
      disk.Crash(lose, draw);
    }

    /** The objects have moved as the event `ev` moves the run, sending what it sends. */
    twostate predicate Took(c: Config, events: seq<Event>, ev: Event)
      reads node, node.log, node.kv, node.storage, disk, node.net
    {
      var s, s' := Run(c, events), Run(c, events + [ev]);
      && Plays(c, s')
      && old(node.net.sent) <= node.net.sent
      && s'.net == s.net + PacketSet(node.net.sent[|old(node.net.sent)|..])
    }

    /** The disk was drawn to fail a write of this event exactly if `failed`. */
    twostate predicate Drew(failed: bool)
      reads node, node.storage
    {
      && node.storage.writes >= old(node.storage.writes)
      && (failed <==> Fails(node.storage.draws, old(node.storage.writes), node.storage.writes))
    }

    /** The fault injector kills the node between events: nothing unsynced is there to lose. */
    method Crash(ghost c: Config, ghost events: seq<Event>)
      requires ValidConfig(c) && Plays(c, Run(c, events))
      modifies Parts()
      ensures Took(c, events, Event.Crash(node.nodeId)) && SameOrNew() && Drew(false)
    {
      hide Run, RealVote, Contiguous;
      OneCrash(c, events, node.nodeId);
      node.Crash();
      CrashDisk();
      SentNothing(Run(c, events).net, node.net.sent);
    }

    /** Recovery, which never raises. Two supervisors may both restart a node, so it may be up. */
    method Restart(ghost c: Config, ghost events: seq<Event>) returns (status: Status)
      requires ValidConfig(c) && Plays(c, Run(c, events))
      modifies Parts()
      ensures status == Ok
      ensures Took(c, events, Event.Restart(node.nodeId)) && SameOrNew() && Drew(false)
    {
      hide Decode, DecodeRecord, Frames, Contiguous, RealVote, Run, Restarted, Replay;
      OneRestart(c, events, node.nodeId);
      disk.Restart();
      assert disk.attempted == old(disk.attempted)[..|disk.attempted|];
      status := node.Restart();
      NothingToLose();
      SentNothing(Run(c, events).net, node.net.sent);
    }

    // -- events at a running node

    /** `guard`: a disk error kills the node; any other exception ends the run. */
    method Guard(raised: Status, ghost c: Config, ghost s: System, ghost effect: Effect)
      returns (status: Status, ghost cut: nat)
      requires node.storage.disk == disk && node.Valid() && node.running
      requires WellFormed(c, s) && node.nodeId in Members(c) && node.peers == Peers(c, node.nodeId)
      requires s.nodes[node.nodeId].running
      requires raised.Ok? ==> Valid() && node.View() == effect.node && Kept() == s.wals[node.nodeId] + effect.written
      requires raised.Raised? ==> disk.synced == |s.wals[node.nodeId]|
      requires raised.Raised? ==> s.wals[node.nodeId] <= node.storage.wal <= s.wals[node.nodeId] + effect.written
      modifies node, disk
      ensures status == if raised == Raised(DiskError) then Ok else raised
      ensures SameOrNew()
      ensures raised.Ok? ==> Plays(c, Complete(s, node.nodeId, effect))
      ensures raised == Raised(DiskError) ==> Plays(c, Fail(s, node.nodeId, effect, cut))
    {
      status, cut := raised, 0;
      if raised == Raised(DiskError) {
        ghost var before := s.wals[node.nodeId];
        Die(before, effect.written);
        status := Ok;
        cut := |Kept()| - |before|;
      }
    }

    /** A running node handles a message; `failed` says whether its disk let it down. */
    method Handle(frm: NodeId, msg: Message, ghost c: Config, ghost s: System, ghost effect: Effect)
      returns (status: Status, ghost failed: bool, ghost cut: nat)
      requires Plays(c, s) && node.running && NodeSpec.Ready(node.View(), msg) && NamesNode(msg)
      requires effect == NodeSpec.Dispatch(node.nodeId, node.peers, node.View(), frm, msg)
      modifies Parts()
      ensures SameOrNew() && (status.Ok? ==> Drew(failed))
      ensures status.Ok? && !failed ==>
        Plays(c, Complete(s, node.nodeId, effect)) && node.net.sent == old(node.net.sent) + effect.sent
      ensures status.Ok? && failed ==>
        Plays(c, Fail(s, node.nodeId, effect, cut)) && node.net.sent == old(node.net.sent)
      ensures status.Raised? ==> exists i :: 0 <= i < |effect.written| && !Storable(effect.written[i])
    {
      hide NodeSpec.Dispatch, Storable, Fails, RaftStorage.Valid, Ready, Peers, RealVote, Contiguous, Decode,
           SimNode.Kept;
      NothingToLose();
      var raised := node.Dispatch(frm, msg);
      failed := raised == Raised(DiskError);
      if raised.Ok? {
        NothingToLose();
      }
      status, cut := Guard(raised, c, s, effect);
    }

    /** A packet arrives: the node handles all of it, or its disk fails part of the way and
        leaves some of what the handler writes. Only a record that cannot be encoded ends the run. */
    method OnMessage(frm: NodeId, msg: Message, ghost c: Config, ghost events: seq<Event>)
      returns (status: Status, ghost ev: Event)
      requires ValidConfig(c) && Plays(c, Run(c, events))
      requires Packet(frm, node.nodeId, msg) in Run(c, events).net
      modifies Parts()
      ensures (ev.Deliver? || ev.DeliverAndFail?) && ev.packet == Packet(frm, node.nodeId, msg)
      ensures status.Ok? ==> Took(c, events, ev) && SameOrNew() && Drew(ev.DeliverAndFail?)
      ensures status.Raised? ==>
        && CanReceive(c, Run(c, events), ev.packet) && Ready(Run(c, events).nodes[node.nodeId], msg)
        && var written := Received(c, Run(c, events), ev.packet).written;
           exists i :: 0 <= i < |written| && !Storable(written[i])
    {
      hide NodeSpec.Dispatch, Storable, Fails, RaftStorage.Valid, Ready, Peers, RealVote, Contiguous, Decode,
           SimNode.Kept, Run, Received;
      ghost var s, p := Run(c, events), Packet(frm, node.nodeId, msg);
      ev := Deliver(p);
      if !node.running {
        NoDelivery(c, events, p);
        NoneTried(node.storage.draws, node.storage.writes);
        SentNothing(s.net, node.net.sent);
        return Ok, ev;
      }
      OneDelivery(c, events, p);
      ReceivedIs(c, s, p);
      ghost var failed, cut;
      status, failed, cut := Handle(frm, msg, c, s, Received(c, s, p));
      if failed {
        ev := DeliverAndFail(p, cut);
        SentNothing(s.net, node.net.sent);
      }
    }

    method OnElectionTimeout(ghost c: Config, ghost events: seq<Event>) returns (status: Status, ghost ev: Event)
      requires ValidConfig(c) && Plays(c, Run(c, events)) && node.running
      modifies Parts()
      ensures (ev.ElectionTimeout? || ev.ElectionTimeoutAndFail?) && ev.id == node.nodeId
      ensures status.Ok? ==> Took(c, events, ev) && SameOrNew() && Drew(ev.ElectionTimeoutAndFail?)
      ensures status.Raised? ==>
        var written := TimedOut(c, Run(c, events), node.nodeId).written;
        exists i :: 0 <= i < |written| && !Storable(written[i])
    {
      hide NodeSpec.OnElectionTimeout, Storable, Fails, RaftStorage.Valid, Peers, RealVote, Contiguous, Decode,
           SimNode.Kept, Run;
      ghost var s := Run(c, events);
      ev := ElectionTimeout(node.nodeId);
      OneTimeout(c, events, node.nodeId);
      ghost var effect := TimedOut(c, s, node.nodeId);
      NothingToLose();
      var raised := node.OnElectionTimeout();
      if raised.Ok? {
        NothingToLose();
      }
      ghost var cut;
      status, cut := Guard(raised, c, s, effect);
      if raised == Raised(DiskError) {
        ev := ElectionTimeoutAndFail(node.nodeId, cut);
        SentNothing(s.net, node.net.sent);
      }
    }

    method OnHeartbeat(ghost c: Config, ghost events: seq<Event>) returns (status: Status)
      requires ValidConfig(c) && Plays(c, Run(c, events)) && node.running && node.role == Leader
      modifies Parts()
      ensures status == Ok && Took(c, events, Heartbeat(node.nodeId)) && SameOrNew() && Drew(false)
    {
      hide ReplicateAll, Storable, RaftStorage.Valid, Peers, RealVote, Contiguous, Decode, SimNode.Kept, Run,
           NextIndexOk;
      OneHeartbeat(c, events, node.nodeId);
      NothingToLose();
      status := node.SendHeartbeats();
      assert Kept() + [] == Kept();
    }
  }
}
