// groundhog/raft/world.py: the nodes of one cluster as objects, each with its own disk.
//
// Whatever happens to one of them moves the whole cluster as one event of the step system,
// so that what Theorems says of runs is said of the objects.
module RaftClusters {
  import opened Types
  import opened Kv
  import opened Log
  import opened Messages
  import opened Wal
  import opened Codec
  import opened Disk
  import opened RaftStorages
  import opened NodeSpec
  import opened Cluster
  import opened RaftNodes
  import opened SimNodes
  import opened Theorems

  /** The node an event happens to; a submission happens to none. */
  function Subject(ev: Event): NodeId {
    match ev
    case Deliver(p) => p.dst
    case DeliverAndFail(p, _) => p.dst
    case ElectionTimeout(id) => id
    case ElectionTimeoutAndFail(id, _) => id
    case Heartbeat(id) => id
    case Crash(id) => id
    case Restart(id) => id
    case Submit(_, _, _) => CLIENT_ID
  }

  /** An event changes no node and no write-ahead log but its subject's. */
  lemma OthersStay(c: Config, s: System, ev: Event, other: NodeId)
    requires WellFormed(c, s) && other in Members(c) && other != Subject(ev)
    ensures var s' := Apply(c, s, ev);
            s'.nodes[other] == s.nodes[other] && s'.wals[other] == s.wals[other]
  {
    hide Received, TimedOut, Ready, NextIndexOk, SendHeartbeats, Replay, Contiguous, PacketSet, Members;
  }

  lemma SubmitStays(c: Config, s: System, to: NodeId, requestId: nat, command: Command)
    requires WellFormed(c, s)
    ensures Apply(c, s, Submit(to, requestId, command))
         == s.(net := s.net + {Packet(CLIENT_ID, to, ClientRequest(requestId, command))})
  {
  }

  /** A node of the cluster as it is built: up, with nothing written and nothing sent. */
  ghost predicate AtRest(c: Config, id: NodeId, sim: SimNode)
    reads sim.node, sim.node.log, sim.node.kv, sim.node.storage, sim.disk, sim.node.net
  {
    && sim.node.nodeId == id && sim.node.peers == Peers(c, id)
    && sim.Valid() && sim.node.View() == INITIAL_NODE && sim.Kept() == [] && sim.node.net.sent == []
  }

  lemma RestingPlays(c: Config, id: NodeId, sim: SimNode)
    requires id in Members(c) && AtRest(c, id, sim)
    ensures sim.node.nodeId == id && sim.Plays(c, Run(c, [])) && sim.node.net.sent == []
  {
    hide RaftStorage.Valid, Peers, RealVote, Contiguous, SimNode.Kept;
    assert Run(c, []) == Initial(c);
  }

  class RaftCluster {
    const config: Config
    const sims: map<NodeId, SimNode>

    /** What the client has sent, and what has happened so far. */
    ghost var submitted: set<Packet>
    ghost var events: seq<Event>

    ghost function Nodes(): set<object> {
      set id | id in sims :: sims[id].node
    }

    ghost function Footprint(): set<object>
      reads Nodes()
    {
      set id, part | id in sims && part in sims[id].Parts() :: part
    }

    /** No two nodes share an object. */
    ghost predicate Apart()
      reads Nodes()
    {
      forall a, b :: a in sims && b in sims && a != b ==> sims[a].Parts() !! sims[b].Parts()
    }

    /** Every node is where the run has it. */
    ghost predicate AllPlay(s: System)
      reads Nodes(), Footprint()
    {
      forall id :: id in sims ==>
        assert sims[id].Parts() <= Footprint();
        sims[id].node.nodeId == id && sims[id].Plays(config, s)
    }

    ghost predicate SentBy(id: NodeId, p: Packet)
      requires id in sims
      reads Nodes(), Footprint()
    {
      assert sims[id].node.net in sims[id].Parts();
      p in sims[id].node.net.sent
    }

    /** A packet has been sent, by the client or by a node. */
    ghost predicate Sent(p: Packet, submitted: set<Packet>)
      reads Nodes(), Footprint()
    {
      p in submitted || exists id :: id in sims && SentBy(id, p)
    }

    /** The objects are where the run through `events` is, and have sent what it has sent. */
    ghost predicate Follows(events: seq<Event>, submitted: set<Packet>)
      reads Nodes(), Footprint()
    {
      && Apart() && AllPlay(Run(config, events))
      && forall p :: p in Run(config, events).net <==> Sent(p, submitted)
    }

    ghost predicate Valid()
      reads this, Nodes(), Footprint()
    {
      && ValidConfig(config) && sims.Keys == Members(config)
      && this !in Footprint()
      && Follows(events, submitted)
    }

    /** Nodes that have just been built, each with its own objects. */
    constructor (config: Config, sims: map<NodeId, SimNode>)
      requires ValidConfig(config) && sims.Keys == Members(config)
      requires forall id :: id in sims ==> AtRest(config, id, sims[id])
      requires forall a, b :: a in sims && b in sims && a != b ==> sims[a].Parts() !! sims[b].Parts()
      ensures Valid() && events == [] && submitted == {}
      ensures this.config == config && this.sims == sims
    {
      this.config, this.sims := config, sims;
      events, submitted := [], {};
      new;
      hide Run, AtRest, SimNode.Plays, RaftCluster.Follows, RaftCluster.AllPlay, Sent, Members;
      StartsFollowing();
    }

    lemma StartsFollowing()
      requires Apart() && sims.Keys == Members(config) && forall id :: id in sims ==> AtRest(config, id, sims[id])
      ensures Follows([], {})
    {
      hide SimNode.Parts, AtRest, SimNode.Plays;
      forall id | id in sims ensures sims[id].node.nodeId == id && sims[id].Plays(config, Run(config, [])) {
        RestingPlays(config, id, sims[id]);
      }
      forall p ensures !Sent(p, {}) {
        forall id | id in sims ensures !SentBy(id, p) {
          RestingPlays(config, id, sims[id]);
        }
      }
    }

    // -- what happens to one node moves the cluster

    twostate predicate OthersUntouched(id: NodeId)
      reads Nodes(), Footprint()
    {
      forall other :: other in sims && other != id ==>
        assert sims[other].Parts() <= Footprint();
        sims[other].Untouched()
    }

    twostate lemma StillApart(id: NodeId)
      requires old(Apart()) && id in sims && sims[id].SameOrNew() && OthersUntouched(id)
      ensures Apart()
    {
      hide SimNode.Parts;
      forall a, b | a in sims && b in sims && a != b ensures sims[a].Parts() !! sims[b].Parts() {
        if a == id {
          sims[a].StillApartFrom(sims[b]);
        } else if b == id {
          sims[b].StillApartFrom(sims[a]);
        }
      }
    }

    twostate lemma StillPlaying(ev: Event)
      requires old(Valid()) && Subject(ev) in sims && OthersUntouched(Subject(ev))
      requires sims[Subject(ev)].Plays(config, Run(config, old(events) + [ev]))
      ensures AllPlay(Run(config, old(events) + [ev]))
    {
      hide Run, RaftStorage.Valid, Peers, RealVote, Contiguous, SimNode.Kept, Apply;
      OneMore(config, old(events), ev);
      forall other | other in sims ensures sims[other].Plays(config, Run(config, old(events) + [ev])) {
        if other != Subject(ev) {
          sims[other].UntouchedPlays();
          OthersStay(config, Run(config, old(events)), ev, other);
        }
      }
    }

    twostate lemma StillSent(ev: Event)
      requires Subject(ev) in sims && OthersUntouched(Subject(ev))
      requires forall p :: p in Run(config, old(events)).net <==> old(Sent(p, submitted))
      requires var net := sims[Subject(ev)].node.net;
               && old(net.sent) <= net.sent
               && Run(config, old(events) + [ev]).net
                  == Run(config, old(events)).net + PacketSet(net.sent[|old(net.sent)|..])
      ensures forall p :: p in Run(config, old(events) + [ev]).net <==> Sent(p, old(submitted))
    {
      hide Run, SimNode.Plays;
      var before, now := old(sims[Subject(ev)].node.net.sent), sims[Subject(ev)].node.net.sent;
      assert now == before + now[|before|..];
      forall p ensures p in Run(config, old(events) + [ev]).net <==> Sent(p, old(submitted)) {
        assert SentBy(Subject(ev), p) <==> old(SentBy(Subject(ev), p)) || p in now[|before|..];
        forall other | other in sims && other != Subject(ev) ensures SentBy(other, p) <==> old(SentBy(other, p)) {
          sims[other].UntouchedPlays();
        }
      }
    }

    twostate lemma Moved(ev: Event)
      requires old(Valid()) && Subject(ev) in sims && sims[Subject(ev)].Took(config, old(events), ev)
      requires sims[Subject(ev)].SameOrNew() && OthersUntouched(Subject(ev))
      ensures Follows(old(events) + [ev], old(submitted))
    {
      hide Run, SimNode.Plays, Sent, OthersUntouched, SimNode.SameOrNew;
      StillApart(Subject(ev));
      StillPlaying(ev);
      StillSent(ev);
    }

    lemma NodesWithin()
      ensures Nodes() <= Footprint()
    {
      forall part | part in Nodes() ensures part in Footprint() {
        var id :| id in sims && part == sims[id].node;
        assert part in sims[id].Parts();
      }
    }

    twostate lemma NeverItself(id: NodeId)
      requires id in sims && sims[id].SameOrNew() && OthersUntouched(id) && this !in old(Footprint())
      ensures this !in Footprint() && this !in Nodes()
    {
      sims[id].NoneTaken();
      NodesWithin();
    }

    lemma ValidMeans(id: NodeId)
      requires Valid() && id in sims
      ensures Apart() && ValidConfig(config) && this !in sims[id].Parts()
      ensures sims[id].node.nodeId == id && sims[id].Plays(config, Run(config, events))
    {
      hide Run, SimNode.Plays, Sent;
    }

    lemma RunHas(id: NodeId)
      requires Valid() && id in sims
      ensures ValidConfig(config) && id in Members(config)
              && At(config, events, |events|).nodes[id] == sims[id].node.View()
    {
      hide Run, RaftStorage.Valid, Peers, RealVote, Contiguous, SimNode.Kept;
      assert events[..|events|] == events;
    }

    lemma SentIsOnNet(p: Packet)
      requires Valid()
      ensures Sent(p, submitted) <==> p in Run(config, events).net
    {
      hide Run, SimNode.Plays, Sent;
    }

    ghost method Note(ev: Event)
      requires ValidConfig(config) && sims.Keys == Members(config)
      requires this !in Footprint() && this !in Nodes() && Follows(events + [ev], submitted)
      modifies this`events
      ensures Valid() && events == old(events) + [ev]
    {
      hide RaftCluster.Follows;
      events := events + [ev];
    }

    /** A packet that was sent arrives. Only a record that cannot be encoded ends the run. */
    method OnMessage(p: Packet) returns (status: Status, ghost ev: Event)
      requires Valid() && p.dst in sims && Sent(p, submitted)
      modifies this`events, sims[p.dst].Parts()
      ensures (ev.Deliver? || ev.DeliverAndFail?) && ev.packet == p
      ensures status.Ok? ==> Valid() && events == old(events) + [ev] && sims[p.dst].Drew(ev.DeliverAndFail?)
      ensures status.Raised? ==>
        var s := Run(config, old(events));
        && CanReceive(config, s, p) && Ready(s.nodes[p.dst], p.msg)
        && var written := Received(config, s, p).written;
           exists i :: 0 <= i < |written| && !Storable(written[i])
    {
      hide Run, SimNode.Plays, Sent, SimNode.Parts, RaftCluster.Follows, SimNode.Took;
      ValidMeans(p.dst);
      SentIsOnNet(p);
      status, ev := sims[p.dst].OnMessage(p.src, p.msg, config, events);
      if status.Ok? {
        forall other | other in sims && other != p.dst ensures sims[other].Untouched() {
          assert old(sims[other].Parts() !! sims[p.dst].Parts());
          assert sims[other].Parts() == old(sims[other].Parts());
          sims[other].PartsAre();
        }
        Moved(ev);
        NeverItself(p.dst);
        Note(ev);
      }
    }

    method OnElectionTimeout(id: NodeId) returns (status: Status, ghost ev: Event)
      requires Valid() && id in sims && sims[id].node.running
      modifies this`events, sims[id].Parts()
      ensures (ev.ElectionTimeout? || ev.ElectionTimeoutAndFail?) && ev.id == id
      ensures status.Ok? ==> Valid() && events == old(events) + [ev] && sims[id].Drew(ev.ElectionTimeoutAndFail?)
      ensures status.Raised? ==>
        && IsUp(config, Run(config, old(events)), id)
        && var written := TimedOut(config, Run(config, old(events)), id).written;
           exists i :: 0 <= i < |written| && !Storable(written[i])
    {
      hide Run, SimNode.Plays, Sent, SimNode.Parts, RaftCluster.Follows, SimNode.Took;
      ValidMeans(id);
      sims[id].UpInRun(config, Run(config, events));
      status, ev := sims[id].OnElectionTimeout(config, events);
      if status.Ok? {
        forall other | other in sims && other != id ensures sims[other].Untouched() {
          assert old(sims[other].Parts() !! sims[id].Parts());
          assert sims[other].Parts() == old(sims[other].Parts());
          sims[other].PartsAre();
        }
        Moved(ev);
        NeverItself(id);
        Note(ev);
      }
    }

    method OnHeartbeat(id: NodeId) returns (status: Status)
      requires Valid() && id in sims && sims[id].node.running && sims[id].node.role == Leader
      modifies this`events, sims[id].Parts()
      ensures status == Ok && Valid() && events == old(events) + [Event.Heartbeat(id)]
    {
      hide Run, SimNode.Plays, Sent, SimNode.Parts, RaftCluster.Follows, SimNode.Took;
      ValidMeans(id);
      status := sims[id].OnHeartbeat(config, events);
      forall other | other in sims && other != id ensures sims[other].Untouched() {
        assert old(sims[other].Parts() !! sims[id].Parts());
        assert sims[other].Parts() == old(sims[other].Parts());
        sims[other].PartsAre();
      }
      Moved(Event.Heartbeat(id));
      NeverItself(id);
      Note(Event.Heartbeat(id));
    }

    method CrashNode(id: NodeId)
      requires Valid() && id in sims
      modifies this`events, sims[id].Parts()
      ensures Valid() && events == old(events) + [Event.Crash(id)]
    {
      hide Run, SimNode.Plays, Sent, SimNode.Parts, RaftCluster.Follows, SimNode.Took;
      ValidMeans(id);
      sims[id].Crash(config, events);
      forall other | other in sims && other != id ensures sims[other].Untouched() {
        assert old(sims[other].Parts() !! sims[id].Parts());
        assert sims[other].Parts() == old(sims[other].Parts());
        sims[other].PartsAre();
      }
      Moved(Event.Crash(id));
      NeverItself(id);
      Note(Event.Crash(id));
    }

    method RestartNode(id: NodeId) returns (status: Status)
      requires Valid() && id in sims
      modifies this`events, sims[id].Parts()
      ensures status == Ok && Valid() && events == old(events) + [Event.Restart(id)]
    {
      hide Run, SimNode.Plays, Sent, SimNode.Parts, RaftCluster.Follows, SimNode.Took;
      ValidMeans(id);
      status := sims[id].Restart(config, events);
      forall other | other in sims && other != id ensures sims[other].Untouched() {
        assert old(sims[other].Parts() !! sims[id].Parts());
        assert sims[other].Parts() == old(sims[other].Parts());
        sims[other].PartsAre();
      }
      Moved(Event.Restart(id));
      NeverItself(id);
      Note(Event.Restart(id));
    }

    lemma SubmitFollows(to: NodeId, requestId: nat, command: Command)
      requires Valid()
      ensures Follows(events + [Event.Submit(to, requestId, command)],
                      submitted + {Packet(CLIENT_ID, to, ClientRequest(requestId, command))})
    {
      hide Run, Apply, RaftStorage.Valid, Peers, RealVote, Contiguous, SimNode.Kept;
      OneMore(config, events, Event.Submit(to, requestId, command));
      SubmitStays(config, Run(config, events), to, requestId, command);
    }

    /** The client sends a request. */
    ghost method Submit(to: NodeId, requestId: nat, command: Command)
      requires Valid()
      modifies this`events, this`submitted
      ensures Valid() && events == old(events) + [Event.Submit(to, requestId, command)]
      ensures submitted == old(submitted) + {Packet(CLIENT_ID, to, ClientRequest(requestId, command))}
    {
      hide Run, SimNode.Plays, SimNode.Parts, RaftCluster.Follows;
      SubmitFollows(to, requestId, command);
      NodesWithin();
      events := events + [Event.Submit(to, requestId, command)];
      submitted := submitted + {Packet(CLIENT_ID, to, ClientRequest(requestId, command))};
    }

    // -- what this says of the objects

    /** Two nodes that lead one term are one node. */
    lemma OneLeader(a: NodeId, b: NodeId)
      requires Valid() && a in sims && b in sims
      requires sims[a].node.running && sims[a].node.role == Leader && sims[b].node.running
               && sims[b].node.role == Leader
      requires sims[a].node.currentTerm == sims[b].node.currentTerm
      ensures a == b
    {
      hide At, RaftCluster.Valid, Fold;
      RunHas(a);
      RunHas(b);
      ElectionSafety(config, events, |events|, |events|, a, b);
    }

    /** What one node has applied is applied by every node that has applied as much. */
    lemma SameApplied(a: NodeId, b: NodeId)
      requires Valid() && a in sims && b in sims
      requires sims[a].node.lastApplied <= sims[b].node.lastApplied
      ensures var m, n := sims[a].node, sims[b].node;
              && m.lastApplied <= |m.log.items| && n.lastApplied <= |n.log.items|
              && m.log.items[..m.lastApplied] == n.log.items[..m.lastApplied]
              && (m.lastApplied == n.lastApplied ==> m.kv.View() == n.kv.View())
    {
      hide At, RaftCluster.Valid, Fold;
      RunHas(a);
      RunHas(b);
      StateMachineSafety(config, events, |events|, |events|, a, b);
    }

    /** A leader of a newer term holds all that a node knows to be committed. */
    lemma LeaderHoldsCommitted(a: NodeId, b: NodeId)
      requires Valid() && a in sims && b in sims
      requires sims[a].node.running && sims[b].node.running && sims[b].node.role == Leader
      requires sims[b].node.currentTerm > sims[a].node.currentTerm
      ensures var m, n := sims[a].node, sims[b].node;
              m.commitIndex <= |m.log.items| && m.log.items[..m.commitIndex] <= n.log.items
    {
      hide At, RaftCluster.Valid, Fold;
      RunHas(a);
      RunHas(b);
      LeaderCompleteness(config, events, |events|, |events|, a, b);
    }
  }

  method NewNode(c: Config, id: NodeId, crc: Checksum, draws: Draws, tails: Draws) returns (sim: SimNode)
    requires ValidConfig(c) && id in Members(c)
    ensures AtRest(c, id, sim) && fresh(sim.Parts())
  {
    hide Decode, Frames, Contiguous;
    var disk := new SimStorage(crc);
    var storage := new RaftStorage(disk, draws, tails);
    var link := new NodeLink(id);
    var others := Peers(c, id);
    var node := new RaftNode(id, others, storage, link);
    sim := new SimNode(node);
    sim.NothingToLose();
  }

  /** Build the cluster: for each id a disk, its storage, a link and the node itself. */
  method NewCluster(c: Config, crc: Checksum, draws: NodeId -> Draws, tails: NodeId -> Draws)
    returns (cluster: RaftCluster)
    requires ValidConfig(c)
    ensures cluster.Valid() && cluster.config == c && cluster.events == []
  {
    hide AtRest, SimNode.Parts, ValidConfig, RaftCluster.Valid;
    var sims: map<NodeId, SimNode> := map[];
    ghost var taken: set<object> := {};
    var i := 0;
    while i < |c.ids|
      invariant 0 <= i <= |c.ids|
      invariant sims.Keys == SetOf(c.ids[..i]) && fresh(taken)
      invariant forall id :: id in sims ==> AtRest(c, id, sims[id]) && sims[id].Parts() <= taken
      invariant forall a, b :: a in sims && b in sims && a != b ==> sims[a].Parts() !! sims[b].Parts()
    {
      var sim := NewNode(c, c.ids[i], crc, draws(c.ids[i]), tails(c.ids[i]));
      assert sim.Parts() !! taken;
      assert c.ids[..i + 1] == c.ids[..i] + [c.ids[i]];
      sims := sims[c.ids[i] := sim];
      taken := taken + sim.Parts();
      i := i + 1;
    }
    assert c.ids[..i] == c.ids;
    cluster := new RaftCluster(c, sims);
  }
}
