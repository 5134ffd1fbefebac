// How far nodes commit in a run: a leader never leaves uncommitted what it may commit, and a
// follower takes for committed all that it is told.
module Commits {
  import opened Types
  import opened Log
  import opened Messages
  import opened Wal
  import opened NodeSpec
  import opened Cluster
  import opened History
  import opened HistorySteps
  import opened Invariant
  import opened AppendHandlers
  import opened LeaderHandlers
  import opened Handlers
  import opened Safety
  import opened Theorems
  import opened HandlerLaws

  // -- leaders

  ghost predicate LeaderDone(c: Config, id: NodeId, n: NodeState) {
    n.role.Leader? ==> AllCommitted(Peers(c, id), n)
  }

  /** A newly elected leader has no entry of its own term, so there is nothing it may commit. */
  lemma NewLeaderDone(c: Config, h: History, id: NodeId, n: NodeState)
    requires n.currentTerm in h.elections && n.currentTerm in h.ledger && ElectionOk(c, h, n.currentTerm)
    requires h.elections[n.currentTerm].log == n.log
    ensures AllCommitted(Peers(c, id), n)
  {
    forall i | n.commitIndex < i <= |n.log| ensures !MayCommit(Peers(c, id), n, i) {
      assert n.log[i - 1].term < n.currentTerm;
    }
  }

  lemma ElectedOk(c: Config, s: System, h: History, t: Term)
    requires Inv(c, s, h) && t in h.elections
    ensures t in h.ledger && ElectionOk(c, h, t)
  {
  }

  lemma DeliveryDone(c: Config, s: System, h: History, p: Packet)
    requires WellFormed(c, s) && Inv(c, s, h) && CanReceive(c, s, p) && Ready(s.nodes[p.dst], p.msg)
    requires LeaderDone(c, p.dst, s.nodes[p.dst])
    ensures LeaderDone(c, p.dst, Received(c, s, p).node)
  {
    var n, n' := s.nodes[p.dst], Received(c, s, p).node;
    if n'.role.Leader? {
      if n.role.Leader? {
        hide Inv, AllCommitted, Ready, Dispatch;
        StaysAllCommitted(p.dst, Peers(c, p.dst), n, p.src, p.msg);
      } else {
        StepKeeps(c, s, h, Deliver(p));
        hide Inv, AllCommitted, Ready, Apply, Grows, ReplicateAll, AdvanceTo, Merged, MergeRecords, UpToDate, Majority;
        WonByVote(c, s, h, p);
        var h' := RecordDelivery(c, h, n, p);
        ElectedOk(c, Apply(c, s, Deliver(p)), h', n'.currentTerm);
        NewLeaderDone(c, h', p.dst, n');
      }
    }
  }

  /** Only a vote makes a leader of a node that receives something, and then the election is
      recorded with its log. */
  lemma WonByVote(c: Config, s: System, h: History, p: Packet)
    requires WellFormed(c, s) && CanReceive(c, s, p) && Ready(s.nodes[p.dst], p.msg)
    requires !s.nodes[p.dst].role.Leader? && Received(c, s, p).node.role.Leader?
    ensures var n', h' := Received(c, s, p).node, RecordDelivery(c, h, s.nodes[p.dst], p);
            n'.currentTerm in h'.elections && h'.elections[n'.currentTerm].log == n'.log
  {
    hide ReplicateAll, MergeRecords, UpToDate, Majority, AdvanceCommit, OnAppendEntries;
    if p.msg.AppendEntries? {
      NoLeaderByEntries(p.dst, s.nodes[p.dst], p.src, p.msg);
    }
  }

  lemma NoLeaderByEntries(id: NodeId, n: NodeState, frm: NodeId, m: Message)
    requires m.AppendEntries? && !n.role.Leader?
    ensures !OnAppendEntries(id, n, frm, m).node.role.Leader?
  {
    hide Merged, MergeRecords, Fold, Unpaid, Replies;
    MergeReaches(n.log, m);
  }

  lemma TimeoutDone(c: Config, s: System, h: History, id: NodeId)
    requires WellFormed(c, s) && Inv(c, s, h) && IsUp(c, s, id)
    ensures LeaderDone(c, id, TimedOut(c, s, id).node)
  {
    hide Inv, AllCommitted, Apply, Grows, ReplicateAll, Majority, Peers, FromKeys;
    var n' := TimedOut(c, s, id).node;
    if n'.role.Leader? {
      StepKeeps(c, s, h, ElectionTimeout(id));
      var h' := RecordTimeout(c, h, id, s.nodes[id]);
      ElectedOk(c, Apply(c, s, ElectionTimeout(id)), h', n'.currentTerm);
      NewLeaderDone(c, h', id, n');
    }
  }

  lemma StepDone(c: Config, s: System, h: History, ev: Event, id: NodeId)
    requires WellFormed(c, s) && Inv(c, s, h) && id in Members(c) && LeaderDone(c, id, s.nodes[id])
    ensures LeaderDone(c, id, Apply(c, s, ev).nodes[id])
  {
    var n' := Apply(c, s, ev).nodes[id];
    hide Inv, Apply, Replay, Contiguous, Restarted, Received, TimedOut, Ready, LeaderDone;
    if ev.Deliver? && CanReceive(c, s, ev.packet) && ev.packet.dst == id {
      DeliveryAdvances(c, s, h, ev.packet);
      DeliverEvent(c, s, ev.packet, 0);
      DeliveryDone(c, s, h, ev.packet);
    } else if ev.ElectionTimeout? && ev.id == id && s.nodes[id].running {
      TimeoutEvent(c, s, id, 0);
      TimeoutDone(c, s, h, id);
    } else if s.nodes[id].running && n'.running {
      RestartOk(c, s, h, id);
      OtherEvents(c, s, ev, id);
    } else {
      DownDone(c, s, h, ev, id);
    }
  }

  /** A node that is down leads nothing. */
  lemma DownIsFollower(c: Config, s: System, h: History, id: NodeId)
    requires WellFormed(c, s) && Inv(c, s, h) && id in Members(c) && !s.nodes[id].running
    ensures s.nodes[id].role.Follower?
  {
    NodeInvariant(c, s, h, id);
    hide HistoryInv;
  }

  lemma DownStaysFollower(c: Config, s: System, ev: Event, id: NodeId)
    requires WellFormed(c, s) && id in Members(c) && !s.nodes[id].running && s.nodes[id].role.Follower?
    ensures Apply(c, s, ev).nodes[id].role.Follower?
  {
    hide Received, TimedOut, Ready, Replay, Contiguous, NextIndexOk, PacketSet, SendHeartbeats;
  }

  lemma DownDone(c: Config, s: System, h: History, ev: Event, id: NodeId)
    requires WellFormed(c, s) && Inv(c, s, h) && id in Members(c)
    requires !s.nodes[id].running || !Apply(c, s, ev).nodes[id].running
    ensures LeaderDone(c, id, Apply(c, s, ev).nodes[id])
  {
    hide Inv, AllCommitted, Apply, Recorded, Grows, Members;
    if s.nodes[id].running {
      StepKeeps(c, s, h, ev);
      DownIsFollower(c, Apply(c, s, ev), Recorded(c, h, s, ev), id);
    } else {
      DownIsFollower(c, s, h, id);
      DownStaysFollower(c, s, ev, id);
    }
  }

  lemma NothingDone(c: Config, events: seq<Event>, id: NodeId)
    requires id in Members(c)
    ensures LeaderDone(c, id, At(c, events, 0).nodes[id])
  {
    assert events[..0] == [];
  }

  /** In every run a leader has committed all that it may: no entry of its own term above its
      commit index is on a majority as far as it knows. */
  lemma {:induction false} LeadersCommitAll(c: Config, events: seq<Event>, i: nat, id: NodeId)
    requires ValidConfig(c) && i <= |events| && id in Members(c)
    ensures LeaderDone(c, id, At(c, events, i).nodes[id])
    decreases i
  {
    hide LeaderDone, At, PastAt, Apply, Recorded, Inv, Grows, Members;
    if i == 0 {
      NothingDone(c, events, id);
    } else {
      LeadersCommitAll(c, events, i - 1, id);
      MomentOk(c, events, i - 1, i - 1);
      NextMoment(c, events, i - 1);
      StepDone(c, At(c, events, i - 1), PastAt(c, events, i - 1), events[i - 1], id);
    }
  }

  // -- what a majority holds is committed

  lemma QuorumHolds(c: Config, a: NodeId, n: NodeState, q: set<NodeId>, index: Index)
    requires ValidConfig(c) && Quorum(c, q) && a in q && 1 <= index <= |n.log|
    requires forall p :: p in q && p != a ==> Get(n.matchIndex, p, 0) >= index
    requires n.log[index - 1].term == n.currentTerm
    ensures MayCommit(Peers(c, a), n, index)
  {
    var peers := Peers(c, a);
    PeersOf(c.ids, a);
    MajorityIsQuorum(c, a);
    HoldersCount(peers, n.matchIndex, index);
    assert q - {a} <= HolderSet(peers, n.matchIndex, index);
    SubsetSize(q - {a}, HolderSet(peers, n.matchIndex, index));
  }

  /** Once a majority is credited with all of a leader's log, and its last entry is of its own
      term, all of it is committed. */
  lemma MajorityCommits(c: Config, events: seq<Event>, i: nat, a: NodeId, q: set<NodeId>)
    requires ValidConfig(c) && i <= |events| && Leads(c, At(c, events, i), a)
    requires var n := At(c, events, i).nodes[a];
             && n.log != [] && LastTerm(n.log) == n.currentTerm
             && Quorum(c, q) && a in q
             && forall p :: p in q && p != a ==> Get(n.matchIndex, p, 0) >= |n.log|
    ensures var n := At(c, events, i).nodes[a]; n.commitIndex == |n.log| == n.lastApplied
  {
    hide At, MayCommit, Peers;
    var n := At(c, events, i).nodes[a];
    LeadersCommitAll(c, events, i, a);
    QuorumHolds(c, a, n, q, |n.log|);
    CommitsWithinLog(c, events, i, a);
  }

  lemma CommitsWithinLog(c: Config, events: seq<Event>, i: nat, a: NodeId)
    requires ValidConfig(c) && i <= |events| && a in Members(c)
    ensures var n := At(c, events, i).nodes[a]; n.lastApplied == n.commitIndex <= |n.log|
  {
    hide Run;
    StateMachineSafety(c, events, i, i, a, a);
    MomentOk(c, events, i, i);
    NodeInvariant(c, At(c, events, i), PastAt(c, events, i), a);
  }

  // -- followers

  /** A follower that takes what a leader sends commits, and applies, as far as it is told, if it
      had not gone further already. */
  lemma FollowersCommit(c: Config, events: seq<Event>, i: nat, p: Packet)
    requires ValidConfig(c) && i < |events| && events[i] == Deliver(p) && CanReceive(c, At(c, events, i), p)
    requires p.msg.AppendEntries? && Ready(At(c, events, i).nodes[p.dst], p.msg)
    requires SaysYes(Received(c, At(c, events, i), p))
    ensures var n, n' := At(c, events, i).nodes[p.dst], At(c, events, i + 1).nodes[p.dst];
            n'.commitIndex == Max(n.commitIndex, p.msg.leaderCommit) && n'.lastApplied == n'.commitIndex
  {
    hide Run, Ready, OnAppendEntries, SaysYes;
    var s := At(c, events, i);
    EntriesReachCommit(c, events, i, p);
    CommitsWithinLog(c, events, i, p.dst);
    CommitsWhatItIsTold(p.dst, s.nodes[p.dst], p.src, p.msg);
    NextMoment(c, events, i);
    DeliverEvent(c, s, p, 0);
  }

  lemma KnownCommitted(c: Config, s: System, h: History, b: NodeId)
    requires Inv(c, s, h) && IsUp(c, s, b)
    ensures HistoryInv(c, HardsOf(c, s), h)
    ensures var f := s.nodes[b]; f.commitIndex <= |f.log| && Covered(h, f.log, f.commitIndex, f.currentTerm)
  {
    NodeInvariant(c, s, h, b);
    hide HistoryInv, Inv, Covered;
  }

  lemma CommittedIsLedIn(c: Config, s: System, h: History, a: NodeId, b: NodeId)
    requires Inv(c, s, h) && Leads(c, s, a) && IsUp(c, s, b)
    requires s.nodes[b].currentTerm <= s.nodes[a].currentTerm
    ensures s.nodes[b].commitIndex <= |s.nodes[b].log|
    ensures s.nodes[b].log[..s.nodes[b].commitIndex] <= s.nodes[a].log
  {
    var n, f := s.nodes[a], s.nodes[b];
    LeaderFacts(c, s, h, a);
    KnownCommitted(c, s, h, b);
    hide HistoryInv, Inv, Covered;
    CommittedInLead(c, HardsOf(c, s), h, f.log, f.commitIndex, f.currentTerm, n.currentTerm);
  }

  /** What a node knows to be committed is in the log of any leader whose term is no older. */
  lemma CommittedIsLed(c: Config, events: seq<Event>, i: nat, a: NodeId, b: NodeId)
    requires ValidConfig(c) && i <= |events| && Leads(c, At(c, events, i), a) && IsUp(c, At(c, events, i), b)
    requires At(c, events, i).nodes[b].currentTerm <= At(c, events, i).nodes[a].currentTerm
    ensures var n, f := At(c, events, i).nodes[a], At(c, events, i).nodes[b];
            f.commitIndex <= |f.log| && f.log[..f.commitIndex] <= n.log
  {
    hide At, Past, Inv, Grows;
    MomentOk(c, events, i, i);
    CommittedIsLedIn(c, At(c, events, i), PastAt(c, events, i), a, b);
  }
}
