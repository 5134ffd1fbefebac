// Whom a node takes for the leader, and tells clients of: somebody who led its term in this run.
module Hints {
  import opened Types
  import opened Log
  import opened Messages
  import opened Wal
  import opened NodeSpec
  import opened Cluster
  import opened History
  import opened Invariant
  import opened Safety
  import opened Theorems
  import opened HandlerLaws
  import opened Watching

  // -- one handler

  predicate Speaks(id: NodeId, n: NodeState, sent: seq<Packet>) {
    forall r :: r in sent && r.msg.AppendEntries? ==>
      n.role.Leader? && r.msg.leaderId == id && r.msg.term == n.currentTerm
  }

  /** Where the leader that a node knows of after handling `m` comes from. */
  predicate HintFrom(id: NodeId, n: NodeState, m: Message, n': NodeState) {
    n'.leaderId.Some? ==>
      || (n'.leaderId == n.leaderId && n'.currentTerm == n.currentTerm)
      || (m.AppendEntries? && n'.leaderId == Some(m.leaderId) && n'.currentTerm == m.term)
      || (n'.role.Leader? && n'.leaderId == Some(id))
  }

  lemma LeaderSpeaks(id: NodeId, n: NodeState, peers: seq<NodeId>)
    requires NextIndexOk(n) && n.role.Leader?
    ensures Speaks(id, n, ReplicateAll(id, n, peers))
  {
    OneToEach(id, n, peers);
    forall r | r in ReplicateAll(id, n, peers) ensures r.msg.leaderId == id && r.msg.term == n.currentTerm {
      var i :| 0 <= i < |peers| && ReplicateAll(id, n, peers)[i] == r;
      assert Brings(id, n, peers[i], r);
    }
  }

  lemma EntriesHint(id: NodeId, n: NodeState, frm: NodeId, m: Message)
    requires m.AppendEntries?
    ensures var effect := OnAppendEntries(id, n, frm, m);
            && effect.node.running == n.running && HintFrom(id, n, m, effect.node)
            && Speaks(id, effect.node, effect.sent)
  {
    hide Merged, MergeRecords, Fold, Unpaid, Replies;
    MergeReaches(n.log, m);
    OnlyReplies(id, n.pendingClients, n.lastApplied, Min(m.leaderCommit, m.prevLogIndex + |m.entries|));
  }

  lemma VoteHints(id: NodeId, peers: seq<NodeId>, n: NodeState, frm: NodeId, m: Message)
    requires Ready(n, m) && (m.RequestVote? || m.RequestVoteReply? || m.ClientReply?)
    ensures var effect := Dispatch(id, peers, n, frm, m);
            && effect.node.running == n.running && HintFrom(id, n, m, effect.node)
            && Speaks(id, effect.node, effect.sent)
  {
    hide ReplicateAll, UpToDate, Majority, FromKeys;
    var n' := Dispatch(id, peers, n, frm, m).node;
    if n'.role.Leader? && NextIndexOk(n') {
      LeaderSpeaks(id, n', peers);
    }
  }

  lemma ReplyHints(id: NodeId, peers: seq<NodeId>, n: NodeState, frm: NodeId, m: Message)
    requires Ready(n, m) && m.AppendEntriesReply?
    ensures var effect := OnAppendEntriesReply(id, peers, n, frm, m);
            && effect.node.running == n.running && HintFrom(id, n, m, effect.node)
            && Speaks(id, effect.node, effect.sent)
  {
    hide AdvanceCommit;
    if n.role.Leader? && m.term == n.currentTerm && m.success {
      var matched := Max(Get(n.matchIndex, frm, 0), m.matchIndex);
      var n1 := n.(matchIndex := n.matchIndex[frm := matched], nextIndex := n.nextIndex[frm := matched + 1]);
      AdvancedIsAllCommitted(id, peers, n1);
      CommittingReplies(id, peers, n1);
    }
  }

  lemma RequestHints(id: NodeId, peers: seq<NodeId>, n: NodeState, frm: NodeId, m: Message)
    requires Ready(n, m) && m.ClientRequest?
    ensures var effect := OnClientRequest(id, peers, n, frm, m);
            && effect.node.running == n.running && HintFrom(id, n, m, effect.node)
            && Speaks(id, effect.node, effect.sent)
  {
    hide AdvanceCommit, ReplicateAll;
    if n.role.Leader? {
      var entry := LogEntry(n.currentTerm, |n.log| + 1, m.command);
      var n1 := n.(log := n.log + [entry], pendingClients := n.pendingClients[entry.index := (frm, m.requestId)]);
      AdvancedIsAllCommitted(id, peers, n1);
      CommittingReplies(id, peers, n1);
      LeaderSpeaks(id, n1, peers);
    }
  }

  lemma DispatchHints(id: NodeId, peers: seq<NodeId>, n: NodeState, frm: NodeId, m: Message)
    requires Ready(n, m)
    ensures var effect := Dispatch(id, peers, n, frm, m);
            && effect.node.running == n.running && HintFrom(id, n, m, effect.node)
            && Speaks(id, effect.node, effect.sent)
  {
    hide HintFrom, Speaks, OnAppendEntries, OnAppendEntriesReply, OnClientRequest, OnRequestVote, OnRequestVoteReply;
    match m
    case AppendEntries(_, _, _, _, _, _) => EntriesHint(id, n, frm, m);
    case AppendEntriesReply(_, _, _) => ReplyHints(id, peers, n, frm, m);
    case ClientRequest(_, _) => RequestHints(id, peers, n, frm, m);
    case _ => VoteHints(id, peers, n, frm, m);
  }

  lemma TimeoutHints(id: NodeId, peers: seq<NodeId>, n: NodeState)
    ensures var effect := OnElectionTimeout(id, peers, n);
            && effect.node.running == n.running && Speaks(id, effect.node, effect.sent)
            && (effect.node.leaderId.Some? ==> effect.node.role.Leader? && effect.node.leaderId == Some(id))
  {
    StandsOrLeads(id, peers, n);
    hide ReplicateAll, Majority;
  }

  // -- one event

  /** Node `id` is down, or took its leader from where `HintFrom` says. */
  predicate HintedBy(c: Config, s: System, ev: Event, s': System, id: NodeId)
    requires WellFormed(c, s) && WellFormed(c, s') && id in Members(c)
  {
    var n, n' := s.nodes[id], s'.nodes[id];
    n'.leaderId.Some? ==>
      || (n'.leaderId == n.leaderId && n'.currentTerm == n.currentTerm)
      || (ev.Deliver? && ev.packet in s.net && ev.packet.msg.AppendEntries?
          && n'.leaderId == Some(ev.packet.msg.leaderId) && n'.currentTerm == ev.packet.msg.term)
      || (Leads(c, s', id) && n'.leaderId == Some(id))
  }

  /** Every AppendEntries that is new on the network is of a node that leads its term. */
  predicate NewOnesSpeak(c: Config, s: System, s': System)
    requires WellFormed(c, s')
  {
    forall r :: r in s'.net && r !in s.net && r.msg.AppendEntries? ==>
      Leads(c, s', r.msg.leaderId) && s'.nodes[r.msg.leaderId].currentTerm == r.msg.term
  }

  lemma HandlerSpeaks(c: Config, s: System, ev: Event, id: NodeId, effect: Effect)
    requires WellFormed(c, s) && IsUp(c, s, id) && Apply(c, s, ev) == Complete(s, id, effect)
    requires effect.node.running && Speaks(id, effect.node, effect.sent)
    ensures NewOnesSpeak(c, s, Apply(c, s, ev))
  {
    hide Apply;
  }

  lemma DeliveryHints(c: Config, s: System, h: History, p: Packet)
    requires WellFormed(c, s) && Inv(c, s, h) && CanReceive(c, s, p)
    ensures var s' := Apply(c, s, Deliver(p));
            && NewOnesSpeak(c, s, s')
            && forall id :: id in Members(c) ==> HintedBy(c, s, Deliver(p), s', id)
  {
    hide Apply, Dispatch, Ready, NewOnesSpeak, Speaks, Inv, Advances, Peers;
    DeliveryAdvances(c, s, h, p);
    DeliverEvent(c, s, p, 0);
    DispatchHints(p.dst, Peers(c, p.dst), s.nodes[p.dst], p.src, p.msg);
    HandlerSpeaks(c, s, Deliver(p), p.dst, Received(c, s, p));
  }

  lemma TimeoutEventHints(c: Config, s: System, x: NodeId)
    requires WellFormed(c, s) && IsUp(c, s, x)
    ensures var s' := Apply(c, s, ElectionTimeout(x));
            && NewOnesSpeak(c, s, s')
            && forall id :: id in Members(c) ==> HintedBy(c, s, ElectionTimeout(x), s', id)
  {
    hide Apply, OnElectionTimeout, NewOnesSpeak, Speaks, Peers;
    TimeoutEvent(c, s, x, 0);
    TimeoutHints(x, Peers(c, x), s.nodes[x]);
    HandlerSpeaks(c, s, ElectionTimeout(x), x, TimedOut(c, s, x));
  }

  lemma HeartbeatHints(c: Config, s: System, h: History, x: NodeId)
    requires WellFormed(c, s) && Inv(c, s, h) && Leads(c, s, x)
    ensures var s' := Apply(c, s, Heartbeat(x));
            && NewOnesSpeak(c, s, s')
            && forall id :: id in Members(c) ==> HintedBy(c, s, Heartbeat(x), s', id)
  {
    hide Apply, NewOnesSpeak, Speaks, Inv, Peers, ReplicateAll;
    LeaderFacts(c, s, h, x);
    HeartbeatEvent(c, s, x);
    LeaderSpeaks(x, s.nodes[x], Peers(c, x));
    HandlerSpeaks(c, s, Heartbeat(x), x, SendHeartbeats(x, Peers(c, x), s.nodes[x]));
  }

  /** A restart brings back nobody's leader: one that is up stays as it is, and one that was down
      knows none. */
  lemma RestartHints(c: Config, s: System, h: History, x: NodeId, id: NodeId)
    requires WellFormed(c, s) && Inv(c, s, h) && id in Members(c)
    ensures HintedBy(c, s, Restart(x), Apply(c, s, Restart(x)), id)
  {
    hide Replay, Contiguous, HistoryInv, Inv, NodeOk, Apply, Restarted;
    DownKnowsNobody(c, s, h, id);
    RestartOk(c, s, h, id);
    OneRestarts(c, s, x, id);
  }

  lemma DownKnowsNobody(c: Config, s: System, h: History, id: NodeId)
    requires WellFormed(c, s) && Inv(c, s, h) && id in Members(c)
    ensures !s.nodes[id].running ==> s.nodes[id].leaderId == None
  {
    NodeInvariant(c, s, h, id);
    hide HistoryInv, Inv;
  }

  lemma OneRestarts(c: Config, s: System, x: NodeId, id: NodeId)
    requires WellFormed(c, s) && id in Members(c)
    ensures var n' := Apply(c, s, Restart(x)).nodes[id];
            n' == s.nodes[id]
            || (n' == Restarted(s.nodes[id], Replay(s.wals[id])) && n'.leaderId == s.nodes[id].leaderId)
  {
    hide Replay, Contiguous;
  }

  lemma QuietHints(c: Config, s: System, ev: Event, id: NodeId)
    requires WellFormed(c, s) && id in Members(c)
    requires !ev.ElectionTimeout? && !ev.Heartbeat? && !(ev.Deliver? && CanReceive(c, s, ev.packet)) && !ev.Restart?
    ensures HintedBy(c, s, ev, Apply(c, s, ev), id)
  {
    hide Replay, Received, TimedOut, Contiguous, Ready;
  }

  lemma QuietSpeaks(c: Config, s: System, ev: Event)
    requires WellFormed(c, s)
    requires !ev.ElectionTimeout? && !ev.Heartbeat? && !(ev.Deliver? && CanReceive(c, s, ev.packet))
    ensures NewOnesSpeak(c, s, Apply(c, s, ev))
  {
    hide Replay, Received, TimedOut, Contiguous, Ready;
  }

  lemma StepHints(c: Config, s: System, h: History, ev: Event)
    requires WellFormed(c, s) && Inv(c, s, h)
    ensures NewOnesSpeak(c, s, Apply(c, s, ev))
    ensures forall id :: id in Members(c) ==> HintedBy(c, s, ev, Apply(c, s, ev), id)
  {
    if ev.Deliver? && CanReceive(c, s, ev.packet) {
      hide Apply, NewOnesSpeak, HintedBy, Inv;
      DeliveryHints(c, s, h, ev.packet);
    } else if ev.ElectionTimeout? && IsUp(c, s, ev.id) {
      hide Apply, NewOnesSpeak, HintedBy, Inv;
      TimeoutEventHints(c, s, ev.id);
    } else if ev.Heartbeat? && Leads(c, s, ev.id) {
      hide Apply, NewOnesSpeak, HintedBy, Inv;
      HeartbeatHints(c, s, h, ev.id);
    } else if ev.ElectionTimeout? || ev.Heartbeat? {
      hide Inv;
    } else {
      hide Apply, NewOnesSpeak, HintedBy, Inv;
      QuietSpeaks(c, s, ev);
      forall id | id in Members(c) ensures HintedBy(c, s, ev, Apply(c, s, ev), id) {
        if ev.Restart? {
          RestartHints(c, s, h, ev.id, id);
        } else {
          QuietHints(c, s, ev, id);
        }
      }
    }
  }

  // -- a run

  ghost predicate Hinted(c: Config, events: seq<Event>, i: nat, id: NodeId)
    requires i <= |events| && id in Members(c)
  {
    var n := At(c, events, i).nodes[id];
    n.leaderId.Some? ==> LedAt(c, events, i, n.currentTerm, n.leaderId.value)
  }

  ghost predicate SpokenFor(c: Config, events: seq<Event>, i: nat, p: Packet)
    requires i <= |events|
  {
    p.msg.AppendEntries? ==> LedAt(c, events, i, p.msg.term, p.msg.leaderId)
  }

  lemma LedLater(c: Config, events: seq<Event>, i: nat, t: Term, id: NodeId)
    requires i < |events| && LedAt(c, events, i, t, id)
    ensures LedAt(c, events, i + 1, t, id)
  {
    hide At;
    var k: nat :| 1 <= k <= i && Leads(c, At(c, events, k), id) && At(c, events, k).nodes[id].currentTerm == t;
  }

  lemma LeadsNow(c: Config, events: seq<Event>, i: nat, id: NodeId)
    requires 1 <= i <= |events| && Leads(c, At(c, events, i), id)
    ensures LedAt(c, events, i, At(c, events, i).nodes[id].currentTerm, id)
  {
    hide At;
  }

  lemma SpokenNext(c: Config, events: seq<Event>, i: nat, p: Packet)
    requires i < |events| && NewOnesSpeak(c, At(c, events, i), At(c, events, i + 1)) && p in At(c, events, i + 1).net
    requires p in At(c, events, i).net ==> SpokenFor(c, events, i, p)
    ensures SpokenFor(c, events, i + 1, p)
  {
    hide At, Leads, LedAt;
    if p.msg.AppendEntries? {
      if p in At(c, events, i).net {
        LedLater(c, events, i, p.msg.term, p.msg.leaderId);
      } else {
        LeadsNow(c, events, i + 1, p.msg.leaderId);
      }
    }
  }

  lemma HintedNext(c: Config, events: seq<Event>, i: nat, id: NodeId)
    requires i < |events| && id in Members(c) && Hinted(c, events, i, id)
    requires HintedBy(c, At(c, events, i), events[i], At(c, events, i + 1), id)
    requires forall p :: p in At(c, events, i).net ==> SpokenFor(c, events, i, p)
    ensures Hinted(c, events, i + 1, id)
  {
    hide At, LedAt;
    var n, n' := At(c, events, i).nodes[id], At(c, events, i + 1).nodes[id];
    if n'.leaderId.Some? {
      if Leads(c, At(c, events, i + 1), id) && n'.leaderId == Some(id) {
        LeadsNow(c, events, i + 1, id);
      } else {
        LedLater(c, events, i, n'.currentTerm, n'.leaderId.value);
      }
    }
  }

  lemma NobodyHinted(c: Config, events: seq<Event>)
    ensures forall id :: id in Members(c) ==> Hinted(c, events, 0, id)
    ensures At(c, events, 0).net == {}
  {
    assert events[..0] == [];
  }

  /** In every run, whoever a node takes for the leader of its term led that term, and so did the
      sender of every AppendEntries. */
  lemma {:induction false} HintsLed(c: Config, events: seq<Event>, i: nat)
    requires ValidConfig(c) && i <= |events|
    ensures forall id :: id in Members(c) ==> Hinted(c, events, i, id)
    ensures forall p :: p in At(c, events, i).net ==> SpokenFor(c, events, i, p)
    decreases i
  {
    hide Hinted, SpokenFor, At, PastAt, Apply, Recorded, Inv, Grows, HintedBy, NewOnesSpeak, ValidConfig;
    if i == 0 {
      NobodyHinted(c, events);
    } else {
      HintsLed(c, events, i - 1);
      MomentOk(c, events, i - 1, i - 1);
      NextMoment(c, events, i - 1);
      StepHints(c, At(c, events, i - 1), PastAt(c, events, i - 1), events[i - 1]);
      forall id | id in Members(c) ensures Hinted(c, events, i, id) {
        HintedNext(c, events, i - 1, id);
      }
      forall p | p in At(c, events, i).net ensures SpokenFor(c, events, i, p) {
        SpokenNext(c, events, i - 1, p);
      }
    }
  }

  /** A client that is turned away is told its own request, and, if anybody, a node that led the
      term of the node it asked. */
  lemma RedirectNamesLeader(c: Config, events: seq<Event>, i: nat, p: Packet)
    requires ValidConfig(c) && i <= |events| && CanReceive(c, At(c, events, i), p) && p.msg.ClientRequest?
    requires !At(c, events, i).nodes[p.dst].role.Leader?
    ensures Ready(At(c, events, i).nodes[p.dst], p.msg)
    ensures var n, effect := At(c, events, i).nodes[p.dst], Received(c, At(c, events, i), p);
            && effect.node == n && effect.written == []
            && effect.sent == [Packet(p.dst, p.src, ClientReply(p.msg.requestId, false, n.leaderId))]
            && (n.leaderId.Some? ==> LedAt(c, events, i, n.currentTerm, n.leaderId.value))
  {
    HintsLed(c, events, i);
    hide Run, LedAt;
    assert Hinted(c, events, i, p.dst);
    OthersRedirect(p.dst, Peers(c, p.dst), At(c, events, i).nodes[p.dst], p.src, p.msg);
  }
}
