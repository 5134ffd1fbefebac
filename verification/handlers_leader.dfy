// What a leader does: counting acknowledgements, committing, accepting writes.
module LeaderHandlers {
  import opened Types
  import opened Kv
  import opened Log
  import opened Messages
  import opened Wal
  import opened NodeSpec
  import opened Cluster
  import opened History
  import opened HistorySteps
  import opened Invariant
  import opened Handlers
  import opened AppendHandlers
  import HandlerLaws

  // -- counting holders

  function HolderSet(peers: seq<NodeId>, matchIndex: map<NodeId, Index>, index: Index): (holders: set<NodeId>)
    ensures forall p :: p in holders <==> p in peers && Get(matchIndex, p, 0) >= index
  {
    if peers == [] then {}
    else HolderSet(peers[1..], matchIndex, index) + if Get(matchIndex, peers[0], 0) >= index then {peers[0]} else {}
  }

  /** Counting down a list without repeats counts the set. */
  lemma {:induction false} HoldersCount(peers: seq<NodeId>, matchIndex: map<NodeId, Index>, index: Index)
    requires forall i, j :: 0 <= i < j < |peers| ==> peers[i] != peers[j]
    ensures |HolderSet(peers, matchIndex, index)| == Holders(peers, matchIndex, index)
  {
    if peers != [] {
      HoldersCount(peers[1..], matchIndex, index);
      assert peers[0] !in HolderSet(peers[1..], matchIndex, index);
    }
  }

  lemma HoldingQuorumIsQuorum(c: Config, id: NodeId, n: NodeState, index: Index)
    requires ValidConfig(c) && id in Members(c)
    requires 1 + Holders(Peers(c, id), n.matchIndex, index) >= Majority(Peers(c, id))
    ensures Quorum(c, HoldingQuorum(c, id, n, index))
  {
    PeersOf(c.ids, id);
    MajorityIsQuorum(c, id);
    HoldersCount(Peers(c, id), n.matchIndex, index);
    assert HoldingQuorum(c, id, n, index) == {id} + HolderSet(Peers(c, id), n.matchIndex, index);
  }

  /** What the commit rule finds is acknowledged by a quorum. */
  lemma CommitPointOk(c: Config, h: History, id: NodeId, n: NodeState, index: Index)
    requires ValidConfig(c) && id in Members(c) && LeaderOk(h, id, n)
    requires 1 <= index <= |n.log| && MayCommit(Peers(c, id), n, index)
    ensures CommitOk(c, h, Commit(n.currentTerm, index, HoldingQuorum(c, id, n, index)))
  {
    HoldingQuorumIsQuorum(c, id, n, index);
    forall v | v in HoldingQuorum(c, id, n, index)
      ensures (n.currentTerm, v) in h.acks && h.acks[(n.currentTerm, v)] >= index
    {
      if v != id {
        assert v in n.matchIndex && n.matchIndex[v] >= index;
      }
    }
  }

  // -- advance_commit_index

  ghost predicate LeadingOk(c: Config, hs: Hards, h: History, id: NodeId, n: NodeState) {
    && id in hs && n.running && n.role.Leader?
    && MemoryOk(n, hs[id]) && AppliedOk(h, n) && LeaderOk(h, id, n)
  }

  lemma AdvanceCommitOk(c: Config, hs: Hards, h: History, id: NodeId, n: NodeState)
    requires HistoryInv(c, hs, h) && LeadingOk(c, hs, h, id, n)
    ensures var (n', replies) := AdvanceCommit(id, Peers(c, id), n);
            var h' := RecordCommit(h, c, id, n, n');
            && HistoryInv(c, hs, h')
            && Grows(h, h') && OnlyBy(h, h', id)
            && LeadingOk(c, hs, h', id, n')
            && n'.commitIndex >= n.commitIndex && n'.log == n.log
            && (forall q :: q in replies ==> q.msg.ClientReply? && q.src == id)
  {
    hide HistoryInv, Peers, Fold;
    var point := CommitPoint(Peers(c, id), n, |n.log|);
    if point != n.commitIndex {
      CommitAdvances(c, hs, h, id, n, point);
    }
  }

  lemma CommitAdvances(c: Config, hs: Hards, h: History, id: NodeId, n: NodeState, point: Index)
    requires HistoryInv(c, hs, h) && LeadingOk(c, hs, h, id, n)
    requires n.commitIndex < point <= |n.log| && MayCommit(Peers(c, id), n, point)
    ensures var (n', replies) := AdvanceTo(id, n, point);
            var h' := RecordCommit(h, c, id, n, n');
            && HistoryInv(c, hs, h')
            && Grows(h, h') && OnlyBy(h, h', id)
            && LeadingOk(c, hs, h', id, n')
            && n'.commitIndex == point && n'.log == n.log
            && (forall q :: q in replies ==> q.msg.ClientReply? && q.src == id)
  {
    hide HistoryInv, Peers, Fold, Quorum, MayCommit, Replies, Unpaid;
    var n' := AdvanceTo(id, n, point).0;
    var h' := RecordCommit(h, c, id, n, n');
    var commit := Commit(n.currentTerm, point, HoldingQuorum(c, id, n, point));
    InCluster(c, hs, h, id);
    CommitPointOk(c, h, id, n, point);
    CommitKeeps(c, hs, h, commit);
    assert h' == h.(commits := h.commits + {commit});
    AdvanceApplies(id, n, point);
    HandlerLaws.OnlyReplies(id, n.pendingClients, n.lastApplied, point);
    assert commit in h'.commits && CoveredBy(h', n.log, point, n.currentTerm, commit);
  }

  // -- on_append_entries_reply

  lemma MatchOk(c: Config, hs: Hards, h: History, id: NodeId, n: NodeState, p: Packet)
    requires HistoryInv(c, hs, h) && LeadingOk(c, hs, h, id, n)
    requires PacketOk(c, h, p) && p.msg.AppendEntriesReply? && p.msg.term == n.currentTerm && p.msg.success
    ensures var matched := Max(Get(n.matchIndex, p.src, 0), p.msg.matchIndex);
            LeadingOk(c, hs, h, id, n.(matchIndex := n.matchIndex[p.src := matched],
                                       nextIndex := n.nextIndex[p.src := matched + 1]))
  {
    assert AckOk(hs, h, n.currentTerm, p.src);
  }

  lemma OnAppendEntriesReplyKeeps(c: Config, hs: Hards, h: History, id: NodeId, n: NodeState, p: Packet)
    requires HistoryInv(c, hs, h) && id in hs && n.running && NodeOk(c, h, id, n, hs[id])
    requires PacketOk(c, h, p) && p.msg.AppendEntriesReply? && p.dst == id && NextIndexOk(n)
    ensures EffectOk(c, hs, h, RecordAppendEntriesReply(c, h, id, n, p.src, p.msg), id,
                     OnAppendEntriesReply(id, Peers(c, id), n, p.src, p.msg))
  {
    hide HistoryInv, CutsContiguous, LeaderOk, CandidateOk, AppliedOk, Peers, Grows, OnlyBy, AdvanceCommit, NextIndexOk;
    var m := p.msg;
    if m.term > n.currentTerm {
      StepDownOk(c, hs, h, id, n, m.term);
    } else if !n.role.Leader? || m.term != n.currentTerm {
      QuietOk(c, hs, h, id, n);
    } else if m.success {
      MatchAdvances(c, hs, h, id, n, p);
    } else {
      WalkBackOk(c, hs, h, id, n, p);
    }
  }

  lemma MatchAdvances(c: Config, hs: Hards, h: History, id: NodeId, n: NodeState, p: Packet)
    requires HistoryInv(c, hs, h) && LeadingOk(c, hs, h, id, n) && NextIndexOk(n)
    requires PacketOk(c, h, p) && p.msg.AppendEntriesReply? && p.msg.term == n.currentTerm && p.msg.success
    ensures EffectOk(c, hs, h, RecordAppendEntriesReply(c, h, id, n, p.src, p.msg), id,
                     OnAppendEntriesReply(id, Peers(c, id), n, p.src, p.msg))
  {
    hide HistoryInv, CutsContiguous, LeaderOk, CandidateOk, AppliedOk, Peers, Grows, OnlyBy, AdvanceCommit;
    var matched := Max(Get(n.matchIndex, p.src, 0), p.msg.matchIndex);
    var n1 := n.(matchIndex := n.matchIndex[p.src := matched], nextIndex := n.nextIndex[p.src := matched + 1]);
    MatchOk(c, hs, h, id, n, p);
    AdvanceCommitOk(c, hs, h, id, n1);
    HardContiguous(c, hs, h, id);
    NoRecords(hs, id, hs[id]);
  }

  lemma WalkBackOk(c: Config, hs: Hards, h: History, id: NodeId, n: NodeState, p: Packet)
    requires HistoryInv(c, hs, h) && LeadingOk(c, hs, h, id, n) && NextIndexOk(n)
    requires p.msg.AppendEntriesReply? && p.msg.term == n.currentTerm && !p.msg.success && p.src != id
    ensures EffectOk(c, hs, h, RecordAppendEntriesReply(c, h, id, n, p.src, p.msg), id,
                     OnAppendEntriesReply(id, Peers(c, id), n, p.src, p.msg))
  {
    hide HistoryInv, CutsContiguous, CandidateOk, Peers, Grows, OnlyBy;
    var current := Get(n.nextIndex, p.src, |n.log| + 1);
    var n1 := n.(nextIndex := n.nextIndex[p.src := Max(1, current - 1)]);
    ReplicateToOk(c, h, id, n1, p.src);
    GrowsSelf(h, id);
    HardContiguous(c, hs, h, id);
    NoRecords(hs, id, hs[id]);
  }

  // -- on_client_request

  /** History and hard states once the leader's own entry is on its disk. */
  lemma OwnEntryKeeps(c: Config, hs: Hards, h: History, id: NodeId, n: NodeState, command: Command)
    requires HistoryInv(c, hs, h) && LeadingOk(c, hs, h, id, n)
    ensures var entry := LogEntry(n.currentTerm, |n.log| + 1, command);
            var log := n.log + [entry];
            var h1 := RecordLog(h, n.currentTerm, log);
            var h2 := RecordAck(h1, n.currentTerm, id, |log|);
            var hs' := hs[id := hs[id].(log := log)];
            && HistoryInv(c, hs', h1) && Grows(h, h1) && OnlyBy(h, h1, id)
            && HistoryInv(c, hs', h2) && Grows(h, h2) && OnlyBy(h, h2, id)
            && ReplayFrom(hs[id], [EntryRecord(entry)]) == hs[id].(log := log)
            && CutsContiguous(hs[id], [EntryRecord(entry)])
            && h2.elections == h.elections && h2.commits == h.commits
            && h2.ledger == h.ledger[n.currentTerm := log]
            && (n.currentTerm, id) in h2.acks && h2.acks[(n.currentTerm, id)] == |log|
  {
    hide HistoryInv, Covered, Fold, NextIndexOk, Grows;
    var t := n.currentTerm;
    var entry := LogEntry(t, |n.log| + 1, command);
    var log := n.log + [entry];
    var h1 := RecordLog(h, t, log);
    var h2 := RecordAck(h1, t, id, |log|);
    var hs' := hs[id := hs[id].(log := log)];
    AppendKeeps(c, hs, h, t, id, entry);
    assert h1.ledger[t][..|log|] == log;
    AckKeeps(c, hs', h1, t, id, |log|);
    GrowsOn(h, h1, h2);
    HardContiguous(c, hs, h, id);
    OneRecord(hs[id], EntryRecord(entry));
  }

  lemma GrowsOn(h: History, h1: History, h2: History)
    requires Grows(h, h1) && Grows(h1, h2)
    ensures Grows(h, h2)
  {
  }

  lemma OnlyByOn(h: History, h1: History, h2: History, id: NodeId)
    requires OnlyBy(h, h1, id) && OnlyBy(h1, h2, id) && Grows(h, h1) && Grows(h1, h2)
    ensures OnlyBy(h, h2, id)
  {
  }

  /** The leader after appending its own entry, before it replicates. */
  lemma OwnEntryNode(c: Config, hs: Hards, h: History, h2: History, id: NodeId, n: NodeState, n1: NodeState)
    requires LeadingOk(c, hs, h, id, n) && Grows(h, h2) && |n1.log| == |n.log| + 1 && n.log <= n1.log
    requires n1 == n.(log := n1.log, pendingClients := n1.pendingClients)
    requires h2.elections == h.elections && h2.ledger == h.ledger[n.currentTerm := n1.log]
    requires (n.currentTerm, id) in h2.acks && h2.acks[(n.currentTerm, id)] == |n1.log|
    ensures LeadingOk(c, hs[id := hs[id].(log := n1.log)], h2, id, n1)
    ensures NextIndexOk(n1)
  {
    CoveredPersists(h, h2, n.log, n1.log, n.commitIndex, n.currentTerm, n.currentTerm);
    assert n1.log[..n.lastApplied] == n.log[..n.lastApplied];
  }

  lemma OnClientRequestKeeps(c: Config, hs: Hards, h: History, id: NodeId, n: NodeState, p: Packet)
    requires HistoryInv(c, hs, h) && id in hs && n.running && NodeOk(c, h, id, n, hs[id])
    requires p.msg.ClientRequest? && p.dst == id && NextIndexOk(n)
    ensures EffectOk(c, hs, h, RecordClientRequest(c, h, id, n, p.src, p.msg), id,
                     OnClientRequest(id, Peers(c, id), n, p.src, p.msg))
  {
    hide HistoryInv, CutsContiguous, LeaderOk, CandidateOk, AppliedOk, Peers, Grows, OnlyBy, AdvanceCommit, NextIndexOk;
    if !n.role.Leader? {
      QuietOk(c, hs, h, id, n);
    } else {
      assert LeadingOk(c, hs, h, id, n);
      RequestAccepted(c, hs, h, id, n, p);
    }
  }

  lemma RequestAccepted(c: Config, hs: Hards, h: History, id: NodeId, n: NodeState, p: Packet)
    requires HistoryInv(c, hs, h) && LeadingOk(c, hs, h, id, n) && NextIndexOk(n)
    requires p.msg.ClientRequest?
    ensures EffectOk(c, hs, h, RecordClientRequest(c, h, id, n, p.src, p.msg), id,
                     OnClientRequest(id, Peers(c, id), n, p.src, p.msg))
  {
    hide HistoryInv, CutsContiguous, LeaderOk, CandidateOk, AppliedOk, Peers, Grows, OnlyBy, AdvanceCommit, NextIndexOk,
         ReplayFrom, RecordCommit, RecordAck, RecordLog, ReplicateAll;
    var entry := LogEntry(n.currentTerm, |n.log| + 1, p.msg.command);
    var n1 := n.(log := n.log + [entry], pendingClients := n.pendingClients[entry.index := (p.src, p.msg.requestId)]);
    var h2 := RecordAck(RecordLog(h, n.currentTerm, n1.log), n.currentTerm, id, |n1.log|);
    var hs' := hs[id := hs[id].(log := n1.log)];
    OwnEntryKeeps(c, hs, h, id, n, p.msg.command);
    OwnEntryNode(c, hs, h, h2, id, n, n1);
    AdvanceCommitOk(c, hs', h2, id, n1);
    var (n2, replies) := AdvanceCommit(id, Peers(c, id), n1);
    var h' := RecordCommit(h2, c, id, n1, n2);
    SameCommitRecord(h2, c, id, n, n1, n2);
    GrowsOn(h, h2, h');
    OnlyByOn(h, h2, h', id);
    InCluster(c, hs, h, id);
    LeaderSends(c, hs', h2, h', id, n1);
  }

  lemma SameCommitRecord(h: History, c: Config, id: NodeId, n: NodeState, n1: NodeState, n2: NodeState)
    requires n.commitIndex == n1.commitIndex
    ensures RecordCommit(h, c, id, n, n2) == RecordCommit(h, c, id, n1, n2)
  {
  }

  lemma LeaderSends(c: Config, hs: Hards, h: History, h': History, id: NodeId, n: NodeState)
    requires ValidConfig(c) && id in Members(c) && LeadingOk(c, hs, h, id, n) && Grows(h, h')
    ensures NextIndexOk(n)
    ensures forall q {:trigger PacketOk(c, h', q)} :: q in ReplicateAll(id, n, Peers(c, id)) ==> PacketOk(c, h', q)
  {
    MajorityIsQuorum(c, id);
    ReplicateAllOk(c, h, id, n, Peers(c, id));
    hide LeaderOk, AppliedOk, Grows;
    forall q | q in ReplicateAll(id, n, Peers(c, id)) ensures PacketOk(c, h', q) {
      assert PacketOk(c, h, q);
      PacketPersists(c, h, h', q);
    }
  }

  // -- heartbeats

  lemma HeartbeatKeeps(c: Config, hs: Hards, h: History, id: NodeId, n: NodeState)
    requires HistoryInv(c, hs, h) && LeadingOk(c, hs, h, id, n) && NextIndexOk(n)
    ensures EffectOk(c, hs, h, h, id, SendHeartbeats(id, Peers(c, id), n))
  {
    hide HistoryInv, CutsContiguous, LeaderOk, CandidateOk, AppliedOk, Peers;
    InCluster(c, hs, h, id);
    GrowsSelf(h, id);
    LeaderSends(c, hs, h, h, id, n);
    HardContiguous(c, hs, h, id);
    NoRecords(hs, id, hs[id]);
  }
}
