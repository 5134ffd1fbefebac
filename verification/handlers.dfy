// Why each handler of groundhog/raft/node.py keeps the invariant, completed or cut short.
module Handlers {
  import opened Types
  import opened Log
  import opened Messages
  import opened Wal
  import opened NodeSpec
  import opened Cluster
  import opened History
  import opened HistorySteps
  import opened Invariant

  // -- small facts

  lemma NoRecords(hs: Hards, id: NodeId, r: Recovered)
    requires id in hs && hs[id] == r && Contiguous(r.log)
    ensures Rehard(hs, id, []) == hs
    ensures CutsContiguous(r, [])
  {
    assert hs[id := hs[id]] == hs;
  }

  lemma OneRecord(hard: Recovered, record: Record)
    requires Contiguous(hard.log) && Contiguous(ReplayOne(hard, record).log)
    ensures ReplayFrom(hard, [record]) == ReplayOne(hard, record)
    ensures CutsContiguous(hard, [record])
  {
    assert ReplayFrom(ReplayOne(hard, record), []) == ReplayOne(hard, record);
    forall k | 0 <= k <= 1 ensures Contiguous(ReplayFrom(hard, [record][..k]).log) {
      if k == 1 {
        assert [record][..1] == [record];
      }
    }
  }

  lemma GroundedContiguous(log: seq<LogEntry>, ledger: map<Term, seq<LogEntry>>)
    requires Grounded(log, ledger)
    ensures Contiguous(log)
  {
    forall i | 0 <= i < |log| ensures log[i].index == i + 1 {
      assert GroundedAt(log, ledger, i);
    }
  }

  lemma HardContiguous(c: Config, hs: Hards, h: History, id: NodeId)
    requires HistoryInv(c, hs, h) && id in hs
    ensures Contiguous(hs[id].log)
  {
    assert Grounded(hs[id].log, h.ledger);
    GroundedContiguous(hs[id].log, h.ledger);
  }

  lemma InCluster(c: Config, hs: Hards, h: History, id: NodeId)
    requires HistoryInv(c, hs, h) && id in hs
    ensures ValidConfig(c) && id in Members(c)
  {
  }

  lemma GrowsSelf(h: History, id: NodeId)
    ensures Grows(h, h) && OnlyBy(h, h, id)
  {
  }

  /** Persisting the current term and vote is one forward move of the hard state. */
  lemma PersistKeeps(c: Config, hs: Hards, h: History, id: NodeId, n: NodeState)
    requires HistoryInv(c, hs, h) && id in hs
    requires n.log == hs[id].log && Forward(hs[id], Recovered(n.currentTerm, n.votedFor, n.log))
    ensures HistoryInv(c, Rehard(hs, id, PersistState(n)), h)
    ensures Rehard(hs, id, PersistState(n)) == hs[id := Recovered(n.currentTerm, n.votedFor, n.log)]
    ensures ReplayFrom(hs[id], PersistState(n)) == Recovered(n.currentTerm, n.votedFor, n.log)
    ensures CutsContiguous(hs[id], PersistState(n))
  {
    HardContiguous(c, hs, h, id);
    OneRecord(hs[id], StateRecord(n.currentTerm, n.votedFor));
    RaiseKeeps(c, hs, h, id, Recovered(n.currentTerm, n.votedFor, n.log));
  }

  /** A node that stepped down, or stayed down, at a term no lower than its own. */
  lemma FollowerOk(c: Config, h: History, h': History, id: NodeId, n: NodeState, n': NodeState, hard': Recovered)
    requires Grows(h, h') && n.running && AppliedOk(h, n)
    requires n'.running && n'.role.Follower? && MemoryOk(n', hard') && n'.currentTerm >= n.currentTerm
    requires n'.log == n.log && n'.commitIndex == n.commitIndex && n'.lastApplied == n.lastApplied && n'.kv == n.kv
    ensures NodeOk(c, h', id, n', hard')
  {
    CoveredPersists(h, h', n.log, n.log, n.commitIndex, n.currentTerm, n'.currentTerm);
  }

  /** The acting node itself, when only its own acks or new records changed. */
  lemma SelfPersists(c: Config, h: History, h': History, id: NodeId, n: NodeState, hard: Recovered)
    requires Grows(h, h') && n.running && NodeOk(c, h, id, n, hard)
    requires SameLeaders(h, h')
    ensures NodeOk(c, h', id, n, hard)
  {
    CoveredPersists(h, h', n.log, n.log, n.commitIndex, n.currentTerm, n.currentTerm);
  }

  lemma StepDownOk(c: Config, hs: Hards, h: History, id: NodeId, n: NodeState, term: Term)
    requires HistoryInv(c, hs, h) && id in hs && n.running && NodeOk(c, h, id, n, hs[id])
    requires term > n.currentTerm
    ensures var n1 := BecomeFollower(n, term, None);
            EffectOk(c, hs, h, h, id, Effect(n1, PersistState(n1), []))
  {
    var n1 := BecomeFollower(n, term, None);
    GrowsSelf(h, id);
    PersistKeeps(c, hs, h, id, n1);
    FollowerOk(c, h, h, id, n, n1, ReplayFrom(hs[id], PersistState(n1)));
  }

  /** Nothing written, nothing sent, history as it was. */
  lemma QuietOk(c: Config, hs: Hards, h: History, id: NodeId, n: NodeState)
    requires HistoryInv(c, hs, h) && id in hs && NodeOk(c, h, id, n, hs[id])
    ensures EffectOk(c, hs, h, h, id, Effect(n, [], []))
  {
    GrowsSelf(h, id);
    HardContiguous(c, hs, h, id);
    NoRecords(hs, id, hs[id]);
  }

  // -- on_request_vote

  lemma RequestVoteHistory(c: Config, hs: Hards, h: History, id: NodeId, n: NodeState, p: Packet)
    requires HistoryInv(c, hs, h) && id in hs && MemoryOk(n, hs[id])
    requires PacketOk(c, h, p) && p.msg.RequestVote? && p.dst == id
    ensures var effect := OnRequestVote(id, n, p.src, p.msg);
            var h' := RecordRequestVote(h, id, n, p.src, p.msg);
            && HistoryInv(c, Rehard(hs, id, effect.written), h')
            && Grows(h, h') && OnlyBy(h, h', id)
            && SameLeaders(h, h')
            && CutsContiguous(hs[id], effect.written)
            && MemoryOk(effect.node, ReplayFrom(hs[id], effect.written))
            && (effect.sent[0].msg.voteGranted ==>
                  (effect.node.currentTerm, id) in h'.votes
                  && h'.votes[(effect.node.currentTerm, id)].candidate == p.src)
  {
    RequestVoteEffect(id, n, p.src, p.msg, hs[id]);
    hide HistoryInv, RecordVote, CutsContiguous, Grows, ReplayFrom, OnRequestVote, Forward, UpToDate;
    var effect := OnRequestVote(id, n, p.src, p.msg);
    var n2 := effect.node;
    GrowsSelf(h, id);
    PersistKeeps(c, hs, h, id, n2);
    if effect.sent[0].msg.voteGranted {
      VoteKeeps(c, Rehard(hs, id, effect.written), h, n2.currentTerm, id, p.msg.candidateId);
    }
  }

  lemma RequestVoteEffect(id: NodeId, n: NodeState, frm: NodeId, m: Message, hard: Recovered)
    requires m.RequestVote? && MemoryOk(n, hard)
    ensures var effect := OnRequestVote(id, n, frm, m);
            && effect.node.log == hard.log && effect.written == PersistState(effect.node)
            && Forward(hard, Recovered(effect.node.currentTerm, effect.node.votedFor, hard.log))
            && |effect.sent| == 1 && effect.sent[0].msg.RequestVoteReply?
            && (effect.sent[0].msg.voteGranted ==>
                  m.term == effect.node.currentTerm && effect.node.votedFor == Some(m.candidateId)
                  && UpToDate(m.lastLogTerm, m.lastLogIndex, hard.log))
  {
    hide UpToDate;
  }

  lemma OnRequestVoteKeeps(c: Config, hs: Hards, h: History, id: NodeId, n: NodeState, p: Packet)
    requires HistoryInv(c, hs, h) && id in hs && n.running && NodeOk(c, h, id, n, hs[id])
    requires PacketOk(c, h, p) && p.msg.RequestVote? && p.dst == id
    ensures EffectOk(c, hs, h, RecordRequestVote(h, id, n, p.src, p.msg), id, OnRequestVote(id, n, p.src, p.msg))
  {
    RequestVoteHistory(c, hs, h, id, n, p);
    var effect := OnRequestVote(id, n, p.src, p.msg);
    var h' := RecordRequestVote(h, id, n, p.src, p.msg);
    RequestVoteNode(c, h, h', id, n, p, hs[id], ReplayFrom(hs[id], effect.written));
    forall q | q in effect.sent ensures PacketOk(c, h', q) {
      assert q == effect.sent[0];
      assert id in Members(c);
    }
  }

  lemma RequestVoteNode(c: Config, h: History, h': History, id: NodeId, n: NodeState, p: Packet,
                        hard: Recovered, hard': Recovered)
    requires n.running && NodeOk(c, h, id, n, hard)
    requires p.msg.RequestVote?
    requires Grows(h, h') && SameLeaders(h, h')
    requires MemoryOk(OnRequestVote(id, n, p.src, p.msg).node, hard')
    ensures NodeOk(c, h', id, OnRequestVote(id, n, p.src, p.msg).node, hard')
  {
    hide Covered, Fold, UpToDate, Grows;
    var n2 := OnRequestVote(id, n, p.src, p.msg).node;
    if p.msg.term > n.currentTerm {
      FollowerOk(c, h, h', id, n, n2, hard');
    } else {
      SelfPersists(c, h, h', id, n, hard);
      assert n2 == n.(votedFor := n2.votedFor);
    }
  }

  // -- what a leader sends

  /** `LeaderOk` and covered up to its commit index: all a leader needs to replicate. */
  lemma ReplicateToOk(c: Config, h: History, id: NodeId, n: NodeState, peer: NodeId)
    requires n.role.Leader? && LeaderOk(h, id, n) && peer != id
    requires n.commitIndex <= |n.log| && Covered(h, n.log, n.commitIndex, n.currentTerm)
    ensures forall p {:trigger PacketOk(c, h, p)} :: p in ReplicateTo(id, n, peer) ==> PacketOk(c, h, p)
  {
    var prev := Get(n.nextIndex, peer, |n.log| + 1) - 1;
    assert n.log[prev..] == n.log[prev..prev + |n.log[prev..]|];
  }

  lemma ReplicateAllOk(c: Config, h: History, id: NodeId, n: NodeState, peers: seq<NodeId>)
    requires n.role.Leader? && LeaderOk(h, id, n) && id !in peers
    requires n.commitIndex <= |n.log| && Covered(h, n.log, n.commitIndex, n.currentTerm)
    ensures forall p {:trigger PacketOk(c, h, p)} :: p in ReplicateAll(id, n, peers) ==> PacketOk(c, h, p)
  {
    if peers != [] {
      ReplicateToOk(c, h, id, n, peers[0]);
      ReplicateAllOk(c, h, id, n, peers[1..]);
    }
  }

  lemma {:induction false} PeersOf(ids: seq<NodeId>, id: NodeId)
    requires forall i, j :: 0 <= i < j < |ids| ==> ids[i] != ids[j]
    ensures forall v :: v in Without(ids, id) <==> v in ids && v != id
    ensures |Without(ids, id)| == if id in ids then |ids| - 1 else |ids|
    ensures forall i, j :: 0 <= i < j < |Without(ids, id)| ==> Without(ids, id)[i] != Without(ids, id)[j]
  {
    if ids != [] {
      PeersOf(ids[1..], id);
      assert ids[0] !in ids[1..];
    }
  }

  /** Counting itself and its peers, a node counts the cluster. */
  lemma MajorityIsQuorum(c: Config, id: NodeId)
    requires ValidConfig(c) && id in Members(c)
    ensures Majority(Peers(c, id)) == |c.ids| / 2 + 1
    ensures id !in Peers(c, id)
    ensures SetOf(Peers(c, id)) <= Members(c)
  {
    PeersOf(c.ids, id);
  }

  // -- winning an election

  /** The history of a win: the election, then the winner's acknowledgement of its own log. */
  lemma WinHistory(c: Config, hs: Hards, h: History, id: NodeId, n: NodeState)
    requires HistoryInv(c, hs, h) && id in hs && MemoryOk(n, hs[id])
    requires CandidateOk(c, h, id, n)
    requires |n.votesGranted| >= Majority(Peers(c, id))
    ensures var h' := RecordWin(h, id, n);
            && HistoryInv(c, hs, h')
            && Grows(h, h') && OnlyBy(h, h', id)
            && n.currentTerm in h'.elections && h'.elections[n.currentTerm].leader == id
            && n.currentTerm in h'.ledger && h'.ledger[n.currentTerm] == n.log
            && (n.currentTerm, id) in h'.acks && h'.acks[(n.currentTerm, id)] == |n.log|
  {
    var t := n.currentTerm;
    MajorityIsQuorum(c, id);
    NotWonYet(c, hs, h, id, n);
    NoAcksYet(c, hs, h, t, id);
    WinKeeps(c, hs, h, t, id, n.votesGranted);
    var h1 := RecordElection(h, t, id, n.votesGranted, n.log);
    AckKeeps(c, hs, h1, t, id, |n.log|);
    NewTermByOwner(c, h, h1, RecordWin(h, id, n), t, id);
  }

  lemma NewTermByOwner(c: Config, h: History, h1: History, h': History, t: Term, id: NodeId)
    requires t !in h.elections && h.ledger.Keys == h.elections.Keys
    requires Grows(h, h1) && Grows(h1, h')
    requires t in h1.elections && h1.elections == h.elections[t := h1.elections[t]] && h1.elections[t].leader == id
    requires t in h1.ledger && h1.ledger == h.ledger[t := h1.ledger[t]]
    requires h1.acks == h.acks && h'.elections == h1.elections && h'.ledger == h1.ledger
    requires (t, id) in h'.acks && h'.acks == h1.acks[(t, id) := h'.acks[(t, id)]]
    ensures Grows(h, h') && OnlyBy(h, h', id)
  {
  }

  lemma WinOk(c: Config, hs: Hards, h: History, id: NodeId, n: NodeState)
    requires HistoryInv(c, hs, h) && id in hs && n.running && MemoryOk(n, hs[id])
    requires CandidateOk(c, h, id, n) && AppliedOk(h, n)
    requires |n.votesGranted| >= Majority(Peers(c, id))
    ensures var h' := RecordWin(h, id, n);
            var n' := TakeCharge(id, Peers(c, id), n);
            && HistoryInv(c, hs, h')
            && Grows(h, h') && OnlyBy(h, h', id)
            && NextIndexOk(n')
            && NodeOk(c, h', id, n', hs[id])
            && (forall p {:trigger PacketOk(c, h', p)} :: p in ReplicateAll(id, n', Peers(c, id)) ==>
                  PacketOk(c, h', p))
  {
    WinHistory(c, hs, h, id, n);
    NewLeaderOk(c, h, RecordWin(h, id, n), id, n, hs[id]);
  }

  lemma NewLeaderOk(c: Config, h: History, h': History, id: NodeId, n: NodeState, hard: Recovered)
    requires ValidConfig(c) && id in Members(c)
    requires Grows(h, h') && n.running && AppliedOk(h, n) && MemoryOk(n, hard)
    requires n.currentTerm in h'.elections && h'.elections[n.currentTerm].leader == id
    requires n.currentTerm in h'.ledger && h'.ledger[n.currentTerm] == n.log
    requires (n.currentTerm, id) in h'.acks && h'.acks[(n.currentTerm, id)] == |n.log|
    ensures var n' := TakeCharge(id, Peers(c, id), n);
            && NextIndexOk(n')
            && NodeOk(c, h', id, n', hard)
            && (forall p {:trigger PacketOk(c, h', p)} :: p in ReplicateAll(id, n', Peers(c, id)) ==>
                  PacketOk(c, h', p))
  {
    var n' := TakeCharge(id, Peers(c, id), n);
    MajorityIsQuorum(c, id);
    CoveredPersists(h, h', n.log, n.log, n.commitIndex, n.currentTerm, n.currentTerm);
    ReplicateAllOk(c, h', id, n', Peers(c, id));
  }

  lemma NotWonYet(c: Config, hs: Hards, h: History, id: NodeId, n: NodeState)
    requires HistoryInv(c, hs, h) && CandidateOk(c, h, id, n) && Quorum(c, n.votesGranted)
    ensures n.currentTerm !in h.elections
  {
    if n.currentTerm in h.elections {
      assert ElectionOk(c, h, n.currentTerm);
      var v := QuorumsMeet(c, n.votesGranted, h.elections[n.currentTerm].voters);
      assert false;
    }
  }

  lemma NoAcksYet(c: Config, hs: Hards, h: History, t: Term, id: NodeId)
    requires HistoryInv(c, hs, h) && t !in h.elections
    ensures (t, id) !in h.acks
  {
    assert (t, id) in h.acks ==> AckOk(hs, h, t, id);
  }

  // -- on_request_vote_reply

  lemma CountedVoteOk(c: Config, h: History, id: NodeId, n: NodeState, p: Packet, hard: Recovered)
    requires n.running && NodeOk(c, h, id, n, hard) && n.role.Candidate?
    requires PacketOk(c, h, p) && p.msg.RequestVoteReply? && p.dst == id
    requires p.msg.term == n.currentTerm && p.msg.voteGranted
    ensures var n1 := n.(votesGranted := n.votesGranted + {p.src});
            CandidateOk(c, h, id, n1) && AppliedOk(h, n1) && NodeOk(c, h, id, n1, hard)
  {
  }

  lemma OnRequestVoteReplyKeeps(c: Config, hs: Hards, h: History, id: NodeId, n: NodeState, p: Packet)
    requires HistoryInv(c, hs, h) && id in hs && n.running && NodeOk(c, h, id, n, hs[id])
    requires PacketOk(c, h, p) && p.msg.RequestVoteReply? && p.dst == id
    ensures EffectOk(c, hs, h, RecordRequestVoteReply(c, h, id, n, p.src, p.msg), id,
                     OnRequestVoteReply(id, Peers(c, id), n, p.src, p.msg))
  {
    hide HistoryInv, LeaderOk, CandidateOk, AppliedOk, CutsContiguous, RecordWin, Majority, Peers, Grows, OnlyBy;
    var m := p.msg;
    if m.term > n.currentTerm {
      StepDownOk(c, hs, h, id, n, m.term);
    } else if !n.role.Candidate? || m.term != n.currentTerm || !m.voteGranted {
      QuietOk(c, hs, h, id, n);
    } else {
      var n1 := n.(votesGranted := n.votesGranted + {p.src});
      CountedVoteOk(c, h, id, n, p, hs[id]);
      if |n1.votesGranted| >= Majority(Peers(c, id)) {
        WinOk(c, hs, h, id, n1);
        HardContiguous(c, hs, h, id);
        NoRecords(hs, id, hs[id]);
        WinRecordSame(h, id, n1, Peers(c, id));
      } else {
        QuietOk(c, hs, h, id, n1);
      }
    }
  }

  /** Taking charge does not change what the win records. */
  lemma WinRecordSame(h: History, id: NodeId, n: NodeState, peers: seq<NodeId>)
    ensures RecordWin(h, id, TakeCharge(id, peers, n)) == RecordWin(h, id, n)
  {
  }

  // -- on_election_timeout

  lemma OnElectionTimeoutKeeps(c: Config, hs: Hards, h: History, id: NodeId, n: NodeState)
    requires HistoryInv(c, hs, h) && id in hs && n.running && NodeOk(c, h, id, n, hs[id])
    ensures EffectOk(c, hs, h, RecordTimeout(c, h, id, n), id, OnElectionTimeout(id, Peers(c, id), n))
  {
    hide HistoryInv, CutsContiguous, RecordCandidacy, Fold, Covered, Peers, ReplicateAll;
    var n1 := BecomeCandidate(id, n.(currentTerm := n.currentTerm + 1)).(votedFor := Some(id));
    PersistKeeps(c, hs, h, id, n1);
    NewCandidateOk(c, hs, h, id, n);
    if |n1.votesGranted| >= Majority(Peers(c, id)) {
      TimeoutWins(c, hs, h, id, n);
    } else {
      var h1 := RecordCandidacy(h, n1.currentTerm, id, n.log);
      var effect := OnElectionTimeout(id, Peers(c, id), n);
      forall q | q in effect.sent ensures PacketOk(c, h1, q) {
        assert q.msg == RequestVote(n1.currentTerm, id, |n.log|, LastTerm(n.log)) && q.src == id;
      }
    }
  }

  /** A cluster of one elects itself. */
  lemma TimeoutWins(c: Config, hs: Hards, h: History, id: NodeId, n: NodeState)
    requires id in hs && n.running
    requires Rehard(hs, id, [StateRecord(n.currentTerm + 1, Some(id))])
             == hs[id := Recovered(n.currentTerm + 1, Some(id), n.log)]
    requires CutsContiguous(hs[id], [StateRecord(n.currentTerm + 1, Some(id))])
    requires ReplayFrom(hs[id], [StateRecord(n.currentTerm + 1, Some(id))])
             == Recovered(n.currentTerm + 1, Some(id), n.log)
    requires var t := n.currentTerm + 1;
             var n1 := BecomeCandidate(id, n.(currentTerm := t)).(votedFor := Some(id));
             var h1 := RecordCandidacy(h, t, id, n.log);
             && HistoryInv(c, hs[id := Recovered(t, Some(id), n.log)], h1)
             && Grows(h, h1) && OnlyBy(h, h1, id)
             && SameLeaders(h, h1)
             && CandidateOk(c, h1, id, n1)
             && AppliedOk(h1, n1)
             && |n1.votesGranted| >= Majority(Peers(c, id))
    ensures EffectOk(c, hs, h, RecordTimeout(c, h, id, n), id, OnElectionTimeout(id, Peers(c, id), n))
  {
    hide HistoryInv, CandidateOk, CutsContiguous, NodeOk, RecordWin, RecordCandidacy, Majority, Peers, Grows, OnlyBy;
    var t := n.currentTerm + 1;
    var n1 := BecomeCandidate(id, n.(currentTerm := t)).(votedFor := Some(id));
    var h1 := RecordCandidacy(h, t, id, n.log);
    WinOk(c, hs[id := Recovered(t, Some(id), n.log)], h1, id, n1);
    WinRecordSame(h1, id, n1, Peers(c, id));
    TimeoutGrows(c, h, h1, RecordWin(h1, id, n1), id);
  }

  /** The new candidate, before it counts its own vote. */
  lemma NewCandidateOk(c: Config, hs: Hards, h: History, id: NodeId, n: NodeState)
    requires HistoryInv(c, hs, h) && id in hs && n.running && NodeOk(c, h, id, n, hs[id])
    ensures var t := n.currentTerm + 1;
            var n1 := BecomeCandidate(id, n.(currentTerm := t)).(votedFor := Some(id));
            var h1 := RecordCandidacy(h, t, id, n.log);
            && HistoryInv(c, hs[id := Recovered(t, Some(id), n.log)], h1)
            && Grows(h, h1) && OnlyBy(h, h1, id)
            && SameLeaders(h, h1)
            && CandidateOk(c, h1, id, n1)
            && AppliedOk(h1, n1)
  {
    hide HistoryInv, LeaderOk, Covered, Fold, RecordCandidacy, RecordVote;
    var t := n.currentTerm + 1;
    var h1 := RecordCandidacy(h, t, id, n.log);
    InCluster(c, hs, h, id);
    CandidacyKeeps(c, hs, h, t, id);
    NotElectedAbove(c, hs, h, id, t);
    CoveredPersists(h, h1, n.log, n.log, n.commitIndex, n.currentTerm, t);
  }

  lemma TimeoutGrows(c: Config, h: History, h1: History, h': History, id: NodeId)
    requires Grows(h, h1) && SameLeaders(h, h1)
    requires Grows(h1, h') && OnlyBy(h1, h', id)
    ensures Grows(h, h') && OnlyBy(h, h', id)
  {
  }

  lemma NotElectedAbove(c: Config, hs: Hards, h: History, id: NodeId, t: Term)
    requires HistoryInv(c, hs, h) && id in hs && t > hs[id].term
    ensures !(t in h.elections && h.elections[t].leader == id)
  {
    if t in h.elections && h.elections[t].leader == id {
      assert ElectionOk(c, h, t);
      VoterTerm(c, hs, h, t, id);
      assert false;
    }
  }
}
