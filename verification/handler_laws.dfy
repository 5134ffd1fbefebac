// What the answers of each handler of groundhog/raft/node.py mean to whoever gets them.
module HandlerLaws {
  import opened Types
  import opened Log
  import opened Messages
  import opened NodeSpec

  // -- which of two logs is the more up to date

  /** A candidate with log `a` passes the comparison of a voter with log `b`. */
  predicate AtLeast(a: seq<LogEntry>, b: seq<LogEntry>) {
    UpToDate(LastTerm(a), |a|, b)
  }

  /** Of two logs one passes against the other; a newer last term passes whatever the lengths,
      and with equal last terms the longer log does. */
  lemma OneOfTwoPasses(a: seq<LogEntry>, b: seq<LogEntry>)
    ensures AtLeast(a, b) || AtLeast(b, a)
    ensures LastTerm(a) > LastTerm(b) ==> AtLeast(a, b) && !AtLeast(b, a)
    ensures LastTerm(a) == LastTerm(b) && |a| > |b| ==> AtLeast(a, b) && !AtLeast(b, a)
    ensures LastTerm(a) == LastTerm(b) && |a| == |b| ==> AtLeast(a, b) && AtLeast(b, a)
  {
  }

  lemma PassesThrough(a: seq<LogEntry>, b: seq<LogEntry>, d: seq<LogEntry>)
    requires AtLeast(a, b) && AtLeast(b, d)
    ensures AtLeast(a, d)
  {
  }

  // -- votes

  /** A vote is granted exactly if the voter ends in the candidate's term, with its vote in it the
      candidate's, and the candidate's log passes; and the candidate hears the voter's term. */
  lemma GrantMeans(id: NodeId, n: NodeState, frm: NodeId, m: Message)
    requires m.RequestVote?
    ensures var n', sent := OnRequestVote(id, n, frm, m).node, OnRequestVote(id, n, frm, m).sent;
            && sent == [Packet(id, frm, RequestVoteReply(n'.currentTerm, sent[0].msg.voteGranted))]
            && n'.currentTerm == Max(n.currentTerm, m.term) && n'.log == n.log
            && (sent[0].msg.voteGranted <==>
                  && n'.currentTerm == m.term && n'.votedFor == Some(m.candidateId)
                  && UpToDate(m.lastLogTerm, m.lastLogIndex, n.log))
            && (n'.votedFor != n.votedFor && n'.currentTerm == n.currentTerm ==> n.votedFor == None)
  {
  }

  /** A voter asked again for the vote it gave gives it again, and changes nothing. */
  lemma VoteIsRepeated(id: NodeId, n: NodeState, frm: NodeId, m: Message)
    requires m.RequestVote? && OnRequestVote(id, n, frm, m).sent[0].msg.voteGranted
    ensures var effect := OnRequestVote(id, n, frm, m);
            OnRequestVote(id, effect.node, frm, m) == effect
  {
  }

  /** A candidate of an older term is refused, hears of the newer term and steps down into it. */
  lemma StaleCandidateStepsDown(id: NodeId, n: NodeState, frm: NodeId, candidate: NodeState, peers: seq<NodeId>,
                                m: Message)
    requires m.RequestVote? && m.term < n.currentTerm && candidate.currentTerm == m.term
    ensures var reply := OnRequestVote(id, n, frm, m).sent[0];
            && reply.src == id && reply.dst == frm && !reply.msg.voteGranted
            && var n' := OnRequestVoteReply(frm, peers, candidate, id, reply.msg).node;
               n'.role.Follower? && n'.currentTerm == n.currentTerm && n'.votedFor == None && n'.log == candidate.log
  {
  }

  /** A leader of an older term likewise. */
  lemma StaleLeaderStepsDown(id: NodeId, n: NodeState, frm: NodeId, leader: NodeState, peers: seq<NodeId>, m: Message)
    requires m.AppendEntries? && m.term < n.currentTerm && leader.currentTerm == m.term && NextIndexOk(leader)
    ensures var effect := OnAppendEntries(id, n, frm, m);
            && |effect.sent| == 1 && effect.sent[0].src == id && effect.sent[0].dst == frm && effect.node == n
            && effect.sent[0].msg.AppendEntriesReply? && !effect.sent[0].msg.success
            && var n' := OnAppendEntriesReply(frm, peers, leader, id, effect.sent[0].msg).node;
               n'.role.Follower? && n'.currentTerm == n.currentTerm && n'.votedFor == None && n'.log == leader.log
  {
  }

  // -- standing for election

  /** A node that stands asks every peer once for a vote in the next term, or leads at once if it
      is the whole cluster. */
  lemma StandsOrLeads(id: NodeId, peers: seq<NodeId>, n: NodeState)
    ensures var effect := OnElectionTimeout(id, peers, n);
            && effect.node.currentTerm == n.currentTerm + 1 && effect.node.votedFor == Some(id)
            && effect.node.log == n.log
            && (effect.node.role.Leader? <==> peers == [])
            && (peers != [] ==> effect.node.role.Candidate? && effect.node.votesGranted == {id})
            && |effect.sent| == |peers|
            && forall i :: 0 <= i < |peers| ==>
                 effect.sent[i] == Packet(id, peers[i], RequestVote(n.currentTerm + 1, id, |n.log|, LastTerm(n.log)))
  {
    var n1 := BecomeCandidate(id, n.(currentTerm := n.currentTerm + 1)).(votedFor := Some(id));
    assert |n1.votesGranted| == 1;
    assert NextIndexOk(TakeCharge(id, peers, n1));
  }

  // -- replicating

  /** The packet brings the peer all that the leader believes it to lack, with the entry before
      that to check, and the leader's commit index. */
  predicate Brings(id: NodeId, n: NodeState, peer: NodeId, p: Packet)
    requires NextIndexOk(n) && n.role.Leader?
  {
    var prev := Get(n.nextIndex, peer, |n.log| + 1) - 1;
    && p.src == id && p.dst == peer && p.msg.AppendEntries?
    && p.msg.term == n.currentTerm && p.msg.leaderId == id && p.msg.leaderCommit == n.commitIndex
    && p.msg.prevLogIndex == prev && p.msg.prevLogTerm == TermAt(n.log, prev)
    && n.log == n.log[..prev] + p.msg.entries
  }

  lemma BringsToOne(id: NodeId, n: NodeState, peer: NodeId)
    requires n.role.Leader? && NextIndexOk(n)
    ensures |ReplicateTo(id, n, peer)| == 1 && Brings(id, n, peer, ReplicateTo(id, n, peer)[0])
  {
    var prev := Get(n.nextIndex, peer, |n.log| + 1) - 1;
    assert n.log == n.log[..prev] + n.log[prev..];
  }

  /** A leader sends each peer one message, in the peers' order. */
  lemma {:induction false} OneToEach(id: NodeId, n: NodeState, peers: seq<NodeId>)
    requires n.role.Leader? && NextIndexOk(n)
    ensures |ReplicateAll(id, n, peers)| == |peers|
    ensures forall i :: 0 <= i < |peers| ==> Brings(id, n, peers[i], ReplicateAll(id, n, peers)[i])
    decreases |peers|
  {
    hide Brings, ReplicateTo;
    if peers != [] {
      OneToEach(id, n, peers[1..]);
      BringsToOne(id, n, peers[0]);
    }
  }

  /** A node that has just taken charge credits nobody with anything, and tells every peer so
      from the end of its own log, with no entries. */
  lemma FirstPackets(id: NodeId, peers: seq<NodeId>, n: NodeState)
    ensures var n' := TakeCharge(id, peers, n);
            && NextIndexOk(n') && n'.leaderId == Some(id) && n'.log == n.log
            && (forall peer :: peer in peers ==> peer in n'.matchIndex && n'.matchIndex[peer] == 0)
            && |ReplicateAll(id, n', peers)| == |peers|
            && forall i :: 0 <= i < |peers| ==>
                 ReplicateAll(id, n', peers)[i]
                 == Packet(id, peers[i],
                           AppendEntries(n.currentTerm, id, |n.log|, LastTerm(n.log), [], n.commitIndex))
  {
    var n' := TakeCharge(id, peers, n);
    assert NextIndexOk(n');
    OneToEach(id, n', peers);
    forall i | 0 <= i < |peers|
      ensures ReplicateAll(id, n', peers)[i]
           == Packet(id, peers[i], AppendEntries(n.currentTerm, id, |n.log|, LastTerm(n.log), [], n.commitIndex))
    {
      assert Brings(id, n', peers[i], ReplicateAll(id, n', peers)[i]);
    }
  }

  /** A vote makes a leader exactly of a candidate of its term that, counting it once, has more than
      half of the cluster's; and the new leader tells everyone at once. */
  lemma MajorityOfVotesLeads(id: NodeId, peers: seq<NodeId>, n: NodeState, frm: NodeId, m: Message)
    requires m.RequestVoteReply? && !n.role.Leader?
    ensures var effect := OnRequestVoteReply(id, peers, n, frm, m);
            && effect.node.currentTerm == Max(n.currentTerm, m.term) && effect.node.log == n.log
            && (effect.node.role.Leader? <==>
                  && n.role.Candidate? && m.term == n.currentTerm && m.voteGranted
                  && 2 * |n.votesGranted + {frm}| > |peers| + 1)
            && |effect.sent| == (if effect.node.role.Leader? then |peers| else 0)
            && forall i :: 0 <= i < |effect.sent| ==>
                 effect.sent[i] == Packet(id, peers[i], AppendEntries(n.currentTerm, id, |n.log|, LastTerm(n.log), [],
                                                                      n.commitIndex))
  {
    hide ReplicateAll, FromKeys;
    FirstPackets(id, peers, n.(votesGranted := n.votesGranted + {frm}));
  }

  // -- taking entries

  /** The log has the entry that `prev` names, or `prev` is the sentinel. */
  predicate Has(log: seq<LogEntry>, prev: Index, prevTerm: Term) {
    if prev == 0 then prevTerm == 0 else exists e :: e in log && e.index == prev && e.term == prevTerm
  }

  predicate SaysYes(effect: Effect) {
    && effect.sent != []
    && var last := effect.sent[|effect.sent| - 1].msg;
       last.AppendEntriesReply? && last.success
  }

  /** Entries are taken exactly if they are not of an older term and the log has the entry just
      before them; the reply is of the receiver's term and says how far the entries reached. */
  lemma TakesWhatFollows(id: NodeId, n: NodeState, frm: NodeId, m: Message)
    requires m.AppendEntries? && Contiguous(n.log)
    ensures var effect := OnAppendEntries(id, n, frm, m);
            && (SaysYes(effect) <==> m.term >= n.currentTerm && Has(n.log, m.prevLogIndex, m.prevLogTerm))
            && effect.node.currentTerm == Max(n.currentTerm, m.term)
            && |effect.sent| > 0 && effect.sent[|effect.sent| - 1]
               == Packet(id, frm, AppendEntriesReply(effect.node.currentTerm, SaysYes(effect),
                                  if SaysYes(effect) then m.prevLogIndex + |m.entries| else 0))
            && (m.term >= n.currentTerm ==> effect.node.role.Follower? && effect.node.leaderId == Some(m.leaderId))
            && (m.term < n.currentTerm ==> effect.node == n)
            && (!SaysYes(effect) ==> effect.node.log == n.log && effect.node.commitIndex == n.commitIndex)
  {
    hide Merged, MergeRecords, Fold, Unpaid, Replies;
    MergeReaches(n.log, m);
    if m.prevLogIndex > 0 && m.prevLogIndex <= |n.log| {
      assert n.log[m.prevLogIndex - 1] in n.log && n.log[m.prevLogIndex - 1].index == m.prevLogIndex;
    }
  }

  lemma MergeReaches(log: seq<LogEntry>, m: Message)
    requires m.AppendEntries?
    ensures m.prevLogIndex <= |log| ==> |Merged(log, m.prevLogIndex, m.entries)| >= m.prevLogIndex + |m.entries|
  {
    if m.prevLogIndex <= |log| {
      MergedLength(log, m.prevLogIndex, m.entries);
    }
  }

  /** What a follower takes for committed: the greater of what it knew and what it is told, when
      the message reaches as far as it says; and it applies all of it. */
  lemma CommitsWhatItIsTold(id: NodeId, n: NodeState, frm: NodeId, m: Message)
    requires m.AppendEntries? && SaysYes(OnAppendEntries(id, n, frm, m))
    requires m.leaderCommit <= m.prevLogIndex + |m.entries| && n.lastApplied == n.commitIndex
    ensures var n' := OnAppendEntries(id, n, frm, m).node;
            n'.commitIndex == Max(n.commitIndex, m.leaderCommit) && n'.lastApplied == n'.commitIndex
  {
    hide Merged, MergeRecords, Fold, Unpaid, Replies;
    MergeReaches(n.log, m);
  }

  /** Whatever it is told, a follower goes no further than the message reached; a commit index that
      is no news to it leaves its own as it was. */
  lemma CommitsNoFurther(id: NodeId, n: NodeState, frm: NodeId, m: Message)
    requires m.AppendEntries? && SaysYes(OnAppendEntries(id, n, frm, m))
    ensures var n', reached := OnAppendEntries(id, n, frm, m).node, m.prevLogIndex + |m.entries|;
            if m.leaderCommit > n.commitIndex then
              && n'.commitIndex <= m.leaderCommit && n'.commitIndex <= reached
              && (n'.commitIndex == m.leaderCommit || n'.commitIndex == reached)
            else
              n'.commitIndex == n.commitIndex && n'.lastApplied == n.lastApplied
  {
    hide Merged, MergeRecords, Fold, Unpaid, Replies;
    MergeReaches(n.log, m);
  }

  // -- committing

  /** There is nothing left that a leader may commit. */
  predicate AllCommitted(peers: seq<NodeId>, n: NodeState) {
    forall i {:trigger MayCommit(peers, n, i)} :: n.commitIndex < i <= |n.log| ==> !MayCommit(peers, n, i)
  }

  lemma AdvancedIsAllCommitted(id: NodeId, peers: seq<NodeId>, n: NodeState)
    requires n.role.Leader?
    ensures AllCommitted(peers, AdvanceCommit(id, peers, n).0)
    ensures var n' := AdvanceCommit(id, peers, n).0;
            && n'.log == n.log && n'.currentTerm == n.currentTerm && n'.role == n.role && n'.matchIndex == n.matchIndex
            && n'.nextIndex == n.nextIndex && n'.running == n.running && n'.votedFor == n.votedFor
            && n'.leaderId == n.leaderId && n'.votesGranted == n.votesGranted
  {
    hide Holders, Majority, Fold, Unpaid, Replies;
    var point := CommitPoint(peers, n, |n.log|);
    var n' := AdvanceCommit(id, peers, n).0;
    forall i | n'.commitIndex < i <= |n'.log| ensures !MayCommit(peers, n', i) {
      assert !MayCommit(peers, n, i);
    }
  }

  /** A leader that hears of a success credits the follower with no less than before, will go on
      from there, and commits all that it then may. */
  lemma SuccessCommitsAll(id: NodeId, peers: seq<NodeId>, n: NodeState, frm: NodeId, m: Message)
    requires m.AppendEntriesReply? && m.success && n.role.Leader? && m.term == n.currentTerm && NextIndexOk(n)
    ensures var n' := OnAppendEntriesReply(id, peers, n, frm, m).node;
            && AllCommitted(peers, n')
            && n'.log == n.log && n'.role.Leader? && n'.currentTerm == n.currentTerm && n'.running == n.running
            && frm in n'.matchIndex && n'.matchIndex[frm] == Max(Get(n.matchIndex, frm, 0), m.matchIndex)
            && frm in n'.nextIndex && n'.nextIndex[frm] == n'.matchIndex[frm] + 1
            && (forall p :: p != frm ==> (p in n'.matchIndex <==> p in n.matchIndex))
            && (forall p :: p != frm && p in n.matchIndex ==> n'.matchIndex[p] == n.matchIndex[p])
  {
    hide AdvanceCommit, AllCommitted;
    var matched := Max(Get(n.matchIndex, frm, 0), m.matchIndex);
    AdvancedIsAllCommitted(id, peers, n.(matchIndex := n.matchIndex[frm := matched],
                                         nextIndex := n.nextIndex[frm := matched + 1]));
  }

  /** A leader given a command appends it in its own term, tells everyone, and commits all that
      it then may. */
  lemma RequestCommitsAll(id: NodeId, peers: seq<NodeId>, n: NodeState, frm: NodeId, m: Message)
    requires m.ClientRequest? && n.role.Leader? && NextIndexOk(n)
    ensures var n' := OnClientRequest(id, peers, n, frm, m).node;
            && AllCommitted(peers, n')
            && n'.log == n.log + [LogEntry(n.currentTerm, |n.log| + 1, m.command)]
            && n'.role.Leader? && n'.currentTerm == n.currentTerm && n'.running == n.running
            && n'.matchIndex == n.matchIndex && n'.nextIndex == n.nextIndex
  {
    hide AdvanceCommit, AllCommitted;
    var entry := LogEntry(n.currentTerm, |n.log| + 1, m.command);
    AdvancedIsAllCommitted(id, peers, n.(log := n.log + [entry],
                                         pendingClients := n.pendingClients[entry.index := (frm, m.requestId)]));
  }

  /** What a leader that takes a command sends: first, to every peer, all that the peer is believed
      to lack and so the new entry, and after that only replies to clients. */
  lemma RequestTellsAll(id: NodeId, peers: seq<NodeId>, n: NodeState, frm: NodeId, m: Message)
    requires m.ClientRequest? && n.role.Leader? && NextIndexOk(n)
    ensures var sent := OnClientRequest(id, peers, n, frm, m).sent;
            var entry := LogEntry(n.currentTerm, |n.log| + 1, m.command);
            var asking := n.(log := n.log + [entry],
                             pendingClients := n.pendingClients[entry.index := (frm, m.requestId)]);
            && |peers| <= |sent|
            && (forall i :: 0 <= i < |peers| ==>
                  Brings(id, asking, peers[i], sent[i])
                  && (peers[i] in n.nextIndex ==>
                        sent[i].msg.entries != [] && sent[i].msg.entries[|sent[i].msg.entries| - 1] == entry))
            && forall i :: |peers| <= i < |sent| ==> sent[i].msg.ClientReply?
  {
    hide AdvanceCommit, ReplicateAll;
    var entry := LogEntry(n.currentTerm, |n.log| + 1, m.command);
    var asking := n.(log := n.log + [entry], pendingClients := n.pendingClients[entry.index := (frm, m.requestId)]);
    OneToEach(id, asking, peers);
    CommittingReplies(id, peers, asking);
    var told, replies := ReplicateAll(id, asking, peers), AdvanceCommit(id, peers, asking).1;
    assert forall i :: 0 <= i < |replies| ==> replies[i] in replies;
    forall i | 0 <= i < |peers| && peers[i] in n.nextIndex
      ensures told[i].msg.entries != [] && told[i].msg.entries[|told[i].msg.entries| - 1] == entry
    {
      BringsLast(id, asking, peers[i], told[i]);
    }
  }

  /** A packet that goes on from inside the log brings its last entry. */
  lemma BringsLast(id: NodeId, n: NodeState, peer: NodeId, p: Packet)
    requires NextIndexOk(n) && n.role.Leader? && Brings(id, n, peer, p) && p.msg.prevLogIndex < |n.log|
    ensures p.msg.entries != [] && p.msg.entries[|p.msg.entries| - 1] == n.log[|n.log| - 1]
  {
  }

  lemma {:induction false} OnlyReplies(id: NodeId, pending: map<Index, (NodeId, nat)>, from: Index, upTo: Index)
    ensures forall r :: r in Replies(id, pending, from, upTo) ==> r.msg.ClientReply? && r.src == id
    decreases upTo - from
  {
    if from < upTo {
      OnlyReplies(id, pending, from + 1, upTo);
    }
  }

  lemma CommittingReplies(id: NodeId, peers: seq<NodeId>, n: NodeState)
    ensures forall r :: r in AdvanceCommit(id, peers, n).1 ==> r.msg.ClientReply?
  {
    hide CommitPoint, Replies;
    var point := if n.role.Leader? then CommitPoint(peers, n, |n.log|) else n.commitIndex;
    OnlyReplies(id, n.pendingClients, n.lastApplied, point);
  }

  /** Any other node tells the client who leads, as far as it knows, and changes nothing. */
  lemma OthersRedirect(id: NodeId, peers: seq<NodeId>, n: NodeState, frm: NodeId, m: Message)
    requires m.ClientRequest? && !n.role.Leader? && NextIndexOk(n)
    ensures var effect := OnClientRequest(id, peers, n, frm, m);
            && effect.node == n && effect.written == []
            && effect.sent == [Packet(id, frm, ClientReply(m.requestId, false, n.leaderId))]
  {
  }

  /** A leader that stays one has left nothing uncommitted that it may commit, if it had not before. */
  lemma StaysAllCommitted(id: NodeId, peers: seq<NodeId>, n: NodeState, frm: NodeId, m: Message)
    requires Ready(n, m) && n.role.Leader? && AllCommitted(peers, n)
    ensures var n' := Dispatch(id, peers, n, frm, m).node;
            n'.role.Leader? ==> AllCommitted(peers, n')
  {
    hide AllCommitted, OnAppendEntriesReply, OnClientRequest, UpToDate, OnAppendEntries;
    match m
    case RequestVote(_, _, _, _) => VotingCommitsNothing(id, peers, n, frm, m);
    case AppendEntries(_, _, _, _, _, _) => AppendedStaysAllCommitted(id, peers, n, frm, m);
    case AppendEntriesReply(_, _, _) =>
      if m.success && m.term == n.currentTerm {
        SuccessCommitsAll(id, peers, n, frm, m);
      } else {
        RefusalCommitsNothing(id, peers, n, frm, m);
      }
    case ClientRequest(_, _) => RequestCommitsAll(id, peers, n, frm, m);
    case _ =>
  }

  lemma SameAllCommitted(peers: seq<NodeId>, n: NodeState, n': NodeState)
    requires AllCommitted(peers, n) && n'.log == n.log && n'.currentTerm == n.currentTerm
    requires n'.commitIndex == n.commitIndex && n'.matchIndex == n.matchIndex
    ensures AllCommitted(peers, n')
  {
    hide Holders, Majority;
    forall i | n'.commitIndex < i <= |n'.log| ensures !MayCommit(peers, n', i) {
      assert !MayCommit(peers, n, i);
    }
  }

  lemma VotingCommitsNothing(id: NodeId, peers: seq<NodeId>, n: NodeState, frm: NodeId, m: Message)
    requires m.RequestVote? && n.role.Leader? && AllCommitted(peers, n)
    ensures var n' := OnRequestVote(id, n, frm, m).node; n'.role.Leader? ==> AllCommitted(peers, n')
  {
    hide AllCommitted, UpToDate;
    var n' := OnRequestVote(id, n, frm, m).node;
    if n'.role.Leader? {
      SameAllCommitted(peers, n, n');
    }
  }

  lemma RefusalCommitsNothing(id: NodeId, peers: seq<NodeId>, n: NodeState, frm: NodeId, m: Message)
    requires m.AppendEntriesReply? && !(m.success && m.term == n.currentTerm)
    requires n.role.Leader? && NextIndexOk(n) && AllCommitted(peers, n)
    ensures var n' := OnAppendEntriesReply(id, peers, n, frm, m).node; n'.role.Leader? ==> AllCommitted(peers, n')
  {
    hide AllCommitted, AdvanceCommit;
    var n' := OnAppendEntriesReply(id, peers, n, frm, m).node;
    if n'.role.Leader? {
      SameAllCommitted(peers, n, n');
    }
  }

  lemma AppendedStaysAllCommitted(id: NodeId, peers: seq<NodeId>, n: NodeState, frm: NodeId, m: Message)
    requires m.AppendEntries? && n.role.Leader? && AllCommitted(peers, n)
    ensures var n' := OnAppendEntries(id, n, frm, m).node; n'.role.Leader? ==> AllCommitted(peers, n')
  {
    hide AllCommitted, Merged, MergeRecords, Fold, Unpaid, Replies;
    MergeReaches(n.log, m);
  }

  // -- what a leader believes of its followers

  /** While a node leads, what it credits a peer with never falls. */
  lemma MatchNeverFalls(id: NodeId, peers: seq<NodeId>, n: NodeState, frm: NodeId, m: Message, peer: NodeId)
    requires Ready(n, m) && n.role.Leader? && Dispatch(id, peers, n, frm, m).node.role.Leader?
    ensures var n' := Dispatch(id, peers, n, frm, m).node;
            Get(n'.matchIndex, peer, 0) >= Get(n.matchIndex, peer, 0)
  {
    hide OnClientRequest, UpToDate, AdvanceCommit, Merged, MergeRecords, Fold, Unpaid, Replies;
    match m
    case AppendEntries(_, _, _, _, _, _) => MergeReaches(n.log, m);
    case AppendEntriesReply(_, _, _) =>
      if m.success && m.term == n.currentTerm {
        SuccessCommitsAll(id, peers, n, frm, m);
      }
    case ClientRequest(_, _) => RequestCommitsAll(id, peers, n, frm, m);
    case _ =>
  }
}
