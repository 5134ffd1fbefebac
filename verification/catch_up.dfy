// A leader and one follower exchanging AppendEntries without loss and with no new writes:
// the walk back of `next_index` in groundhog/raft/node.py ends, and ends in agreement.
module CatchUp {
  import opened Types
  import opened Log
  import opened Messages
  import opened NodeSpec
  import opened Checkers

  /** A leader and a follower of no newer term, whose logs match as any two logs of a run do. */
  predicate Partners(n: NodeState, f: NodeState) {
    n.role.Leader? && NextIndexOk(n) && f.currentTerm <= n.currentTerm && Matching(n.log, f.log)
  }

  function NextFor(n: NodeState, follower: NodeId): (next: Index)
    ensures n.role.Leader? && NextIndexOk(n) ==> 1 <= next <= |n.log| + 1
  {
    Get(n.nextIndex, follower, |n.log| + 1)
  }

  /** What `replicate_to` sends the follower. */
  function Ask(id: NodeId, n: NodeState, follower: NodeId): (m: Message)
    requires n.role.Leader? && NextIndexOk(n)
    ensures m.AppendEntries? && ReplicateTo(id, n, follower) == [Packet(id, follower, m)]
    ensures m.term == n.currentTerm && m.prevLogIndex == NextFor(n, follower) - 1
    ensures m.prevLogTerm == TermAt(n.log, m.prevLogIndex) && m.entries == n.log[m.prevLogIndex..]
  {
    ReplicateTo(id, n, follower)[0].msg
  }

  /** What the follower replies, after any replies of its own to clients. */
  function Answer(follower: NodeId, f: NodeState, id: NodeId, m: Message): (reply: Message)
    requires m.AppendEntries?
    ensures reply.AppendEntriesReply?
  {
    var sent := OnAppendEntries(follower, f, id, m).sent;
    sent[|sent| - 1].msg
  }

  /** One exchange: the leader asks, the follower answers, the leader takes note. */
  function Exchange(id: NodeId, peers: seq<NodeId>, n: NodeState, follower: NodeId, f: NodeState):
    (NodeState, NodeState)
    requires Partners(n, f)
  {
    var m := Ask(id, n, follower);
    (OnAppendEntriesReply(id, peers, n, follower, Answer(follower, f, id, m)).node,
     OnAppendEntries(follower, f, id, m).node)
  }

  /** The follower's log passes the consistency check for what the leader would send. */
  predicate Agrees(n: NodeState, f: NodeState, follower: NodeId)
    requires Partners(n, f)
  {
    Consistent(f.log, NextFor(n, follower) - 1, TermAt(n.log, NextFor(n, follower) - 1))
  }

  /** The follower agrees exactly if the leader starts no further on than where the logs part. */
  lemma AgreesUpToParting(n: NodeState, f: NodeState, follower: NodeId)
    requires Partners(n, f)
    ensures Agrees(n, f, follower) <==> NextFor(n, follower) - 1 <= DivergesAt(n.log, f.log)
  {
    var prev := NextFor(n, follower) - 1;
    hide DivergesAt, Matching;
    if prev <= DivergesAt(n.log, f.log) {
      SharedTerm(n.log, f.log, prev);
    }
    if Agrees(n, f, follower) {
      MatchedPrefix(n.log, f.log, prev);
      LongestShared(n.log, f.log, prev);
    }
  }

  lemma SharedTerm(log: seq<LogEntry>, other: seq<LogEntry>, k: Index)
    requires k <= DivergesAt(log, other)
    ensures TermAt(log, k) == TermAt(other, k)
  {
    var d := DivergesAt(log, other);
    assert k > 0 ==> log[..d][k - 1] == other[..d][k - 1];
  }

  lemma {:induction false} LongestShared(log: seq<LogEntry>, other: seq<LogEntry>, k: Index)
    requires k <= |log| && k <= |other| && log[..k] == other[..k]
    ensures k <= DivergesAt(log, other)
    decreases |log|
  {
    if k > 0 {
      assert log[..k][0] == other[..k][0];
      assert log[1..][..k - 1] == log[..k][1..] && other[1..][..k - 1] == other[..k][1..];
      LongestShared(log[1..], other[1..], k - 1);
    }
  }

  /** How many exchanges it takes: one for each step back to where the logs part, and one more. */
  function Rounds(n: NodeState, f: NodeState, follower: NodeId): nat {
    1 + Max(0, NextFor(n, follower) - 1 - DivergesAt(n.log, f.log))
  }

  lemma RefusedMoves(id: NodeId, peers: seq<NodeId>, n: NodeState, follower: NodeId, f: NodeState)
    requires Partners(n, f) && !Agrees(n, f, follower) && NextFor(n, follower) > 1
    ensures Exchange(id, peers, n, follower, f)
         == (n.(nextIndex := n.nextIndex[follower := NextFor(n, follower) - 1]),
             BecomeFollower(f, n.currentTerm, Some(id)))
  {
    hide Matching, AdvanceCommit, AdvanceTo, Merged, MergeRecords, DivergesAt;
  }

  /** A refusal lowers `next_index` by one, and there is none at the sentinel. */
  lemma Refused(id: NodeId, peers: seq<NodeId>, n: NodeState, follower: NodeId, f: NodeState)
    requires Partners(n, f) && !Agrees(n, f, follower)
    ensures NextFor(n, follower) > 1
    ensures var (n', f') := Exchange(id, peers, n, follower, f);
            && Partners(n', f') && n'.log == n.log && n'.matchIndex == n.matchIndex && f'.log == f.log
            && n'.currentTerm == n.currentTerm
            && follower in n'.nextIndex && NextFor(n', follower) == NextFor(n, follower) - 1
            && Rounds(n', f', follower) == Rounds(n, f, follower) - 1
  {
    AgreesUpToParting(n, f, follower);
    hide Matching, DivergesAt, Consistent, Exchange, Agrees;
    RefusedMoves(id, peers, n, follower, f);
  }

  /** The same term at the same place is the same log up to there. */
  lemma MatchedPrefix(log: seq<LogEntry>, other: seq<LogEntry>, k: Index)
    requires Matching(log, other) && k <= |log| && k <= |other| && TermAt(log, k) == TermAt(other, k)
    ensures log[..k] == other[..k]
  {
    if k > 0 {
      assert log[k - 1].term == other[k - 1].term;
    }
  }

  /** Merging the leader's entries into a log that agrees with it just before them gives a log
      that begins with the leader's. */
  lemma MergedBeginsWith(log: seq<LogEntry>, f: seq<LogEntry>, prev: Index)
    requires Matching(log, f) && prev <= |log| && prev <= |f| && TermAt(log, prev) == TermAt(f, prev)
    ensures log <= Merged(f, prev, log[prev..])
  {
    var j := Divergence(f, prev, log[prev..]);
    MatchedPrefix(log, f, prev);
    if j > 0 {
      assert log[prev..][j - 1] == log[prev + j - 1];
      MatchedPrefix(log, f, prev + j);
    }
    assert log[..prev + j] == f[..prev + j];
    assert log[prev..][j..] == log[prev + j..];
    assert log == log[..prev + j] + log[prev + j..];
  }

  lemma AcceptEffect(id: NodeId, n: NodeState, frm: NodeId, m: Message)
    requires m.AppendEntries? && m.term >= n.currentTerm && Consistent(n.log, m.prevLogIndex, m.prevLogTerm)
    ensures var effect := OnAppendEntries(id, n, frm, m);
            && effect.node.log == Merged(n.log, m.prevLogIndex, m.entries) && effect.node.currentTerm == m.term
            && |effect.sent| > 0
            && effect.sent[|effect.sent| - 1].msg == AppendEntriesReply(m.term, true, m.prevLogIndex + |m.entries|)
  {
    hide Merged, MergeRecords, Fold, Unpaid, Replies;
    var n2 := BecomeFollower(n, m.term, Some(m.leaderId)).(log := Merged(n.log, m.prevLogIndex, m.entries));
    assert |n2.log| >= m.prevLogIndex + |m.entries| by {
      MergedLength(n.log, m.prevLogIndex, m.entries);
    }
  }

  lemma FollowerAccepts(id: NodeId, n: NodeState, follower: NodeId, f: NodeState)
    requires Partners(n, f) && Agrees(n, f, follower)
    ensures var m := Ask(id, n, follower);
            && n.log <= OnAppendEntries(follower, f, id, m).node.log
            && OnAppendEntries(follower, f, id, m).node.currentTerm == n.currentTerm
            && Answer(follower, f, id, m) == AppendEntriesReply(n.currentTerm, true, |n.log|)
  {
    hide Matching, Merged, OnAppendEntries, NextIndexOk, Ask, ReplicateTo, NextFor;
    MergedBeginsWith(n.log, f.log, NextFor(n, follower) - 1);
    AcceptEffect(follower, f, id, Ask(id, n, follower));
  }

  lemma LeaderNotes(id: NodeId, peers: seq<NodeId>, n: NodeState, follower: NodeId)
    requires n.role.Leader? && NextIndexOk(n)
    ensures var n' := OnAppendEntriesReply(id, peers, n, follower,
                                           AppendEntriesReply(n.currentTerm, true, |n.log|)).node;
            && n'.log == n.log && follower in n'.matchIndex
            && n'.matchIndex[follower] == Max(Get(n.matchIndex, follower, 0), |n.log|)
            && NextFor(n', follower) == n'.matchIndex[follower] + 1
  {
    hide CommitPoint, Fold, Unpaid, Replies;
  }

  /** On success the follower's log begins with the leader's, and the leader knows it. */
  lemma Succeeded(id: NodeId, peers: seq<NodeId>, n: NodeState, follower: NodeId, f: NodeState)
    requires Partners(n, f) && Agrees(n, f, follower)
    ensures var (n', f') := Exchange(id, peers, n, follower, f);
            && n.log <= f'.log && n'.log == n.log && f'.currentTerm == n.currentTerm
            && follower in n'.matchIndex && n'.matchIndex[follower] == Max(Get(n.matchIndex, follower, 0), |n.log|)
            && NextFor(n', follower) == n'.matchIndex[follower] + 1
  {
    hide OnAppendEntries, OnAppendEntriesReply, Answer, Ask, NextIndexOk;
    FollowerAccepts(id, n, follower, f);
    LeaderNotes(id, peers, n, follower);
  }

  /** Exchange until the follower agrees. */
  function Settled(id: NodeId, peers: seq<NodeId>, n: NodeState, follower: NodeId, f: NodeState):
    (end: (NodeState, NodeState, nat))
    requires Partners(n, f)
    decreases NextFor(n, follower)
  {
    var (n', f') := Exchange(id, peers, n, follower, f);
    if Agrees(n, f, follower) then
      (n', f', 1)
    else
      Refused(id, peers, n, follower, f);
      var (n2, f2, rounds) := Settled(id, peers, n', follower, f');
      (n2, f2, rounds + 1)
  }

  /** It takes one exchange for each step of `next_index` back to where the logs part and one
      more, after which the follower's log begins with the leader's and `match_index` says so. */
  lemma {:induction false} WalkBackEnds(id: NodeId, peers: seq<NodeId>, n: NodeState, follower: NodeId, f: NodeState)
    requires Partners(n, f)
    ensures var (n', f', rounds) := Settled(id, peers, n, follower, f);
            && rounds == Rounds(n, f, follower) <= NextFor(n, follower)
            && n'.log == n.log && n.log <= f'.log
            && follower in n'.matchIndex && n'.matchIndex[follower] == Max(Get(n.matchIndex, follower, 0), |n.log|)
    decreases NextFor(n, follower)
  {
    AgreesUpToParting(n, f, follower);
    hide Exchange, Agrees, Matching, DivergesAt;
    if Agrees(n, f, follower) {
      Succeeded(id, peers, n, follower, f);
    } else {
      Refused(id, peers, n, follower, f);
      var (n', f') := Exchange(id, peers, n, follower, f);
      WalkBackEnds(id, peers, n', follower, f');
    }
  }
}
