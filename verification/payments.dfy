// The replies that one handler of groundhog/raft/node.py sends to clients, and the debts it leaves.
module Payments {
  import opened Types
  import opened Log
  import opened Messages
  import opened NodeSpec

  type Pending = map<Index, (NodeId, nat)>

  predicate OkReply(r: Packet) {
    r.msg.ClientReply? && r.msg.ok
  }

  /** The ok replies among what a handler sends, in order. */
  function OkReplies(sent: seq<Packet>): seq<Packet> {
    if sent == [] then [] else (if OkReply(sent[0]) then [sent[0]] else []) + OkReplies(sent[1..])
  }

  /** The reply owed for `index`. */
  function ReplyFor(id: NodeId, owing: Pending, index: Index): Packet
    requires index in owing
  {
    Packet(id, owing[index].0, ClientReply(owing[index].1, true, None))
  }

  /** The debts as they stand when the handler pays: with the new request, if it accepts one. */
  function Owing(n: NodeState, frm: NodeId, m: Message): Pending {
    if m.ClientRequest? && n.role.Leader? then n.pendingClients[|n.log| + 1 := (frm, m.requestId)] else n.pendingClients
  }

  // -- picking out the ok replies

  lemma {:induction false} OkRepliesJoin(xs: seq<Packet>, ys: seq<Packet>)
    ensures OkReplies(xs + ys) == OkReplies(xs) + OkReplies(ys)
    decreases |xs|
  {
    if xs == [] {
      assert xs + ys == ys;
    } else {
      hide OkReply;
      OkRepliesJoin(xs[1..], ys);
      var first := if OkReply(xs[0]) then [xs[0]] else [];
      assert (xs + ys)[0] == xs[0] && (xs + ys)[1..] == xs[1..] + ys;
      assert OkReplies(xs) == first + OkReplies(xs[1..]);
      assert OkReplies(xs + ys) == first + (OkReplies(xs[1..]) + OkReplies(ys));
    }
  }

  lemma {:induction false} PickedOut(sent: seq<Packet>, r: Packet)
    ensures r in OkReplies(sent) <==> r in sent && OkReply(r)
    decreases |sent|
  {
    if sent != [] {
      PickedOut(sent[1..], r);
      assert sent == [sent[0]] + sent[1..];
    }
  }

  lemma {:induction false} AllAreOk(id: NodeId, owing: Pending, from: Index, upTo: Index)
    ensures OkReplies(Replies(id, owing, from, upTo)) == Replies(id, owing, from, upTo)
    decreases upTo - from
  {
    if from < upTo {
      AllAreOk(id, owing, from + 1, upTo);
      var first := if from + 1 in owing then [ReplyFor(id, owing, from + 1)] else [];
      OkRepliesJoin(first, Replies(id, owing, from + 1, upTo));
    }
  }

  lemma {:induction false} NoneIsOk(sent: seq<Packet>)
    requires forall r :: r in sent ==> !OkReply(r)
    ensures OkReplies(sent) == []
    decreases |sent|
  {
    if sent != [] {
      NoneIsOk(sent[1..]);
    }
  }

  lemma {:induction false} ReplicatingPaysNobody(id: NodeId, n: NodeState, peers: seq<NodeId>)
    requires NextIndexOk(n)
    ensures OkReplies(ReplicateAll(id, n, peers)) == []
    decreases |peers|
  {
    if peers != [] {
      ReplicatingPaysNobody(id, n, peers[1..]);
      OkRepliesJoin(ReplicateTo(id, n, peers[0]), ReplicateAll(id, n, peers[1..]));
    }
  }

  lemma LeaderStartsReady(id: NodeId, peers: seq<NodeId>, n: NodeState)
    ensures NextIndexOk(TakeCharge(id, peers, n))
  {
  }

  // -- what every handler does to the debts

  /** The debts up to the new `last_applied`, and no others, are paid, in order, and struck off. */
  predicate PaysWhatItApplies(id: NodeId, owing: Pending, from: Index, n': NodeState, sent: seq<Packet>) {
    && from <= n'.lastApplied
    && n'.pendingClients == Unpaid(owing, from, n'.lastApplied)
    && OkReplies(sent) == Replies(id, owing, from, n'.lastApplied)
  }

  lemma AdvancePays(id: NodeId, n: NodeState, commit: Index)
    requires commit <= |n.log|
    ensures var (n', replies) := AdvanceTo(id, n, commit);
            PaysWhatItApplies(id, n.pendingClients, n.lastApplied, n', replies)
  {
    AllAreOk(id, n.pendingClients, n.lastApplied, commit);
  }

  lemma CommitPays(id: NodeId, peers: seq<NodeId>, n: NodeState)
    ensures var (n', replies) := AdvanceCommit(id, peers, n);
            PaysWhatItApplies(id, n.pendingClients, n.lastApplied, n', replies)
  {
    hide AdvanceTo, CommitPoint, Holders, PaysWhatItApplies;
    var point := if n.role.Leader? then CommitPoint(peers, n, |n.log|) else n.commitIndex;
    if point != n.commitIndex {
      AdvancePays(id, n, point);
    } else {
      PaysNothing(id, n, n, []);
    }
  }

  lemma PaysNothing(id: NodeId, n: NodeState, n': NodeState, sent: seq<Packet>)
    requires n'.pendingClients == n.pendingClients && n'.lastApplied == n.lastApplied && OkReplies(sent) == []
    ensures PaysWhatItApplies(id, n.pendingClients, n.lastApplied, n', sent)
  {
  }

  lemma PaysBeside(id: NodeId, owing: Pending, from: Index, n': NodeState, before: seq<Packet>, sent: seq<Packet>,
                   after: seq<Packet>)
    requires PaysWhatItApplies(id, owing, from, n', sent) && OkReplies(before) == [] && OkReplies(after) == []
    ensures PaysWhatItApplies(id, owing, from, n', before + sent)
    ensures PaysWhatItApplies(id, owing, from, n', sent + after)
  {
    OkRepliesJoin(before, sent);
    OkRepliesJoin(sent, after);
  }

  lemma AppendPays(id: NodeId, n: NodeState, frm: NodeId, m: Message)
    requires m.AppendEntries?
    ensures var effect := OnAppendEntries(id, n, frm, m);
            PaysWhatItApplies(id, n.pendingClients, n.lastApplied, effect.node, effect.sent)
  {
    hide AdvanceTo, MergeRecords, Merged, PaysWhatItApplies;
    var effect := OnAppendEntries(id, n, frm, m);
    var n1 := BecomeFollower(n, m.term, Some(m.leaderId));
    if m.term < n.currentTerm || !Consistent(n1.log, m.prevLogIndex, m.prevLogTerm) {
      PaysNothing(id, n, effect.node, effect.sent);
    } else {
      var n2 := n1.(log := Merged(n1.log, m.prevLogIndex, m.entries));
      var lastNew := m.prevLogIndex + |m.entries|;
      MergedLength(n1.log, m.prevLogIndex, m.entries);
      var (n3, replies) :=
        if m.leaderCommit > n2.commitIndex then AdvanceTo(id, n2, Min(m.leaderCommit, lastNew)) else (n2, []);
      if m.leaderCommit > n2.commitIndex {
        AdvancePays(id, n2, Min(m.leaderCommit, lastNew));
      } else {
        PaysNothing(id, n, n2, []);
      }
      var ack := [Packet(id, frm, AppendEntriesReply(n3.currentTerm, true, lastNew))];
      PaysBeside(id, n.pendingClients, n.lastApplied, n3, [], replies, ack);
    }
  }

  lemma ElectionPays(id: NodeId, peers: seq<NodeId>, n: NodeState, frm: NodeId, m: Message)
    requires m.RequestVoteReply?
    ensures var effect := OnRequestVoteReply(id, peers, n, frm, m);
            PaysWhatItApplies(id, n.pendingClients, n.lastApplied, effect.node, effect.sent)
  {
    hide ReplicateAll, Majority, NextIndexOk, PaysWhatItApplies;
    var n1 := n.(votesGranted := n.votesGranted + {frm});
    LeaderStartsReady(id, peers, n1);
    ReplicatingPaysNobody(id, TakeCharge(id, peers, n1), peers);
    var effect := OnRequestVoteReply(id, peers, n, frm, m);
    PaysNothing(id, n, effect.node, effect.sent);
  }

  lemma TimeoutPaysNobody(id: NodeId, peers: seq<NodeId>, n: NodeState)
    ensures OkReplies(OnElectionTimeout(id, peers, n).sent) == []
  {
    hide ReplicateAll, Majority, NextIndexOk;
    var n1 := BecomeCandidate(id, n.(currentTerm := n.currentTerm + 1)).(votedFor := Some(id));
    LeaderStartsReady(id, peers, n1);
    ReplicatingPaysNobody(id, TakeCharge(id, peers, n1), peers);
    NoneIsOk(Broadcast(id, peers, RequestVote(n1.currentTerm, id, |n1.log|, LastTerm(n1.log))));
  }

  lemma ReplyPays(id: NodeId, peers: seq<NodeId>, n: NodeState, frm: NodeId, m: Message)
    requires m.AppendEntriesReply? && NextIndexOk(n)
    ensures var effect := OnAppendEntriesReply(id, peers, n, frm, m);
            PaysWhatItApplies(id, n.pendingClients, n.lastApplied, effect.node, effect.sent)
  {
    hide AdvanceCommit, PaysWhatItApplies;
    var effect := OnAppendEntriesReply(id, peers, n, frm, m);
    if m.term == n.currentTerm && n.role.Leader? && m.success {
      var matched := Max(Get(n.matchIndex, frm, 0), m.matchIndex);
      CommitPays(id, peers,
                 n.(matchIndex := n.matchIndex[frm := matched], nextIndex := n.nextIndex[frm := matched + 1]));
    } else {
      PaysNothing(id, n, effect.node, effect.sent);
    }
  }

  lemma RequestPays(id: NodeId, peers: seq<NodeId>, n: NodeState, frm: NodeId, m: Message)
    requires m.ClientRequest? && NextIndexOk(n)
    ensures var effect := OnClientRequest(id, peers, n, frm, m);
            PaysWhatItApplies(id, Owing(n, frm, m), n.lastApplied, effect.node, effect.sent)
  {
    hide AdvanceCommit, ReplicateAll, PaysWhatItApplies;
    var effect := OnClientRequest(id, peers, n, frm, m);
    if n.role.Leader? {
      var entry := LogEntry(n.currentTerm, |n.log| + 1, m.command);
      var n1 := n.(log := n.log + [entry], pendingClients := n.pendingClients[entry.index := (frm, m.requestId)]);
      CommitPays(id, peers, n1);
      ReplicatingPaysNobody(id, n1, peers);
      var (n2, replies) := AdvanceCommit(id, peers, n1);
      PaysBeside(id, Owing(n, frm, m), n.lastApplied, n2, ReplicateAll(id, n1, peers), replies, []);
    } else {
      PaysNothing(id, n, effect.node, effect.sent);
    }
  }

  lemma DispatchPays(id: NodeId, peers: seq<NodeId>, n: NodeState, frm: NodeId, m: Message)
    requires Ready(n, m)
    ensures var effect := Dispatch(id, peers, n, frm, m);
            PaysWhatItApplies(id, Owing(n, frm, m), n.lastApplied, effect.node, effect.sent)
  {
    hide PaysWhatItApplies, OnAppendEntries, OnAppendEntriesReply, OnClientRequest, OnRequestVoteReply, UpToDate;
    match m
    case RequestVote(_, _, _, _) =>
      var effect := OnRequestVote(id, n, frm, m);
      PaysNothing(id, n, effect.node, effect.sent);
    case RequestVoteReply(_, _) => ElectionPays(id, peers, n, frm, m);
    case AppendEntries(_, _, _, _, _, _) => AppendPays(id, n, frm, m);
    case AppendEntriesReply(_, _, _) => ReplyPays(id, peers, n, frm, m);
    case ClientRequest(_, _) => RequestPays(id, peers, n, frm, m);
    case ClientReply(_, _, _) => PaysNothing(id, n, n, []);
  }

  // -- what paying up to an index comes to

  /** Every reply is owed for an index on the way. */
  lemma {:induction false} OnlyDebtsArePaid(id: NodeId, owing: Pending, from: Index, upTo: Index, r: Packet)
    returns (index: Index)
    requires r in Replies(id, owing, from, upTo)
    ensures from < index <= upTo && index in owing && r == ReplyFor(id, owing, index)
    decreases upTo - from
  {
    if from + 1 in owing && r == ReplyFor(id, owing, from + 1) {
      index := from + 1;
    } else {
      index := OnlyDebtsArePaid(id, owing, from + 1, upTo, r);
    }
  }

  /** Every debt on the way is paid. */
  lemma {:induction false} DebtsArePaid(id: NodeId, owing: Pending, from: Index, upTo: Index, index: Index)
    requires index in owing && from < index <= upTo
    ensures ReplyFor(id, owing, index) in Replies(id, owing, from, upTo)
    decreases upTo - from
  {
    if index > from + 1 {
      DebtsArePaid(id, owing, from + 1, upTo, index);
    }
  }

  /** The debts of other indices, and no others, are left as they were. */
  lemma {:induction false} OthersAreOwed(owing: Pending, from: Index, upTo: Index, index: Index)
    ensures var left := Unpaid(owing, from, upTo);
            && (index in left <==> index in owing && !(from < index <= upTo))
            && (index in left ==> left[index] == owing[index])
    decreases upTo - from
  {
    if from < upTo {
      OthersAreOwed(owing - {from + 1}, from + 1, upTo, index);
    }
  }

  /** Every debt is one reply or is still owed. */
  lemma {:induction false} PaidOrOwed(id: NodeId, owing: Pending, from: Index, upTo: Index)
    ensures |Replies(id, owing, from, upTo)| + |Unpaid(owing, from, upTo)| == |owing|
    decreases upTo - from
  {
    if from < upTo {
      RemovedOne(owing, from + 1);
      PaidOnce(id, owing, from + 1, from + 1, upTo);
      PaidOrOwed(id, owing - {from + 1}, from + 1, upTo);
    }
  }

  lemma RemovedOne(owing: Pending, index: Index)
    ensures |owing| == |owing - {index}| + if index in owing then 1 else 0
  {
    if index in owing {
      assert owing == (owing - {index})[index := owing[index]];
    } else {
      assert owing - {index} == owing;
    }
  }
}
