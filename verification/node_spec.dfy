// groundhog/raft/node.py, handler by handler, as functions on a node's state.
//
// Every handler writes first, syncs, and only then sends; an `Effect` therefore lists the
// records written before the sync and the packets sent after it.
module NodeSpec {
  import opened Types
  import opened Kv
  import opened Log
  import opened Messages
  import opened Wal

  datatype Role = Follower | Candidate | Leader

  datatype NodeState = NodeState(
    currentTerm: Term,
    votedFor: Option<NodeId>,
    log: seq<LogEntry>,
    role: Role,
    commitIndex: Index,
    lastApplied: Index,
    kv: Store,
    votesGranted: set<NodeId>,
    nextIndex: map<NodeId, Index>,
    matchIndex: map<NodeId, Index>,
    leaderId: Option<NodeId>,
    running: bool,
    pendingClients: map<Index, (NodeId, nat)>)

  datatype Effect = Effect(node: NodeState, written: seq<Record>, sent: seq<Packet>)

  const INITIAL_NODE := NodeState(0, None, [], Follower, 0, 0, EMPTY_STORE, {}, map[], map[],
                                  None, true, map[])

  /** `cluster_size // 2 + 1`. */
  function Majority(peers: seq<NodeId>): nat {
    (|peers| + 1) / 2 + 1
  }

  // -- lifecycle

  function Crashed(n: NodeState): NodeState {
    if n.running then INITIAL_NODE.(running := false) else n
  }

  function Restarted(n: NodeState, disk: Recovered): NodeState {
    n.(currentTerm := disk.term, votedFor := disk.vote, log := disk.log, running := true)
  }

  // -- role transitions

  function BecomeFollower(n: NodeState, term: Term, leaderId: Option<NodeId>): NodeState {
    n.(currentTerm := if term > n.currentTerm then term else n.currentTerm,
       votedFor := if term > n.currentTerm then None else n.votedFor,
       role := Follower,
       leaderId := leaderId,
       votesGranted := {})
  }

  function BecomeCandidate(id: NodeId, n: NodeState): NodeState {
    n.(role := Candidate, leaderId := None, votesGranted := {id})
  }

  function TakeCharge(id: NodeId, peers: seq<NodeId>, n: NodeState): NodeState {
    n.(role := Leader,
       leaderId := Some(id),
       nextIndex := FromKeys(peers, |n.log| + 1),
       matchIndex := FromKeys(peers, SENTINEL_INDEX))
  }

  // -- replication plumbing

  /** Every `next_index` points into the log or one past its end. */
  predicate NextIndexOk(n: NodeState) {
    n.role.Leader? ==> forall peer :: peer in n.nextIndex ==> 1 <= n.nextIndex[peer] <= |n.log| + 1
  }

  function ReplicateTo(id: NodeId, n: NodeState, peer: NodeId): seq<Packet>
    requires NextIndexOk(n)
  {
    if !n.role.Leader? then
      []
    else
      var prev := Get(n.nextIndex, peer, |n.log| + 1) - 1;
      [Packet(id, peer, AppendEntries(n.currentTerm, id, prev, TermAt(n.log, prev), n.log[prev..],
                                      n.commitIndex))]
  }

  function ReplicateAll(id: NodeId, n: NodeState, peers: seq<NodeId>): seq<Packet>
    requires NextIndexOk(n)
  {
    if peers == [] then [] else ReplicateTo(id, n, peers[0]) + ReplicateAll(id, n, peers[1..])
  }

  function Broadcast(id: NodeId, peers: seq<NodeId>, msg: Message): seq<Packet> {
    seq(|peers|, i requires 0 <= i < |peers| => Packet(id, peers[i], msg))
  }

  // -- the apply rule

  /** The replies owed for the indices after `from` and up to `to`, in order. */
  function Replies(id: NodeId, pending: map<Index, (NodeId, nat)>, from: Index, to: Index): seq<Packet>
    decreases to - from
  {
    if from >= to then
      []
    else
      (if from + 1 in pending then
         [Packet(id, pending[from + 1].0, ClientReply(pending[from + 1].1, true, None))]
       else
         []) + Replies(id, pending, from + 1, to)
  }

  /** The debts left once the indices after `from` and up to `to` are paid. */
  function Unpaid(pending: map<Index, (NodeId, nat)>, from: Index, to: Index): map<Index, (NodeId, nat)>
    decreases to - from
  {
    if from >= to then pending else Unpaid(pending - {from + 1}, from + 1, to)
  }

  /** Replies already taken off the books do not change the ones still owed. */
  lemma {:induction false} PaidOnce(id: NodeId, pending: map<Index, (NodeId, nat)>, gone: Index, from: Index,
                                    upTo: Index)
    requires gone <= from
    ensures Replies(id, pending - {gone}, from, upTo) == Replies(id, pending, from, upTo)
    decreases upTo - from
  {
    if from < upTo {
      PaidOnce(id, pending, gone, from + 1, upTo);
    }
  }

  /** Commit up to `commit` and apply whatever that makes applicable. */
  function AdvanceTo(id: NodeId, n: NodeState, commit: Index): (NodeState, seq<Packet>)
    requires commit <= |n.log|
  {
    if n.lastApplied >= commit then
      (n.(commitIndex := commit), [])
    else
      (n.(commitIndex := commit,
          lastApplied := commit,
          kv := Fold(n.kv, n.log[n.lastApplied..commit]),
          pendingClients := Unpaid(n.pendingClients, n.lastApplied, commit)),
       Replies(id, n.pendingClients, n.lastApplied, commit))
  }

  // -- elections

  /** The comparison of section 5.4.1 of the extended Raft paper: last term, then length. */
  predicate UpToDate(lastLogTerm: Term, lastLogIndex: Index, log: seq<LogEntry>) {
    lastLogTerm > LastTerm(log) || (lastLogTerm == LastTerm(log) && lastLogIndex >= |log|)
  }

  function PersistState(n: NodeState): seq<Record> {
    [StateRecord(n.currentTerm, n.votedFor)]
  }

  function OnRequestVote(id: NodeId, n: NodeState, frm: NodeId, m: Message): Effect
    requires m.RequestVote?
  {
    var n1 := if m.term > n.currentTerm then BecomeFollower(n, m.term, None) else n;
    var granted :=
      && m.term >= n1.currentTerm
      && (n1.votedFor == None || n1.votedFor == Some(m.candidateId))
      && UpToDate(m.lastLogTerm, m.lastLogIndex, n1.log);
    var n2 := if granted then n1.(votedFor := Some(m.candidateId)) else n1;
    Effect(n2, PersistState(n2), [Packet(id, frm, RequestVoteReply(n2.currentTerm, granted))])
  }

  function OnRequestVoteReply(id: NodeId, peers: seq<NodeId>, n: NodeState, frm: NodeId, m: Message): Effect
    requires m.RequestVoteReply?
  {
    if m.term > n.currentTerm then
      var n1 := BecomeFollower(n, m.term, None);
      Effect(n1, PersistState(n1), [])
    else if !n.role.Candidate? || m.term != n.currentTerm || !m.voteGranted then
      Effect(n, [], [])
    else
      var n1 := n.(votesGranted := n.votesGranted + {frm});
      if |n1.votesGranted| >= Majority(peers) then
        var n2 := TakeCharge(id, peers, n1);
        Effect(n2, [], ReplicateAll(id, n2, peers))
      else
        Effect(n1, [], [])
  }

  function OnElectionTimeout(id: NodeId, peers: seq<NodeId>, n: NodeState): Effect {
    var n1 := BecomeCandidate(id, n.(currentTerm := n.currentTerm + 1)).(votedFor := Some(id));
    if |n1.votesGranted| >= Majority(peers) then
      var n2 := TakeCharge(id, peers, n1);
      Effect(n2, PersistState(n1), ReplicateAll(id, n2, peers))
    else
      Effect(n1, PersistState(n1),
             Broadcast(id, peers, RequestVote(n1.currentTerm, id, |n1.log|, LastTerm(n1.log))))
  }

  // -- log replication

  /** Offset of the first incoming entry the log lacks, or holds with another term. */
  function Divergence(log: seq<LogEntry>, prev: Index, entries: seq<LogEntry>): (j: nat)
    ensures j <= |entries|
    ensures prev <= |log| ==> prev + j <= |log|
    ensures forall k :: 0 <= k < j ==> prev + k < |log| && log[prev + k].term == entries[k].term
    ensures j < |entries| ==> prev + j >= |log| || log[prev + j].term != entries[j].term
    decreases |entries|
  {
    if entries == [] || prev >= |log| || log[prev].term != entries[0].term then
      0
    else
      1 + Divergence(log, prev + 1, entries[1..])
  }

  /** The log after rules 3 and 4: untouched unless an incoming entry conflicts or is new. */
  function Merged(log: seq<LogEntry>, prev: Index, entries: seq<LogEntry>): seq<LogEntry>
    requires prev <= |log|
  {
    var j := Divergence(log, prev, entries);
    if j == |entries| then log else log[..prev + j] + entries[j..]
  }

  lemma MergedLength(log: seq<LogEntry>, prev: Index, entries: seq<LogEntry>)
    requires prev <= |log|
    ensures |Merged(log, prev, entries)| >= prev + |entries|
  {
  }

  /** What rules 3 and 4 write: at most one truncation, before every entry. */
  function MergeRecords(log: seq<LogEntry>, prev: Index, entries: seq<LogEntry>): seq<Record> {
    var j := Divergence(log, prev, entries);
    (if j < |entries| && prev + j < |log| then [TruncateRecord(prev + j + 1)] else [])
    + EntryRecords(entries[j..])
  }

  /** The incoming entries carry the indices that follow `prevLogIndex`. */
  predicate EntriesFollow(m: Message)
    requires m.AppendEntries?
  {
    forall k :: 0 <= k < |m.entries| ==> m.entries[k].index == m.prevLogIndex + 1 + k
  }

  predicate Consistent(log: seq<LogEntry>, prevLogIndex: Index, prevLogTerm: Term) {
    prevLogIndex <= |log| && TermAt(log, prevLogIndex) == prevLogTerm
  }

  function OnAppendEntries(id: NodeId, n: NodeState, frm: NodeId, m: Message): Effect
    requires m.AppendEntries?
  {
    if m.term < n.currentTerm then
      Effect(n, [], [Packet(id, frm, AppendEntriesReply(n.currentTerm, false, 0))])
    else
      var n1 := BecomeFollower(n, m.term, Some(m.leaderId));
      if !Consistent(n1.log, m.prevLogIndex, m.prevLogTerm) then
        Effect(n1, PersistState(n1), [Packet(id, frm, AppendEntriesReply(n1.currentTerm, false, 0))])
      else
        var n2 := n1.(log := Merged(n1.log, m.prevLogIndex, m.entries));
        var lastNew := m.prevLogIndex + |m.entries|;
        var (n3, replies) :=
          if m.leaderCommit > n2.commitIndex then AdvanceTo(id, n2, Min(m.leaderCommit, lastNew)) else (n2, []);
        Effect(n3,
               MergeRecords(n1.log, m.prevLogIndex, m.entries) + PersistState(n2),
               replies + [Packet(id, frm, AppendEntriesReply(n3.currentTerm, true, lastNew))])
  }

  // -- committing

  /** How many of `peers` are known to hold everything up to `index`. */
  function Holders(peers: seq<NodeId>, matchIndex: map<NodeId, Index>, index: Index): nat {
    if peers == [] then
      0
    else
      (if Get(matchIndex, peers[0], 0) >= index then 1 else 0) + Holders(peers[1..], matchIndex, index)
  }

  /** The rule of section 5.4.2: an entry of the leader's own term, on a majority. */
  predicate MayCommit(peers: seq<NodeId>, n: NodeState, index: Index)
    requires 1 <= index <= |n.log|
  {
    n.log[index - 1].term == n.currentTerm && 1 + Holders(peers, n.matchIndex, index) >= Majority(peers)
  }

  /** The greatest index in (commitIndex, hi] that may be committed, or commitIndex. */
  function CommitPoint(peers: seq<NodeId>, n: NodeState, hi: Index): (index: Index)
    requires hi <= |n.log|
    ensures index == n.commitIndex || (n.commitIndex < index <= hi && MayCommit(peers, n, index))
    ensures forall i :: n.commitIndex < i <= hi && index < i ==> !MayCommit(peers, n, i)
  {
    if hi <= n.commitIndex then
      n.commitIndex
    else if MayCommit(peers, n, hi) then
      hi
    else
      CommitPoint(peers, n, hi - 1)
  }

  function AdvanceCommit(id: NodeId, peers: seq<NodeId>, n: NodeState): (NodeState, seq<Packet>) {
    var point := if n.role.Leader? then CommitPoint(peers, n, |n.log|) else n.commitIndex;
    if point == n.commitIndex then (n, []) else AdvanceTo(id, n, point)
  }

  function OnAppendEntriesReply(id: NodeId, peers: seq<NodeId>, n: NodeState, frm: NodeId, m: Message): Effect
    requires m.AppendEntriesReply?
    requires NextIndexOk(n)
  {
    if m.term > n.currentTerm then
      var n1 := BecomeFollower(n, m.term, None);
      Effect(n1, PersistState(n1), [])
    else if !n.role.Leader? || m.term != n.currentTerm then
      Effect(n, [], [])
    else if m.success then
      var matched := Max(Get(n.matchIndex, frm, 0), m.matchIndex);
      var n1 := n.(matchIndex := n.matchIndex[frm := matched], nextIndex := n.nextIndex[frm := matched + 1]);
      var (n2, replies) := AdvanceCommit(id, peers, n1);
      Effect(n2, [], replies)
    else
      var current := Get(n.nextIndex, frm, |n.log| + 1);
      var n1 := n.(nextIndex := n.nextIndex[frm := Max(1, current - 1)]);
      Effect(n1, [], ReplicateTo(id, n1, frm))
  }

  function OnClientRequest(id: NodeId, peers: seq<NodeId>, n: NodeState, frm: NodeId, m: Message): Effect
    requires m.ClientRequest?
    requires NextIndexOk(n)
  {
    if !n.role.Leader? then
      Effect(n, [], [Packet(id, frm, ClientReply(m.requestId, false, n.leaderId))])
    else
      var entry := LogEntry(n.currentTerm, |n.log| + 1, m.command);
      var n1 := n.(log := n.log + [entry],
                   pendingClients := n.pendingClients[entry.index := (frm, m.requestId)]);
      var (n2, replies) := AdvanceCommit(id, peers, n1);
      Effect(n2, [EntryRecord(entry)], ReplicateAll(id, n1, peers) + replies)
  }

  function SendHeartbeats(id: NodeId, peers: seq<NodeId>, n: NodeState): Effect
    requires NextIndexOk(n)
  {
    Effect(n, [], ReplicateAll(id, n, peers))
  }

  // -- dispatch

  /** What a handler relies on; without it an index lookup or an append would raise. */
  predicate Ready(n: NodeState, m: Message) {
    && NextIndexOk(n)
    && (m.AppendEntries? ==> EntriesFollow(m))
  }

  function Dispatch(id: NodeId, peers: seq<NodeId>, n: NodeState, frm: NodeId, m: Message): Effect
    requires Ready(n, m)
  {
    match m
    case RequestVote(_, _, _, _) => OnRequestVote(id, n, frm, m)
    case RequestVoteReply(_, _) => OnRequestVoteReply(id, peers, n, frm, m)
    case AppendEntries(_, _, _, _, _, _) => OnAppendEntries(id, n, frm, m)
    case AppendEntriesReply(_, _, _) => OnAppendEntriesReply(id, peers, n, frm, m)
    case ClientRequest(_, _) => OnClientRequest(id, peers, n, frm, m)
    case ClientReply(_, _, _) => Effect(n, [], [])
  }
}
