// groundhog/raft/node.py: the node itself, updated in place.
//
// Each handler is proved to do what its function in NodeSpec says. A handler may also be
// cut short by its disk, or by a record too big to encode; `Ended` says what it has done
// by then: nothing has been sent, and some prefix of its records has been written.
module RaftNodes {
  import opened Types
  import opened Kv
  import opened Log
  import opened Messages
  import opened Wal
  import opened Persist
  import opened RaftStorages
  import opened NodeSpec

  /** What a registered node sends through. */
  class NodeLink {
    const id: NodeId
    var sent: seq<Packet>

    constructor (id: NodeId)
      ensures this.id == id && sent == []
    {
      this.id := id;
      sent := [];
    }

    method Send(to: NodeId, msg: Message)
      modifies this
      ensures sent == old(sent) + [Packet(id, to, msg)]
    {
      sent := sent + [Packet(id, to, msg)];
    }
  }

  // -- applying one entry at a time

  function AfterNext(n: NodeState): NodeState
    requires n.lastApplied < |n.log|
  {
    n.(lastApplied := n.lastApplied + 1,
       kv := Applied(n.kv, n.log[n.lastApplied].command),
       pendingClients := n.pendingClients - {n.lastApplied + 1})
  }

  function ReplyForNext(id: NodeId, n: NodeState): seq<Packet> {
    var index := n.lastApplied + 1;
    if index in n.pendingClients then
      [Packet(id, n.pendingClients[index].0, ClientReply(n.pendingClients[index].1, true, None))]
    else
      []
  }

  /** Applying the next entry and then the rest is applying them all. */
  lemma OneApplied(id: NodeId, n: NodeState, commit: Index)
    requires n.lastApplied < commit <= |n.log|
    ensures AdvanceTo(id, n, commit).0 == AdvanceTo(id, AfterNext(n), commit).0
    ensures AdvanceTo(id, n, commit).1 == ReplyForNext(id, n) + AdvanceTo(id, AfterNext(n), commit).1
  {
    var rest := n.log[n.lastApplied..commit];
    assert rest[0] == n.log[n.lastApplied] && rest[1..] == n.log[n.lastApplied + 1..commit];
    PaidOnce(id, n.pendingClients, n.lastApplied + 1, n.lastApplied + 1, commit);
    assert Fold(n.kv, rest) == Fold(Applied(n.kv, rest[0].command), rest[1..]);
    if n.lastApplied + 1 == commit {
      assert rest[1..] == [];
      assert Unpaid(n.pendingClients - {commit}, commit, commit) == n.pendingClients - {commit};
    }
  }

  // -- accepting entries, in the steps the handler takes

  /** The one truncation rules 3 and 4 may write. */
  function Truncation(log: seq<LogEntry>, prev: Index, entries: seq<LogEntry>): seq<Record> {
    var j := Divergence(log, prev, entries);
    if j < |entries| && prev + j < |log| then [TruncateRecord(prev + j + 1)] else []
  }

  predicate Held(log: seq<LogEntry>, index: Index, incoming: LogEntry)
    requires 1 <= index
  {
    index <= |log| && log[index - 1].term == incoming.term
  }

  function Cut(log: seq<LogEntry>, index: Index, incoming: LogEntry): seq<Record>
    requires 1 <= index
  {
    if index <= |log| && !Held(log, index, incoming) then [TruncateRecord(index)] else []
  }

  function Taken(log: seq<LogEntry>, index: Index, incoming: LogEntry): seq<LogEntry>
    requires 1 <= index <= |log| + 1
  {
    if Held(log, index, incoming) then log else log[..index - 1] + [incoming]
  }

  lemma NextFollows(m: Message, offset: nat)
    requires m.AppendEntries? && EntriesFollow(m) && offset < |m.entries|
    ensures m.entries[offset].index == m.prevLogIndex + 1 + offset
  {
  }

  // -- where the loop stands after `offset` incoming entries, of which the first j are held

  function AppendedBy(entries: seq<LogEntry>, j: nat, offset: nat): seq<LogEntry>
    requires offset <= |entries|
  {
    if offset <= j then [] else entries[j..offset]
  }

  function LogBy(log: seq<LogEntry>, prev: Index, entries: seq<LogEntry>, j: nat, offset: nat): seq<LogEntry>
    requires prev + j <= |log| && offset <= |entries|
  {
    if offset <= j then log else log[..prev + j] + entries[j..offset]
  }

  function WrittenBy(truncation: seq<Record>, j: nat, offset: nat): seq<Record> {
    if offset <= j then [] else truncation
  }

  lemma Joined<T>(a: seq<T>, b: seq<T>, c: seq<T>)
    ensures (a + b) + c == a + (b + c)
  {
  }

  lemma SliceNext<T>(items: seq<T>, from: nat, next: nat)
    requires from <= next < |items|
    ensures items[from..next + 1] == items[from..next] + [items[next]]
  {
  }

  lemma AppendedNext(entries: seq<LogEntry>, j: nat, offset: nat)
    requires offset < |entries|
    ensures AppendedBy(entries, j, offset + 1)
         == if offset < j then AppendedBy(entries, j, offset) else AppendedBy(entries, j, offset) + [entries[offset]]
  {
    if j <= offset {
      SliceNext(entries, j, offset);
    }
  }

  lemma LogNext(log: seq<LogEntry>, prev: Index, entries: seq<LogEntry>, j: nat, offset: nat)
    requires prev + j <= |log| && offset < |entries|
    ensures var now := LogBy(log, prev, entries, j, offset);
            && prev + offset <= |now|
            && LogBy(log, prev, entries, j, offset + 1)
               == (if offset < j then now else now[..prev + offset] + [entries[offset]])
            && (offset > j ==> |now| == prev + offset)
  {
    if j <= offset {
      SliceNext(entries, j, offset);
      var now := log[..prev + j] + entries[j..offset];
      assert offset > j ==> now[..prev + offset] == now;
    }
  }

  /** An entry is held exactly as long as the logs have not diverged. */
  lemma HeldUntilDivergence(log: seq<LogEntry>, prev: Index, entries: seq<LogEntry>, offset: nat)
    requires prev <= |log| && offset < |entries|
    ensures var j := Divergence(log, prev, entries);
            && prev + j <= |log|
            && (offset <= j ==> (Held(log, prev + 1 + offset, entries[offset]) <==> offset < j))
            && (offset == j ==> Cut(log, prev + 1 + offset, entries[offset]) == Truncation(log, prev, entries))
  {
    hide Divergence;
  }

  lemma MergeStep(log: seq<LogEntry>, prev: Index, entries: seq<LogEntry>, offset: nat)
    requires prev <= |log| && offset < |entries|
    ensures var j, cut := Divergence(log, prev, entries), Truncation(log, prev, entries);
            var now, index, incoming := LogBy(log, prev, entries, j, offset), prev + 1 + offset, entries[offset];
            && index <= |now| + 1
            && LogBy(log, prev, entries, j, offset + 1) == Taken(now, index, incoming)
            && AppendedBy(entries, j, offset + 1)
               == (if Held(now, index, incoming) then AppendedBy(entries, j, offset)
                   else AppendedBy(entries, j, offset) + [incoming])
            && WrittenBy(cut, j, offset + 1) == WrittenBy(cut, j, offset) + Cut(now, index, incoming)
            && (Cut(now, index, incoming) != [] ==> WrittenBy(cut, j, offset) == [] && Cut(now, index, incoming) == cut)
  {
    hide Divergence, Truncation, AppendedBy;
    HeldUntilDivergence(log, prev, entries, offset);
    var j := Divergence(log, prev, entries);
    AppendedNext(entries, j, offset);
    LogNext(log, prev, entries, j, offset);
  }

  lemma MergeEnds(log: seq<LogEntry>, prev: Index, entries: seq<LogEntry>)
    requires prev <= |log|
    ensures var j, cut := Divergence(log, prev, entries), Truncation(log, prev, entries);
            && prev + j <= |log|
            && LogBy(log, prev, entries, j, 0) == log && AppendedBy(entries, j, 0) == [] && WrittenBy(cut, j, 0) == []
            && LogBy(log, prev, entries, j, |entries|) == Merged(log, prev, entries)
            && AppendedBy(entries, j, |entries|) == entries[j..]
            && WrittenBy(cut, j, |entries|) == cut
  {
    var j := Divergence(log, prev, entries);
    hide Divergence;
    if j == |entries| {
      assert entries[j..] == [];
    } else {
      assert entries[j..|entries|] == entries[j..];
    }
  }

  function MergeEffect(n: NodeState, m: Message): Effect
    requires m.AppendEntries? && m.prevLogIndex <= |n.log|
  {
    Effect(n.(log := Merged(n.log, m.prevLogIndex, m.entries)),
           MergeRecords(n.log, m.prevLogIndex, m.entries) + PersistState(n), [])
  }

  function AcceptanceEffect(id: NodeId, n: NodeState, frm: NodeId, m: Message): Effect
    requires m.AppendEntries? && m.prevLogIndex <= |n.log|
  {
    var n2 := MergeEffect(n, m).node;
    var lastNew := m.prevLogIndex + |m.entries|;
    var (n3, replies) :=
      if m.leaderCommit > n2.commitIndex then AdvanceTo(id, n2, Min(m.leaderCommit, lastNew)) else (n2, []);
    Effect(n3, MergeEffect(n, m).written,
           replies + [Packet(id, frm, AppendEntriesReply(n3.currentTerm, true, lastNew))])
  }

  /** A record that could not be stored is among the records it belongs to. */
  lemma Unstorable(status: Status, before: seq<Record>, part: seq<Record>, behind: seq<Record>)
    requires status == Raised(ValueError) ==> exists i :: 0 <= i < |part| && !Storable(part[i])
    ensures var all := before + part + behind;
            status == Raised(ValueError) ==> exists i :: 0 <= i < |all| && !Storable(all[i])
  {
    hide Storable;
    if status == Raised(ValueError) {
      var i :| 0 <= i < |part| && !Storable(part[i]);
      assert (before + part + behind)[|before| + i] == part[i];
    }
  }

  lemma MergedReaches(log: seq<LogEntry>, m: Message)
    requires m.AppendEntries? && m.prevLogIndex <= |log|
    ensures |Merged(log, m.prevLogIndex, m.entries)| >= m.prevLogIndex + |m.entries|
  {
  }

  lemma MergeWrites(n: NodeState, m: Message)
    requires m.AppendEntries? && m.prevLogIndex <= |n.log|
    ensures MergeEffect(n, m).written
         == Truncation(n.log, m.prevLogIndex, m.entries)
            + (EntryRecords(m.entries[Divergence(n.log, m.prevLogIndex, m.entries)..]) + PersistState(n))
  {
  }

  /** Where a write-ahead log stands after some of `first` and then some of `second` was written. */
  lemma WritesExtend(wal: seq<Record>, first: seq<Record>, second: seq<Record>, rest: seq<Record>, now: seq<Record>)
    requires now == wal || (wal + first <= now <= wal + first + second)
    ensures wal <= now <= wal + (first + (second + rest))
    ensures wal + first + second == wal + (first + second)
  {
    assert wal + (first + (second + rest)) == wal + first + second + rest;
  }

  /** A candidate's id is a node's, never the one that stands for null on disk. */
  predicate NamesNode(msg: Message) {
    msg.RequestVote? ==> msg.candidateId != NO_VOTE
  }

  class RaftNode {
    const nodeId: NodeId
    const peers: seq<NodeId>
    const storage: RaftStorage
    const net: NodeLink

    var currentTerm: Term
    var votedFor: Option<NodeId>
    var log: RaftLog

    var role: Role
    var commitIndex: Index
    var lastApplied: Index
    var kv: KvStore

    var votesGranted: set<NodeId>
    var nextIndex: map<NodeId, Index>
    var matchIndex: map<NodeId, Index>

    var leaderId: Option<NodeId>
    var running: bool
    var pendingClients: map<Index, (NodeId, nat)>

    function View(): NodeState
      reads this, log, kv
    {
      NodeState(currentTerm, votedFor, log.items, role, commitIndex, lastApplied, kv.View(), votesGranted,
                nextIndex, matchIndex, leaderId, running, pendingClients)
    }

    ghost predicate MemoryValid()
      reads this, log
    {
      nodeId != NO_VOTE && net.id == nodeId && RealVote(votedFor) && log.Valid()
    }

    ghost predicate Valid()
      reads this, log, storage, storage.disk
    {
      MemoryValid() && storage.Valid()
    }

    /** Everything this node has written is durable. */
    ghost predicate Synced()
      reads storage, storage.disk
    {
      storage.disk.synced == |storage.wal|
    }

    /** The node is what it was but for the fields a handler may change. */
    twostate predicate SameNode()
      reads this
    {
      log == old(log) && kv == old(kv) && running == old(running)
    }

    /** How a handler that was to have `effect` ended. */
    twostate predicate Ended(status: Status, effect: Effect)
      reads this, log, kv, storage, storage.disk, net
    {
      && SameNode() && storage.Drew(status)
      && match status
         case Ok =>
           && View() == effect.node
           && storage.wal == old(storage.wal) + effect.written
           && net.sent == old(net.sent) + effect.sent
           && Synced()
         case Raised(error) =>
           && (error.DiskError? || error.ValueError?)
           && old(storage.wal) <= storage.wal <= old(storage.wal) + effect.written
           && net.sent == old(net.sent)
           && storage.disk.synced == |old(storage.wal)|
           && (error.ValueError? ==> exists i :: 0 <= i < |effect.written| && !Storable(effect.written[i]))
    }

    constructor (nodeId: NodeId, peers: seq<NodeId>, storage: RaftStorage, net: NodeLink)
      requires nodeId != NO_VOTE && net.id == nodeId && storage.Valid()
      ensures Valid() && View() == INITIAL_NODE
      ensures this.nodeId == nodeId && this.peers == peers && this.storage == storage && this.net == net
      ensures fresh(log) && fresh(kv)
    {
      this.nodeId, this.peers, this.storage, this.net := nodeId, peers, storage, net;
      currentTerm, votedFor := 0, None;
      log := new RaftLog([]);
      role, commitIndex, lastApplied := Follower, 0, 0;
      kv := new KvStore();
      votesGranted, nextIndex, matchIndex := {}, map[], map[];
      leaderId, running, pendingClients := None, true, map[];
    }

    // -- lifecycle

    method Crash()
      requires MemoryValid()
      modifies this
      ensures MemoryValid() && View() == Crashed(old(View()))
      ensures (log == old(log) && kv == old(kv)) || (fresh(log) && fresh(kv))
    {
      if running {
        var emptyLog := new RaftLog([]);
        var emptyStore := new KvStore();
        Forget(emptyLog, emptyStore);
      }
    }

    /** The node becomes a new one that does not run, over the given empty log and store. */
    method Forget(emptyLog: RaftLog, emptyStore: KvStore)
      requires MemoryValid() && emptyLog.Valid() && emptyLog.items == [] && emptyStore.View() == EMPTY_STORE
      modifies this
      ensures MemoryValid() && log == emptyLog && kv == emptyStore
      ensures View() == INITIAL_NODE.(running := false)
    {
      ForgetLeadership();
      running, role, commitIndex, lastApplied, kv := false, Follower, SENTINEL_INDEX, SENTINEL_INDEX, emptyStore;
      currentTerm, votedFor, log := 0, None, emptyLog;
    }

    method ForgetLeadership()
      requires MemoryValid()
      modifies this
      ensures MemoryValid() && SameNode()
      ensures View() == old(View()).(votesGranted := {}, nextIndex := map[], matchIndex := map[],
                                     leaderId := None, pendingClients := map[])
    {
      votesGranted, nextIndex, matchIndex := {}, map[], map[];
      leaderId, pendingClients := None, map[];
    }

    method Restart() returns (status: Status)
      requires nodeId != NO_VOTE && net.id == nodeId && RealVote(votedFor) && log.Valid()
      requires storage.disk.Valid() && storage.disk.Up()
      requires |storage.disk.attempted| <= |storage.wal|
      requires Stores(storage.disk.attempted, storage.wal[..|storage.disk.attempted|])
      modifies this, storage`wal, storage.disk`cache
      ensures Valid() && storage.disk.Up() && storage.wal == old(storage.wal)[..|storage.disk.attempted|]
      ensures status == if Contiguous(Replay(storage.wal).log) then Ok else Raised(ValueError)
      ensures status.Ok? ==> View() == Restarted(old(View()), Replay(storage.wal)) && fresh(log) && kv == old(kv)
      ensures status.Raised? ==> View() == old(View()) && log == old(log) && kv == old(kv)
    {
      var term, vote, recovered;
      status, term, vote, recovered := storage.Recover();
      if status.Raised? {
        return;
      }
      currentTerm := term;
      votedFor := vote;
      log := recovered;
      running := true;
    }

    // -- role transitions

    method BecomeFollower(term: Term, leader: Option<NodeId>)
      requires MemoryValid()
      modifies this
      ensures MemoryValid() && SameNode() && View() == NodeSpec.BecomeFollower(old(View()), term, leader)
    {
      if term > currentTerm {
        currentTerm := term;
        votedFor := None;
      }
      role := Follower;
      leaderId := leader;
      votesGranted := {};
    }

    method BecomeCandidate()
      requires MemoryValid()
      modifies this
      ensures MemoryValid() && SameNode() && View() == NodeSpec.BecomeCandidate(nodeId, old(View()))
    {
      role := Candidate;
      leaderId := None;
      votesGranted := {nodeId};
    }

    method BecomeLeader()
      requires MemoryValid()
      modifies this, net
      ensures MemoryValid() && SameNode() && View() == TakeCharge(nodeId, peers, old(View()))
      ensures NextIndexOk(View())
      ensures net.sent == old(net.sent) + NodeSpec.ReplicateAll(nodeId, View(), peers)
    {
      StartLeading();
      SendToPeers();
    }

    method StartLeading()
      requires MemoryValid()
      modifies this
      ensures MemoryValid() && SameNode() && View() == TakeCharge(nodeId, peers, old(View()))
      ensures NextIndexOk(View())
    {
      role := Leader;
      leaderId := Some(nodeId);
      var last := log.LastIndex();
      nextIndex := FromKeys(peers, last + 1);
      matchIndex := FromKeys(peers, SENTINEL_INDEX);
    }

    // -- replication plumbing

    method ReplicateTo(peer: NodeId)
      requires MemoryValid() && NextIndexOk(View())
      modifies net
      ensures net.sent == old(net.sent) + NodeSpec.ReplicateTo(nodeId, View(), peer)
    {
      if role != Leader {
        return;
      }
      var last := log.LastIndex();
      var next := Get(nextIndex, peer, last + 1);
      var prev := next - 1;
      var entries := if next <= last then log.items[next - 1..] else [];
      assert entries == log.items[prev..];
      var _, prevTerm := log.TermOf(prev);
      net.Send(peer, Message.AppendEntries(currentTerm, nodeId, prev, prevTerm, entries, commitIndex));
    }

    method SendToPeers()
      requires MemoryValid() && NextIndexOk(View())
      modifies net
      ensures net.sent == old(net.sent) + ReplicateAll(nodeId, View(), peers)
    {
      hide NextIndexOk, NodeSpec.ReplicateTo, RealVote, Contiguous;
      ghost var n := View();
      var i := 0;
      while i < |peers|
        invariant 0 <= i <= |peers|
        invariant View() == n && MemoryValid()
        invariant net.sent + ReplicateAll(nodeId, n, peers[i..]) == old(net.sent) + ReplicateAll(nodeId, n, peers)
      {
        assert peers[i..][0] == peers[i] && peers[i..][1..] == peers[i + 1..];
        ReplicateTo(peers[i]);
        i := i + 1;
      }
    }

    method SendHeartbeats() returns (status: Status)
      requires Valid() && Synced() && NextIndexOk(View())
      modifies net
      ensures status == Ok && Valid() && Ended(status, NodeSpec.SendHeartbeats(nodeId, peers, old(View())))
    {
      SendToPeers();
      status := Ok;
    }

    method Broadcast(msg: Message)
      requires net.id == nodeId
      modifies net
      ensures net.sent == old(net.sent) + NodeSpec.Broadcast(nodeId, peers, msg)
    {
      var i := 0;
      while i < |peers|
        invariant 0 <= i <= |peers|
        invariant net.sent == old(net.sent) + NodeSpec.Broadcast(nodeId, peers, msg)[..i]
      {
        net.Send(peers[i], msg);
        i := i + 1;
      }
    }

    // -- the apply rule

    method ApplyCommitted()
      requires MemoryValid() && commitIndex <= |log.items|
      modifies this, kv, net
      ensures MemoryValid() && SameNode()
      ensures View() == AdvanceTo(nodeId, old(View()), old(commitIndex)).0
      ensures net.sent == old(net.sent) + AdvanceTo(nodeId, old(View()), old(commitIndex)).1
    {
      while lastApplied < commitIndex
        invariant MemoryValid() && SameNode()
        invariant View().commitIndex == old(commitIndex) && View().log == old(log.items)
        invariant AdvanceTo(nodeId, View(), commitIndex).0 == AdvanceTo(nodeId, old(View()), old(commitIndex)).0
        invariant net.sent + AdvanceTo(nodeId, View(), commitIndex).1
               == old(net.sent) + AdvanceTo(nodeId, old(View()), old(commitIndex)).1
        decreases commitIndex - lastApplied
      {
        ghost var n := View();
        ApplyNext();
        OneApplied(nodeId, n, commitIndex);
      }
    }

    method ApplyNext()
      requires MemoryValid() && lastApplied < commitIndex <= |log.items|
      modifies this, kv, net
      ensures MemoryValid() && SameNode() && View() == AfterNext(old(View()))
      ensures net.sent == old(net.sent) + ReplyForNext(nodeId, old(View()))
    {
      lastApplied := lastApplied + 1;
      var entry := log.items[lastApplied - 1];
      kv.Apply(entry.command);
      var owed := if entry.index in pendingClients then Some(pendingClients[entry.index]) else None;
      pendingClients := pendingClients - {entry.index};
      if owed.Some? {
        net.Send(owed.value.0, ClientReply(owed.value.1, true, None));
      }
    }

    // -- persistence

    method Persist() returns (status: Status)
      requires Valid()
      modifies storage, storage.disk
      ensures Valid() && storage.Wrote(status, PersistState(View()))
    {
      status := storage.SaveState(currentTerm, votedFor);
    }

    /** Persist, then sync: the two lines every reply about durable state waits for. */
    method PersistAndSync() returns (status: Status)
      requires Valid() && Synced()
      modifies storage, storage.disk
      ensures Valid() && Ended(status, Effect(View(), PersistState(View()), []))
    {
      assert net.sent + [] == net.sent;
      :- Persist();
      status := storage.Sync();
    }

    // -- elections

    method OnRequestVote(frm: NodeId, msg: Message) returns (status: Status)
      requires Valid() && Synced() && msg.RequestVote? && NamesNode(msg)
      modifies this, storage, storage.disk, net
      ensures Valid() && Ended(status, NodeSpec.OnRequestVote(nodeId, old(View()), frm, msg))
    {
      hide Storable, Fails, RaftStorage.Valid, Contiguous, UpToDate;
      if msg.term > currentTerm {
        BecomeFollower(msg.term, None);
      }
      if msg.term < currentTerm {
        status := ReplyVote(frm, false);
        return;
      }
      var upToDate := UpToDate(msg.lastLogTerm, msg.lastLogIndex, log.items);
      var granted := (votedFor == None || votedFor == Some(msg.candidateId)) && upToDate;
      if granted {
        Grant(msg.candidateId);
      }
      status := ReplyVote(frm, granted);
    }

    method Grant(candidate: NodeId)
      requires MemoryValid() && candidate != NO_VOTE
      modifies this
      ensures MemoryValid() && SameNode() && View() == old(View()).(votedFor := Some(candidate))
    {
      votedFor := Some(candidate);
    }

    /** The reply leaves only with the state record durable; otherwise nothing is sent. */
    method ReplyVote(frm: NodeId, granted: bool) returns (status: Status)
      requires Valid() && Synced()
      modifies storage, storage.disk, net
      ensures Valid()
      ensures Ended(status,
                    Effect(View(), PersistState(View()), [Packet(nodeId, frm, RequestVoteReply(currentTerm, granted))]))
    {
      status := PersistAndSync();
      if status.Ok? {
        net.Send(frm, RequestVoteReply(currentTerm, granted));
      }
    }

    method OnRequestVoteReply(frm: NodeId, msg: Message) returns (status: Status)
      requires Valid() && Synced() && msg.RequestVoteReply?
      modifies this, storage, storage.disk, net
      ensures Valid() && Ended(status, NodeSpec.OnRequestVoteReply(nodeId, peers, old(View()), frm, msg))
    {
      if msg.term > currentTerm {
        BecomeFollower(msg.term, None);
        status := PersistAndSync();
        return;
      }
      status := Ok;
      if role != Candidate || msg.term != currentTerm || !msg.voteGranted {
        return;
      }
      CountVote(frm);
      if |votesGranted| >= Majority(peers) {
        BecomeLeader();
      }
    }

    method CountVote(frm: NodeId)
      requires MemoryValid()
      modifies this
      ensures MemoryValid() && SameNode() && View() == old(View()).(votesGranted := old(votesGranted) + {frm})
    {
      votesGranted := votesGranted + {frm};
    }

    method OnElectionTimeout() returns (status: Status)
      requires Valid() && Synced()
      modifies this, storage, storage.disk, net
      ensures Valid() && Ended(status, NodeSpec.OnElectionTimeout(nodeId, peers, old(View())))
    {
      hide Storable, Fails, RaftStorage.Valid, NodeSpec.Broadcast, ReplicateAll, LastTerm, NextIndexOk, Contiguous,
           Majority;
      StandForElection();
      :- PersistAndSync();
      if |votesGranted| >= Majority(peers) {
        BecomeLeader();
      } else {
        Campaign();
      }
      status := Ok;
    }

    method Campaign()
      requires MemoryValid()
      modifies net
      ensures net.sent == old(net.sent)
                        + NodeSpec.Broadcast(nodeId, peers,
                                             RequestVote(currentTerm, nodeId, |log.items|, LastTerm(log.items)))
    {
      var last := log.LastIndex();
      Broadcast(RequestVote(currentTerm, nodeId, last, LastTerm(log.items)));
    }

    method StandForElection()
      requires MemoryValid()
      modifies this
      ensures MemoryValid() && SameNode()
      ensures var next := old(View()).(currentTerm := old(currentTerm) + 1);
              View() == NodeSpec.BecomeCandidate(nodeId, next).(votedFor := Some(nodeId))
    {
      currentTerm := currentTerm + 1;
      BecomeCandidate();
      votedFor := Some(nodeId);
    }

    // -- log replication

    method OnAppendEntries(frm: NodeId, msg: Message) returns (status: Status)
      requires Valid() && Synced() && msg.AppendEntries? && EntriesFollow(msg)
      modifies this, log, kv, storage, storage.disk, net
      ensures Valid() && Ended(status, NodeSpec.OnAppendEntries(nodeId, old(View()), frm, msg))
    {
      hide Storable, Fails, RaftStorage.Valid, Contiguous, AdvanceTo, Merged, MergeRecords, RealVote, EntriesFollow;
      NoneTried(storage.draws, storage.writes);
      if msg.term < currentTerm {
        net.Send(frm, AppendEntriesReply(currentTerm, false, 0));
        return Ok;
      }
      BecomeFollower(msg.term, Some(msg.leaderId));
      var has := log.HasEntry(msg.prevLogIndex);
      var consistent := false;
      if has {
        var _, term := log.TermOf(msg.prevLogIndex);
        consistent := term == msg.prevLogTerm;
      }
      if !consistent {
        :- PersistAndSync();
        net.Send(frm, AppendEntriesReply(currentTerm, false, 0));
        return Ok;
      }
      status := Accept(frm, msg);
    }

    /** The rest of `on_append_entries`, once the consistency check has passed. */
    method Accept(frm: NodeId, msg: Message) returns (status: Status)
      requires Valid() && Synced() && msg.AppendEntries? && EntriesFollow(msg) && msg.prevLogIndex <= |log.items|
      modifies this, log, kv, storage, storage.disk, net
      ensures Valid() && Ended(status, AcceptanceEffect(nodeId, old(View()), frm, msg))
    {
      hide Storable, Fails, RaftStorage.Valid, Contiguous, AdvanceTo, Merged, MergeRecords, RealVote, EntriesFollow;
      :- MergeAndSync(msg);
      var lastNew := msg.prevLogIndex + |msg.entries|;
      if msg.leaderCommit > commitIndex {
        MergedReaches(old(log.items), msg);
        CommitUpTo(Min(msg.leaderCommit, lastNew));
      }
      net.Send(frm, AppendEntriesReply(currentTerm, true, lastNew));
      status := Ok;
    }

    method CommitUpTo(index: Index)
      requires MemoryValid() && index <= |log.items|
      modifies this, kv, net
      ensures MemoryValid() && SameNode()
      ensures View() == AdvanceTo(nodeId, old(View()), index).0
      ensures net.sent == old(net.sent) + AdvanceTo(nodeId, old(View()), index).1
    {
      commitIndex := index;
      ApplyCommitted();
    }

    /** Rules 3 and 4, the writes they owe, and the sync. */
    method MergeAndSync(msg: Message) returns (status: Status)
      requires Valid() && Synced() && msg.AppendEntries? && EntriesFollow(msg) && msg.prevLogIndex <= |log.items|
      modifies log, storage, storage.disk
      ensures Valid() && Ended(status, MergeEffect(old(View()), msg))
    {
      hide Storable, Fails, Truncation, Divergence, Merged, RaftStorage.Valid, Contiguous, EntriesFollow;
      ghost var wal, cut := storage.wal, Truncation(log.items, msg.prevLogIndex, msg.entries);
      ghost var rest := EntryRecords(msg.entries[Divergence(log.items, msg.prevLogIndex, msg.entries)..])
        + PersistState(View());
      MergeWrites(View(), msg);
      var appended;
      status, appended := Merge(msg);
      if status.Raised? {
        Unstorable(status, [], cut, rest);
        assert [] + cut + rest == cut + rest;
        WritesExtend(wal, cut, [], rest, storage.wal);
        return;
      }
      ghost var tried := storage.writes;
      status := PersistAppended(appended);
      FailsInTwo(storage.draws, old(storage.writes), tried, storage.writes);
      Unstorable(status, cut, rest, []);
      WritesExtend(wal, cut, rest, [], storage.wal);
      assert net.sent + [] == net.sent;
    }

    method PersistAppended(appended: seq<LogEntry>) returns (status: Status)
      requires Valid()
      modifies storage, storage.disk
      ensures Valid() && storage.Drew(status)
      ensures status.Ok? ==>
        && Synced()
        && storage.wal == old(storage.wal) + EntryRecords(appended) + PersistState(View())
      ensures status.Raised? ==>
        && storage.disk.synced == old(storage.disk.synced) && (status.error.DiskError? || status.error.ValueError?)
        && old(storage.wal) <= storage.wal <= old(storage.wal) + (EntryRecords(appended) + PersistState(View()))
        && var all := EntryRecords(appended) + PersistState(View());
           (status.error.ValueError? ==> exists i :: 0 <= i < |all| && !Storable(all[i]))
    {
      hide Storable, Fails, RaftStorage.Valid, Contiguous;
      ghost var entries, state := EntryRecords(appended), PersistState(View());
      status := storage.AppendEntries(appended);
      if status.Raised? {
        Unstorable(status, [], entries, state);
        assert [] + entries + state == entries + state;
        return;
      }
      ghost var tried := storage.writes;
      status := Persist();
      FailsInTwo(storage.draws, old(storage.writes), tried, storage.writes);
      if status.Raised? {
        Unstorable(status, entries, state, []);
        assert entries + state + [] == entries + state;
        return;
      }
      status := storage.Sync();
    }

    /** The log becomes the merged one, and at most one truncation is written. */
    method Merge(msg: Message) returns (status: Status, appended: seq<LogEntry>)
      requires Valid() && msg.AppendEntries? && EntriesFollow(msg) && msg.prevLogIndex <= |log.items|
      modifies log, storage, storage.disk
      ensures Valid()
      ensures storage.Wrote(status, Truncation(old(log.items), msg.prevLogIndex, msg.entries))
      ensures status.Ok? ==>
        && log.items == Merged(old(log.items), msg.prevLogIndex, msg.entries)
        && appended == msg.entries[Divergence(old(log.items), msg.prevLogIndex, msg.entries)..]
    {
      ghost var items, wal := log.items, storage.wal;
      MergeEnds(items, msg.prevLogIndex, msg.entries);
      assert wal + [] == wal;
      hide Storable, Fails, RaftStorage.Valid, LogBy, AppendedBy, WrittenBy, Contiguous, Merged, Truncation, Divergence,
           EntriesFollow;
      appended := [];
      status := Ok;
      var offset := 0;
      while offset < |msg.entries|
        invariant 0 <= offset <= |msg.entries| && Valid() && status == Ok
        invariant Reached(items, wal, msg, offset, appended)
        invariant storage.disk.synced == old(storage.disk.synced) && storage.Drew(Ok)
      {
        ghost var tried := storage.writes;
        status, appended := TakeNext(msg, offset, appended, items, wal);
        FailsInTwo(storage.draws, old(storage.writes), tried, storage.writes);
        if status.Raised? {
          return;
        }
        offset := offset + 1;
      }
    }

    /** Where the loop of rules 3 and 4 stands after `offset` of the incoming entries. */
    ghost predicate Reached(items: seq<LogEntry>, wal: seq<Record>, msg: Message, offset: nat, appended: seq<LogEntry>)
      requires msg.AppendEntries? && msg.prevLogIndex <= |items| && offset <= |msg.entries|
      reads this`log, log, storage
    {
      var prev, entries := msg.prevLogIndex, msg.entries;
      var j, cut := Divergence(items, prev, entries), Truncation(items, prev, entries);
      && log.items == LogBy(items, prev, entries, j, offset)
      && appended == AppendedBy(entries, j, offset)
      && storage.wal == wal + WrittenBy(cut, j, offset)
    }

    method TakeNext(msg: Message, offset: nat, appended: seq<LogEntry>, ghost items: seq<LogEntry>,
                    ghost wal: seq<Record>)
      returns (status: Status, more: seq<LogEntry>)
      requires Valid() && msg.AppendEntries? && EntriesFollow(msg) && offset < |msg.entries|
      requires msg.prevLogIndex <= |items| && Reached(items, wal, msg, offset, appended)
      modifies log, storage, storage.disk
      ensures Valid() && storage.disk.synced == old(storage.disk.synced) && storage.Drew(status)
      ensures status.Ok? ==> Reached(items, wal, msg, offset + 1, more)
      ensures status.Raised? ==>
        var cut := Truncation(items, msg.prevLogIndex, msg.entries);
        && (status.error.DiskError? || status.error.ValueError?)
        && (storage.wal == wal || storage.wal == wal + cut)
        && (status.error.ValueError? ==> exists i :: 0 <= i < |cut| && !Storable(cut[i]))
    {
      hide Storable, Fails, RaftStorage.Valid, RaftStorage.Drew, LogBy, AppendedBy, WrittenBy, Contiguous, Truncation,
           Divergence, Held, Cut, Taken, EntriesFollow;
      NextFollows(msg, offset);
      MergeStep(items, msg.prevLogIndex, msg.entries, offset);
      ghost var cut := Truncation(items, msg.prevLogIndex, msg.entries);
      assert wal + [] == wal;
      Joined(wal, WrittenBy(cut, Divergence(items, msg.prevLogIndex, msg.entries), offset),
             Cut(log.items, msg.prevLogIndex + 1 + offset, msg.entries[offset]));
      var added;
      status, added := TakeEntry(msg.prevLogIndex + 1 + offset, msg.entries[offset]);
      more := if added then appended + [msg.entries[offset]] else appended;
    }

    /** One incoming entry: keep what is held, or cut the log at a conflict, then append. */
    method TakeEntry(index: Index, incoming: LogEntry) returns (status: Status, added: bool)
      requires Valid() && 1 <= index <= |log.items| + 1 && incoming.index == index
      modifies log, storage, storage.disk
      ensures Valid()
      ensures storage.Wrote(status, Cut(old(log.items), index, incoming))
      ensures status.Raised? ==> Cut(old(log.items), index, incoming) != []
      ensures added == !Held(old(log.items), index, incoming)
      ensures status.Ok? ==> log.items == Taken(old(log.items), index, incoming)
    {
      assert storage.wal + [] == storage.wal;
      added := true;
      status := Ok;
      var last := log.LastIndex();
      if index <= last {
        var _, term := log.TermOf(index);
        if term == incoming.term {
          added := false;
          return;
        }
        :- DropConflict(index);
      }
      status := log.Append([incoming]);
    }

    method DropConflict(index: Index) returns (status: Status)
      requires Valid() && index > 0
      modifies log, storage, storage.disk
      ensures Valid() && log.items == old(log.items)[..Min(index - 1, |old(log.items)|)]
      ensures storage.Wrote(status, [TruncateRecord(index)])
    {
      var _ := log.TruncateFrom(index);
      status := storage.TruncateFrom(index);
    }

    method OnAppendEntriesReply(frm: NodeId, msg: Message) returns (status: Status)
      requires Valid() && Synced() && msg.AppendEntriesReply? && NextIndexOk(View())
      modifies this, kv, storage, storage.disk, net
      ensures Valid() && Ended(status, NodeSpec.OnAppendEntriesReply(nodeId, peers, old(View()), frm, msg))
    {
      hide Storable, Fails, RaftStorage.Valid, Contiguous, NodeSpec.ReplicateTo, CommitPoint, AdvanceTo;
      NoneTried(storage.draws, storage.writes);
      if msg.term > currentTerm {
        BecomeFollower(msg.term, None);
        status := PersistAndSync();
        return;
      }
      status := Ok;
      if role != Leader || msg.term != currentTerm {
        return;
      }
      if msg.success {
        NoteMatch(frm, msg.matchIndex);
        AdvanceCommitIndex();
      } else {
        WalkBack(frm);
        ReplicateTo(frm);
      }
    }

    /** The follower's match index rises to `index` at least, and the next one follows it. */
    method NoteMatch(frm: NodeId, index: Index)
      requires MemoryValid()
      modifies this
      ensures MemoryValid() && SameNode()
      ensures var matched := Max(Get(old(matchIndex), frm, 0), index);
              View() == old(View()).(matchIndex := old(matchIndex)[frm := matched],
                                     nextIndex := old(nextIndex)[frm := matched + 1])
    {
      matchIndex := matchIndex[frm := Max(Get(matchIndex, frm, 0), index)];
      nextIndex := nextIndex[frm := matchIndex[frm] + 1];
    }

    method WalkBack(frm: NodeId)
      requires MemoryValid() && NextIndexOk(View()) && role == Leader
      modifies this
      ensures MemoryValid() && SameNode() && NextIndexOk(View())
      ensures var current := Get(old(nextIndex), frm, |old(log.items)| + 1);
              View() == old(View()).(nextIndex := old(nextIndex)[frm := Max(1, current - 1)])
    {
      var last := log.LastIndex();
      var current := Get(nextIndex, frm, last + 1);
      nextIndex := nextIndex[frm := Max(1, current - 1)];
    }

    // -- committing

    method AdvanceCommitIndex()
      requires MemoryValid()
      modifies this, kv, net
      ensures MemoryValid() && SameNode()
      ensures View() == AdvanceCommit(nodeId, peers, old(View())).0
      ensures net.sent == old(net.sent) + AdvanceCommit(nodeId, peers, old(View())).1
    {
      hide AdvanceTo, Holders, CommitPoint;
      if role != Leader {
        return;
      }
      var point := FindCommitPoint();
      if point != commitIndex {
        CommitUpTo(point);
      }
    }

    /** The downward scan: the highest entry of our own term that a majority holds. */
    method FindCommitPoint() returns (point: Index)
      requires MemoryValid()
      ensures point == CommitPoint(peers, View(), |log.items|)
    {
      var candidate: Index := log.LastIndex();
      while candidate > commitIndex
        invariant candidate <= |log.items|
        invariant CommitPoint(peers, View(), |log.items|) == CommitPoint(peers, View(), candidate)
      {
        var _, term := log.TermOf(candidate);
        if term == currentTerm {
          var replicas := 1 + Holders(peers, matchIndex, candidate);
          if replicas >= Majority(peers) {
            return candidate;
          }
        }
        candidate := candidate - 1;
      }
      point := commitIndex;
    }

    // -- clients

    method OnClientRequest(frm: NodeId, msg: Message) returns (status: Status)
      requires Valid() && Synced() && msg.ClientRequest? && NextIndexOk(View())
      modifies this, log, kv, storage, storage.disk, net
      ensures Valid() && Ended(status, NodeSpec.OnClientRequest(nodeId, peers, old(View()), frm, msg))
    {
      hide Storable, Fails, RaftStorage.Valid, Contiguous, ReplicateAll, AdvanceCommit;
      NoneTried(storage.draws, storage.writes);
      if role != Leader {
        net.Send(frm, ClientReply(msg.requestId, false, leaderId));
        return Ok;
      }
      var index;
      status, index := AppendOwn(msg.command);
      if status.Raised? {
        return;
      }
      Owe(index, frm, msg.requestId);
      SendToPeers();
      AdvanceCommitIndex();
    }

    /** Append an entry of our own term, and make it durable. */
    method AppendOwn(command: Command) returns (status: Status, index: Index)
      requires Valid() && Synced()
      modifies log, storage, storage.disk
      ensures Valid() && index == |old(log.items)| + 1
      ensures var entry := LogEntry(currentTerm, |old(log.items)| + 1, command);
              Ended(status, Effect(old(View()).(log := old(log.items) + [entry]), [EntryRecord(entry)], []))
    {
      hide Storable, Fails, RaftStorage.Valid;
      var entry := log.Create(currentTerm, command);
      index := entry.index;
      var appended := log.Append([entry]);
      assert appended.Ok?;
      assert EntryRecords([entry]) == [EntryRecord(entry)];
      status := storage.AppendEntries([entry]);
      if status.Ok? {
        status := storage.Sync();
      }
      assert net.sent + [] == net.sent;
    }

    /** A reply is owed for `index`; nothing is sent. */
    method Owe(index: Index, client: NodeId, requestId: nat)
      requires MemoryValid()
      modifies this
      ensures MemoryValid() && SameNode()
      ensures View() == old(View()).(pendingClients := old(pendingClients)[index := (client, requestId)])
    {
      pendingClients := pendingClients[index := (client, requestId)];
    }

    // -- dispatch

    method Dispatch(frm: NodeId, msg: Message) returns (status: Status)
      requires Valid() && Synced() && Ready(View(), msg) && NamesNode(msg)
      modifies this, log, kv, storage, storage.disk, net
      ensures Valid() && Ended(status, NodeSpec.Dispatch(nodeId, peers, old(View()), frm, msg))
    {
      hide Storable, Fails, RaftStorage.Valid, NodeSpec.OnRequestVote, NodeSpec.OnRequestVoteReply,
           NodeSpec.OnAppendEntries, NodeSpec.OnAppendEntriesReply, NodeSpec.OnClientRequest;
      NoneTried(storage.draws, storage.writes);
      match msg {
        case RequestVote(_, _, _, _) => status := OnRequestVote(frm, msg);
        case RequestVoteReply(_, _) => status := OnRequestVoteReply(frm, msg);
        case AppendEntries(_, _, _, _, _, _) => status := OnAppendEntries(frm, msg);
        case AppendEntriesReply(_, _, _) => status := OnAppendEntriesReply(frm, msg);
        case ClientRequest(_, _) => status := OnClientRequest(frm, msg);
        case ClientReply(_, _, _) => status := Ok;
      }
    }
  }
}
