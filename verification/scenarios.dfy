// Three runs of a three-node cluster: the leader-completeness checker objecting to a sound
// run, an ok reply to a client for an entry that was not its own, and a node back from a
// crash with an entry newer than its term.
module Scenarios {
  import opened Types
  import opened Kv
  import opened Log
  import opened Messages
  import opened Wal
  import opened NodeSpec
  import opened Cluster
  import opened Theorems
  import opened Watching
  import opened Payments
  import opened Promises

  const THREE := Config([1, 2, 3])
  const FRESH := INITIAL_NODE

  lemma ThreeNodes()
    ensures ValidConfig(THREE) && Members(THREE) == {1, 2, 3}
    ensures Peers(THREE, 1) == [2, 3] && Peers(THREE, 2) == [1, 3] && Peers(THREE, 3) == [1, 2]
  {
    assert [1, 2, 3][1..] == [2, 3] && [2, 3][1..] == [3] && [3][1..] == [];
  }

  /** The three nodes, and some of what is on the network. */
  predicate Is(s: System, one: NodeState, two: NodeState, three: NodeState, sent: set<Packet>) {
    && WellFormed(THREE, s)
    && 1 in s.nodes && 2 in s.nodes && 3 in s.nodes
    && s.nodes[1] == one && s.nodes[2] == two && s.nodes[3] == three
    && sent <= s.net
  }

  predicate Did(effect: Effect, n: NodeState, sent: seq<Packet>) {
    effect.node == n && effect.sent == sent
  }

  /** The handler that `ev` starts at node `id` ends with the node in state n, having sent `sent`. */
  predicate Runs(ev: Event, net: set<Packet>, id: NodeId, peers: seq<NodeId>, before: NodeState, n: NodeState,
                 sent: seq<Packet>) {
    && before.running
    && match ev
       case ElectionTimeout(i) => i == id && Did(OnElectionTimeout(id, peers, before), n, sent)
       case Heartbeat(i) =>
         i == id && before.role.Leader? && NextIndexOk(before) && Did(SendHeartbeats(id, peers, before), n, sent)
       case Deliver(p) =>
         p.dst == id && p in net && Ready(before, p.msg) && Did(Dispatch(id, peers, before, p.src, p.msg), n, sent)
       case _ => false
  }

  lemma Handled(s: System, ev: Event, net: set<Packet>, id: NodeId, n: NodeState, sent: seq<Packet>)
    requires WellFormed(THREE, s) && id in {1, 2, 3} && net <= s.net
    requires id in s.nodes && Runs(ev, net, id, Peers(THREE, id), s.nodes[id], n, sent)
    ensures Apply(THREE, s, ev).nodes == s.nodes[id := n]
    ensures Apply(THREE, s, ev).net == s.net + PacketSet(sent)
  {
    ThreeNodes();
    match ev
    case ElectionTimeout(_) =>
      TimeoutEvent(THREE, s, id, 0);
      hide Apply, OnElectionTimeout, Peers, PacketSet;
    case Heartbeat(_) =>
      HeartbeatEvent(THREE, s, id);
      hide Apply, SendHeartbeats, NextIndexOk, Peers, PacketSet;
    case Deliver(p) =>
      DeliverEvent(THREE, s, p, 0);
      hide Apply, Dispatch, Ready, Peers, PacketSet;
  }

  lemma ByOne(s: System, one: NodeState, two: NodeState, three: NodeState, net: set<Packet>, ev: Event, n: NodeState,
              sent: seq<Packet>, keep: set<Packet>)
    requires Is(s, one, two, three, net) && Runs(ev, net, 1, [2, 3], one, n, sent) && keep <= net + PacketSet(sent)
    ensures Is(Apply(THREE, s, ev), n, two, three, keep)
  {
    ThreeNodes();
    hide Runs, Apply;
    Handled(s, ev, net, 1, n, sent);
  }

  lemma ByTwo(s: System, one: NodeState, two: NodeState, three: NodeState, net: set<Packet>, ev: Event, n: NodeState,
              sent: seq<Packet>, keep: set<Packet>)
    requires Is(s, one, two, three, net) && Runs(ev, net, 2, [1, 3], two, n, sent) && keep <= net + PacketSet(sent)
    ensures Is(Apply(THREE, s, ev), one, n, three, keep)
  {
    ThreeNodes();
    hide Runs, Apply;
    Handled(s, ev, net, 2, n, sent);
  }

  lemma ByThree(s: System, one: NodeState, two: NodeState, three: NodeState, net: set<Packet>, ev: Event, n: NodeState,
                sent: seq<Packet>, keep: set<Packet>)
    requires Is(s, one, two, three, net) && Runs(ev, net, 3, [1, 2], three, n, sent) && keep <= net + PacketSet(sent)
    ensures Is(Apply(THREE, s, ev), one, two, n, keep)
  {
    ThreeNodes();
    hide Runs, Apply;
    Handled(s, ev, net, 3, n, sent);
  }

  lemma Submitted(s: System, one: NodeState, two: NodeState, three: NodeState, net: set<Packet>, to: NodeId,
                  requestId: nat, command: Command)
    requires Is(s, one, two, three, net)
    ensures Is(Apply(THREE, s, Submit(to, requestId, command)), one, two, three,
               net + {Packet(CLIENT_ID, to, ClientRequest(requestId, command))})
  {
  }

  // -- the handlers both runs meet, on small logs

  function Standing(id: NodeId, n: NodeState): NodeState {
    n.(currentTerm := n.currentTerm + 1, votedFor := Some(id), role := Candidate, leaderId := None,
       votesGranted := {id})
  }

  lemma Stands(id: NodeId, peers: seq<NodeId>, n: NodeState, net: set<Packet>)
    requires |peers| == 2 && n.running
    ensures Runs(ElectionTimeout(id), net, id, peers, n, Standing(id, n),
                 Broadcast(id, peers, RequestVote(n.currentTerm + 1, id, |n.log|, LastTerm(n.log))))
  {
  }

  function Voting(n: NodeState, frm: NodeId, t: Term): NodeState {
    n.(currentTerm := t, votedFor := Some(frm), role := Follower, leaderId := None, votesGranted := {})
  }

  /** A node of an older term and an empty log grants its vote. */
  lemma Grants(id: NodeId, peers: seq<NodeId>, n: NodeState, frm: NodeId, t: Term, net: set<Packet>)
    requires n.log == [] && n.currentTerm < t && n.running && NextIndexOk(n)
    requires Packet(frm, id, RequestVote(t, frm, 0, 0)) in net
    ensures Runs(Deliver(Packet(frm, id, RequestVote(t, frm, 0, 0))), net, id, peers, n, Voting(n, frm, t),
                 [Packet(id, frm, RequestVoteReply(t, true))])
  {
  }

  function Winning(id: NodeId, peers: seq<NodeId>, n: NodeState, frm: NodeId): NodeState {
    TakeCharge(id, peers, n.(votesGranted := {id, frm}))
  }

  /** The second vote of three makes a leader. */
  lemma Wins(id: NodeId, peers: seq<NodeId>, n: NodeState, frm: NodeId, net: set<Packet>)
    requires |peers| == 2 && n.role.Candidate? && n.votesGranted == {id} && frm != id && n.running
    requires Packet(frm, id, RequestVoteReply(n.currentTerm, true)) in net
    ensures NextIndexOk(Winning(id, peers, n, frm))
    ensures Runs(Deliver(Packet(frm, id, RequestVoteReply(n.currentTerm, true))), net, id, peers, n,
                 Winning(id, peers, n, frm), ReplicateAll(id, Winning(id, peers, n, frm), peers))
  {
    assert {id} + {frm} == {id, frm} && |{id, frm}| == 2;
  }

  function Accepting(n: NodeState, frm: NodeId, requestId: nat, command: Command): NodeState {
    n.(log := [LogEntry(n.currentTerm, 1, command)], pendingClients := n.pendingClients[1 := (frm, requestId)])
  }

  /** A new leader takes its first entry. */
  lemma AcceptsFirst(id: NodeId, peers: seq<NodeId>, n: NodeState, frm: NodeId, requestId: nat, command: Command,
                     net: set<Packet>)
    requires |peers| == 2 && n.role.Leader? && n.log == [] && n.commitIndex == 0 && n.running
    requires n.nextIndex == FromKeys(peers, 1) && n.matchIndex == FromKeys(peers, 0) && NextIndexOk(n)
    requires Packet(frm, id, ClientRequest(requestId, command)) in net
    ensures var n' := Accepting(n, frm, requestId, command);
            && NextIndexOk(n')
            && Runs(Deliver(Packet(frm, id, ClientRequest(requestId, command))), net, id, peers, n, n',
                    ReplicateAll(id, n', peers))
  {
    var n' := Accepting(n, frm, requestId, command);
    AcceptedFacts(n, frm, requestId, command);
    hide AdvanceCommit, ReplicateAll, FromKeys, OnClientRequest, OnRequestVote, OnRequestVoteReply, OnAppendEntries,
         OnAppendEntriesReply, NextIndexOk, Accepting;
    StillReady(n, n');
    NothingToCommit(id, peers, n');
    RequestAtLeader(id, peers, n, frm, requestId, command, n');
    assert ReplicateAll(id, n', peers) + [] == ReplicateAll(id, n', peers);
  }

  lemma AcceptedFacts(n: NodeState, frm: NodeId, requestId: nat, command: Command)
    requires n.log == []
    ensures var n' := Accepting(n, frm, requestId, command);
            && n' == n.(log := n.log + [LogEntry(n.currentTerm, |n.log| + 1, command)],
                        pendingClients := n.pendingClients[|n.log| + 1 := (frm, requestId)])
            && |n'.log| == 1 && n'.commitIndex == n.commitIndex && n'.matchIndex == n.matchIndex
            && n'.nextIndex == n.nextIndex && n'.role == n.role
  {
    assert n.log + [LogEntry(n.currentTerm, 1, command)] == [LogEntry(n.currentTerm, 1, command)];
  }

  lemma StillReady(n: NodeState, n': NodeState)
    requires NextIndexOk(n) && n'.role == n.role && n'.nextIndex == n.nextIndex && |n.log| <= |n'.log|
    ensures NextIndexOk(n')
  {
  }

  lemma RequestAtLeader(id: NodeId, peers: seq<NodeId>, n: NodeState, frm: NodeId, requestId: nat, command: Command,
                        n': NodeState)
    requires n.role.Leader? && NextIndexOk(n) && NextIndexOk(n')
    requires n' == n.(log := n.log + [LogEntry(n.currentTerm, |n.log| + 1, command)],
                      pendingClients := n.pendingClients[|n.log| + 1 := (frm, requestId)])
    ensures var effect := OnClientRequest(id, peers, n, frm, ClientRequest(requestId, command));
            && effect.node == AdvanceCommit(id, peers, n').0
            && effect.sent == ReplicateAll(id, n', peers) + AdvanceCommit(id, peers, n').1
  {
    hide AdvanceCommit, ReplicateAll, NextIndexOk;
  }

  /** What a leader with one entry sends a follower that it knows nothing of. */
  lemma SendsFirst(id: NodeId, peers: seq<NodeId>, n: NodeState, p: NodeId)
    requires p in peers && NextIndexOk(n) && n.role.Leader? && |n.log| == 1 && p in n.nextIndex && n.nextIndex[p] == 1
    ensures Packet(id, p, AppendEntries(n.currentTerm, id, 0, 0, n.log, n.commitIndex)) in ReplicateAll(id, n, peers)
  {
    assert n.log[0..] == n.log;
    Replicated(id, n, peers, p);
  }

  lemma NothingToCommit(id: NodeId, peers: seq<NodeId>, n: NodeState)
    requires |peers| == 2 && |n.log| == 1 && n.commitIndex == 0 && n.matchIndex == FromKeys(peers, 0)
    ensures AdvanceCommit(id, peers, n) == (n, [])
  {
    HeldByNone(peers, n.matchIndex);
    assert CommitPoint(peers, n, 1) == CommitPoint(peers, n, 0);
  }

  lemma {:induction false} HeldByNone(peers: seq<NodeId>, matchIndex: map<NodeId, Index>)
    requires forall p :: p in peers && p in matchIndex ==> matchIndex[p] == 0
    ensures Holders(peers, matchIndex, 1) == 0
    decreases |peers|
  {
    if peers != [] {
      HeldByNone(peers[1..], matchIndex);
    }
  }

  lemma {:induction false} Replicated(id: NodeId, n: NodeState, peers: seq<NodeId>, p: NodeId)
    requires NextIndexOk(n) && p in peers
    ensures forall q :: q in ReplicateTo(id, n, p) ==> q in ReplicateAll(id, n, peers)
    decreases |peers|
  {
    if peers[0] != p {
      Replicated(id, n, peers[1..], p);
    }
  }

  function Taking(n: NodeState, frm: NodeId, e: LogEntry): NodeState {
    BecomeFollower(n, e.term, Some(frm)).(log := [e])
  }

  /** A follower with nothing takes the first entry. */
  lemma TakesFirst(id: NodeId, peers: seq<NodeId>, n: NodeState, frm: NodeId, e: LogEntry, net: set<Packet>)
    requires n.log == [] && n.currentTerm <= e.term && e.index == 1 && n.running && NextIndexOk(n)
    requires Packet(frm, id, AppendEntries(e.term, frm, 0, 0, [e], 0)) in net
    ensures Runs(Deliver(Packet(frm, id, AppendEntries(e.term, frm, 0, 0, [e], 0))), net, id, peers, n,
                 Taking(n, frm, e),
                 [Packet(id, frm, AppendEntriesReply(e.term, true, 1))])
  {
    assert Divergence([], 0, [e]) == 0;
    assert [e][0..] == [e];
  }

  function Committing(id: NodeId, peers: seq<NodeId>, n: NodeState, frm: NodeId): NodeState {
    AdvanceTo(id, n.(matchIndex := n.matchIndex[frm := 1], nextIndex := n.nextIndex[frm := 2]), Min(1, |n.log|)).0
  }

  /** One follower of two is enough to commit it. */
  lemma CommitsFirst(id: NodeId, peers: seq<NodeId>, n: NodeState, frm: NodeId, net: set<Packet>)
    returns (replies: seq<Packet>)
    requires |peers| == 2 && frm in peers && n.role.Leader? && |n.log| == 1 && n.log[0].term == n.currentTerm
    requires n.commitIndex == 0 && NextIndexOk(n) && n.matchIndex == FromKeys(peers, 0) && n.running
    requires Packet(frm, id, AppendEntriesReply(n.currentTerm, true, 1)) in net
    ensures Runs(Deliver(Packet(frm, id, AppendEntriesReply(n.currentTerm, true, 1))), net, id, peers, n,
                 Committing(id, peers, n, frm), replies)
  {
    var n1 := n.(matchIndex := n.matchIndex[frm := 1], nextIndex := n.nextIndex[frm := 2]);
    HeldByOne(peers, n1.matchIndex, frm);
    assert MayCommit(peers, n1, 1);
    assert CommitPoint(peers, n1, 1) == 1;
    hide CommitPoint, Holders, FromKeys, AdvanceTo;
    replies := AdvanceTo(id, n1, 1).1;
  }

  lemma {:induction false} HeldByOne(peers: seq<NodeId>, matchIndex: map<NodeId, Index>, p: NodeId)
    requires p in peers && p in matchIndex && matchIndex[p] >= 1
    ensures Holders(peers, matchIndex, 1) >= 1
    decreases |peers|
  {
    if peers[0] != p {
      HeldByOne(peers[1..], matchIndex, p);
    }
  }

  // -- a stale win
  //
  // Node 3 stands in term 1 and node 2 votes for it, but the reply is held up. Node 1 then
  // wins term 2 and commits an entry. The reply arrives, and node 3 leads term 1.

  const WRITE := Command(PUT, [107], [118])
  const ENTRY := LogEntry(2, 1, WRITE)

  const ASKED := Packet(3, 2, RequestVote(1, 3, 0, 0))
  const HELD := Packet(2, 3, RequestVoteReply(1, true))
  const ASKED_AGAIN := Packet(1, 2, RequestVote(2, 1, 0, 0))
  const VOTED := Packet(2, 1, RequestVoteReply(2, true))
  const REQUEST := Packet(0, 1, ClientRequest(0, WRITE))
  const SENT := Packet(1, 2, AppendEntries(2, 1, 0, 0, [ENTRY], 0))
  const TAKEN := Packet(2, 1, AppendEntriesReply(2, true, 1))

  function StaleRun(): seq<Event> {
    [ElectionTimeout(3), Deliver(ASKED), ElectionTimeout(1), ElectionTimeout(1), Deliver(ASKED_AGAIN), Deliver(VOTED),
     Submit(1, 0, WRITE), Deliver(REQUEST), Deliver(SENT), Deliver(TAKEN), Deliver(HELD)]
  }

  const ONE_TRIES := Standing(1, FRESH)
  const ONE_STANDS := Standing(1, ONE_TRIES)
  const ONE_LEADS := Winning(1, [2, 3], ONE_STANDS, 2)
  const ONE_ACCEPTED := Accepting(ONE_LEADS, 0, 0, WRITE)
  const ONE_COMMITTED := Committing(1, [2, 3], ONE_ACCEPTED, 2)
  const TWO_VOTED := Voting(FRESH, 3, 1)
  const TWO_VOTED_AGAIN := Voting(TWO_VOTED, 1, 2)
  const TWO_TOOK := Taking(TWO_VOTED_AGAIN, 1, ENTRY)
  const THREE_STANDS := Standing(3, FRESH)
  const THREE_LEADS := Winning(3, [1, 2], THREE_STANDS, 2)

  lemma Stale1(s: System)
    requires Is(s, FRESH, FRESH, FRESH, {})
    ensures Is(Apply(THREE, s, ElectionTimeout(3)), FRESH, FRESH, THREE_STANDS, {ASKED})
  {
    Stands(3, [1, 2], FRESH, {});
    var sent := Broadcast(3, [1, 2], RequestVote(1, 3, 0, 0));
    assert sent[1] == ASKED;
    hide Apply, Runs, Broadcast, Standing;
    ByThree(s, FRESH, FRESH, FRESH, {}, ElectionTimeout(3), THREE_STANDS, sent, {ASKED});
  }

  lemma Stale2(s: System)
    requires Is(s, FRESH, FRESH, THREE_STANDS, {ASKED})
    ensures Is(Apply(THREE, s, Deliver(ASKED)), FRESH, TWO_VOTED, THREE_STANDS, {HELD})
  {
    Grants(2, [1, 3], FRESH, 3, 1, {ASKED});
    hide Apply, Runs, Standing, Voting;
    ByTwo(s, FRESH, FRESH, THREE_STANDS, {ASKED}, Deliver(ASKED), TWO_VOTED, [HELD], {HELD});
  }

  lemma Stale3(s: System)
    requires Is(s, FRESH, TWO_VOTED, THREE_STANDS, {HELD})
    ensures Is(Apply(THREE, s, ElectionTimeout(1)), ONE_TRIES, TWO_VOTED, THREE_STANDS, {HELD})
  {
    Stands(1, [2, 3], FRESH, {HELD});
    hide Apply, Runs, Broadcast, Standing, Voting;
    ByOne(s, FRESH, TWO_VOTED, THREE_STANDS, {HELD}, ElectionTimeout(1), ONE_TRIES,
          Broadcast(1, [2, 3], RequestVote(1, 1, 0, 0)), {HELD});
  }

  lemma Stale4(s: System)
    requires Is(s, ONE_TRIES, TWO_VOTED, THREE_STANDS, {HELD})
    ensures Is(Apply(THREE, s, ElectionTimeout(1)), ONE_STANDS, TWO_VOTED, THREE_STANDS, {HELD, ASKED_AGAIN})
  {
    Stands(1, [2, 3], ONE_TRIES, {HELD});
    var sent := Broadcast(1, [2, 3], RequestVote(2, 1, 0, 0));
    assert sent[0] == ASKED_AGAIN && ONE_TRIES.currentTerm == 1 && ONE_TRIES.log == [];
    hide Apply, Runs, Broadcast, Standing, Voting;
    ByOne(s, ONE_TRIES, TWO_VOTED, THREE_STANDS, {HELD}, ElectionTimeout(1), ONE_STANDS, sent, {HELD, ASKED_AGAIN});
  }

  lemma Stale5(s: System)
    requires Is(s, ONE_STANDS, TWO_VOTED, THREE_STANDS, {HELD, ASKED_AGAIN})
    ensures Is(Apply(THREE, s, Deliver(ASKED_AGAIN)), ONE_STANDS, TWO_VOTED_AGAIN, THREE_STANDS, {HELD, VOTED})
  {
    Grants(2, [1, 3], TWO_VOTED, 1, 2, {HELD, ASKED_AGAIN});
    hide Apply, Runs, Standing, Voting;
    ByTwo(s, ONE_STANDS, TWO_VOTED, THREE_STANDS, {HELD, ASKED_AGAIN}, Deliver(ASKED_AGAIN), TWO_VOTED_AGAIN, [VOTED],
          {HELD, VOTED});
  }

  lemma Stale6(s: System)
    requires Is(s, ONE_STANDS, TWO_VOTED_AGAIN, THREE_STANDS, {HELD, VOTED})
    ensures Is(Apply(THREE, s, Deliver(VOTED)), ONE_LEADS, TWO_VOTED_AGAIN, THREE_STANDS, {HELD})
  {
    assert ONE_STANDS.currentTerm == 2;
    Wins(1, [2, 3], ONE_STANDS, 2, {HELD, VOTED});
    hide Apply, Runs, Standing, Voting, Winning, ReplicateAll, NextIndexOk;
    ByOne(s, ONE_STANDS, TWO_VOTED_AGAIN, THREE_STANDS, {HELD, VOTED}, Deliver(VOTED), ONE_LEADS,
          ReplicateAll(1, ONE_LEADS, [2, 3]), {HELD});
  }

  lemma Stale7(s: System)
    requires Is(s, ONE_LEADS, TWO_VOTED_AGAIN, THREE_STANDS, {HELD})
    ensures Is(Apply(THREE, s, Submit(1, 0, WRITE)), ONE_LEADS, TWO_VOTED_AGAIN, THREE_STANDS, {HELD, REQUEST})
  {
    hide Apply, Standing, Voting, Winning;
    Submitted(s, ONE_LEADS, TWO_VOTED_AGAIN, THREE_STANDS, {HELD}, 1, 0, WRITE);
  }

  lemma OneLeadsFacts()
    ensures NextIndexOk(ONE_LEADS) && ONE_LEADS.role.Leader? && ONE_LEADS.log == [] && ONE_LEADS.commitIndex == 0
            && ONE_LEADS.running
    ensures ONE_LEADS.nextIndex == FromKeys([2, 3], 1) && ONE_LEADS.matchIndex == FromKeys([2, 3], 0)
            && ONE_LEADS.currentTerm == 2
  {
  }

  lemma Stale8(s: System)
    requires Is(s, ONE_LEADS, TWO_VOTED_AGAIN, THREE_STANDS, {HELD, REQUEST})
    ensures Is(Apply(THREE, s, Deliver(REQUEST)), ONE_ACCEPTED, TWO_VOTED_AGAIN, THREE_STANDS, {HELD, SENT})
  {
    OneLeadsFacts();
    hide Apply, Runs, Standing, Voting, Winning, ReplicateAll, NextIndexOk, FromKeys;
    AcceptsFirst(1, [2, 3], ONE_LEADS, 0, 0, WRITE, {HELD, REQUEST});
    SendsFirst(1, [2, 3], ONE_ACCEPTED, 2);
    ByOne(s, ONE_LEADS, TWO_VOTED_AGAIN, THREE_STANDS, {HELD, REQUEST}, Deliver(REQUEST), ONE_ACCEPTED,
          ReplicateAll(1, ONE_ACCEPTED, [2, 3]), {HELD, SENT});
  }

  lemma Stale9(s: System)
    requires Is(s, ONE_ACCEPTED, TWO_VOTED_AGAIN, THREE_STANDS, {HELD, SENT})
    ensures Is(Apply(THREE, s, Deliver(SENT)), ONE_ACCEPTED, TWO_TOOK, THREE_STANDS, {HELD, TAKEN})
  {
    TakesFirst(2, [1, 3], TWO_VOTED_AGAIN, 1, ENTRY, {HELD, SENT});
    hide Apply, Runs, Standing, Voting, Winning, Accepting, Taking;
    ByTwo(s, ONE_ACCEPTED, TWO_VOTED_AGAIN, THREE_STANDS, {HELD, SENT}, Deliver(SENT), TWO_TOOK, [TAKEN],
          {HELD, TAKEN});
  }

  lemma Stale10(s: System)
    requires Is(s, ONE_ACCEPTED, TWO_TOOK, THREE_STANDS, {HELD, TAKEN})
    ensures Is(Apply(THREE, s, Deliver(TAKEN)), ONE_COMMITTED, TWO_TOOK, THREE_STANDS, {HELD})
  {
    OneLeadsFacts();
    hide Apply, Runs, Standing, Voting, Winning, Taking, Committing, NextIndexOk, FromKeys;
    assert NextIndexOk(ONE_ACCEPTED) by {
      AcceptsFirst(1, [2, 3], ONE_LEADS, 0, 0, WRITE, {REQUEST});
    }
    var replies := CommitsFirst(1, [2, 3], ONE_ACCEPTED, 2, {HELD, TAKEN});
    ByOne(s, ONE_ACCEPTED, TWO_TOOK, THREE_STANDS, {HELD, TAKEN}, Deliver(TAKEN), ONE_COMMITTED, replies, {HELD});
  }

  lemma Stale11(s: System)
    requires Is(s, ONE_COMMITTED, TWO_TOOK, THREE_STANDS, {HELD})
    ensures Is(Apply(THREE, s, Deliver(HELD)), ONE_COMMITTED, TWO_TOOK, THREE_LEADS, {})
  {
    assert THREE_STANDS.currentTerm == 1;
    Wins(3, [1, 2], THREE_STANDS, 2, {HELD});
    hide Apply, Runs, Standing, Voting, Winning, Taking, Committing, ReplicateAll, NextIndexOk;
    ByThree(s, ONE_COMMITTED, TWO_TOOK, THREE_STANDS, {HELD}, Deliver(HELD), THREE_LEADS,
            ReplicateAll(3, THREE_LEADS, [1, 2]), {});
  }

  predicate Moment(k: nat, one: NodeState, two: NodeState, three: NodeState, sent: set<Packet>)
    requires k <= |StaleRun()|
  {
    Is(At(THREE, StaleRun(), k), one, two, three, sent)
  }

  lemma Next(k: nat, ev: Event)
    requires k < |StaleRun()| && StaleRun()[k] == ev
    ensures At(THREE, StaleRun(), k + 1) == Apply(THREE, At(THREE, StaleRun(), k), ev)
  {
    NextMoment(THREE, StaleRun(), k);
  }

  lemma StartsFresh()
    ensures |StaleRun()| == 11 && Moment(0, FRESH, FRESH, FRESH, {})
  {
    ThreeNodes();
  }

  lemma FirstHalf()
    ensures |StaleRun()| == 11
    ensures Moment(1, FRESH, FRESH, THREE_STANDS, {ASKED})
    ensures Moment(2, FRESH, TWO_VOTED, THREE_STANDS, {HELD})
    ensures Moment(3, ONE_TRIES, TWO_VOTED, THREE_STANDS, {HELD})
    ensures Moment(4, ONE_STANDS, TWO_VOTED, THREE_STANDS, {HELD, ASKED_AGAIN})
    ensures Moment(5, ONE_STANDS, TWO_VOTED_AGAIN, THREE_STANDS, {HELD, VOTED})
    ensures Moment(6, ONE_LEADS, TWO_VOTED_AGAIN, THREE_STANDS, {HELD})
  {
    StartsFresh();
    hide At, Apply, Is, Standing, Voting, Winning;
    Next(0, ElectionTimeout(3));
    Stale1(At(THREE, StaleRun(), 0));
    Next(1, Deliver(ASKED));
    Stale2(At(THREE, StaleRun(), 1));
    Next(2, ElectionTimeout(1));
    Stale3(At(THREE, StaleRun(), 2));
    Next(3, ElectionTimeout(1));
    Stale4(At(THREE, StaleRun(), 3));
    Next(4, Deliver(ASKED_AGAIN));
    Stale5(At(THREE, StaleRun(), 4));
    Next(5, Deliver(VOTED));
    Stale6(At(THREE, StaleRun(), 5));
  }

  lemma SecondHalf()
    requires Moment(6, ONE_LEADS, TWO_VOTED_AGAIN, THREE_STANDS, {HELD})
    ensures Moment(7, ONE_LEADS, TWO_VOTED_AGAIN, THREE_STANDS, {HELD, REQUEST})
    ensures Moment(8, ONE_ACCEPTED, TWO_VOTED_AGAIN, THREE_STANDS, {HELD, SENT})
    ensures Moment(9, ONE_ACCEPTED, TWO_TOOK, THREE_STANDS, {HELD, TAKEN})
    ensures Moment(10, ONE_COMMITTED, TWO_TOOK, THREE_STANDS, {HELD})
    ensures Moment(11, ONE_COMMITTED, TWO_TOOK, THREE_LEADS, {})
  {
    hide At, Apply, Is, Standing, Voting, Winning, Taking, Accepting, Committing;
    Next(6, Submit(1, 0, WRITE));
    Stale7(At(THREE, StaleRun(), 6));
    Next(7, Deliver(REQUEST));
    Stale8(At(THREE, StaleRun(), 7));
    Next(8, Deliver(SENT));
    Stale9(At(THREE, StaleRun(), 8));
    Next(9, Deliver(TAKEN));
    Stale10(At(THREE, StaleRun(), 9));
    Next(10, Deliver(HELD));
    Stale11(At(THREE, StaleRun(), 10));
  }

  lemma NotLeadingYet(k: nat, one: NodeState, two: NodeState, sent: set<Packet>)
    requires k <= |StaleRun()| && Moment(k, one, two, THREE_STANDS, sent)
    ensures !Leads(THREE, At(THREE, StaleRun(), k), 3)
  {
    hide At, StaleRun;
  }

  lemma NeverLedBefore(k: nat)
    requires 1 <= k <= 10
    ensures |StaleRun()| == 11 && !Leads(THREE, At(THREE, StaleRun(), k), 3)
  {
    hide At, Moment, Leads, Standing, Voting, Winning, Taking, Accepting, Committing, StaleRun;
    FirstHalf();
    SecondHalf();
    match k
    case 1 => NotLeadingYet(1, FRESH, FRESH, {ASKED});
    case 2 => NotLeadingYet(2, FRESH, TWO_VOTED, {HELD});
    case 3 => NotLeadingYet(3, ONE_TRIES, TWO_VOTED, {HELD});
    case 4 => NotLeadingYet(4, ONE_STANDS, TWO_VOTED, {HELD, ASKED_AGAIN});
    case 5 => NotLeadingYet(5, ONE_STANDS, TWO_VOTED_AGAIN, {HELD, VOTED});
    case 6 => NotLeadingYet(6, ONE_LEADS, TWO_VOTED_AGAIN, {HELD});
    case 7 => NotLeadingYet(7, ONE_LEADS, TWO_VOTED_AGAIN, {HELD, REQUEST});
    case 8 => NotLeadingYet(8, ONE_ACCEPTED, TWO_VOTED_AGAIN, {HELD, SENT});
    case 9 => NotLeadingYet(9, ONE_ACCEPTED, TWO_TOOK, {HELD, TAKEN});
    case 10 => NotLeadingYet(10, ONE_COMMITTED, TWO_TOOK, {HELD});
  }

  lemma AtTheEnd()
    ensures |StaleRun()| == 11 && CommittedThen(THREE, StaleRun(), 10, 1, 1, ENTRY)
    ensures Leads(THREE, At(THREE, StaleRun(), 11), 3) && At(THREE, StaleRun(), 11).nodes[3].currentTerm == 1
  {
    hide At, StaleRun, Standing, Voting, Winning, Taking, Accepting, Committing;
    ThreeNodes();
    FirstHalf();
    SecondHalf();
    StaleFacts();
  }

  lemma StaleFacts()
    ensures ONE_COMMITTED.commitIndex == 1 && ONE_COMMITTED.log == [ENTRY]
    ensures THREE_LEADS.role.Leader? && THREE_LEADS.running && THREE_LEADS.currentTerm == 1
  {
    OneLeadsFacts();
    hide FromKeys;
  }

  /** The leader-completeness checker does object to a run in which nothing goes wrong. */
  lemma StaleWinHappens()
    ensures ValidConfig(THREE) && |StaleRun()| == 11 && StaleWin(THREE, StaleRun(), 11)
  {
    AtTheEnd();
    hide At, Leads, CommittedThen, StaleRun;
    assert !LedAt(THREE, StaleRun(), 10, 1, 3) by {
      if LedAt(THREE, StaleRun(), 10, 1, 3) {
        var k: nat :| 1 <= k <= 10 && Leads(THREE, At(THREE, StaleRun(), k), 3)
          && At(THREE, StaleRun(), k).nodes[3].currentTerm == 1;
        NeverLedBefore(k);
      }
    }
    assert StaleWinBy(THREE, StaleRun(), 11, 3);
  }

  // -- an ok reply for somebody else's entry
  //
  // Node 1 leads term 1 and takes a request it never replicates. Node 2 wins term 2 and
  // commits another request at the same index. Node 1, following now, applies that entry and
  // finds a reply owed for its index.

  const LOST_WRITE := Command(PUT, [107], [97])
  const LOST_ENTRY := LogEntry(1, 1, LOST_WRITE)

  const FIRST_ASKED := Packet(1, 2, RequestVote(1, 1, 0, 0))
  const FIRST_VOTED := Packet(2, 1, RequestVoteReply(1, true))
  const LOST_REQUEST := Packet(0, 1, ClientRequest(0, LOST_WRITE))
  const NEXT_ASKED := Packet(2, 3, RequestVote(2, 2, 0, 0))
  const NEXT_VOTED := Packet(3, 2, RequestVoteReply(2, true))
  const NEXT_REQUEST := Packet(0, 2, ClientRequest(1, WRITE))
  const NEXT_SENT := Packet(2, 3, AppendEntries(2, 2, 0, 0, [ENTRY], 0))
  const NEXT_TAKEN := Packet(3, 2, AppendEntriesReply(2, true, 1))
  const BEAT := Packet(2, 1, AppendEntries(2, 2, 0, 0, [ENTRY], 1))
  const WRONG_REPLY := Packet(1, 0, ClientReply(0, true, None))

  function LostRun(): seq<Event> {
    [ElectionTimeout(1), Deliver(FIRST_ASKED), Deliver(FIRST_VOTED), Submit(1, 0, LOST_WRITE), Deliver(LOST_REQUEST),
     ElectionTimeout(2), Deliver(NEXT_ASKED), Deliver(NEXT_VOTED), Submit(2, 1, WRITE), Deliver(NEXT_REQUEST),
     Deliver(NEXT_SENT), Deliver(NEXT_TAKEN), Heartbeat(2), Deliver(BEAT)]
  }

  /** The log of one entry is overwritten, the new entry applied, and the reply owed for it paid. */
  function Overwriting(id: NodeId, n: NodeState, frm: NodeId, e: LogEntry): NodeState {
    AdvanceTo(id, Taking(n, frm, e), 1).0
  }

  lemma Overwrites(id: NodeId, peers: seq<NodeId>, n: NodeState, frm: NodeId, e: LogEntry, owed: (NodeId, nat),
                   net: set<Packet>)
    requires |n.log| == 1 && n.log[0].term < e.term && n.currentTerm < e.term && e.index == 1
    requires n.commitIndex == 0 && n.lastApplied == 0 && n.running && NextIndexOk(n)
             && n.pendingClients == map[1 := owed]
    requires Packet(frm, id, AppendEntries(e.term, frm, 0, 0, [e], 1)) in net
    ensures Runs(Deliver(Packet(frm, id, AppendEntries(e.term, frm, 0, 0, [e], 1))), net, id, peers, n,
                 Overwriting(id, n, frm, e),
                 [Packet(id, owed.0, ClientReply(owed.1, true, None))]
                   + [Packet(id, frm, AppendEntriesReply(e.term, true, 1))])
  {
    assert Divergence(n.log, 0, [e]) == 0;
    assert n.log[..0] + [e][0..] == [e];
    assert Merged(n.log, 0, [e]) == [e];
    assert Replies(id, n.pendingClients, 1, 1) == [];
    hide Merged, MergeRecords, Fold;
  }

  const A_STANDS := Standing(1, FRESH)
  const A_LEADS := Winning(1, [2, 3], A_STANDS, 2)
  const A_ACCEPTED := Accepting(A_LEADS, 0, 0, LOST_WRITE)
  const A_OVERWRITTEN := Overwriting(1, A_ACCEPTED, 2, ENTRY)
  const B_VOTED := Voting(FRESH, 1, 1)
  const B_STANDS := Standing(2, B_VOTED)
  const B_LEADS := Winning(2, [1, 3], B_STANDS, 3)
  const B_ACCEPTED := Accepting(B_LEADS, 0, 1, WRITE)
  const B_COMMITTED := Committing(2, [1, 3], B_ACCEPTED, 3)
  const C_VOTED := Voting(FRESH, 2, 2)
  const C_TOOK := Taking(C_VOTED, 2, ENTRY)

  lemma Lost1(s: System)
    requires Is(s, FRESH, FRESH, FRESH, {})
    ensures Is(Apply(THREE, s, ElectionTimeout(1)), A_STANDS, FRESH, FRESH, {FIRST_ASKED})
  {
    Stands(1, [2, 3], FRESH, {});
    var sent := Broadcast(1, [2, 3], RequestVote(1, 1, 0, 0));
    assert sent[0] == FIRST_ASKED;
    hide Apply, Runs, Broadcast, Standing;
    ByOne(s, FRESH, FRESH, FRESH, {}, ElectionTimeout(1), A_STANDS, sent, {FIRST_ASKED});
  }

  lemma Lost2(s: System)
    requires Is(s, A_STANDS, FRESH, FRESH, {FIRST_ASKED})
    ensures Is(Apply(THREE, s, Deliver(FIRST_ASKED)), A_STANDS, B_VOTED, FRESH, {FIRST_VOTED})
  {
    Grants(2, [1, 3], FRESH, 1, 1, {FIRST_ASKED});
    hide Apply, Runs, Standing, Voting;
    ByTwo(s, A_STANDS, FRESH, FRESH, {FIRST_ASKED}, Deliver(FIRST_ASKED), B_VOTED, [FIRST_VOTED], {FIRST_VOTED});
  }

  lemma Lost3(s: System)
    requires Is(s, A_STANDS, B_VOTED, FRESH, {FIRST_VOTED})
    ensures Is(Apply(THREE, s, Deliver(FIRST_VOTED)), A_LEADS, B_VOTED, FRESH, {})
  {
    assert A_STANDS.currentTerm == 1;
    Wins(1, [2, 3], A_STANDS, 2, {FIRST_VOTED});
    hide Apply, Runs, Standing, Voting, Winning, ReplicateAll, NextIndexOk;
    ByOne(s, A_STANDS, B_VOTED, FRESH, {FIRST_VOTED}, Deliver(FIRST_VOTED), A_LEADS, ReplicateAll(1, A_LEADS, [2, 3]),
          {});
  }

  lemma Lost4(s: System)
    requires Is(s, A_LEADS, B_VOTED, FRESH, {})
    ensures Is(Apply(THREE, s, Submit(1, 0, LOST_WRITE)), A_LEADS, B_VOTED, FRESH, {LOST_REQUEST})
  {
    hide Apply, Standing, Voting, Winning;
    Submitted(s, A_LEADS, B_VOTED, FRESH, {}, 1, 0, LOST_WRITE);
  }

  lemma NewLeader(id: NodeId, peers: seq<NodeId>, n: NodeState, frm: NodeId)
    requires n.running && n.log == [] && n.commitIndex == 0
    ensures var n' := Winning(id, peers, n, frm);
            && NextIndexOk(n') && n'.role.Leader? && n'.log == [] && n'.commitIndex == 0 && n'.running
            && n'.nextIndex == FromKeys(peers, 1) && n'.matchIndex == FromKeys(peers, 0)
              && n'.currentTerm == n.currentTerm
            && n'.pendingClients == n.pendingClients && n'.lastApplied == n.lastApplied
  {
  }

  lemma Lost5(s: System)
    requires Is(s, A_LEADS, B_VOTED, FRESH, {LOST_REQUEST})
    ensures Is(Apply(THREE, s, Deliver(LOST_REQUEST)), A_ACCEPTED, B_VOTED, FRESH, {})
  {
    NewLeader(1, [2, 3], A_STANDS, 2);
    hide Apply, Runs, Standing, Voting, Winning, ReplicateAll, NextIndexOk, FromKeys;
    AcceptsFirst(1, [2, 3], A_LEADS, 0, 0, LOST_WRITE, {LOST_REQUEST});
    ByOne(s, A_LEADS, B_VOTED, FRESH, {LOST_REQUEST}, Deliver(LOST_REQUEST), A_ACCEPTED,
          ReplicateAll(1, A_ACCEPTED, [2, 3]), {});
  }

  lemma Lost6(s: System)
    requires Is(s, A_ACCEPTED, B_VOTED, FRESH, {})
    ensures Is(Apply(THREE, s, ElectionTimeout(2)), A_ACCEPTED, B_STANDS, FRESH, {NEXT_ASKED})
  {
    Stands(2, [1, 3], B_VOTED, {});
    var sent := Broadcast(2, [1, 3], RequestVote(2, 2, 0, 0));
    assert sent[1] == NEXT_ASKED && B_VOTED.currentTerm == 1 && B_VOTED.log == [];
    hide Apply, Runs, Broadcast, Standing, Voting, Winning, Accepting;
    ByTwo(s, A_ACCEPTED, B_VOTED, FRESH, {}, ElectionTimeout(2), B_STANDS, sent, {NEXT_ASKED});
  }

  lemma Lost7(s: System)
    requires Is(s, A_ACCEPTED, B_STANDS, FRESH, {NEXT_ASKED})
    ensures Is(Apply(THREE, s, Deliver(NEXT_ASKED)), A_ACCEPTED, B_STANDS, C_VOTED, {NEXT_VOTED})
  {
    Grants(3, [1, 2], FRESH, 2, 2, {NEXT_ASKED});
    hide Apply, Runs, Standing, Voting, Winning, Accepting;
    ByThree(s, A_ACCEPTED, B_STANDS, FRESH, {NEXT_ASKED}, Deliver(NEXT_ASKED), C_VOTED, [NEXT_VOTED], {NEXT_VOTED});
  }

  lemma Lost8(s: System)
    requires Is(s, A_ACCEPTED, B_STANDS, C_VOTED, {NEXT_VOTED})
    ensures Is(Apply(THREE, s, Deliver(NEXT_VOTED)), A_ACCEPTED, B_LEADS, C_VOTED, {})
  {
    assert B_STANDS.currentTerm == 2;
    Wins(2, [1, 3], B_STANDS, 3, {NEXT_VOTED});
    hide Apply, Runs, Standing, Voting, Winning, Accepting, ReplicateAll, NextIndexOk;
    ByTwo(s, A_ACCEPTED, B_STANDS, C_VOTED, {NEXT_VOTED}, Deliver(NEXT_VOTED), B_LEADS,
          ReplicateAll(2, B_LEADS, [1, 3]), {});
  }

  lemma Lost9(s: System)
    requires Is(s, A_ACCEPTED, B_LEADS, C_VOTED, {})
    ensures Is(Apply(THREE, s, Submit(2, 1, WRITE)), A_ACCEPTED, B_LEADS, C_VOTED, {NEXT_REQUEST})
  {
    hide Apply, Standing, Voting, Winning, Accepting;
    Submitted(s, A_ACCEPTED, B_LEADS, C_VOTED, {}, 2, 1, WRITE);
  }

  lemma Lost10(s: System)
    requires Is(s, A_ACCEPTED, B_LEADS, C_VOTED, {NEXT_REQUEST})
    ensures Is(Apply(THREE, s, Deliver(NEXT_REQUEST)), A_ACCEPTED, B_ACCEPTED, C_VOTED, {NEXT_SENT})
  {
    assert B_STANDS.currentTerm == 2;
    NewLeader(2, [1, 3], B_STANDS, 3);
    hide Apply, Runs, Standing, Voting, Winning, ReplicateAll, NextIndexOk;
    AcceptsFirst(2, [1, 3], B_LEADS, 0, 1, WRITE, {NEXT_REQUEST});
    SendsFirst(2, [1, 3], B_ACCEPTED, 3);
    ByTwo(s, A_ACCEPTED, B_LEADS, C_VOTED, {NEXT_REQUEST}, Deliver(NEXT_REQUEST), B_ACCEPTED,
          ReplicateAll(2, B_ACCEPTED, [1, 3]), {NEXT_SENT});
  }

  lemma Lost11(s: System)
    requires Is(s, A_ACCEPTED, B_ACCEPTED, C_VOTED, {NEXT_SENT})
    ensures Is(Apply(THREE, s, Deliver(NEXT_SENT)), A_ACCEPTED, B_ACCEPTED, C_TOOK, {NEXT_TAKEN})
  {
    TakesFirst(3, [1, 2], C_VOTED, 2, ENTRY, {NEXT_SENT});
    hide Apply, Runs, Standing, Voting, Winning, Accepting, Taking;
    ByThree(s, A_ACCEPTED, B_ACCEPTED, C_VOTED, {NEXT_SENT}, Deliver(NEXT_SENT), C_TOOK, [NEXT_TAKEN], {NEXT_TAKEN});
  }

  lemma BFacts()
    ensures NextIndexOk(B_ACCEPTED) && B_ACCEPTED.role.Leader? && B_ACCEPTED.log == [ENTRY]
            && B_ACCEPTED.commitIndex == 0
    ensures B_ACCEPTED.running && B_ACCEPTED.matchIndex == FromKeys([1, 3], 0) && B_ACCEPTED.currentTerm == 2
    ensures B_ACCEPTED.nextIndex == FromKeys([1, 3], 1)
  {
    NewLeader(2, [1, 3], B_STANDS, 3);
    assert B_STANDS.currentTerm == 2;
  }

  lemma Lost12(s: System)
    requires Is(s, A_ACCEPTED, B_ACCEPTED, C_TOOK, {NEXT_TAKEN})
    ensures Is(Apply(THREE, s, Deliver(NEXT_TAKEN)), A_ACCEPTED, B_COMMITTED, C_TOOK, {})
  {
    BFacts();
    hide Apply, Runs, Standing, Voting, Winning, Accepting, Taking, Committing, NextIndexOk, FromKeys;
    var replies := CommitsFirst(2, [1, 3], B_ACCEPTED, 3, {NEXT_TAKEN});
    ByTwo(s, A_ACCEPTED, B_ACCEPTED, C_TOOK, {NEXT_TAKEN}, Deliver(NEXT_TAKEN), B_COMMITTED, replies, {});
  }

  lemma CommittedFacts(id: NodeId, peers: seq<NodeId>, n: NodeState, frm: NodeId)
    requires |n.log| == 1 && n.role.Leader? && NextIndexOk(n) && n.commitIndex == 0
    ensures var n' := Committing(id, peers, n, frm);
            && n'.commitIndex == 1 && n'.log == n.log && n'.role.Leader? && n'.running == n.running
            && n'.currentTerm == n.currentTerm && n'.nextIndex == n.nextIndex[frm := 2] && NextIndexOk(n')
  {
  }

  lemma Lost13(s: System)
    requires Is(s, A_ACCEPTED, B_COMMITTED, C_TOOK, {})
    ensures Is(Apply(THREE, s, Heartbeat(2)), A_ACCEPTED, B_COMMITTED, C_TOOK, {BEAT})
  {
    BFacts();
    CommittedFacts(2, [1, 3], B_ACCEPTED, 3);
    hide Standing, Voting, Winning, Accepting, Taking, Committing, NextIndexOk, ReplicateAll;
    SendsFirst(2, [1, 3], B_COMMITTED, 1);
    assert Runs(Heartbeat(2), {}, 2, [1, 3], B_COMMITTED, B_COMMITTED, ReplicateAll(2, B_COMMITTED, [1, 3]));
    hide Apply, Runs;
    ByTwo(s, A_ACCEPTED, B_COMMITTED, C_TOOK, {}, Heartbeat(2), B_COMMITTED, ReplicateAll(2, B_COMMITTED, [1, 3]),
          {BEAT});
  }

  lemma AFacts()
    ensures A_ACCEPTED.log == [LOST_ENTRY] && A_ACCEPTED.currentTerm == 1 && A_ACCEPTED.commitIndex == 0
    ensures A_ACCEPTED.lastApplied == 0 && A_ACCEPTED.running && NextIndexOk(A_ACCEPTED)
            && A_ACCEPTED.pendingClients == map[1 := (0, 0)]
  {
    NewLeader(1, [2, 3], A_STANDS, 2);
    assert A_STANDS.currentTerm == 1;
  }

  lemma Lost14()
    ensures Runs(Deliver(BEAT), {BEAT}, 1, [2, 3], A_ACCEPTED, A_OVERWRITTEN,
                 [WRONG_REPLY] + [Packet(1, 2, AppendEntriesReply(2, true, 1))])
  {
    AFacts();
    hide Standing, Winning, Accepting, Runs, NextIndexOk;
    Overwrites(1, [2, 3], A_ACCEPTED, 2, ENTRY, (0, 0), {BEAT});
  }

  predicate LostMoment(k: nat, one: NodeState, two: NodeState, three: NodeState, sent: set<Packet>)
    requires k <= |LostRun()|
  {
    Is(At(THREE, LostRun(), k), one, two, three, sent)
  }

  lemma LostNext(k: nat, ev: Event)
    requires k < |LostRun()| && LostRun()[k] == ev
    ensures At(THREE, LostRun(), k + 1) == Apply(THREE, At(THREE, LostRun(), k), ev)
  {
    NextMoment(THREE, LostRun(), k);
  }

  lemma LostStart()
    ensures |LostRun()| == 14 && LostMoment(0, FRESH, FRESH, FRESH, {})
  {
    ThreeNodes();
  }

  lemma LostFirstHalf()
    ensures |LostRun()| == 14 && LostMoment(4, A_LEADS, B_VOTED, FRESH, {LOST_REQUEST})
    ensures LostMoment(7, A_ACCEPTED, B_STANDS, C_VOTED, {NEXT_VOTED})
  {
    LostStart();
    hide At, Apply, Is, Standing, Voting, Winning, Accepting;
    LostNext(0, ElectionTimeout(1));
    Lost1(At(THREE, LostRun(), 0));
    LostNext(1, Deliver(FIRST_ASKED));
    Lost2(At(THREE, LostRun(), 1));
    LostNext(2, Deliver(FIRST_VOTED));
    Lost3(At(THREE, LostRun(), 2));
    LostNext(3, Submit(1, 0, LOST_WRITE));
    Lost4(At(THREE, LostRun(), 3));
    LostNext(4, Deliver(LOST_REQUEST));
    Lost5(At(THREE, LostRun(), 4));
    LostNext(5, ElectionTimeout(2));
    Lost6(At(THREE, LostRun(), 5));
    LostNext(6, Deliver(NEXT_ASKED));
    Lost7(At(THREE, LostRun(), 6));
  }

  lemma LostSecondHalf()
    requires |LostRun()| == 14 && LostMoment(7, A_ACCEPTED, B_STANDS, C_VOTED, {NEXT_VOTED})
    ensures LostMoment(13, A_ACCEPTED, B_COMMITTED, C_TOOK, {BEAT})
  {
    hide At, Apply, Is, Standing, Voting, Winning, Accepting, Taking, Committing;
    LostNext(7, Deliver(NEXT_VOTED));
    Lost8(At(THREE, LostRun(), 7));
    LostNext(8, Submit(2, 1, WRITE));
    Lost9(At(THREE, LostRun(), 8));
    LostNext(9, Deliver(NEXT_REQUEST));
    Lost10(At(THREE, LostRun(), 9));
    LostNext(10, Deliver(NEXT_SENT));
    Lost11(At(THREE, LostRun(), 10));
    LostNext(11, Deliver(NEXT_TAKEN));
    Lost12(At(THREE, LostRun(), 11));
    LostNext(12, Heartbeat(2));
    Lost13(At(THREE, LostRun(), 12));
  }

  const LOST_DEBT := Debt(1, 0, 0, LOST_WRITE)

  /** The request is booked when node 1 takes it. */
  lemma LostBooked()
    ensures |LostRun()| == 14
    ensures var book := Debts(THREE, LostRun()[..5]); (1, 1) in book && book[(1, 1)] == LOST_DEBT
  {
    hide At, Debts, Standing, Voting, Winning, Accepting, LostRun, NextIndexOk, Booked, WellFormed;
    LostFifth();
    ALeads();
    LostFirstHalf();
    NextDebts(THREE, LostRun(), 4);
    BookedBy(At(THREE, LostRun(), 4), Debts(THREE, LostRun()[..4]));
  }

  lemma LostFifth()
    ensures |LostRun()| == 14 && LostRun()[4] == Deliver(LOST_REQUEST)
  {
  }

  lemma ALeads()
    ensures A_LEADS.role.Leader? && A_LEADS.currentTerm == 1 && A_LEADS.log == [] && A_LEADS.running
  {
  }

  lemma BookedBy(s: System, book: Book)
    requires WellFormed(THREE, s) && 1 in s.nodes && LOST_REQUEST in s.net
    requires var n := s.nodes[1]; n.role.Leader? && n.currentTerm == 1 && n.log == [] && n.running
    ensures var book' := Booked(THREE, book, s, Deliver(LOST_REQUEST)); (1, 1) in book' && book'[(1, 1)] == LOST_DEBT
  {
    assert 1 in Members(THREE);
    assert Accepts(THREE, s, Deliver(LOST_REQUEST));
  }

  predicate AsksNodeOne(ev: Event) {
    ev.Deliver? && ev.packet.msg.ClientRequest? && ev.packet.dst == 1
  }

  lemma NothingMoreForOne(k: nat)
    requires 5 <= k < |LostRun()|
    ensures !AsksNodeOne(LostRun()[k])
  {
  }

  lemma BookKept(s: System, book: Book, ev: Event, key: (NodeId, Index))
    requires WellFormed(THREE, s) && key in book && key.0 == 1 && !AsksNodeOne(ev)
    ensures var book' := Booked(THREE, book, s, ev); key in book' && book'[key] == book[key]
  {
  }

  lemma {:induction false} StaysBooked(k: nat)
    requires 5 <= k <= 14
    ensures |LostRun()| == 14
    ensures var book := Debts(THREE, LostRun()[..k]); (1, 1) in book && book[(1, 1)] == LOST_DEBT
    decreases k
  {
    hide At, Debts, LostRun, Booked, AsksNodeOne;
    if k == 5 {
      LostBooked();
    } else {
      StaysBooked(k - 1);
      NextDebts(THREE, LostRun(), k - 1);
      NothingMoreForOne(k - 1);
      BookKept(At(THREE, LostRun(), k - 1), Debts(THREE, LostRun()[..k - 1]), LostRun()[k - 1], (1, 1));
    }
  }

  /** An ok reply, to the client that asked for LOST_WRITE, sent on applying another entry. */
  lemma OkReplyForAnotherEntry()
    ensures ValidConfig(THREE) && |LostRun()| == 14 && LostRun()[13] == Deliver(BEAT)
    ensures var s, s' := At(THREE, LostRun(), 13), At(THREE, LostRun(), 14);
            && CanReceive(THREE, s, BEAT) && Ready(s.nodes[1], BEAT.msg)
            && WRONG_REPLY in Received(THREE, s, BEAT).sent && OkReply(WRONG_REPLY)
            && (1, 1) in Debts(THREE, LostRun()[..14])
            && var debt := Debts(THREE, LostRun()[..14])[(1, 1)];
               && debt.client == WRONG_REPLY.dst && debt.requestId == WRONG_REPLY.msg.requestId
               && s'.nodes[1].lastApplied == 1
               && !Honoured(s'.nodes[1], 1, debt)
  {
    ThreeNodes();
    LostFirstHalf();
    LostSecondHalf();
    StaysBooked(14);
    var s := At(THREE, LostRun(), 13);
    assert LostRun()[13] == Deliver(BEAT);
    LostNext(13, Deliver(BEAT));
    hide At, Debts, Standing, Voting, Winning, Accepting, Taking, Committing, LostRun;
    Lost14();
    ByOne(s, A_ACCEPTED, B_COMMITTED, C_TOOK, {BEAT}, Deliver(BEAT), A_OVERWRITTEN,
          [WRONG_REPLY] + [Packet(1, 2, AppendEntriesReply(2, true, 1))], {});
    OverwrittenFacts();
  }

  lemma OverwrittenFacts()
    ensures A_OVERWRITTEN.lastApplied == 1 && A_OVERWRITTEN.log == [ENTRY]
  {
    AFacts();
    hide Standing, Winning, Accepting, Fold, Unpaid;
  }

  // -- entries newer than the term
  //
  // Node 1 leads term 1 and sends its first entry to node 3, which has heard nothing yet.
  // The disk of node 3 fails between the entry and the state record.

  const FIRST_SENT := Packet(1, 3, AppendEntries(1, 1, 0, 0, [LOST_ENTRY], 0))

  function TornRun(): seq<Event> {
    [ElectionTimeout(1), Deliver(FIRST_ASKED), Deliver(FIRST_VOTED), Submit(1, 0, LOST_WRITE), Deliver(LOST_REQUEST),
     DeliverAndFail(FIRST_SENT, 1), Event.Restart(3)]
  }

  predicate TornMoment(k: nat, one: NodeState, two: NodeState, three: NodeState, sent: set<Packet>)
    requires k <= |TornRun()|
  {
    Is(At(THREE, TornRun(), k), one, two, three, sent) && 3 in At(THREE, TornRun(), k).wals
      && At(THREE, TornRun(), k).wals[3] == []
  }

  predicate SparesThree(ev: Event) {
    match ev
    case ElectionTimeout(id) => id != 3
    case Deliver(p) => p.dst != 3
    case Submit(_, _, _) => true
    case _ => false
  }

  lemma WalKept(s: System, ev: Event)
    requires WellFormed(THREE, s) && SparesThree(ev) && 3 in s.wals
    ensures 3 in Apply(THREE, s, ev).wals && Apply(THREE, s, ev).wals[3] == s.wals[3]
  {
    hide Received, TimedOut, Ready;
  }

  lemma TornNext(k: nat, ev: Event)
    requires k < |TornRun()| && TornRun()[k] == ev
    ensures At(THREE, TornRun(), k + 1) == Apply(THREE, At(THREE, TornRun(), k), ev)
    ensures SparesThree(ev) && 3 in At(THREE, TornRun(), k).wals ==>
      3 in At(THREE, TornRun(), k + 1).wals && At(THREE, TornRun(), k + 1).wals[3] == At(THREE, TornRun(), k).wals[3]
  {
    NextMoment(THREE, TornRun(), k);
    hide Apply, At;
    if SparesThree(ev) && 3 in At(THREE, TornRun(), k).wals {
      WalKept(At(THREE, TornRun(), k), ev);
    }
  }

  lemma Torn5(s: System)
    requires Is(s, A_LEADS, B_VOTED, FRESH, {LOST_REQUEST})
    ensures Is(Apply(THREE, s, Deliver(LOST_REQUEST)), A_ACCEPTED, B_VOTED, FRESH, {FIRST_SENT})
  {
    NewLeader(1, [2, 3], A_STANDS, 2);
    assert A_STANDS.currentTerm == 1;
    hide Apply, Runs, Standing, Voting, Winning, ReplicateAll, NextIndexOk;
    AcceptsFirst(1, [2, 3], A_LEADS, 0, 0, LOST_WRITE, {LOST_REQUEST});
    SendsFirst(1, [2, 3], A_ACCEPTED, 3);
    ByOne(s, A_LEADS, B_VOTED, FRESH, {LOST_REQUEST}, Deliver(LOST_REQUEST), A_ACCEPTED,
          ReplicateAll(1, A_ACCEPTED, [2, 3]), {FIRST_SENT});
  }

  lemma TornStart()
    ensures |TornRun()| == 7 && TornMoment(0, FRESH, FRESH, FRESH, {})
  {
    ThreeNodes();
  }

  lemma TornElects()
    ensures |TornRun()| == 7 && TornMoment(3, A_LEADS, B_VOTED, FRESH, {})
  {
    hide At, Apply, Is, Standing, Voting, Winning;
    TornStart();
    TornNext(0, ElectionTimeout(1));
    Lost1(At(THREE, TornRun(), 0));
    TornNext(1, Deliver(FIRST_ASKED));
    Lost2(At(THREE, TornRun(), 1));
    TornNext(2, Deliver(FIRST_VOTED));
    Lost3(At(THREE, TornRun(), 2));
  }

  lemma TornBegins()
    ensures |TornRun()| == 7 && TornMoment(5, A_ACCEPTED, B_VOTED, FRESH, {FIRST_SENT})
  {
    hide At, Apply, Is, Standing, Voting, Winning, Accepting;
    TornElects();
    TornNext(3, Submit(1, 0, LOST_WRITE));
    Lost4(At(THREE, TornRun(), 3));
    TornNext(4, Deliver(LOST_REQUEST));
    Torn5(At(THREE, TornRun(), 4));
  }

  /** What node 3 had written when its disk failed, and what recovery makes of it. */
  lemma TornWrites()
    ensures OnAppendEntries(3, FRESH, 1, FIRST_SENT.msg).written == [EntryRecord(LOST_ENTRY), StateRecord(1, None)]
    ensures Replay([EntryRecord(LOST_ENTRY)]) == Recovered(0, None, [LOST_ENTRY])
  {
    assert Divergence([], 0, [LOST_ENTRY]) == 0;
    assert [LOST_ENTRY][0..] == [LOST_ENTRY];
    assert [EntryRecord(LOST_ENTRY)][1..] == [];
    assert EMPTY.log + [LOST_ENTRY] == [LOST_ENTRY];
    assert ReplayFrom(Recovered(0, None, [LOST_ENTRY]), []) == Recovered(0, None, [LOST_ENTRY]);
  }

  lemma TornDelivery(s: System)
    requires WellFormed(THREE, s) && 3 in s.nodes && s.nodes[3] == FRESH && FIRST_SENT in s.net && 3 in s.wals
             && s.wals[3] == []
    ensures var s' := Apply(THREE, s, DeliverAndFail(FIRST_SENT, 1));
            3 in s'.nodes && 3 in s'.wals && s'.wals[3] == [EntryRecord(LOST_ENTRY)]
  {
    TornWrites();
    assert 3 in Members(THREE) && EntriesFollow(FIRST_SENT.msg);
    hide OnAppendEntries, Peers;
    var written := Received(THREE, s, FIRST_SENT).written;
    assert s.wals[3] + written[..1] == [EntryRecord(LOST_ENTRY)];
    hide Received;
  }

  lemma TornDies()
    ensures |TornRun()| == 7
    ensures var s := At(THREE, TornRun(), 6); 3 in s.nodes && 3 in s.wals && s.wals[3] == [EntryRecord(LOST_ENTRY)]
  {
    assert TornRun()[5] == DeliverAndFail(FIRST_SENT, 1);
    hide At, Apply, Standing, Voting, Winning, Accepting, TornRun;
    TornBegins();
    TornNext(5, DeliverAndFail(FIRST_SENT, 1));
    TornDelivery(At(THREE, TornRun(), 5));
  }

  /** A node can come back with an entry of a term that it no longer knows of. */
  lemma EntryNewerThanTerm()
    ensures ValidConfig(THREE) && |TornRun()| == 7 && 3 in At(THREE, TornRun(), 7).nodes
    ensures var n := At(THREE, TornRun(), 7).nodes[3];
            n.running && n.currentTerm == 0 && n.log == [LOST_ENTRY] && LOST_ENTRY.term == 1
  {
    ThreeNodes();
    TornWrites();
    assert TornRun()[6] == Event.Restart(3);
    hide At, Apply, TornRun, Replay, OnAppendEntries;
    TornDies();
    TornNext(6, Event.Restart(3));
    Restarts(At(THREE, TornRun(), 6));
  }

  lemma Restarts(s: System)
    requires WellFormed(THREE, s) && 3 in s.nodes && 3 in s.wals && 3 in Members(THREE)
    requires Replay(s.wals[3]) == Recovered(0, None, [LOST_ENTRY])
    ensures var n := Apply(THREE, s, Event.Restart(3)).nodes[3];
            n.running && n.currentTerm == 0 && n.log == [LOST_ENTRY]
  {
    hide Replay;
  }
}
