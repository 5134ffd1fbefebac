// What a run has done so far, kept beside the system for the proofs; no step reads it.
//
// `elections` remembers the order in which elections happened. A crash in the middle of
// `on_append_entries` can leave a node with entries newer than its recovered term, and a
// candidate may collect its last vote long after a newer term was won, so neither terms
// nor log contents say which election came first.
module History {
  import opened Types
  import opened Log
  import opened Messages
  import opened Wal
  import opened NodeSpec
  import opened Cluster

  /** A granted vote: the voter's log when it voted, and how many elections had happened. */
  datatype Vote = Vote(candidate: NodeId, log: seq<LogEntry>, at: nat)

  datatype Election = Election(leader: NodeId, voters: set<NodeId>, log: seq<LogEntry>, order: nat)

  /** `index` was found on every node of `quorum` by the leader of `term`. */
  datatype Commit = Commit(term: Term, index: Index, quorum: set<NodeId>)

  datatype History = History(
    candidacies: map<(Term, NodeId), seq<LogEntry>>,
    votes: map<(Term, NodeId), Vote>,
    elections: map<Term, Election>,
    ledger: map<Term, seq<LogEntry>>,
    acks: map<(Term, NodeId), Index>,
    commits: set<Commit>)

  const NOTHING_YET := History(map[], map[], map[], map[], map[], {})

  // -- recording

  function RecordAck(h: History, term: Term, id: NodeId, index: Index): History {
    h.(acks := h.acks[(term, id) := Max(Get(h.acks, (term, id), 0), index)])
  }

  function RecordVote(h: History, term: Term, id: NodeId, candidate: NodeId, log: seq<LogEntry>): History {
    if (term, id) in h.votes then h
    else h.(votes := h.votes[(term, id) := Vote(candidate, log, |h.elections|)])
  }

  function RecordCandidacy(h: History, term: Term, id: NodeId, log: seq<LogEntry>): History {
    RecordVote(h.(candidacies := h.candidacies[(term, id) := log]), term, id, id, log)
  }

  function RecordElection(h: History, term: Term, id: NodeId, voters: set<NodeId>, log: seq<LogEntry>): History {
    h.(elections := h.elections[term := Election(id, voters, log, |h.elections|)],
       ledger := h.ledger[term := log])
  }

  function RecordWin(h: History, id: NodeId, n: NodeState): History {
    RecordAck(RecordElection(h, n.currentTerm, id, n.votesGranted, n.log), n.currentTerm, id, |n.log|)
  }

  function RecordLog(h: History, term: Term, log: seq<LogEntry>): History {
    h.(ledger := h.ledger[term := log])
  }

  /** The leader itself and the peers it knows to hold `index`. */
  function HoldingQuorum(c: Config, id: NodeId, n: NodeState, index: Index): set<NodeId> {
    {id} + set p | p in Peers(c, id) && Get(n.matchIndex, p, 0) >= index
  }

  function RecordCommit(h: History, c: Config, id: NodeId, before: NodeState, after: NodeState): History {
    if after.commitIndex == before.commitIndex then h
    else h.(commits := h.commits + {Commit(after.currentTerm, after.commitIndex,
                                           HoldingQuorum(c, id, after, after.commitIndex))})
  }

  function RecordRequestVote(h: History, id: NodeId, n: NodeState, frm: NodeId, m: Message): History
    requires m.RequestVote?
  {
    var effect := OnRequestVote(id, n, frm, m);
    if effect.sent[0].msg.voteGranted then
      RecordVote(h, effect.node.currentTerm, id, m.candidateId, effect.node.log)
    else
      h
  }

  function RecordRequestVoteReply(c: Config, h: History, id: NodeId, n: NodeState, frm: NodeId, m: Message): History
    requires m.RequestVoteReply?
  {
    var after := OnRequestVoteReply(id, Peers(c, id), n, frm, m).node;
    if after.role.Leader? && !n.role.Leader? then RecordWin(h, id, after) else h
  }

  function RecordAppendEntries(h: History, id: NodeId, n: NodeState, m: Message): History
    requires m.AppendEntries?
  {
    if m.term >= n.currentTerm && Consistent(n.log, m.prevLogIndex, m.prevLogTerm) then
      RecordAck(h, m.term, id, m.prevLogIndex + |m.entries|)
    else
      h
  }

  function RecordAppendEntriesReply(c: Config, h: History, id: NodeId, n: NodeState, frm: NodeId, m: Message): History
    requires m.AppendEntriesReply? && NextIndexOk(n)
  {
    var after := OnAppendEntriesReply(id, Peers(c, id), n, frm, m).node;
    if n.role.Leader? && after.role.Leader? then RecordCommit(h, c, id, n, after) else h
  }

  function RecordClientRequest(c: Config, h: History, id: NodeId, n: NodeState, frm: NodeId, m: Message): History
    requires m.ClientRequest? && NextIndexOk(n)
  {
    if n.role.Leader? then
      var after := OnClientRequest(id, Peers(c, id), n, frm, m).node;
      RecordCommit(RecordAck(RecordLog(h, n.currentTerm, after.log), n.currentTerm, id, |after.log|), c, id, n, after)
    else
      h
  }

  function RecordDelivery(c: Config, h: History, n: NodeState, p: Packet): History
    requires Ready(n, p.msg)
  {
    match p.msg
    case RequestVote(_, _, _, _) => RecordRequestVote(h, p.dst, n, p.src, p.msg)
    case RequestVoteReply(_, _) => RecordRequestVoteReply(c, h, p.dst, n, p.src, p.msg)
    case AppendEntries(_, _, _, _, _, _) => RecordAppendEntries(h, p.dst, n, p.msg)
    case AppendEntriesReply(_, _, _) => RecordAppendEntriesReply(c, h, p.dst, n, p.src, p.msg)
    case ClientRequest(_, _) => RecordClientRequest(c, h, p.dst, n, p.src, p.msg)
    case ClientReply(_, _, _) => h
  }

  function RecordTimeout(c: Config, h: History, id: NodeId, n: NodeState): History {
    var after := OnElectionTimeout(id, Peers(c, id), n).node;
    var h1 := RecordCandidacy(h, after.currentTerm, id, n.log);
    if after.role.Leader? then RecordWin(h1, id, after) else h1
  }

  /** The entry a failing client request leaves behind, if its record survived. */
  function RecordFailure(h: History, n: NodeState, p: Packet, cut: nat): History {
    if p.msg.ClientRequest? && n.role.Leader? && cut > 0 then
      RecordLog(h, n.currentTerm, n.log + [LogEntry(n.currentTerm, |n.log| + 1, p.msg.command)])
    else
      h
  }

  function Recorded(c: Config, h: History, s: System, ev: Event): History
    requires WellFormed(c, s)
  {
    match ev
    case Deliver(p) =>
      if CanReceive(c, s, p) && Ready(s.nodes[p.dst], p.msg) then RecordDelivery(c, h, s.nodes[p.dst], p) else h
    case DeliverAndFail(p, cut) =>
      if CanReceive(c, s, p) && Ready(s.nodes[p.dst], p.msg) then RecordFailure(h, s.nodes[p.dst], p, cut) else h
    case ElectionTimeout(id) =>
      if IsUp(c, s, id) then RecordTimeout(c, h, id, s.nodes[id]) else h
    case _ => h
  }

  function Past(c: Config, events: seq<Event>): History {
    if events == [] then NOTHING_YET
    else Recorded(c, Past(c, events[..|events| - 1]), Run(c, events[..|events| - 1]), events[|events| - 1])
  }

  // -- the invariant over hard states and history

  /** Every entry of `log` was put there by its term's leader, after exactly what precedes it. */
  ghost predicate Grounded(log: seq<LogEntry>, ledger: map<Term, seq<LogEntry>>) {
    forall i {:trigger GroundedAt(log, ledger, i)} :: 0 <= i < |log| ==> GroundedAt(log, ledger, i)
  }

  ghost predicate GroundedAt(log: seq<LogEntry>, ledger: map<Term, seq<LogEntry>>, i: nat)
    requires i < |log|
  {
    && log[i].index == i + 1
    && log[i].term in ledger
    && log[..i + 1] <= ledger[log[i].term]
  }

  predicate Quorum(c: Config, q: set<NodeId>) {
    q <= Members(c) && |q| >= |c.ids| / 2 + 1
  }

  /** Some leader newer than `term`, among the first `at` elected, lacks its first `i` entries. */
  ghost predicate Lost(h: History, term: Term, i: nat, at: nat)
    requires term in h.ledger && i <= |h.ledger[term]|
  {
    exists w :: w in h.elections && w > term && h.elections[w].order < at
      && !(h.ledger[term][..i] <= h.elections[w].log)
  }

  ghost predicate Kept(h: History, term: Term, i: nat, log: seq<LogEntry>, at: nat)
    requires term in h.ledger && i <= |h.ledger[term]|
  {
    h.ledger[term][..i] <= log || Lost(h, term, i, at)
  }

  ghost predicate KeptUpTo(h: History, term: Term, top: nat, log: seq<LogEntry>, at: nat)
    requires term in h.ledger && top <= |h.ledger[term]|
  {
    forall i {:trigger Kept(h, term, i, log, at)} :: 0 <= i <= top ==> Kept(h, term, i, log, at)
  }

  type Hards = map<NodeId, Recovered>

  ghost predicate HardsOk(c: Config, hs: Hards, h: History) {
    && hs.Keys == Members(c)
    && forall id {:trigger Grounded(hs[id].log, h.ledger)} :: id in hs ==> Grounded(hs[id].log, h.ledger)
  }

  /** A leader's log is grounded too, and holds nothing newer than its term. */
  ghost predicate LeaderLogOk(h: History, t: Term)
    requires t in h.ledger
  {
    && Grounded(h.ledger[t], h.ledger)
    && forall i :: 0 <= i < |h.ledger[t]| ==> h.ledger[t][i].term <= t
  }

  ghost predicate LedgerOk(h: History) {
    && h.ledger.Keys == h.elections.Keys
    && forall t {:trigger LeaderLogOk(h, t)} :: t in h.ledger ==> LeaderLogOk(h, t)
  }

  ghost predicate ElectionOk(c: Config, h: History, t: Term)
    requires t in h.elections && t in h.ledger
  {
    var e := h.elections[t];
    && e.order < |h.elections|
    && e.leader in e.voters
    && Quorum(c, e.voters)
    && (t, e.leader) in h.candidacies && h.candidacies[(t, e.leader)] == e.log
    && (forall v :: v in e.voters ==>
          (t, v) in h.votes && h.votes[(t, v)].candidate == e.leader && h.votes[(t, v)].at <= e.order)
    && e.log <= h.ledger[t]
    && (forall i :: 0 <= i < |e.log| ==>
          e.log[i].term < t && e.log[i].term in h.elections && h.elections[e.log[i].term].order < e.order)
    && (forall i :: |e.log| <= i < |h.ledger[t]| ==> h.ledger[t][i].term == t)
  }

  ghost predicate ElectionsOk(c: Config, h: History) {
    && h.ledger.Keys == h.elections.Keys
    && forall t {:trigger ElectionOk(c, h, t)} :: t in h.elections ==> ElectionOk(c, h, t)
  }

  ghost predicate VoteOk(c: Config, hs: Hards, h: History, t: Term, v: NodeId)
    requires (t, v) in h.votes
  {
    var vote := h.votes[(t, v)];
    && v in hs
    && t <= hs[v].term
    && (t == hs[v].term ==> hs[v].vote == Some(vote.candidate))
    && vote.at <= |h.elections|
    && Grounded(vote.log, h.ledger)
    && (t, vote.candidate) in h.candidacies
    && var log := h.candidacies[(t, vote.candidate)];
       && UpToDate(LastTerm(log), |log|, vote.log)
       && (forall i :: 0 <= i < |log| && log[i].term in h.elections && v in h.elections[log[i].term].voters ==>
             log[i].term <= t)
  }

  ghost predicate VotesOk(c: Config, hs: Hards, h: History) {
    forall t, v {:trigger VoteOk(c, hs, h, t, v)} :: (t, v) in h.votes ==> VoteOk(c, hs, h, t, v)
  }

  ghost predicate CandidacyOk(c: Config, hs: Hards, h: History, t: Term, id: NodeId)
    requires (t, id) in h.candidacies
  {
    var log := h.candidacies[(t, id)];
    && id in hs
    && t <= hs[id].term
    && Grounded(log, h.ledger)
    && (t, id) in h.votes && h.votes[(t, id)].candidate == id
    && (forall i :: 0 <= i < |log| && log[i].term in h.elections && h.elections[log[i].term].leader == id ==>
          log[i].term < t)
  }

  ghost predicate CandidaciesOk(c: Config, hs: Hards, h: History) {
    forall t, id {:trigger CandidacyOk(c, hs, h, t, id)} :: (t, id) in h.candidacies ==> CandidacyOk(c, hs, h, t, id)
  }

  ghost predicate AckOk(hs: Hards, h: History, t: Term, v: NodeId)
    requires (t, v) in h.acks
  {
    && v in hs
    && t in h.ledger
    && h.acks[(t, v)] <= |h.ledger[t]|
    && t <= hs[v].term
    && KeptUpTo(h, t, h.acks[(t, v)], hs[v].log, |h.elections|)
  }

  ghost predicate AcksOk(hs: Hards, h: History) {
    forall t, v {:trigger AckOk(hs, h, t, v)} :: (t, v) in h.acks ==> AckOk(hs, h, t, v)
  }

  /** A voter still held what it had acknowledged, unless an earlier winner lacked it. */
  ghost predicate VoterKept(h: History, t: Term, v: NodeId, u: Term)
    requires (t, v) in h.acks && (u, v) in h.votes
  {
    && t in h.ledger
    && h.acks[(t, v)] <= |h.ledger[t]|
    && KeptUpTo(h, t, h.acks[(t, v)], h.votes[(u, v)].log, h.votes[(u, v)].at)
  }

  ghost predicate VotersKept(h: History) {
    forall t, v, u {:trigger VoterKept(h, t, v, u)} ::
      (t, v) in h.acks && (u, v) in h.votes && t < u ==> VoterKept(h, t, v, u)
  }

  ghost predicate CommitOk(c: Config, h: History, k: Commit) {
    && k.term in h.ledger
    && 1 <= k.index <= |h.ledger[k.term]|
    && h.ledger[k.term][k.index - 1].term == k.term
    && Quorum(c, k.quorum)
    && forall v :: v in k.quorum ==> (k.term, v) in h.acks && h.acks[(k.term, v)] >= k.index
  }

  ghost predicate CommitsOk(c: Config, h: History) {
    forall k {:trigger CommitOk(c, h, k)} :: k in h.commits ==> CommitOk(c, h, k)
  }

  ghost predicate HistoryInv(c: Config, hs: Hards, h: History) {
    && ValidConfig(c)
    && HardsOk(c, hs, h)
    && LedgerOk(h)
    && ElectionsOk(c, h)
    && VotesOk(c, hs, h)
    && CandidaciesOk(c, hs, h)
    && AcksOk(hs, h)
    && VotersKept(h)
    && CommitsOk(c, h)
  }

  // -- growth

  /** Nothing recorded is ever forgotten or changed; leaders' logs only get longer. */
  ghost predicate Grows(h: History, h': History) {
    && (forall k :: k in h.candidacies ==> k in h'.candidacies && h'.candidacies[k] == h.candidacies[k])
    && (forall k :: k in h.votes ==> k in h'.votes && h'.votes[k] == h.votes[k])
    && (forall t :: t in h.elections ==> t in h'.elections && h'.elections[t] == h.elections[t])
    && (forall t :: t in h.ledger ==> t in h'.ledger && h.ledger[t] <= h'.ledger[t])
    && (forall k :: k in h.acks ==> k in h'.acks && h.acks[k] <= h'.acks[k])
    && h.commits <= h'.commits
  }
}
