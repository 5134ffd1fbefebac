// Which nodes have an election timer running, and what that means for electing a leader.
//
// `Cluster` lets any running node time out. In groundhog/raft/node.py a leader has no election
// timer, and stepping down does not arm one: only granting a vote, hearing a leader, standing
// and restarting do. `Armed` follows the timers beside a run.
module Timers {
  import opened Types
  import opened Log
  import opened Messages
  import opened Wal
  import opened NodeSpec
  import opened Cluster
  import opened History
  import opened HistorySteps
  import opened Invariant
  import opened Handlers
  import opened Safety
  import opened Theorems
  import opened HandlerLaws
  import opened Commits
  import opened Elections
  import opened Availability

  // -- the timers

  predicate GrantsIn(effect: Effect) {
    effect.sent != [] && effect.sent[0].msg.RequestVoteReply? && effect.sent[0].msg.voteGranted
  }

  /** The nodes whose election timer runs after `ev`, if it ran at those of `armed` before. */
  function Rearmed(c: Config, armed: set<NodeId>, s: System, ev: Event): set<NodeId>
    requires WellFormed(c, s)
  {
    match ev
    case Deliver(p) =>
      if !CanReceive(c, s, p) || !Ready(s.nodes[p.dst], p.msg) then armed
      else
        var n, effect := s.nodes[p.dst], Received(c, s, p);
        if p.msg.RequestVote? && GrantsIn(effect) then armed + {p.dst}
        else if p.msg.AppendEntries? && p.msg.term >= n.currentTerm then armed + {p.dst}
        else if effect.node.role.Leader? && !n.role.Leader? then armed - {p.dst}
        else armed
    case DeliverAndFail(p, _) =>
      if CanReceive(c, s, p) && Ready(s.nodes[p.dst], p.msg) then armed - {p.dst} else armed
    case ElectionTimeout(id) =>
      if !IsUp(c, s, id) then armed
      else if TimedOut(c, s, id).node.role.Leader? then armed - {id}
      else armed + {id}
    case ElectionTimeoutAndFail(id, _) => if IsUp(c, s, id) then armed - {id} else armed
    case Crash(id) => armed - {id}
    case Restart(id) => if id in Members(c) then armed + {id} else armed
    case _ => armed
  }

  /** Every node starts with its timer armed. */
  function Armed(c: Config, events: seq<Event>): set<NodeId> {
    if events == [] then Members(c)
    else Rearmed(c, Armed(c, events[..|events| - 1]), Run(c, events[..|events| - 1]), events[|events| - 1])
  }

  /** Of `more`, after `events`, every timeout is that of a timer that runs. */
  ghost predicate Punctual(c: Config, events: seq<Event>, more: seq<Event>) {
    forall i :: 0 <= i < |more| && more[i].ElectionTimeout? ==> more[i].id in Armed(c, events + more[..i])
  }

  lemma OneRearmed(c: Config, events: seq<Event>, ev: Event)
    ensures Armed(c, events + [ev]) == Rearmed(c, Armed(c, events), Run(c, events), ev)
  {
    var more := events + [ev];
    assert more[..|more| - 1] == events && more[|more| - 1] == ev;
  }

  // -- a node with an armed timer

  lemma {:induction false} StandingIsPunctual(c: Config, events: seq<Event>, x: NodeId, standing: seq<Event>, k: nat)
    requires ValidConfig(c) && IsUp(c, Run(c, events), x) && x in Armed(c, events) && k <= |standing|
    requires forall i :: 0 <= i < |standing| ==> standing[i] == ElectionTimeout(x)
    requires Peers(c, x) != [] || k <= 0
    ensures IsUp(c, Run(c, events + standing[..k]), x) && x in Armed(c, events + standing[..k])
    decreases k
  {
    hide Run, Armed, Peers, OnElectionTimeout;
    if k == 0 {
      assert events + standing[..0] == events;
    } else {
      StandingIsPunctual(c, events, x, standing, k - 1);
      var before := events + standing[..k - 1];
      assert events + standing[..k] == before + [ElectionTimeout(x)];
      StoodOnce(c, before, x);
      OneRearmed(c, before, ElectionTimeout(x));
      StandsOrLeads(x, Peers(c, x), Run(c, before).nodes[x]);
    }
  }

  /** In a campaign only the first events, all alike, are timeouts. */
  lemma OnlyStandingTimesOut(standing: seq<Event>, voting: seq<Event>, counting: seq<Event>, i: nat)
    requires forall k :: 0 <= k < |voting| ==> voting[k].Deliver?
    requires forall k :: 0 <= k < |counting| ==> counting[k].Deliver?
    requires var more := standing + voting + counting; i < |more| && more[i].ElectionTimeout?
    ensures var more := standing + voting + counting;
            i < |standing| && more[i] == standing[i] && more[..i] == standing[..i]
  {
    var more := standing + voting + counting;
    var n := |standing|;
    forall k | n <= k < |more| ensures more[k].Deliver? {
      assert more[k] == if k < n + |voting| then voting[k - n] else counting[k - n - |voting|];
    }
  }

  lemma CampaignIsPunctual(c: Config, events: seq<Event>, x: NodeId, standing: seq<Event>, voting: seq<Event>,
                           counting: seq<Event>)
    requires ValidConfig(c) && IsUp(c, Run(c, events), x) && x in Armed(c, events)
    requires forall i :: 0 <= i < |standing| ==> standing[i] == ElectionTimeout(x)
    requires forall i :: 0 <= i < |voting| ==> voting[i].Deliver?
    requires forall i :: 0 <= i < |counting| ==> counting[i].Deliver?
    requires Peers(c, x) != [] || |standing| == 1
    ensures Punctual(c, events, standing + voting + counting)
  {
    hide Run, Armed, Peers, Members, ValidConfig;
    var more := standing + voting + counting;
    forall i | 0 <= i < |more| && more[i].ElectionTimeout? ensures more[i].id in Armed(c, events + more[..i]) {
      OnlyStandingTimesOut(standing, voting, counting, i);
      StandingIsPunctual(c, events, x, standing, i);
    }
  }

  /** Node `x` has an armed timer, and its log passes against those of a majority that is up. */
  ghost predicate MayWin(c: Config, s: System, armed: set<NodeId>, q: set<NodeId>, x: NodeId)
    requires WellFormed(c, s)
  {
    && Quorum(c, q) && x in q && x in armed
    && forall v :: v in q ==> IsUp(c, s, v) && AtLeast(s.nodes[x].log, s.nodes[v].log)
  }

  lemma LoneQuorum(c: Config, q: set<NodeId>, x: NodeId)
    requires ValidConfig(c) && Quorum(c, q) && x in q && Peers(c, x) == []
    ensures q == {x}
  {
    PeersOf(c.ids, x);
    forall v | v in q ensures v == x {
      assert v in Members(c);
    }
  }

  /** The term after the newest of a quorum's is one in which `x` may be elected. */
  lemma NextTermIsOpen(c: Config, s: System, armed: set<NodeId>, q: set<NodeId>, x: NodeId) returns (t: Term)
    requires ValidConfig(c) && WellFormed(c, s) && MayWin(c, s, armed, q, x)
    ensures Electable(c, s, q, x, t) && IsUp(c, s, x)
    ensures Peers(c, x) == [] ==> t == s.nodes[x].currentTerm + 1
  {
    hide AtLeast, Peers;
    var ids := Among(c.ids, q);
    t := NewestTerm(c, s, ids) + 1;
    forall v | v in q ensures s.nodes[v].currentTerm < t {
      assert IsUp(c, s, v) && v in ids;
    }
    if Peers(c, x) == [] {
      LoneQuorum(c, q, x);
      assert x in ids;
    }
  }

  /** A node whose timer is armed and whose log passes against a majority's can be elected without
      any timer that does not run. */
  lemma ArmedCanBeElected(c: Config, events: seq<Event>, q: set<NodeId>, x: NodeId)
    returns (more: seq<Event>, t: Term)
    requires ValidConfig(c) && MayWin(c, Run(c, events), Armed(c, events), q, x)
    ensures Calm(more) && Punctual(c, events, more)
    ensures Elected(c, Run(c, events), Run(c, events + more), q, x, t)
  {
    assert x in Armed(c, events);
    hide Run, Armed, Elected, Electable, MayWin, OnlyTouched, Calm, Punctual, Peers, ValidConfig;
    t := NextTermIsOpen(c, Run(c, events), Armed(c, events), q, x);
    var standing, voting, counting := CanBeElected(c, events, q, x, t);
    CampaignIsPunctual(c, events, x, standing, voting, counting);
    CampaignIsCalm(standing, voting, counting, x);
    InThree(events, standing, voting, counting);
    more := standing + voting + counting;
  }

  // -- when nobody can

  /** Nothing on the network arms a timer or wins a vote: what a node may still receive is of an
      older term than its own, or asks for a vote it will refuse. */
  predicate Harmless(n: NodeState, m: Message) {
    match m
    case AppendEntries(term, _, _, _, _, _) => term < n.currentTerm
    case RequestVote(term, _, lastIndex, lastTerm) => term < n.currentTerm || !UpToDate(lastTerm, lastIndex, n.log)
    case RequestVoteReply(term, granted) => !granted || term < n.currentTerm
    case _ => true
  }

  ghost predicate Spent(c: Config, s: System)
    requires WellFormed(c, s)
  {
    forall p :: p in s.net && IsUp(c, s, p.dst) ==> Harmless(s.nodes[p.dst], p.msg)
  }

  ghost predicate Leaderless(c: Config, s: System)
    requires WellFormed(c, s)
  {
    forall v {:trigger IsUp(c, s, v)} :: IsUp(c, s, v) ==> !s.nodes[v].role.Leader?
  }

  /** The nodes that are up whose logs `x`'s passes against. */
  function Supporters(c: Config, s: System, x: NodeId): (q: set<NodeId>)
    requires WellFormed(c, s) && x in Members(c)
    ensures q <= Members(c)
    ensures forall v :: v in q <==> IsUp(c, s, v) && AtLeast(s.nodes[x].log, s.nodes[v].log)
  {
    set v | v in Members(c) && IsUp(c, s, v) && AtLeast(s.nodes[x].log, s.nodes[v].log)
  }

  ghost predicate Weak(c: Config, s: System, x: NodeId)
    requires WellFormed(c, s)
  {
    IsUp(c, s, x) && |Supporters(c, s, x)| < |c.ids| / 2 + 1
  }

  /** What `x` passes against, whoever it passes against does not pass more. */
  lemma WeakerStill(c: Config, s: System, x: NodeId, v: NodeId)
    requires WellFormed(c, s) && Weak(c, s, x) && IsUp(c, s, v) && AtLeast(s.nodes[x].log, s.nodes[v].log)
    ensures Weak(c, s, v)
  {
    hide AtLeast;
    forall u | u in Supporters(c, s, v) ensures u in Supporters(c, s, x) {
      PassesThrough(s.nodes[x].log, s.nodes[v].log, s.nodes[u].log);
    }
    SubsetSize(Supporters(c, s, v), Supporters(c, s, x));
  }

  // -- what stays true as long as nobody leads, from the state `s0` on

  ghost predicate NodeStuck(c: Config, s0: System, s: System, v: NodeId)
    requires WellFormed(c, s0) && WellFormed(c, s) && v in Members(c)
  {
    var n0, n := s0.nodes[v], s.nodes[v];
    && n.running == n0.running
    && (n.running ==>
          && n.log == n0.log && n.currentTerm >= n0.currentTerm && !n.role.Leader?
          && (n.role.Candidate? ==>
                && |n.votesGranted| < |c.ids| / 2 + 1
                && (n.currentTerm > n0.currentTerm ==>
                      Weak(c, s0, v) && n.votesGranted <= Supporters(c, s0, v))))
  }

  /** A packet that can still be received is harmless, or asks for or gives a vote that is not enough. */
  ghost predicate PacketStuck(c: Config, s0: System, n: NodeState, p: Packet)
    requires WellFormed(c, s0)
  {
    || Harmless(n, p.msg)
    || (p.msg.RequestVote? && Weak(c, s0, p.src) && p.msg.candidateId == p.src
        && p.msg.lastLogIndex == |s0.nodes[p.src].log| && p.msg.lastLogTerm == LastTerm(s0.nodes[p.src].log)
        && p.msg.term > s0.nodes[p.src].currentTerm)
    || (p.msg.RequestVoteReply? && IsUp(c, s0, p.src) && IsUp(c, s0, p.dst)
        && AtLeast(s0.nodes[p.dst].log, s0.nodes[p.src].log) && p.msg.term > s0.nodes[p.dst].currentTerm)
  }

  ghost predicate Stuck(c: Config, s0: System, s: System, armed: set<NodeId>)
    requires WellFormed(c, s0) && WellFormed(c, s)
  {
    && (forall v :: v in Members(c) ==> NodeStuck(c, s0, s, v))
    && (forall v :: v in armed && IsUp(c, s0, v) ==> Weak(c, s0, v))
    && (forall p :: p in s.net && IsUp(c, s0, p.dst) ==> PacketStuck(c, s0, s.nodes[p.dst], p))
  }

  lemma PacketStaysStuck(c: Config, s0: System, n: NodeState, n': NodeState, p: Packet)
    requires WellFormed(c, s0) && PacketStuck(c, s0, n, p) && n'.log == n.log && n'.currentTerm >= n.currentTerm
    ensures PacketStuck(c, s0, n', p)
  {
  }

  /** What a node may send in answer, whoever receives it. */
  ghost predicate SendStuck(c: Config, s0: System, r: Packet)
    requires WellFormed(c, s0)
  {
    && !r.msg.AppendEntries? && !r.msg.RequestVote?
    && (r.msg.RequestVoteReply? && r.msg.voteGranted && IsUp(c, s0, r.dst) ==>
          && IsUp(c, s0, r.src) && AtLeast(s0.nodes[r.dst].log, s0.nodes[r.src].log)
          && r.msg.term > s0.nodes[r.dst].currentTerm)
  }

  lemma VoterStuck(c: Config, s0: System, s: System, p: Packet)
    requires WellFormed(c, s0) && WellFormed(c, s) && CanReceive(c, s, p) && NodeStuck(c, s0, s, p.dst)
    requires p.msg.RequestVote? && PacketStuck(c, s0, s.nodes[p.dst], p)
    ensures var n, effect := s.nodes[p.dst], OnRequestVote(p.dst, s.nodes[p.dst], p.src, p.msg);
            && StuckFrom(c, s0, n, effect.node, p.dst)
            && (forall r :: r in effect.sent ==> SendStuck(c, s0, r))
            && (GrantsIn(effect) ==> Weak(c, s0, p.dst))
  {
    var n, effect := s.nodes[p.dst], OnRequestVote(p.dst, s.nodes[p.dst], p.src, p.msg);
    hide Weak, Supporters;
    if GrantsIn(effect) {
      assert Weak(c, s0, p.src);
      WeakIsUp(c, s0, p.src);
      WeakerStill(c, s0, p.src, p.dst);
    }
  }

  lemma WeakIsUp(c: Config, s: System, x: NodeId)
    requires WellFormed(c, s) && Weak(c, s, x)
    ensures IsUp(c, s, x)
  {
  }

  /** A handler leaves a stuck node stuck. */
  ghost predicate StuckFrom(c: Config, s0: System, n: NodeState, n': NodeState, v: NodeId)
    requires WellFormed(c, s0) && v in Members(c)
  {
    && n'.running == n.running && n'.log == n.log && n'.currentTerm >= n.currentTerm && !n'.role.Leader?
    && (n'.role.Candidate? ==>
          && |n'.votesGranted| < |c.ids| / 2 + 1
          && (n'.currentTerm > s0.nodes[v].currentTerm ==>
                Weak(c, s0, v) && n'.votesGranted <= Supporters(c, s0, v)))
  }

  lemma CounterStuck(c: Config, s0: System, s: System, p: Packet)
    requires ValidConfig(c) && WellFormed(c, s0) && WellFormed(c, s) && CanReceive(c, s, p)
    requires NodeStuck(c, s0, s, p.dst) && p.msg.RequestVoteReply? && PacketStuck(c, s0, s.nodes[p.dst], p)
    ensures var n, effect := s.nodes[p.dst], OnRequestVoteReply(p.dst, Peers(c, p.dst), s.nodes[p.dst], p.src, p.msg);
            StuckFrom(c, s0, n, effect.node, p.dst) && effect.sent == []
  {
    var n, m := s.nodes[p.dst], p.msg;
    MajorityIsQuorum(c, p.dst);
    if m.term == n.currentTerm && n.role.Candidate? && m.voteGranted {
      assert p.src in Supporters(c, s0, p.dst);
      SubsetSize(n.votesGranted + {p.src}, Supporters(c, s0, p.dst));
    }
  }

  lemma OthersStuck(c: Config, s0: System, s: System, p: Packet)
    requires ValidConfig(c) && WellFormed(c, s0) && WellFormed(c, s) && CanReceive(c, s, p)
    requires NodeStuck(c, s0, s, p.dst) && PacketStuck(c, s0, s.nodes[p.dst], p) && Ready(s.nodes[p.dst], p.msg)
    requires !p.msg.RequestVote? && !p.msg.RequestVoteReply?
    ensures var n, effect := s.nodes[p.dst], Received(c, s, p);
            && StuckFrom(c, s0, n, effect.node, p.dst) && !GrantsIn(effect)
            && (forall r :: r in effect.sent ==> SendStuck(c, s0, r))
            && (p.msg.AppendEntries? ==> p.msg.term < n.currentTerm)
  {
    hide Weak, Supporters, AtLeast, ReplicateAll, AdvanceCommit, Merged, MergeRecords, Peers;
  }

  /** One node has moved, as a stuck node does, and has sent only what leaves others stuck. */
  lemma StuckTogether(c: Config, s0: System, s: System, s': System, armed: set<NodeId>, armed': set<NodeId>, v: NodeId,
                      sent: seq<Packet>)
    requires WellFormed(c, s0) && WellFormed(c, s) && WellFormed(c, s') && Stuck(c, s0, s, armed) && v in Members(c)
    requires s'.nodes == s.nodes[v := s'.nodes[v]] && s'.net == s.net + PacketSet(sent)
    requires s.nodes[v].running && StuckFrom(c, s0, s.nodes[v], s'.nodes[v], v)
    requires forall r :: r in sent && IsUp(c, s0, r.dst) ==> PacketStuck(c, s0, s'.nodes[r.dst], r)
    requires forall u :: u in armed' && IsUp(c, s0, u) ==> u in armed || Weak(c, s0, u)
    ensures Stuck(c, s0, s', armed')
  {
    hide Weak, StuckFrom, PacketStuck, NodeStuck;
    forall u | u in Members(c) ensures NodeStuck(c, s0, s', u) {
      assert NodeStuck(c, s0, s, u);
      OneNodeStuck(c, s0, s, s', u, v);
    }
    forall p | p in s'.net && IsUp(c, s0, p.dst) ensures PacketStuck(c, s0, s'.nodes[p.dst], p) {
      if p in s.net {
        assert NodeStuck(c, s0, s, p.dst) && NodeStuck(c, s0, s', p.dst);
        NoYounger(c, s0, s, s', p.dst, v);
        PacketStaysStuck(c, s0, s.nodes[p.dst], s'.nodes[p.dst], p);
      }
    }
  }

  lemma OneNodeStuck(c: Config, s0: System, s: System, s': System, u: NodeId, v: NodeId)
    requires WellFormed(c, s0) && WellFormed(c, s) && WellFormed(c, s') && u in Members(c) && v in Members(c)
    requires s'.nodes == s.nodes[v := s'.nodes[v]] && NodeStuck(c, s0, s, u)
    requires s.nodes[v].running && StuckFrom(c, s0, s.nodes[v], s'.nodes[v], v)
    ensures NodeStuck(c, s0, s', u)
  {
    hide Weak, Supporters;
  }

  lemma NoYounger(c: Config, s0: System, s: System, s': System, u: NodeId, v: NodeId)
    requires WellFormed(c, s0) && WellFormed(c, s) && WellFormed(c, s') && u in Members(c) && v in Members(c)
    requires s'.nodes == s.nodes[v := s'.nodes[v]] && StuckFrom(c, s0, s.nodes[v], s'.nodes[v], v)
    ensures s'.nodes[u].log == s.nodes[u].log && s'.nodes[u].currentTerm >= s.nodes[u].currentTerm
  {
    hide Weak, Supporters;
  }

  lemma SentStuck(c: Config, s0: System, n: NodeState, r: Packet)
    requires WellFormed(c, s0) && SendStuck(c, s0, r) && IsUp(c, s0, r.dst)
    ensures PacketStuck(c, s0, n, r)
  {
  }

  lemma DispatchStuck(c: Config, s0: System, s: System, p: Packet)
    requires ValidConfig(c) && WellFormed(c, s0) && WellFormed(c, s) && CanReceive(c, s, p)
    requires NodeStuck(c, s0, s, p.dst) && PacketStuck(c, s0, s.nodes[p.dst], p) && Ready(s.nodes[p.dst], p.msg)
    ensures var n, effect := s.nodes[p.dst], Received(c, s, p);
            && StuckFrom(c, s0, n, effect.node, p.dst)
            && (forall r :: r in effect.sent ==> SendStuck(c, s0, r))
            && (p.msg.RequestVote? && GrantsIn(effect) ==> Weak(c, s0, p.dst))
            && (p.msg.AppendEntries? ==> p.msg.term < n.currentTerm)
  {
    hide NodeStuck, PacketStuck, StuckFrom, SendStuck, Weak, Peers, OnRequestVote, OnRequestVoteReply, OnAppendEntries,
         OnAppendEntriesReply, OnClientRequest, GrantsIn, ValidConfig, NextIndexOk;
    if p.msg.RequestVote? {
      VoterStuck(c, s0, s, p);
    } else if p.msg.RequestVoteReply? {
      CounterStuck(c, s0, s, p);
    } else {
      OthersStuck(c, s0, s, p);
    }
  }

  lemma StuckMeans(c: Config, s0: System, s: System, armed: set<NodeId>, p: Packet)
    requires WellFormed(c, s0) && WellFormed(c, s) && Stuck(c, s0, s, armed) && CanReceive(c, s, p)
    ensures NodeStuck(c, s0, s, p.dst) && PacketStuck(c, s0, s.nodes[p.dst], p)
  {
    assert NodeStuck(c, s0, s, p.dst) && IsUp(c, s0, p.dst);
  }

  lemma DeliveryStuck(c: Config, s0: System, s: System, armed: set<NodeId>, p: Packet)
    requires ValidConfig(c) && WellFormed(c, s0) && WellFormed(c, s) && Stuck(c, s0, s, armed)
    requires CanReceive(c, s, p) && Ready(s.nodes[p.dst], p.msg)
    ensures Stuck(c, s0, Apply(c, s, Deliver(p)), Rearmed(c, armed, s, Deliver(p)))
  {
    hide Apply, Received, Ready, Peers, Stuck, NodeStuck, PacketStuck, Weak, SendStuck, StuckFrom, GrantsIn, PacketSet,
         ValidConfig;
    var n, effect := s.nodes[p.dst], Received(c, s, p);
    StuckMeans(c, s0, s, armed, p);
    DeliverEvent(c, s, p, 0);
    DispatchStuck(c, s0, s, p);
    NotLeader(c, s0, n, effect.node, p.dst);
    var s' := Apply(c, s, Deliver(p));
    SentStuckTo(c, s0, s', effect.sent);
    StuckTogether(c, s0, s, s', armed, Rearmed(c, armed, s, Deliver(p)), p.dst, effect.sent);
  }

  lemma SentStuckTo(c: Config, s0: System, s: System, sent: seq<Packet>)
    requires WellFormed(c, s0) && WellFormed(c, s) && forall r :: r in sent ==> SendStuck(c, s0, r)
    ensures forall r :: r in sent && IsUp(c, s0, r.dst) ==> PacketStuck(c, s0, s.nodes[r.dst], r)
  {
    forall r | r in sent && IsUp(c, s0, r.dst) ensures PacketStuck(c, s0, s.nodes[r.dst], r) {
      SentStuck(c, s0, s.nodes[r.dst], r);
    }
  }

  lemma NotLeader(c: Config, s0: System, n: NodeState, n': NodeState, v: NodeId)
    requires WellFormed(c, s0) && v in Members(c) && StuckFrom(c, s0, n, n', v)
    ensures !n'.role.Leader?
  {
  }

  /** The packet asks for a vote for `x` in a term after that of n, with n's log. */
  predicate PleaOf(x: NodeId, n: NodeState, r: Packet) {
    && r.msg.RequestVote? && r.src == x && r.msg.candidateId == x
    && r.msg.lastLogIndex == |n.log| && r.msg.lastLogTerm == LastTerm(n.log) && r.msg.term > n.currentTerm
  }

  lemma StanderStuck(c: Config, s0: System, s: System, x: NodeId)
    requires ValidConfig(c) && WellFormed(c, s0) && WellFormed(c, s) && IsUp(c, s, x) && NodeStuck(c, s0, s, x)
    requires Weak(c, s0, x)
    ensures var n, effect := s.nodes[x], TimedOut(c, s, x);
            && StuckFrom(c, s0, n, effect.node, x)
            && forall r :: r in effect.sent ==> PleaOf(x, n, r)
  {
    var n := s.nodes[x];
    OneOfTwoPasses(s0.nodes[x].log, s0.nodes[x].log);
    assert {x} <= Supporters(c, s0, x);
    SubsetSize({x}, Supporters(c, s0, x));
    StandsOrLeads(x, Peers(c, x), n);
    TimeoutKeepsUp(x, Peers(c, x), n);
    MajorityIsQuorum(c, x);
    hide OnElectionTimeout, AtLeast, Supporters;
  }

  lemma PleasStuck(c: Config, s0: System, s: System, n: NodeState, x: NodeId, sent: seq<Packet>)
    requires WellFormed(c, s0) && WellFormed(c, s) && Weak(c, s0, x)
    requires n.log == s0.nodes[x].log && n.currentTerm >= s0.nodes[x].currentTerm
    requires forall r :: r in sent ==> PleaOf(x, n, r)
    ensures forall r :: r in sent && IsUp(c, s0, r.dst) ==> PacketStuck(c, s0, s.nodes[r.dst], r)
  {
    hide Harmless, Supporters;
  }

  lemma TimeoutStuck(c: Config, s0: System, s: System, armed: set<NodeId>, x: NodeId)
    requires ValidConfig(c) && WellFormed(c, s0) && WellFormed(c, s) && Stuck(c, s0, s, armed)
    requires IsUp(c, s, x) && x in armed
    ensures Stuck(c, s0, Apply(c, s, ElectionTimeout(x)), Rearmed(c, armed, s, ElectionTimeout(x)))
  {
    hide Apply, OnElectionTimeout, Peers, Stuck, NodeStuck, PacketStuck, Weak, StuckFrom, PacketSet, ValidConfig,
         PleaOf;
    hide Rearmed, TimedOut;
    StuckNode(c, s0, s, armed, x);
    TimeoutEvent(c, s, x, 0);
    var effect := TimedOut(c, s, x);
    StanderStuck(c, s0, s, x);
    NotLeader(c, s0, s.nodes[x], effect.node, x);
    TimeoutRearms(c, armed, s, x);
    var s' := Apply(c, s, ElectionTimeout(x));
    PleasStuck(c, s0, s', s.nodes[x], x, effect.sent);
    StuckTogether(c, s0, s, s', armed, armed + {x}, x, effect.sent);
  }

  lemma TimeoutRearms(c: Config, armed: set<NodeId>, s: System, x: NodeId)
    requires WellFormed(c, s) && IsUp(c, s, x) && !TimedOut(c, s, x).node.role.Leader?
    ensures Rearmed(c, armed, s, ElectionTimeout(x)) == armed + {x}
  {
    hide TimedOut;
  }

  lemma StuckNode(c: Config, s0: System, s: System, armed: set<NodeId>, x: NodeId)
    requires WellFormed(c, s0) && WellFormed(c, s) && Stuck(c, s0, s, armed) && IsUp(c, s, x)
    ensures NodeStuck(c, s0, s, x) && s.nodes[x].log == s0.nodes[x].log && !s.nodes[x].role.Leader?
    ensures s.nodes[x].currentTerm >= s0.nodes[x].currentTerm
    ensures x in armed ==> Weak(c, s0, x)
  {
    assert NodeStuck(c, s0, s, x);
    hide Weak, Supporters, PacketStuck;
  }

  lemma SubmitStuck(c: Config, s0: System, s: System, armed: set<NodeId>, ev: Event)
    requires WellFormed(c, s0) && WellFormed(c, s) && Stuck(c, s0, s, armed) && ev.Submit?
    ensures Stuck(c, s0, Apply(c, s, ev), armed)
  {
    hide Weak, Supporters;
    var s' := Apply(c, s, ev);
    forall v | v in Members(c) ensures NodeStuck(c, s0, s', v) {
      assert NodeStuck(c, s0, s, v);
    }
  }

  lemma RaisedStuck(c: Config, s0: System, s: System, armed: set<NodeId>)
    requires WellFormed(c, s0) && WellFormed(c, s) && Stuck(c, s0, s, armed)
    ensures Stuck(c, s0, s.(raised := true), armed)
  {
    hide Weak, Supporters, PacketStuck;
    forall v | v in Members(c) ensures NodeStuck(c, s0, s.(raised := true), v) {
      assert NodeStuck(c, s0, s, v);
    }
  }

  /** No calm event gets such a state unstuck, if only armed timers fire. */
  lemma StepStuck(c: Config, s0: System, s: System, armed: set<NodeId>, ev: Event)
    requires ValidConfig(c) && WellFormed(c, s0) && WellFormed(c, s) && Stuck(c, s0, s, armed) && CalmEvent(ev)
    requires ev.ElectionTimeout? ==> ev.id in armed
    ensures Stuck(c, s0, Apply(c, s, ev), Rearmed(c, armed, s, ev))
  {
    hide Stuck, Ready, NextIndexOk, Complete, Received, TimedOut, PacketSet, ValidConfig;
    match ev
    case Deliver(p) =>
      if CanReceive(c, s, p) {
        if Ready(s.nodes[p.dst], p.msg) {
          DeliveryStuck(c, s0, s, armed, p);
        } else {
          RaisedStuck(c, s0, s, armed);
        }
      }
    case ElectionTimeout(x) =>
      if IsUp(c, s, x) {
        TimeoutStuck(c, s0, s, armed, x);
      }
    case Heartbeat(x) =>
      if IsUp(c, s, x) {
        StuckNode(c, s0, s, armed, x);
      }
    case Submit(_, _, _) => SubmitStuck(c, s0, s, armed, ev);
    case _ =>
  }

  lemma {:induction false} StaysStuck(c: Config, s0: System, events: seq<Event>, more: seq<Event>)
    requires ValidConfig(c) && WellFormed(c, s0) && Stuck(c, s0, Run(c, events), Armed(c, events))
    requires Calm(more) && Punctual(c, events, more)
    ensures Stuck(c, s0, Run(c, events + more), Armed(c, events + more))
    decreases |more|
  {
    hide Run, Armed, Stuck, CalmEvent, ValidConfig, Rearmed, Apply;
    if more == [] {
      NoMore(events);
    } else {
      var k := |more| - 1;
      var before := more[..k];
      LastIsPunctual(c, events, more);
      StaysStuck(c, s0, events, before);
      OneMore(c, events + before, more[k]);
      OneRearmed(c, events + before, more[k]);
      StepStuck(c, s0, Run(c, events + before), Armed(c, events + before), more[k]);
    }
  }

  lemma LastIsPunctual(c: Config, events: seq<Event>, more: seq<Event>)
    requires more != [] && Calm(more) && Punctual(c, events, more)
    ensures var k := |more| - 1;
            && Calm(more[..k]) && Punctual(c, events, more[..k]) && CalmEvent(more[k])
            && (more[k].ElectionTimeout? ==> more[k].id in Armed(c, events + more[..k]))
            && events + more == events + more[..k] + [more[k]]
  {
    hide CalmEvent, Armed;
    var k := |more| - 1;
    assert more == more[..k] + [more[k]];
    InTwo(events, more[..k], [more[k]]);
    forall i | 0 <= i < k && more[..k][i].ElectionTimeout?
      ensures more[..k][i].id in Armed(c, events + more[..k][..i])
    {
      assert more[..k][..i] == more[..i] && more[i].id in Armed(c, events + more[..i]);
    }
  }

  // -- in a run

  /** A candidate has not had a majority of votes. */
  predicate Short(c: Config, n: NodeState) {
    n.role.Candidate? ==> |n.votesGranted| < |c.ids| / 2 + 1
  }

  lemma DispatchShort(c: Config, id: NodeId, n: NodeState, frm: NodeId, m: Message)
    requires ValidConfig(c) && id in Members(c) && Short(c, n) && Ready(n, m)
    ensures Short(c, Dispatch(id, Peers(c, id), n, frm, m).node)
  {
    MajorityIsQuorum(c, id);
    hide ReplicateAll, CommitPoint, Fold, Unpaid, Replies, Merged, MergeRecords, UpToDate, Peers;
    if m.AppendEntries? {
      MergeReaches(n.log, m);
    }
  }

  lemma StepShort(c: Config, s: System, h: History, ev: Event, id: NodeId)
    requires WellFormed(c, s) && Inv(c, s, h) && id in Members(c) && Short(c, s.nodes[id])
    ensures Short(c, Apply(c, s, ev).nodes[id])
  {
    hide Inv, Apply, Recorded, Grows, Replay, Contiguous, Restarted, Received, TimedOut, Ready, Short;
    var n' := Apply(c, s, ev).nodes[id];
    if ev.Deliver? && CanReceive(c, s, ev.packet) && ev.packet.dst == id {
      DeliveryShort(c, s, h, ev.packet);
    } else if ev.ElectionTimeout? && ev.id == id && s.nodes[id].running {
      TimeoutEvent(c, s, id, 0);
      TimeoutShort(c, s, h, id);
    } else if s.nodes[id].running && n'.running {
      RestartOk(c, s, h, id);
      OtherEvents(c, s, ev, id);
    } else {
      DownShort(c, s, h, ev, id);
    }
  }

  lemma DeliveryShort(c: Config, s: System, h: History, p: Packet)
    requires WellFormed(c, s) && Inv(c, s, h) && CanReceive(c, s, p) && Short(c, s.nodes[p.dst])
    ensures Short(c, Apply(c, s, Deliver(p)).nodes[p.dst])
  {
    hide Apply, Dispatch, Ready, Advances;
    DeliveryAdvances(c, s, h, p);
    DeliverEvent(c, s, p, 0);
    DispatchShort(c, p.dst, s.nodes[p.dst], p.src, p.msg);
  }

  lemma TimeoutShort(c: Config, s: System, h: History, id: NodeId)
    requires WellFormed(c, s) && Inv(c, s, h) && IsUp(c, s, id)
    ensures Short(c, TimedOut(c, s, id).node)
  {
    hide OnElectionTimeout;
    var peers, n := Peers(c, id), s.nodes[id];
    StandsOrLeads(id, peers, n);
    MajorityIsQuorum(c, id);
  }

  lemma DownShort(c: Config, s: System, h: History, ev: Event, id: NodeId)
    requires WellFormed(c, s) && Inv(c, s, h) && id in Members(c)
    requires !s.nodes[id].running || !Apply(c, s, ev).nodes[id].running
    ensures Short(c, Apply(c, s, ev).nodes[id])
  {
    hide Inv, Apply, Recorded, Grows, Members;
    if s.nodes[id].running {
      StepKeeps(c, s, h, ev);
      DownIsFollower(c, Apply(c, s, ev), Recorded(c, h, s, ev), id);
    } else {
      DownIsFollower(c, s, h, id);
      DownStaysFollower(c, s, ev, id);
    }
  }

  lemma {:induction false} CandidatesAreShort(c: Config, events: seq<Event>, i: nat, id: NodeId)
    requires ValidConfig(c) && i <= |events| && id in Members(c)
    ensures Short(c, At(c, events, i).nodes[id])
    decreases i
  {
    hide Short, At, PastAt, Apply, Recorded, Inv, Grows, Members;
    if i == 0 {
      NobodyStands(c, events, id);
    } else {
      CandidatesAreShort(c, events, i - 1, id);
      MomentOk(c, events, i - 1, i - 1);
      NextMoment(c, events, i - 1);
      StepShort(c, At(c, events, i - 1), PastAt(c, events, i - 1), events[i - 1], id);
    }
  }

  lemma NobodyStands(c: Config, events: seq<Event>, id: NodeId)
    requires id in Members(c)
    ensures Short(c, At(c, events, 0).nodes[id])
  {
    assert events[..0] == [];
  }

  // -- exactly when a leader can still come about

  /** A stretch with no fault and no restart, in which only armed timers fire, ends with a leader. */
  ghost predicate LeadsTo(c: Config, events: seq<Event>, more: seq<Event>) {
    Calm(more) && Punctual(c, events, more) && !Leaderless(c, Run(c, events + more))
  }

  ghost predicate SomeoneMayWin(c: Config, events: seq<Event>) {
    exists x :: x in Armed(c, events) && IsUp(c, Run(c, events), x) && !Weak(c, Run(c, events), x)
  }

  lemma StuckAtFirst(c: Config, events: seq<Event>)
    requires ValidConfig(c) && Leaderless(c, Run(c, events)) && Spent(c, Run(c, events)) && !SomeoneMayWin(c, events)
    ensures Stuck(c, Run(c, events), Run(c, events), Armed(c, events))
  {
    var s := Run(c, events);
    assert events[..|events|] == events;
    hide Run, Armed, Supporters, Harmless;
    forall v | v in Members(c) ensures NodeStuck(c, s, s, v) {
      CandidatesAreShort(c, events, |events|, v);
      assert IsUp(c, s, v) ==> !s.nodes[v].role.Leader?;
    }
  }

  lemma StuckIsLeaderless(c: Config, s0: System, s: System, armed: set<NodeId>)
    requires WellFormed(c, s0) && WellFormed(c, s) && Stuck(c, s0, s, armed)
    ensures Leaderless(c, s)
  {
    forall v | IsUp(c, s, v) ensures !s.nodes[v].role.Leader? {
      assert NodeStuck(c, s0, s, v);
    }
  }

  /** In a state of a run without a leader and with nothing helpful on the network, a leader can
      come about without faults or restarts if and only if some node's timer is armed and its log
      passes against those of a majority that is up. */
  lemma LeaderIffArmed(c: Config, events: seq<Event>)
    requires ValidConfig(c) && Leaderless(c, Run(c, events)) && Spent(c, Run(c, events))
    ensures SomeoneMayWin(c, events) <==> exists more :: LeadsTo(c, events, more)
  {
    hide Run, Armed, Spent, Stuck;
    if SomeoneMayWin(c, events) {
      var x :| x in Armed(c, events) && IsUp(c, Run(c, events), x) && !Weak(c, Run(c, events), x);
      ArmedLeadsTo(c, events, x);
    } else {
      StuckAtFirst(c, events);
      forall more ensures !LeadsTo(c, events, more) {
        NeverLeads(c, events, more);
      }
    }
  }

  lemma NeverLeads(c: Config, events: seq<Event>, more: seq<Event>)
    requires ValidConfig(c) && Stuck(c, Run(c, events), Run(c, events), Armed(c, events))
    ensures !LeadsTo(c, events, more)
  {
    hide Run, Armed, Stuck, Calm, Punctual, Leaderless;
    if LeadsTo(c, events, more) {
      StaysStuck(c, Run(c, events), events, more);
      StuckIsLeaderless(c, Run(c, events), Run(c, events + more), Armed(c, events + more));
    }
  }

  lemma ArmedLeadsTo(c: Config, events: seq<Event>, x: NodeId)
    requires ValidConfig(c) && x in Armed(c, events) && IsUp(c, Run(c, events), x) && !Weak(c, Run(c, events), x)
    ensures exists more :: LeadsTo(c, events, more)
  {
    hide Run, Armed, Calm, Punctual, AtLeast;
    var q := Supporters(c, Run(c, events), x);
    OneOfTwoPasses(Run(c, events).nodes[x].log, Run(c, events).nodes[x].log);
    var more, t := ArmedCanBeElected(c, events, q, x);
    assert IsUp(c, Run(c, events + more), x);
    assert LeadsTo(c, events, more);
  }
}
