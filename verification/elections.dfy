// Whatever a run has come to, a majority that is up can still elect a leader: one of its nodes
// with the most up-to-date log stands in a term newer than any of theirs, and all vote for it.
module Elections {
  import opened Types
  import opened Log
  import opened Messages
  import opened NodeSpec
  import opened Cluster
  import opened History
  import opened HistorySteps
  import opened Handlers
  import opened Theorems
  import opened HandlerLaws

  // -- standing

  /** What a candidate asks its peers. */
  function Plea(x: NodeId, n: NodeState): Message {
    RequestVote(n.currentTerm, x, |n.log|, LastTerm(n.log))
  }

  /** Node `x` has just stood in its term: it leads if it is alone, and else has asked everybody. */
  ghost predicate Stands(c: Config, s: System, x: NodeId)
    requires WellFormed(c, s)
  {
    && IsUp(c, s, x)
    && var n := s.nodes[x];
       if Peers(c, x) == [] then n.role.Leader?
       else
         && n.role.Candidate? && n.votesGranted == {x}
         && forall p :: p in Peers(c, x) ==> Packet(x, p, Plea(x, n)) in s.net
  }

  lemma StoodOnce(c: Config, events: seq<Event>, x: NodeId)
    requires ValidConfig(c) && IsUp(c, Run(c, events), x)
    ensures var s, s' := Run(c, events), Run(c, events + [ElectionTimeout(x)]);
            && Stands(c, s', x) && OnlyTouched(c, s, s', {x})
            && s'.nodes[x].currentTerm == s.nodes[x].currentTerm + 1 && s'.nodes[x].log == s.nodes[x].log
  {
    hide Run, Apply, OnElectionTimeout, Peers;
    var s := Run(c, events);
    OneMore(c, events, ElectionTimeout(x));
    TimeoutEvent(c, s, x, 0);
    StandsOrLeads(x, Peers(c, x), s.nodes[x]);
    TimeoutKeepsUp(x, Peers(c, x), s.nodes[x]);
    var effect := TimedOut(c, s, x);
    forall p | p in Peers(c, x) ensures Packet(x, p, Plea(x, effect.node)) in effect.sent {
      var i :| 0 <= i < |Peers(c, x)| && Peers(c, x)[i] == p;
      assert effect.sent[i] in effect.sent;
    }
  }

  lemma TimeoutKeepsUp(x: NodeId, peers: seq<NodeId>, n: NodeState)
    ensures OnElectionTimeout(x, peers, n).node.running == n.running
  {
    hide ReplicateAll, Majority;
  }

  /** Standing again and again brings a node to any later term. */
  lemma {:induction false} StoodUpTo(c: Config, events: seq<Event>, x: NodeId, t: Term) returns (more: seq<Event>)
    requires ValidConfig(c) && IsUp(c, Run(c, events), x) && Run(c, events).nodes[x].currentTerm < t
    ensures |more| == t - Run(c, events).nodes[x].currentTerm
    ensures forall i :: 0 <= i < |more| ==> more[i] == ElectionTimeout(x)
    ensures var s, s' := Run(c, events), Run(c, events + more);
            && Stands(c, s', x) && OnlyTouched(c, s, s', {x})
            && s'.nodes[x].currentTerm == t && s'.nodes[x].log == s.nodes[x].log
    decreases t - Run(c, events).nodes[x].currentTerm
  {
    hide Run, OnlyTouched, ValidConfig;
    StoodOnce(c, events, x);
    assert IsUp(c, Run(c, events + [ElectionTimeout(x)]), x);
    hide Stands;
    if Run(c, events).nodes[x].currentTerm + 1 == t {
      more := [ElectionTimeout(x)];
    } else {
      var rest := StoodUpTo(c, events + [ElectionTimeout(x)], x, t);
      more := [ElectionTimeout(x)] + rest;
      assert events + [ElectionTimeout(x)] + rest == events + more;
      TouchedThen(c, Run(c, events), Run(c, events + [ElectionTimeout(x)]), Run(c, events + more), {x}, {x});
      assert {x} + {x} == {x};
    }
  }

  // -- voting

  /** Node `v` is up, in an older term, and has no reason to refuse `x`. */
  predicate WillVote(c: Config, s: System, x: NodeId, v: NodeId)
    requires WellFormed(c, s) && x in Members(c)
  {
    && v != x && IsUp(c, s, v)
    && s.nodes[v].currentTerm < s.nodes[x].currentTerm && AtLeast(s.nodes[x].log, s.nodes[v].log)
    && Packet(x, v, Plea(x, s.nodes[x])) in s.net
  }

  /** Node `v` has voted for `x` in its term, and its reply is on the network. */
  predicate HasVoted(c: Config, s: System, x: NodeId, v: NodeId)
    requires WellFormed(c, s) && x in Members(c)
  {
    && IsUp(c, s, v)
    && s.nodes[v].currentTerm == s.nodes[x].currentTerm && s.nodes[v].votedFor == Some(x)
    && Packet(v, x, RequestVoteReply(s.nodes[x].currentTerm, true)) in s.net
  }

  lemma GrantsVote(v: NodeId, f: NodeState, x: NodeId, n: NodeState)
    requires f.currentTerm < n.currentTerm && AtLeast(n.log, f.log)
    ensures var effect := OnRequestVote(v, f, x, Plea(x, n));
            && effect.node.running == f.running && effect.node.log == f.log
            && effect.node.currentTerm == n.currentTerm && effect.node.votedFor == Some(x)
            && effect.sent == [Packet(v, x, RequestVoteReply(n.currentTerm, true))]
  {
  }

  lemma VotedOnce(c: Config, events: seq<Event>, x: NodeId, v: NodeId) returns (ev: Event)
    requires ValidConfig(c) && IsUp(c, Run(c, events), x) && WillVote(c, Run(c, events), x, v)
    ensures ev == Deliver(Packet(x, v, Plea(x, Run(c, events).nodes[x])))
    ensures var s, s' := Run(c, events), Run(c, events + [ev]);
            && OnlyTouched(c, s, s', {v}) && HasVoted(c, s', x, v) && s'.nodes[v].log == s.nodes[v].log
  {
    hide Run, Apply, OnRequestVote;
    var s := Run(c, events);
    var p := Packet(x, v, Plea(x, s.nodes[x]));
    ev := Deliver(p);
    EveryPacketIsHandled(c, events, p);
    OneMore(c, events, ev);
    DeliverEvent(c, s, p, 0);
    GrantsVote(v, s.nodes[v], x, s.nodes[x]);
    assert Packet(v, x, RequestVoteReply(s.nodes[x].currentTerm, true)) in Received(c, s, p).sent;
  }

  predicate Distinct(ids: seq<NodeId>) {
    forall i, j :: 0 <= i < j < |ids| ==> ids[i] != ids[j]
  }

  ghost predicate AllWillVote(c: Config, s: System, x: NodeId, voters: seq<NodeId>)
    requires WellFormed(c, s) && x in Members(c)
  {
    forall v :: v in voters ==> WillVote(c, s, x, v)
  }

  /** All of `voters` have voted for `x`, and none's log has changed. */
  ghost predicate AllVoted(c: Config, s: System, s': System, x: NodeId, voters: seq<NodeId>)
    requires WellFormed(c, s) && WellFormed(c, s') && x in Members(c)
  {
    forall v :: v in voters ==> HasVoted(c, s', x, v) && s'.nodes[v].log == s.nodes[v].log
  }

  lemma {:induction false} AllVote(c: Config, events: seq<Event>, x: NodeId, voters: seq<NodeId>)
    returns (more: seq<Event>)
    requires ValidConfig(c) && IsUp(c, Run(c, events), x) && Distinct(voters)
    requires AllWillVote(c, Run(c, events), x, voters)
    ensures |more| == |voters| && forall i :: 0 <= i < |more| ==> more[i].Deliver?
    ensures OnlyTouched(c, Run(c, events), Run(c, events + more), SetOf(voters))
    ensures AllVoted(c, Run(c, events), Run(c, events + more), x, voters)
    decreases |voters|
  {
    hide Run, OnlyTouched, AllVoted, HasVoted, Distinct, ValidConfig, Members, SetOf, Plea;
    if voters == [] {
      more := [];
      assert events + more == events;
      NoneVotes(c, Run(c, events), x);
    } else {
      var v, rest := voters[0], voters[1..];
      assert WillVote(c, Run(c, events), x, v);
      hide WillVote, AllWillVote, IsUp;
      var ev := VotedOnce(c, events, x, v);
      RestWillVote(c, Run(c, events), Run(c, events + [ev]), x, voters);
      var after := AllVote(c, events + [ev], x, rest);
      more := [ev] + after;
      assert events + [ev] + after == events + more;
      FirstStillVoted(c, Run(c, events), Run(c, events + [ev]), Run(c, events + more), x, voters);
    }
  }

  lemma NoneVotes(c: Config, s: System, x: NodeId)
    requires WellFormed(c, s) && x in Members(c)
    ensures OnlyTouched(c, s, s, SetOf([])) && AllVoted(c, s, s, x, [])
  {
  }

  lemma RestWillVote(c: Config, s: System, s': System, x: NodeId, voters: seq<NodeId>)
    requires WellFormed(c, s) && WellFormed(c, s') && IsUp(c, s, x) && voters != [] && Distinct(voters)
    requires AllWillVote(c, s, x, voters) && OnlyTouched(c, s, s', {voters[0]})
    ensures x !in voters && IsUp(c, s', x) && Distinct(voters[1..]) && AllWillVote(c, s', x, voters[1..])
  {
    assert WillVote(c, s, x, voters[0]);
    forall v | v in voters[1..] ensures WillVote(c, s', x, v) {
      assert WillVote(c, s, x, v) && v != voters[0];
    }
  }

  lemma FirstStillVoted(c: Config, s: System, s1: System, s2: System, x: NodeId, voters: seq<NodeId>)
    requires WellFormed(c, s) && WellFormed(c, s1) && WellFormed(c, s2) && x in Members(c)
    requires voters != [] && Distinct(voters) && x !in voters
    requires OnlyTouched(c, s, s1, {voters[0]}) && OnlyTouched(c, s1, s2, SetOf(voters[1..]))
    requires HasVoted(c, s1, x, voters[0]) && s1.nodes[voters[0]].log == s.nodes[voters[0]].log
    requires AllVoted(c, s1, s2, x, voters[1..])
    ensures OnlyTouched(c, s, s2, SetOf(voters)) && AllVoted(c, s, s2, x, voters)
  {
    hide OnlyTouched, HasVoted, AllVoted, SetOf, Members, Distinct;
    FirstAndRest(voters);
    TouchedThen(c, s, s1, s2, {voters[0]}, SetOf(voters[1..]));
    StillVoted(c, s1, s2, x, voters[0], SetOf(voters[1..]));
    RestStillVoted(c, s, s1, s2, x, voters);
  }

  lemma FirstAndRest(ids: seq<NodeId>)
    requires ids != [] && Distinct(ids)
    ensures SetOf(ids) == {ids[0]} + SetOf(ids[1..]) && ids[0] !in SetOf(ids[1..])
    ensures forall v :: v in SetOf(ids[1..]) ==> v in ids
  {
  }

  lemma RestStillVoted(c: Config, s: System, s1: System, s2: System, x: NodeId, voters: seq<NodeId>)
    requires WellFormed(c, s) && WellFormed(c, s1) && WellFormed(c, s2) && x in Members(c)
    requires voters != [] && voters[0] !in SetOf(voters[1..]) && OnlyTouched(c, s, s1, {voters[0]})
    requires AllVoted(c, s1, s2, x, voters[1..])
    requires HasVoted(c, s2, x, voters[0]) && s2.nodes[voters[0]].log == s.nodes[voters[0]].log
    ensures AllVoted(c, s, s2, x, voters)
  {
    forall v | v in voters ensures HasVoted(c, s2, x, v) && s2.nodes[v].log == s.nodes[v].log {
      if v != voters[0] {
        OtherVoted(c, s, s1, s2, x, v, voters);
      }
    }
  }

  lemma StillVoted(c: Config, s: System, s': System, x: NodeId, v: NodeId, touched: set<NodeId>)
    requires WellFormed(c, s) && WellFormed(c, s') && x in Members(c) && HasVoted(c, s, x, v)
    requires OnlyTouched(c, s, s', touched) && v !in touched && x !in touched
    ensures HasVoted(c, s', x, v) && s'.nodes[v] == s.nodes[v]
  {
  }

  lemma OtherVoted(c: Config, s: System, s1: System, s2: System, x: NodeId, v: NodeId, voters: seq<NodeId>)
    requires WellFormed(c, s) && WellFormed(c, s1) && WellFormed(c, s2) && x in Members(c)
    requires voters != [] && v in voters[1..] && v != voters[0] && OnlyTouched(c, s, s1, {voters[0]})
    requires AllVoted(c, s1, s2, x, voters[1..])
    ensures HasVoted(c, s2, x, v) && s2.nodes[v].log == s.nodes[v].log
  {
    assert HasVoted(c, s2, x, v);
    assert s1.nodes[v] == s.nodes[v];
  }

  // -- counting

  /** Node `x` is a candidate with the votes of `votes` and no more, too few; or it leads. */
  ghost predicate Counting(c: Config, s: System, x: NodeId, votes: set<NodeId>)
    requires WellFormed(c, s)
  {
    && IsUp(c, s, x)
    && var n := s.nodes[x];
       n.role.Leader? || (n.role.Candidate? && n.votesGranted == votes && |votes| < Majority(Peers(c, x)))
  }

  lemma CountsVote(x: NodeId, peers: seq<NodeId>, n: NodeState, v: NodeId)
    ensures var n' := OnRequestVoteReply(x, peers, n, v, RequestVoteReply(n.currentTerm, true)).node;
            && n'.running == n.running && n'.currentTerm == n.currentTerm && n'.log == n.log
            && (n.role.Leader? ==> n' == n)
            && (n.role.Candidate? ==>
                  if |n.votesGranted + {v}| >= Majority(peers) then n'.role.Leader?
                  else n'.role.Candidate? && n'.votesGranted == n.votesGranted + {v})
  {
    hide ReplicateAll, Majority;
    LeaderIsReady(x, peers, n.(votesGranted := n.votesGranted + {v}));
  }

  lemma LeaderIsReady(x: NodeId, peers: seq<NodeId>, n: NodeState)
    ensures NextIndexOk(TakeCharge(x, peers, n))
  {
  }

  lemma CountedOnce(c: Config, events: seq<Event>, x: NodeId, votes: set<NodeId>, v: NodeId) returns (ev: Event)
    requires ValidConfig(c) && Counting(c, Run(c, events), x, votes)
    requires v != x && HasVoted(c, Run(c, events), x, v)
    ensures ev.Deliver? && ev.packet.dst == x
    ensures var s, s' := Run(c, events), Run(c, events + [ev]);
            && OnlyTouched(c, s, s', {x}) && Counting(c, s', x, votes + {v})
            && s'.nodes[x].currentTerm == s.nodes[x].currentTerm && s'.nodes[x].log == s.nodes[x].log
  {
    hide Run, Apply, OnRequestVoteReply, Peers, Majority, Ready, ValidConfig;
    var s := Run(c, events);
    var p := Packet(v, x, RequestVoteReply(s.nodes[x].currentTerm, true));
    ev := Deliver(p);
    CountsVote(x, Peers(c, x), s.nodes[x], v);
    EveryPacketIsHandled(c, events, p);
    OneMore(c, events, ev);
    DeliverEvent(c, s, p, 0);
    assert Received(c, s, p) == OnRequestVoteReply(x, Peers(c, x), s.nodes[x], v, p.msg);
  }

  lemma {:induction false} AllCounted(c: Config, events: seq<Event>, x: NodeId, votes: set<NodeId>, voters: seq<NodeId>)
    returns (more: seq<Event>)
    requires ValidConfig(c) && Counting(c, Run(c, events), x, votes) && x !in voters
    requires forall v :: v in voters ==> HasVoted(c, Run(c, events), x, v)
    ensures |more| == |voters| && forall i :: 0 <= i < |more| ==> more[i].Deliver?
    ensures var s, s' := Run(c, events), Run(c, events + more);
            && OnlyTouched(c, s, s', {x}) && Counting(c, s', x, votes + SetOf(voters))
            && s'.nodes[x].currentTerm == s.nodes[x].currentTerm && s'.nodes[x].log == s.nodes[x].log
    decreases |voters|
  {
    hide Run, OnlyTouched, ValidConfig;
    assert IsUp(c, Run(c, events), x);
    hide Counting;
    if voters == [] {
      more := [];
      assert events + more == events && votes + SetOf(voters) == votes;
      Untouched(c, Run(c, events), x);
    } else {
      var v, rest := voters[0], voters[1..];
      assert HasVoted(c, Run(c, events), x, v);
      var ev := CountedOnce(c, events, x, votes, v);
      RestHaveVoted(c, Run(c, events), Run(c, events + [ev]), x, voters);
      hide HasVoted;
      var after := AllCounted(c, events + [ev], x, votes + {v}, rest);
      more := [ev] + after;
      assert events + [ev] + after == events + more;
      TouchedThen(c, Run(c, events), Run(c, events + [ev]), Run(c, events + more), {x}, {x});
      assert votes + SetOf(voters) == votes + {v} + SetOf(rest) && {x} + {x} == {x};
    }
  }

  lemma Untouched(c: Config, s: System, x: NodeId)
    requires WellFormed(c, s)
    ensures OnlyTouched(c, s, s, {x})
  {
  }

  lemma RestHaveVoted(c: Config, s: System, s': System, x: NodeId, voters: seq<NodeId>)
    requires WellFormed(c, s) && WellFormed(c, s') && x in Members(c) && voters != [] && x !in voters
    requires OnlyTouched(c, s, s', {x}) && s'.nodes[x].currentTerm == s.nodes[x].currentTerm
    requires forall v :: v in voters ==> HasVoted(c, s, x, v)
    ensures forall v :: v in voters[1..] ==> HasVoted(c, s', x, v)
  {
    forall v | v in voters[1..] ensures HasVoted(c, s', x, v) {
      assert HasVoted(c, s, x, v);
    }
  }

  // -- an election

  /** The nodes of `ids` that are in `q`, in order. */
  function Among(ids: seq<NodeId>, q: set<NodeId>): (some: seq<NodeId>)
    ensures forall v :: v in some <==> v in ids && v in q
  {
    if ids == [] then [] else (if ids[0] in q then [ids[0]] else []) + Among(ids[1..], q)
  }

  lemma {:induction false} AmongDistinct(ids: seq<NodeId>, q: set<NodeId>)
    requires Distinct(ids)
    ensures Distinct(Among(ids, q))
    decreases |ids|
  {
    if ids != [] {
      AmongDistinct(ids[1..], q);
    }
  }

  /** The peers of `x` in a quorum that `x` is of. */
  lemma VotersOf(c: Config, x: NodeId, q: set<NodeId>) returns (voters: seq<NodeId>)
    requires ValidConfig(c) && Quorum(c, q) && x in q
    ensures Distinct(voters) && forall v :: v in voters <==> v in q && v != x
    ensures x !in voters && SetOf(voters) == q - {x} && |{x} + SetOf(voters)| >= Majority(Peers(c, x))
    ensures forall v :: v in voters ==> v in Peers(c, x)
  {
    PeersOf(c.ids, x);
    MajorityIsQuorum(c, x);
    voters := Among(Peers(c, x), q);
    AmongDistinct(Peers(c, x), q);
    assert SetOf(voters) == q - {x};
    assert {x} + SetOf(voters) == q;
  }

  /** Every node of `q` is up, in term `t`, with the log it had, and has voted for `x`, which leads. */
  ghost predicate Elected(c: Config, s: System, s': System, q: set<NodeId>, x: NodeId, t: Term)
    requires WellFormed(c, s) && WellFormed(c, s')
  {
    && Leads(c, s', x)
    && forall v :: v in q ==>
         && IsUp(c, s', v)
         && s'.nodes[v].currentTerm == t && (v != x ==> s'.nodes[v].votedFor == Some(x))
         && v in Members(c) && s'.nodes[v].log == s.nodes[v].log
  }

  /** The node `x` of a quorum that is up can be elected to any term newer than all of theirs, if
      its log passes against every other's. */
  ghost predicate Electable(c: Config, s: System, q: set<NodeId>, x: NodeId, t: Term)
    requires WellFormed(c, s)
  {
    && Quorum(c, q) && x in q
    && forall v :: v in q ==>
         IsUp(c, s, v) && s.nodes[v].currentTerm < t && AtLeast(s.nodes[x].log, s.nodes[v].log)
  }

  lemma AskedAll(c: Config, s: System, s': System, q: set<NodeId>, x: NodeId, t: Term, voters: seq<NodeId>)
    requires ValidConfig(c) && WellFormed(c, s) && WellFormed(c, s') && Electable(c, s, q, x, t)
    requires Stands(c, s', x) && OnlyTouched(c, s, s', {x})
    requires s'.nodes[x].currentTerm == t && s'.nodes[x].log == s.nodes[x].log
    requires x !in voters && forall v :: v in voters ==> v in q && v in Peers(c, x)
    ensures AllWillVote(c, s', x, voters)
  {
    forall v | v in voters ensures WillVote(c, s', x, v) {
      assert IsUp(c, s, v) && s'.nodes[v] == s.nodes[v];
    }
  }

  lemma StillCounting(c: Config, s: System, s': System, x: NodeId, touched: set<NodeId>)
    requires WellFormed(c, s) && WellFormed(c, s') && Stands(c, s, x) && x !in touched
    requires OnlyTouched(c, s, s', touched) && |Peers(c, x)| >= 0
    ensures Counting(c, s', x, {x})
  {
    hide AtLeast;
    assert s'.nodes[x] == s.nodes[x];
  }

  /** The voters of `q` have all voted for `x`, which has counted none of their votes yet. */
  ghost predicate Polled(c: Config, s: System, s': System, x: NodeId, t: Term, voters: seq<NodeId>)
    requires WellFormed(c, s) && WellFormed(c, s') && x in Members(c)
  {
    && Counting(c, s', x, {x})
    && s'.nodes[x].currentTerm == t && s'.nodes[x].log == s.nodes[x].log
    && OnlyTouched(c, s, s', {x} + SetOf(voters))
    && AllVoted(c, s, s', x, voters)
  }

  lemma PolledBy(c: Config, s: System, s1: System, s2: System, x: NodeId, t: Term, voters: seq<NodeId>)
    requires WellFormed(c, s) && WellFormed(c, s1) && WellFormed(c, s2) && x in Members(c) && x !in voters
    requires Stands(c, s1, x) && OnlyTouched(c, s, s1, {x})
    requires s1.nodes[x].currentTerm == t && s1.nodes[x].log == s.nodes[x].log
    requires OnlyTouched(c, s1, s2, SetOf(voters)) && AllVoted(c, s1, s2, x, voters)
    ensures Polled(c, s, s2, x, t, voters)
  {
    hide Stands, Counting;
    StillCounting(c, s1, s2, x, SetOf(voters));
    TouchedThen(c, s, s1, s2, {x}, SetOf(voters));
    forall v | v in voters ensures HasVoted(c, s2, x, v) && s2.nodes[v].log == s.nodes[v].log {
      assert HasVoted(c, s2, x, v) && v in Members(c);
      assert s1.nodes[v] == s.nodes[v];
    }
  }

  lemma Poll(c: Config, events: seq<Event>, q: set<NodeId>, x: NodeId, t: Term, voters: seq<NodeId>)
    returns (standing: seq<Event>, voting: seq<Event>)
    requires ValidConfig(c) && Electable(c, Run(c, events), q, x, t)
    requires Distinct(voters) && x !in voters && forall v :: v in voters ==> v in q && v in Peers(c, x)
    ensures |standing| == t - Run(c, events).nodes[x].currentTerm > 0
    ensures forall i :: 0 <= i < |standing| ==> standing[i] == ElectionTimeout(x)
    ensures |voting| == |voters| && forall i :: 0 <= i < |voting| ==> voting[i].Deliver?
    ensures Polled(c, Run(c, events), Run(c, events + standing + voting), x, t, voters)
  {
    var s := Run(c, events);
    assert IsUp(c, s, x) && s.nodes[x].currentTerm < t;
    hide Run, OnlyTouched, Stands, AllVoted, AllWillVote, Electable, Polled, Peers, Distinct, ValidConfig;
    standing := StoodUpTo(c, events, x, t);
    var s1 := Run(c, events + standing);
    AskedAll(c, s, s1, q, x, t, voters);
    UpAfter(c, s1, x);
    voting := AllVote(c, events + standing, x, voters);
    PolledBy(c, s, s1, Run(c, events + standing + voting), x, t, voters);
  }

  lemma WonAll(c: Config, s: System, s2: System, s3: System, q: set<NodeId>, x: NodeId, t: Term, voters: seq<NodeId>)
    requires WellFormed(c, s) && WellFormed(c, s2) && WellFormed(c, s3)
    requires Electable(c, s, q, x, t) && x !in voters && SetOf(voters) == q - {x}
    requires Polled(c, s, s2, x, t, voters) && OnlyTouched(c, s2, s3, {x})
    requires s3.nodes[x].currentTerm == s2.nodes[x].currentTerm && s3.nodes[x].log == s2.nodes[x].log
    requires Leads(c, s3, x)
    ensures Elected(c, s, s3, q, x, t) && OnlyTouched(c, s, s3, q)
  {
    hide Counting;
    TouchedThen(c, s, s2, s3, {x} + SetOf(voters), {x});
    assert {x} + SetOf(voters) + {x} == q;
    forall v | v in q
      ensures IsUp(c, s3, v) && s3.nodes[v].currentTerm == t && (v != x ==> s3.nodes[v].votedFor == Some(x))
      ensures v in Members(c) && s3.nodes[v].log == s.nodes[v].log
    {
      assert IsUp(c, s, v);
      if v != x {
        assert v in SetOf(voters) && HasVoted(c, s2, x, v);
        assert s3.nodes[v] == s2.nodes[v];
      }
    }
  }

  /** It stands until it is in that term, and everybody's vote, once asked for, is given and
      counted. */
  lemma CanBeElected(c: Config, events: seq<Event>, q: set<NodeId>, x: NodeId, t: Term)
    returns (standing: seq<Event>, voting: seq<Event>, counting: seq<Event>)
    requires ValidConfig(c) && Electable(c, Run(c, events), q, x, t)
    ensures |standing| == t - Run(c, events).nodes[x].currentTerm > 0
    ensures forall i :: 0 <= i < |standing| ==> standing[i] == ElectionTimeout(x)
    ensures |voting| == |counting| == |q| - 1
    ensures forall i :: 0 <= i < |voting| ==> voting[i].Deliver? && counting[i].Deliver?
    ensures Elected(c, Run(c, events), Run(c, events + standing + voting + counting), q, x, t)
    ensures OnlyTouched(c, Run(c, events), Run(c, events + standing + voting + counting), q)
  {
    assert IsUp(c, Run(c, events), x) && Quorum(c, q) && x in q;
    hide Run, OnlyTouched, Electable, Elected, Majority, Peers, Quorum, ValidConfig, Distinct, Polled;
    var voters := VotersOf(c, x, q);
    DistinctSize(voters);
    standing, voting := Poll(c, events, q, x, t, voters);
    var s2 := Run(c, events + standing + voting);
    PolledMeans(c, Run(c, events), s2, x, t, voters);
    counting := AllCounted(c, events + standing + voting, x, {x}, voters);
    var s3 := Run(c, events + standing + voting + counting);
    EnoughVotes(c, s3, x, {x} + SetOf(voters));
    WonAll(c, Run(c, events), s2, s3, q, x, t, voters);
  }

  lemma PolledMeans(c: Config, s: System, s': System, x: NodeId, t: Term, voters: seq<NodeId>)
    requires WellFormed(c, s) && WellFormed(c, s') && x in Members(c) && Polled(c, s, s', x, t, voters)
    ensures Counting(c, s', x, {x}) && forall v :: v in voters ==> HasVoted(c, s', x, v)
  {
  }

  lemma {:induction false} DistinctSize(ids: seq<NodeId>)
    requires Distinct(ids)
    ensures |SetOf(ids)| == |ids|
  {
    Cardinality(ids);
  }

  lemma UpAfter(c: Config, s: System, x: NodeId)
    requires WellFormed(c, s) && Stands(c, s, x)
    ensures IsUp(c, s, x)
  {
  }

  lemma EnoughVotes(c: Config, s: System, x: NodeId, votes: set<NodeId>)
    requires WellFormed(c, s) && Counting(c, s, x, votes) && |votes| >= Majority(Peers(c, x))
    ensures Leads(c, s, x)
  {
  }

  // -- every majority that is up can elect a leader

  /** One of any nodes has a log that passes against all of theirs. */
  lemma {:induction false} BestOf(c: Config, s: System, ids: seq<NodeId>) returns (x: NodeId)
    requires WellFormed(c, s) && ids != [] && forall v :: v in ids ==> v in Members(c)
    ensures x in ids && forall v :: v in ids ==> AtLeast(s.nodes[x].log, s.nodes[v].log)
    decreases |ids|
  {
    hide AtLeast;
    if |ids| == 1 {
      x := ids[0];
      OneOfTwoPasses(s.nodes[x].log, s.nodes[x].log);
    } else {
      var y := BestOf(c, s, ids[1..]);
      OneOfTwoPasses(s.nodes[y].log, s.nodes[ids[0]].log);
      OneOfTwoPasses(s.nodes[ids[0]].log, s.nodes[ids[0]].log);
      if AtLeast(s.nodes[y].log, s.nodes[ids[0]].log) {
        x := y;
      } else {
        x := ids[0];
        forall v | v in ids[1..] ensures AtLeast(s.nodes[x].log, s.nodes[v].log) {
          PassesThrough(s.nodes[x].log, s.nodes[y].log, s.nodes[v].log);
        }
      }
    }
  }

  /** The newest term among some nodes. */
  function NewestTerm(c: Config, s: System, ids: seq<NodeId>): (t: Term)
    requires WellFormed(c, s) && forall v :: v in ids ==> v in Members(c)
    ensures forall v :: v in ids ==> s.nodes[v].currentTerm <= t
    ensures ids != [] ==> exists v :: v in ids && s.nodes[v].currentTerm == t
  {
    if ids == [] then 0 else
      var rest := NewestTerm(c, s, ids[1..]);
      if s.nodes[ids[0]].currentTerm >= rest then
        assert ids[0] in ids;
        s.nodes[ids[0]].currentTerm
      else
        assert ids[1..] != [];
        rest
  }

  /** From every state of every run in which a majority is up, one of its nodes is brought to
      lead, by its own timeouts and by deliveries alone, in the term after the newest of theirs. */
  lemma MajorityElects(c: Config, events: seq<Event>, q: set<NodeId>)
    returns (x: NodeId, t: Term, standing: seq<Event>, voting: seq<Event>, counting: seq<Event>)
    requires ValidConfig(c) && Quorum(c, q) && forall v :: v in q ==> IsUp(c, Run(c, events), v)
    ensures x in q && Electable(c, Run(c, events), q, x, t)
    ensures exists v :: v in q && Run(c, events).nodes[v].currentTerm + 1 == t
    ensures |standing| == t - Run(c, events).nodes[x].currentTerm
    ensures forall i :: 0 <= i < |standing| ==> standing[i] == ElectionTimeout(x)
    ensures |voting| == |counting| == |q| - 1
    ensures forall i :: 0 <= i < |voting| ==> voting[i].Deliver? && counting[i].Deliver?
    ensures Elected(c, Run(c, events), Run(c, events + standing + voting + counting), q, x, t)
    ensures OnlyTouched(c, Run(c, events), Run(c, events + standing + voting + counting), q)
  {
    hide Run, AtLeast, Elected, OnlyTouched;
    var ids := Among(c.ids, q);
    assert forall v :: v in ids <==> v in q;
    QuorumIsSome(c, q);
    x := BestOf(c, Run(c, events), ids);
    t := NewestTerm(c, Run(c, events), ids) + 1;
    standing, voting, counting := CanBeElected(c, events, q, x, t);
  }

  lemma QuorumIsSome(c: Config, q: set<NodeId>)
    requires Quorum(c, q)
    ensures Among(c.ids, q) != []
  {
    var v :| v in q;
    assert v in Among(c.ids, q);
  }
}
