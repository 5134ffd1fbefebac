// The walk back of `next_index` inside a run: whatever state a run has reached, a leader can
// bring any running follower of no newer term to hold its log, by deliveries alone.
module CatchUpRuns {
  import opened Types
  import opened Log
  import opened Messages
  import opened NodeSpec
  import opened Cluster
  import opened History
  import opened Invariant
  import opened Handlers
  import opened Safety
  import opened Theorems
  import opened Checkers
  import opened CatchUp
  import opened HandlerLaws
  import opened Commits

  /** Node `a` leads, and node `b` is up with no newer term. */
  predicate Paired(c: Config, s: System, a: NodeId, b: NodeId)
    requires WellFormed(c, s)
  {
    && Leads(c, s, a) && b != a
    && IsUp(c, s, b) && s.nodes[b].currentTerm <= s.nodes[a].currentTerm
  }

  /** Such a pair of a run is a pair of partners, and the leader believes no more of the
      follower than there is. */
  lemma PairedArePartners(c: Config, events: seq<Event>, a: NodeId, b: NodeId)
    requires ValidConfig(c) && Paired(c, Run(c, events), a, b)
    ensures var n, f := Run(c, events).nodes[a], Run(c, events).nodes[b];
            Partners(n, f) && Get(n.matchIndex, b, 0) <= |n.log|
  {
    var s, h := Run(c, events), Past(c, events);
    assert events[..|events|] == events;
    RunKeeps(c, events);
    LogsMatch(c, events, a, b);
    hide Run, Past, Inv, DiskLog, Matching;
    LeaderFacts(c, s, h, a);
    NodeInvariant(c, s, h, a);
    BelievedIsHeld(c, HardsOf(c, s), h, a, s.nodes[a], b);
  }

  lemma LogsMatch(c: Config, events: seq<Event>, a: NodeId, b: NodeId)
    requires ValidConfig(c) && IsUp(c, Run(c, events), a) && IsUp(c, Run(c, events), b)
    ensures Matching(Run(c, events).nodes[a].log, Run(c, events).nodes[b].log)
  {
    assert events[..|events|] == events;
    RunKeeps(c, events);
    hide Run, Inv;
    NodeInvariant(c, Run(c, events), Past(c, events), a);
    NodeInvariant(c, Run(c, events), Past(c, events), b);
    var left, right := Run(c, events).nodes[a].log, Run(c, events).nodes[b].log;
    forall k | 0 <= k < |left| && k < |right| && left[k].term == right[k].term ensures left[..k + 1] == right[..k + 1] {
      Theorems.LogMatching(c, events, |events|, |events|, a, b, k);
    }
  }

  lemma BelievedIsHeld(c: Config, hs: Hards, h: History, a: NodeId, n: NodeState, b: NodeId)
    requires HistoryInv(c, hs, h) && LeaderOk(h, a, n)
    ensures Get(n.matchIndex, b, 0) <= |n.log|
  {
    if Get(n.matchIndex, b, 0) > 0 {
      assert AckOk(hs, h, n.currentTerm, b);
    }
  }

  // -- one exchange, as two deliveries

  predicate Asked(c: Config, s: System, a: NodeId, b: NodeId)
    requires WellFormed(c, s)
  {
    && Paired(c, s, a, b) && Partners(s.nodes[a], s.nodes[b])
    && Packet(a, b, Ask(a, s.nodes[a], b)) in s.net
  }

  function Asking(c: Config, s: System, a: NodeId, b: NodeId): Event
    requires WellFormed(c, s) && Asked(c, s, a, b)
  {
    Deliver(Packet(a, b, Ask(a, s.nodes[a], b)))
  }

  function Answering(c: Config, s: System, a: NodeId, b: NodeId): Event
    requires WellFormed(c, s) && Asked(c, s, a, b)
  {
    Deliver(Packet(b, a, Answer(b, s.nodes[b], a, Ask(a, s.nodes[a], b))))
  }

  lemma FollowerAnswers(c: Config, s: System, a: NodeId, b: NodeId)
    requires WellFormed(c, s) && Asked(c, s, a, b) && Ready(s.nodes[b], Ask(a, s.nodes[a], b))
    ensures var s' := Apply(c, s, Asking(c, s, a, b));
            && s'.nodes[a] == s.nodes[a]
            && s'.nodes[b] == OnAppendEntries(b, s.nodes[b], a, Ask(a, s.nodes[a], b)).node
            && s'.nodes[b].running
            && Packet(b, a, Answer(b, s.nodes[b], a, Ask(a, s.nodes[a], b))) in s'.net
            && OnlyTouched(c, s, s', {b})
  {
    hide Apply, Matching, Ready, Ask, OnAppendEntries, Peers;
    var m := Ask(a, s.nodes[a], b);
    DeliverEvent(c, s, Packet(a, b, m), 0);
    AnswerIsSent(b, s.nodes[b], a, m);
    StaysUp(b, s.nodes[b], a, m);
  }

  lemma AnswerIsSent(b: NodeId, f: NodeState, a: NodeId, m: Message)
    requires m.AppendEntries?
    ensures Packet(b, a, Answer(b, f, a, m)) in OnAppendEntries(b, f, a, m).sent
  {
    hide AdvanceTo, Merged, MergeRecords, BecomeFollower;
    var sent := OnAppendEntries(b, f, a, m).sent;
    assert sent[|sent| - 1] in sent;
  }

  lemma StaysUp(b: NodeId, f: NodeState, a: NodeId, m: Message)
    requires m.AppendEntries?
    ensures OnAppendEntries(b, f, a, m).node.running == f.running
  {
    hide Merged, MergeRecords, Fold, Unpaid, Replies;
  }

  /** The delivery of an AppendEntries or of the reply to one. */
  predicate Exchanges(ev: Event) {
    ev.Deliver? && (ev.packet.msg.AppendEntries? || ev.packet.msg.AppendEntriesReply?)
  }

  /** What the leader credits its other peers with is as it was. */
  ghost predicate CreditsOnly(n: NodeState, n': NodeState, b: NodeId) {
    forall p :: p != b ==> Get(n'.matchIndex, p, 0) == Get(n.matchIndex, p, 0)
  }

  lemma LeaderNotesReply(a: NodeId, peers: seq<NodeId>, n: NodeState, b: NodeId, reply: Message)
    requires n.role.Leader? && NextIndexOk(n) && reply.AppendEntriesReply? && reply.term <= n.currentTerm
    ensures var effect := OnAppendEntriesReply(a, peers, n, b, reply);
            && effect.node.running == n.running && effect.node.role.Leader? && effect.node.currentTerm == n.currentTerm
            && CreditsOnly(n, effect.node, b)
            && (reply.term == n.currentTerm && !reply.success ==>
                  NextIndexOk(effect.node) && effect.sent == [Packet(a, b, Ask(a, effect.node, b))])
  {
    hide CommitPoint, Fold, Unpaid, Replies;
  }

  lemma LeaderHears(c: Config, s: System, a: NodeId, b: NodeId, reply: Message)
    requires WellFormed(c, s) && Leads(c, s, a) && b != a && NextIndexOk(s.nodes[a])
    requires reply.AppendEntriesReply? && reply.term <= s.nodes[a].currentTerm && Packet(b, a, reply) in s.net
    ensures var s', n := Apply(c, s, Deliver(Packet(b, a, reply))), s.nodes[a];
            && s'.nodes[a] == OnAppendEntriesReply(a, Peers(c, a), n, b, reply).node
            && Leads(c, s', a) && s'.nodes[a].currentTerm == n.currentTerm
            && (b in Members(c) ==> s'.nodes[b] == s.nodes[b]) && OnlyTouched(c, s, s', {a})
            && CreditsOnly(s.nodes[a], s'.nodes[a], b)
            && (reply.term == n.currentTerm && !reply.success ==>
                  NextIndexOk(s'.nodes[a]) && Packet(a, b, Ask(a, s'.nodes[a], b)) in s'.net)
  {
    hide Apply, NextIndexOk, OnAppendEntriesReply, Peers, Ask;
    DeliverEvent(c, s, Packet(b, a, reply), 0);
    LeaderNotesReply(a, Peers(c, a), s.nodes[a], b, reply);
  }

  /** A follower that disagrees refuses in the leader's own term. */
  lemma FollowerRefuses(a: NodeId, n: NodeState, b: NodeId, f: NodeState)
    requires Partners(n, f) && !Agrees(n, f, b)
    ensures Answer(b, f, a, Ask(a, n, b)) == AppendEntriesReply(n.currentTerm, false, 0)
  {
    hide Matching, ReplicateTo, Merged, MergeRecords, AdvanceTo;
  }

  /** Nobody else is touched, and what the leader credits others with is as it was. */
  ghost predicate Beside(c: Config, s: System, s': System, a: NodeId, b: NodeId)
    requires WellFormed(c, s) && WellFormed(c, s') && a in Members(c)
  {
    OnlyTouched(c, s, s', {a, b}) && CreditsOnly(s.nodes[a], s'.nodes[a], b)
  }

  lemma BesideThen(c: Config, s: System, s1: System, s2: System, a: NodeId, b: NodeId)
    requires WellFormed(c, s) && WellFormed(c, s1) && WellFormed(c, s2) && a in Members(c)
    requires Beside(c, s, s1, a, b) && Beside(c, s1, s2, a, b)
    ensures Beside(c, s, s2, a, b)
  {
    TouchedThen(c, s, s1, s2, {a, b}, {a, b});
    assert {a, b} + {a, b} == {a, b};
  }

  lemma Exchanged(c: Config, s: System, a: NodeId, b: NodeId)
    requires WellFormed(c, s) && Asked(c, s, a, b) && Ready(s.nodes[b], Ask(a, s.nodes[a], b))
    ensures var n, f, s2 := s.nodes[a], s.nodes[b], Apply(c, Apply(c, s, Asking(c, s, a, b)), Answering(c, s, a, b));
            && (s2.nodes[a], s2.nodes[b]) == Exchange(a, Peers(c, a), n, b, f)
            && Leads(c, s2, a) && IsUp(c, s2, b) && s2.nodes[a].currentTerm == n.currentTerm
            && (!Agrees(n, f, b) ==> NextIndexOk(s2.nodes[a]) && Packet(a, b, Ask(a, s2.nodes[a], b)) in s2.net)
            && Beside(c, s, s2, a, b)
  {
    hide Apply, Matching, Ready, Ask, Answer, OnAppendEntries, OnAppendEntriesReply, Peers, NextIndexOk;
    var n, f := s.nodes[a], s.nodes[b];
    FollowerAnswers(c, s, a, b);
    if Agrees(n, f, b) {
      FollowerAccepts(a, n, b, f);
    } else {
      FollowerRefuses(a, n, b, f);
    }
    LeaderHears(c, Apply(c, s, Asking(c, s, a, b)), a, b, Answer(b, f, a, Ask(a, n, b)));
    TouchedThen(c, s, Apply(c, s, Asking(c, s, a, b)),
                Apply(c, Apply(c, s, Asking(c, s, a, b)), Answering(c, s, a, b)), {b}, {a});
    assert {b} + {a} == {a, b};
  }

  // -- whole runs

  /** Node `a` still leads its term with the log it had, `b` holds all of that log, and `a` knows. */
  predicate CaughtUp(c: Config, s: System, s': System, a: NodeId, b: NodeId)
    requires WellFormed(c, s) && WellFormed(c, s') && a in Members(c)
  {
    var n, n' := s.nodes[a], s'.nodes[a];
    && Leads(c, s', a) && IsUp(c, s', b)
    && n'.currentTerm == n.currentTerm && n'.log == n.log
    && n.log <= s'.nodes[b].log && s'.nodes[b].currentTerm == n.currentTerm
    && b in n'.matchIndex && n'.matchIndex[b] == |n.log|
  }

  lemma OneRound(c: Config, events: seq<Event>, a: NodeId, b: NodeId) returns (round: seq<Event>)
    requires ValidConfig(c) && Asked(c, Run(c, events), a, b)
    ensures |round| == 2 && Exchanges(round[0]) && Exchanges(round[1])
    ensures var s, s' := Run(c, events), Run(c, events + round);
            var n, f, n', f' := s.nodes[a], s.nodes[b], s'.nodes[a], s'.nodes[b];
            if Agrees(n, f, b) then CaughtUp(c, s, s', a, b)
            else
              && Asked(c, s', a, b) && n'.log == n.log && n'.currentTerm == n.currentTerm
              && Rounds(n', f', b) == Rounds(n, f, b) - 1
    ensures Beside(c, Run(c, events), Run(c, events + round), a, b)
    ensures Agrees(Run(c, events).nodes[a], Run(c, events).nodes[b], b) <==>
      Rounds(Run(c, events).nodes[a], Run(c, events).nodes[b], b) == 1
    ensures Agrees(Run(c, events).nodes[a], Run(c, events).nodes[b], b) || NextFor(Run(c, events).nodes[a], b) > 1
  {
    hide Run, Apply, Agrees, Partners, Ask, Answer, Exchange, Matching, Ready, NextFor, Beside, DivergesAt;
    var s := Run(c, events);
    var n, f := s.nodes[a], s.nodes[b];
    AgreesUpToParting(n, f, b);
    round := [Asking(c, s, a, b), Answering(c, s, a, b)];
    TwoMore(c, events, round[0], round[1]);
    AskIsReady(c, events, a, b);
    Exchanged(c, s, a, b);
    if Agrees(n, f, b) {
      PairedArePartners(c, events, a, b);
      Succeeded(a, Peers(c, a), n, b, f);
    } else {
      Refused(a, Peers(c, a), n, b, f);
      PartnersTerms(Run(c, events + round).nodes[a], Run(c, events + round).nodes[b]);
    }
  }

  lemma TwoMore(c: Config, events: seq<Event>, first: Event, second: Event)
    ensures Run(c, events + [first, second]) == Apply(c, Apply(c, Run(c, events), first), second)
  {
    hide Run, Apply;
    OneMore(c, events, first);
    OneMore(c, events + [first], second);
    assert events + [first] + [second] == events + [first, second];
  }

  lemma AskIsReady(c: Config, events: seq<Event>, a: NodeId, b: NodeId)
    requires ValidConfig(c) && Asked(c, Run(c, events), a, b)
    ensures Ready(Run(c, events).nodes[b], Ask(a, Run(c, events).nodes[a], b))
  {
    hide Run, Ready, Matching, Ask;
    EveryPacketIsHandled(c, events, Packet(a, b, Ask(a, Run(c, events).nodes[a], b)));
  }

  lemma PartnersTerms(n: NodeState, f: NodeState)
    requires Partners(n, f)
    ensures f.currentTerm <= n.currentTerm
  {
    hide Matching;
  }

  /** Deliveries alone end the walk back: two for each step back to where the logs part, and two
      more. */
  lemma {:induction false} WalkBack(c: Config, events: seq<Event>, a: NodeId, b: NodeId) returns (more: seq<Event>)
    requires ValidConfig(c) && Asked(c, Run(c, events), a, b)
    ensures |more| == 2 * Rounds(Run(c, events).nodes[a], Run(c, events).nodes[b], b)
    ensures forall i :: 0 <= i < |more| ==> Exchanges(more[i])
    ensures CaughtUp(c, Run(c, events), Run(c, events + more), a, b)
    ensures Beside(c, Run(c, events), Run(c, events + more), a, b)
    decreases Rounds(Run(c, events).nodes[a], Run(c, events).nodes[b], b)
  {
    hide Run, Agrees, Partners, Ask, NextFor, Rounds, Beside;
    var n, f := Run(c, events).nodes[a], Run(c, events).nodes[b];
    var round := OneRound(c, events, a, b);
    if Agrees(n, f, b) {
      more := round;
    } else {
      var rest := WalkBack(c, events + round, a, b);
      more := round + rest;
      assert events + round + rest == events + more;
      BesideThen(c, Run(c, events), Run(c, events + round), Run(c, events + more), a, b);
    }
  }

  lemma {:induction false} ReplicatesToEach(a: NodeId, n: NodeState, peers: seq<NodeId>, b: NodeId)
    requires n.role.Leader? && NextIndexOk(n) && b in peers
    ensures Packet(a, b, Ask(a, n, b)) in ReplicateAll(a, n, peers)
    decreases |peers|
  {
    if b != peers[0] {
      ReplicatesToEach(a, n, peers[1..], b);
    } else {
      assert ReplicateTo(a, n, b)[0] == Packet(a, b, Ask(a, n, b));
    }
  }

  lemma HeartbeatAsks(c: Config, s: System, a: NodeId, b: NodeId)
    requires ValidConfig(c) && WellFormed(c, s) && Paired(c, s, a, b) && Partners(s.nodes[a], s.nodes[b])
    ensures var s' := Apply(c, s, Heartbeat(a));
            Asked(c, s', a, b) && s'.nodes == s.nodes && s.net <= s'.net
  {
    hide Apply, Matching, Ask, NextIndexOk, ReplicateAll, Peers;
    assert s.nodes[a := s.nodes[a]] == s.nodes;
    HeartbeatEvent(c, s, a);
    PeersAreOthers(c, a, b);
    ReplicatesToEach(a, s.nodes[a], Peers(c, a), b);
  }

  lemma PeersAreOthers(c: Config, a: NodeId, b: NodeId)
    requires ValidConfig(c) && b in Members(c) && b != a
    ensures b in Peers(c, a)
  {
    PeersOf(c.ids, a);
  }

  /** From every state of every run in which `a` leads and `b` is up with no newer term, one
      heartbeat and then nothing but deliveries, two for each step of `next_index` back to where
      the logs part and two more, bring `b` to hold the leader's whole log, and the leader to
      know it. */
  lemma LeaderCanCatchUp(c: Config, events: seq<Event>, a: NodeId, b: NodeId) returns (more: seq<Event>)
    requires ValidConfig(c) && Paired(c, Run(c, events), a, b)
    ensures |more| == 1 + 2 * Rounds(Run(c, events).nodes[a], Run(c, events).nodes[b], b) && more[0] == Heartbeat(a)
    ensures forall i :: 0 < i < |more| ==> Exchanges(more[i])
    ensures CaughtUp(c, Run(c, events), Run(c, events + more), a, b)
    ensures Beside(c, Run(c, events), Run(c, events + more), a, b)
  {
    hide Run, Apply, Partners, Ask, NextFor, Rounds;
    PairedArePartners(c, events, a, b);
    HeartbeatAsks(c, Run(c, events), a, b);
    OneMore(c, events, Heartbeat(a));
    var rest := WalkBack(c, events + [Heartbeat(a)], a, b);
    more := [Heartbeat(a)] + rest;
    assert events + [Heartbeat(a)] + rest == events + more;
  }

  // -- once the follower has the log

  /** A follower that begins with the leader's log takes whatever the leader sends and keeps its own. */
  lemma HolderAccepts(a: NodeId, n: NodeState, b: NodeId, f: NodeState)
    requires Partners(n, f) && n.log <= f.log
    ensures var m := Ask(a, n, b);
            var effect := OnAppendEntries(b, f, a, m);
            && SaysYes(effect) && effect.node.log == f.log && effect.node.currentTerm == n.currentTerm
            && effect.node.running == f.running && m.leaderCommit == n.commitIndex
  {
    hide Matching, MergeRecords, Fold, Unpaid, Replies;
    var prev := NextFor(n, b) - 1;
    HeldAlready(f.log, n.log, prev);
    assert prev > 0 ==> f.log[prev - 1] == n.log[prev - 1];
  }

  lemma HeldAlready(f: seq<LogEntry>, log: seq<LogEntry>, prev: Index)
    requires log <= f && prev <= |log|
    ensures Divergence(f, prev, log[prev..]) == |log| - prev && Merged(f, prev, log[prev..]) == f
  {
    assert forall k :: 0 <= k < |log| - prev ==> log[prev..][k] == log[prev + k] == f[prev + k];
  }

  lemma HeartbeatTaken(c: Config, events: seq<Event>, a: NodeId, b: NodeId) returns (p: Packet)
    requires ValidConfig(c) && Paired(c, Run(c, events), a, b)
    requires Run(c, events).nodes[a].log <= Run(c, events).nodes[b].log
    ensures p.dst == b && p.msg.AppendEntries? && p.msg.leaderCommit == Run(c, events).nodes[a].commitIndex
    ensures var s := Run(c, events + [Heartbeat(a)]);
            && s.nodes == Run(c, events).nodes && Run(c, events).net <= s.net
            && CanReceive(c, s, p) && Ready(s.nodes[b], p.msg)
            && SaysYes(Received(c, s, p)) && Received(c, s, p).node.log == s.nodes[b].log
            && Received(c, s, p).node.running && Received(c, s, p).node.currentTerm == s.nodes[a].currentTerm
  {
    hide Run, Apply, Matching, Ask, OnAppendEntries, SaysYes, Ready, NextIndexOk;
    PairedArePartners(c, events, a, b);
    HeartbeatAsks(c, Run(c, events), a, b);
    OneMore(c, events, Heartbeat(a));
    var n, f := Run(c, events).nodes[a], Run(c, events).nodes[b];
    p := Packet(a, b, Ask(a, n, b));
    AskIsReady(c, events + [Heartbeat(a)], a, b);
    HolderAccepts(a, n, b, f);
  }

  /** One more heartbeat, once it has the log, and `b` commits and applies all that `a` has
      committed, unless it had gone further; if it had not, the two hold the same store. */
  lemma FollowerCanCommit(c: Config, events: seq<Event>, a: NodeId, b: NodeId) returns (p: Packet)
    requires ValidConfig(c) && Paired(c, Run(c, events), a, b)
    requires Run(c, events).nodes[a].log <= Run(c, events).nodes[b].log
    ensures p.dst == b && p.msg.AppendEntries?
    ensures var s, s' := Run(c, events), Run(c, events + [Heartbeat(a)] + [Deliver(p)]);
            var n, f, f' := s.nodes[a], s.nodes[b], s'.nodes[b];
            && OnlyTouched(c, s, s', {b}) && f'.running && f'.log == f.log && f'.currentTerm == n.currentTerm
            && f'.commitIndex == f'.lastApplied == Max(f.commitIndex, n.commitIndex)
            && (f.commitIndex <= n.commitIndex ==> f'.kv == n.kv)
  {
    hide Run, Apply, Ready, SaysYes, Dispatch, OnAppendEntries;
    p := HeartbeatTaken(c, events, a, b);
    var more := events + [Heartbeat(a)] + [Deliver(p)];
    var k := |events| + 1;
    assert more[..k] == events + [Heartbeat(a)] && more[..k + 1] == more && more[k] == Deliver(p);
    OneMore(c, more[..k], Deliver(p));
    DeliverEvent(c, Run(c, more[..k]), p, 0);
    FollowersCommit(c, more, k, p);
    SameStore(c, more, a, b);
  }

  lemma SameStore(c: Config, events: seq<Event>, a: NodeId, b: NodeId)
    requires ValidConfig(c) && a in Members(c) && b in Members(c)
    ensures var n, f := Run(c, events).nodes[a], Run(c, events).nodes[b];
            && n.lastApplied == n.commitIndex && (n.lastApplied == f.lastApplied ==> n.kv == f.kv)
  {
    hide Run;
    assert events[..|events|] == events;
    CommitsWithinLog(c, events, |events|, a);
    if Run(c, events).nodes[a].lastApplied == Run(c, events).nodes[b].lastApplied {
      Theorems.StateMachineSafety(c, events, |events|, |events|, a, b);
    }
  }
}
