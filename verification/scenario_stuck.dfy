// A fourth run of three nodes: a majority is up, nothing fails any more, and no leader ever comes
// about again, because the one node that could be elected has no election timer.
//
// Node 1 leads term 1 and takes a request it does not replicate. Node 2 crashes. Node 3 stands
// twice and asks node 1, which steps down, refuses, and is left without a timer; and node 3,
// which has one, is refused for ever.
module StuckScenario {
  import opened Types
  import opened Kv
  import opened Messages
  import opened NodeSpec
  import opened Cluster
  import opened Theorems
  import opened History
  import opened HandlerLaws
  import Availability
  import HistorySteps
  import opened Timers
  import opened Scenarios

  const THREE_ASKS := Packet(3, 1, RequestVote(2, 3, 0, 0))

  function StuckRun(): seq<Event> {
    [ElectionTimeout(1), Deliver(FIRST_ASKED), Deliver(FIRST_VOTED), Submit(1, 0, LOST_WRITE), Deliver(LOST_REQUEST),
     Event.Crash(2), ElectionTimeout(3), ElectionTimeout(3), Deliver(THREE_ASKS)]
  }

  /** What is sent in this run: nothing of a newer term than 1 but node 3's pleas, with its empty
      log, and refusals. */
  predicate Old(p: Packet) {
    match p.msg
    case AppendEntries(term, _, _, _, _, _) => term <= 1
    case RequestVote(term, _, lastIndex, lastTerm) => term <= 1 || (lastIndex == 0 && lastTerm == 0 && p.dst != 3)
    case RequestVoteReply(term, granted) => !granted || term <= 1
    case _ => true
  }

  ghost predicate Now(k: nat, one: NodeState, two: NodeState, three: NodeState, net: set<Packet>, armed: set<NodeId>) {
    && k <= |StuckRun()|
    && Is(At(THREE, StuckRun(), k), one, two, three, net)
    && (forall p :: p in At(THREE, StuckRun(), k).net ==> Old(p))
    && Armed(THREE, StuckRun()[..k]) == armed
  }

  /** The armed timers once node `id` has handled `ev`. */
  function Timer(armed: set<NodeId>, ev: Event, id: NodeId, before: NodeState, n: NodeState,
                 sent: seq<Packet>): set<NodeId> {
    if ev.ElectionTimeout? then
      if n.role.Leader? then armed - {id} else armed + {id}
    else if ev.Deliver? then
      if ev.packet.msg.RequestVote? && sent != [] && sent[0].msg.RequestVoteReply? && sent[0].msg.voteGranted then
        armed + {id}
      else if ev.packet.msg.AppendEntries? && ev.packet.msg.term >= before.currentTerm then
        armed + {id}
      else if n.role.Leader? && !before.role.Leader? then
        armed - {id}
      else
        armed
    else
      armed
  }

  lemma TimerIs(s: System, armed: set<NodeId>, ev: Event, net: set<Packet>, id: NodeId, n: NodeState, sent: seq<Packet>)
    requires WellFormed(THREE, s) && id in {1, 2, 3} && net <= s.net
    requires id in s.nodes && Runs(ev, net, id, Peers(THREE, id), s.nodes[id], n, sent)
    ensures Rearmed(THREE, armed, s, ev) == Timer(armed, ev, id, s.nodes[id], n, sent)
  {
    ThreeNodes();
    hide Dispatch, Ready, OnElectionTimeout, Peers, SendHeartbeats, NextIndexOk;
  }

  lemma NextArmed(k: nat)
    requires k < |StuckRun()|
    ensures At(THREE, StuckRun(), k + 1) == Apply(THREE, At(THREE, StuckRun(), k), StuckRun()[k])
    ensures Armed(THREE, StuckRun()[..k + 1])
         == Rearmed(THREE, Armed(THREE, StuckRun()[..k]), At(THREE, StuckRun(), k), StuckRun()[k])
  {
    var run := StuckRun();
    hide StuckRun, Apply, Rearmed;
    NextMoment(THREE, run, k);
    assert run[..k + 1] == run[..k] + [run[k]];
    OneRearmed(THREE, run[..k], run[k]);
  }

  /** Node `id` handles the next event. */
  lemma Goes(k: nat, ev: Event, one: NodeState, two: NodeState, three: NodeState, net: set<Packet>, armed: set<NodeId>,
             id: NodeId, before: NodeState, n: NodeState, sent: seq<Packet>, keep: set<Packet>)
    requires Now(k, one, two, three, net, armed) && k < |StuckRun()| && StuckRun()[k] == ev
    requires id in {1, 2, 3} && before == (if id == 1 then one else if id == 2 then two else three)
    requires Runs(ev, net, id, Peers(THREE, id), before, n, sent) && keep <= net + PacketSet(sent)
    requires forall r :: r in sent ==> Old(r)
    ensures Now(k + 1, if id == 1 then n else one, if id == 2 then n else two, if id == 3 then n else three, keep,
                Timer(armed, ev, id, before, n, sent))
  {
    hide StuckRun, At, Armed, Apply, Runs, Rearmed, Timer, Old, Peers;
    var s := At(THREE, StuckRun(), k);
    NextArmed(k);
    Handled(s, ev, net, id, n, sent);
    TimerIs(s, armed, ev, net, id, n, sent);
  }

  lemma GoesOne(k: nat, ev: Event, one: NodeState, two: NodeState, three: NodeState, net: set<Packet>,
                armed: set<NodeId>, n: NodeState, sent: seq<Packet>, keep: set<Packet>)
    requires Now(k, one, two, three, net, armed) && k < |StuckRun()| && StuckRun()[k] == ev
    requires Runs(ev, net, 1, [2, 3], one, n, sent) && keep <= net + PacketSet(sent)
    requires forall r :: r in sent ==> Old(r)
    ensures Now(k + 1, n, two, three, keep, Timer(armed, ev, 1, one, n, sent))
  {
    ThreeNodes();
    hide Now, Runs, Timer, Old, StuckRun;
    Goes(k, ev, one, two, three, net, armed, 1, one, n, sent, keep);
  }

  lemma GoesTwo(k: nat, ev: Event, one: NodeState, two: NodeState, three: NodeState, net: set<Packet>,
                armed: set<NodeId>, n: NodeState, sent: seq<Packet>, keep: set<Packet>)
    requires Now(k, one, two, three, net, armed) && k < |StuckRun()| && StuckRun()[k] == ev
    requires Runs(ev, net, 2, [1, 3], two, n, sent) && keep <= net + PacketSet(sent)
    requires forall r :: r in sent ==> Old(r)
    ensures Now(k + 1, one, n, three, keep, Timer(armed, ev, 2, two, n, sent))
  {
    ThreeNodes();
    hide Now, Runs, Timer, Old, StuckRun;
    Goes(k, ev, one, two, three, net, armed, 2, two, n, sent, keep);
  }

  lemma GoesThree(k: nat, ev: Event, one: NodeState, two: NodeState, three: NodeState, net: set<Packet>,
                  armed: set<NodeId>, n: NodeState, sent: seq<Packet>, keep: set<Packet>)
    requires Now(k, one, two, three, net, armed) && k < |StuckRun()| && StuckRun()[k] == ev
    requires Runs(ev, net, 3, [1, 2], three, n, sent) && keep <= net + PacketSet(sent)
    requires forall r :: r in sent ==> Old(r)
    ensures Now(k + 1, one, two, n, keep, Timer(armed, ev, 3, three, n, sent))
  {
    ThreeNodes();
    hide Now, Runs, Timer, Old, StuckRun;
    Goes(k, ev, one, two, three, net, armed, 3, three, n, sent, keep);
  }

  lemma Asks(k: nat, one: NodeState, two: NodeState, three: NodeState, net: set<Packet>, armed: set<NodeId>,
             to: NodeId, requestId: nat, command: Command)
    requires Now(k, one, two, three, net, armed) && k < |StuckRun()|
    requires StuckRun()[k] == Submit(to, requestId, command)
    ensures Now(k + 1, one, two, three, net + {Packet(CLIENT_ID, to, ClientRequest(requestId, command))}, armed)
  {
    hide StuckRun, At, Armed;
    NextArmed(k);
    Submitted(At(THREE, StuckRun(), k), one, two, three, net, to, requestId, command);
  }

  lemma Crashes(k: nat, one: NodeState, two: NodeState, three: NodeState, net: set<Packet>, armed: set<NodeId>)
    requires Now(k, one, two, three, net, armed) && k < |StuckRun()| && StuckRun()[k] == Event.Crash(2)
    ensures Now(k + 1, one, Crashed(two), three, net, armed - {2})
  {
    hide StuckRun, At, Armed, Crashed, Old, Apply;
    ThreeNodes();
    NextArmed(k);
    CrashEvent(THREE, At(THREE, StuckRun(), k), 2);
  }

  // -- what becomes of the timers

  lemma StandTimer(armed: set<NodeId>, id: NodeId, before: NodeState, n: NodeState, sent: seq<Packet>)
    requires id in armed && !n.role.Leader?
    ensures Timer(armed, ElectionTimeout(id), id, before, n, sent) == armed
  {
  }

  lemma VoteTimer(armed: set<NodeId>, p: Packet, before: NodeState, n: NodeState, t: Term, granted: bool)
    requires p.msg.RequestVote? && (granted ==> p.dst in armed) && !n.role.Leader?
    ensures Timer(armed, Deliver(p), p.dst, before, n, [Packet(p.dst, p.src, RequestVoteReply(t, granted))]) == armed
  {
  }

  lemma LeadTimer(armed: set<NodeId>, p: Packet, before: NodeState, n: NodeState, sent: seq<Packet>)
    requires p.msg.RequestVoteReply? && n.role.Leader? && !before.role.Leader?
    ensures Timer(armed, Deliver(p), p.dst, before, n, sent) == armed - {p.dst}
  {
  }

  lemma RequestTimer(armed: set<NodeId>, p: Packet, before: NodeState, n: NodeState, sent: seq<Packet>)
    requires p.msg.ClientRequest? && before.role.Leader?
    ensures Timer(armed, Deliver(p), p.dst, before, n, sent) == armed
  {
  }

  // -- the run, event by event

  const C_STANDS := Standing(3, FRESH)
  const C_STANDS_AGAIN := Standing(3, C_STANDS)
  const A_DEPOSED := BecomeFollower(A_ACCEPTED, 2, None)

  lemma EventIs(k: nat)
    requires k < 9
    ensures |StuckRun()| == 9
    ensures StuckRun()[k] == match k
                             case 0 => ElectionTimeout(1)
                             case 1 => Deliver(FIRST_ASKED)
                             case 2 => Deliver(FIRST_VOTED)
                             case 3 => Submit(1, 0, LOST_WRITE)
                             case 4 => Deliver(LOST_REQUEST)
                             case 5 => Event.Crash(2)
                             case 8 => Deliver(THREE_ASKS)
                             case _ => ElectionTimeout(3)
  {
  }

  lemma Begins()
    ensures |StuckRun()| == 9 && Now(0, FRESH, FRESH, FRESH, {}, {1, 2, 3})
  {
    ThreeNodes();
  }

  lemma AllOld(id: NodeId, n: NodeState, peers: seq<NodeId>)
    requires NextIndexOk(n) && n.role.Leader? && n.currentTerm <= 1
    ensures forall r :: r in ReplicateAll(id, n, peers) ==> Old(r)
  {
    hide Brings;
    OneToEach(id, n, peers);
    forall r | r in ReplicateAll(id, n, peers) ensures Old(r) {
      var i :| 0 <= i < |peers| && ReplicateAll(id, n, peers)[i] == r;
      BringsTerm(id, n, peers[i], r);
    }
  }

  lemma BringsTerm(id: NodeId, n: NodeState, peer: NodeId, p: Packet)
    requires NextIndexOk(n) && n.role.Leader? && Brings(id, n, peer, p)
    ensures p.msg.AppendEntries? && p.msg.term == n.currentTerm
  {
  }

  lemma OneStands()
    requires Now(0, FRESH, FRESH, FRESH, {}, {1, 2, 3})
    ensures Now(1, A_STANDS, FRESH, FRESH, {FIRST_ASKED}, {1, 2, 3})
  {
    hide StuckRun, Now;
    EventIs(0);
    Stands(1, [2, 3], FRESH, {});
    var sent := Broadcast(1, [2, 3], RequestVote(1, 1, 0, 0));
    assert sent[0] == FIRST_ASKED;
    StandTimer({1, 2, 3}, 1, FRESH, A_STANDS, sent);
    hide Runs, Standing, Timer, Broadcast;
    GoesOne(0, ElectionTimeout(1), FRESH, FRESH, FRESH, {}, {1, 2, 3}, A_STANDS, sent, {FIRST_ASKED});
  }

  lemma TwoVotes()
    requires Now(1, A_STANDS, FRESH, FRESH, {FIRST_ASKED}, {1, 2, 3})
    ensures Now(2, A_STANDS, B_VOTED, FRESH, {FIRST_VOTED}, {1, 2, 3})
  {
    hide StuckRun, Now;
    EventIs(1);
    Grants(2, [1, 3], FRESH, 1, 1, {FIRST_ASKED});
    VoteTimer({1, 2, 3}, FIRST_ASKED, FRESH, B_VOTED, 1, true);
    hide Runs, Standing, Voting, Timer;
    GoesTwo(1, Deliver(FIRST_ASKED), A_STANDS, FRESH, FRESH, {FIRST_ASKED}, {1, 2, 3}, B_VOTED, [FIRST_VOTED],
            {FIRST_VOTED});
  }

  lemma OneLeads()
    requires Now(2, A_STANDS, B_VOTED, FRESH, {FIRST_VOTED}, {1, 2, 3})
    ensures Now(3, A_LEADS, B_VOTED, FRESH, {}, {2, 3})
  {
    hide StuckRun, Now;
    EventIs(2);
    assert A_STANDS.currentTerm == 1 && A_STANDS.role.Candidate?;
    Wins(1, [2, 3], A_STANDS, 2, {FIRST_VOTED});
    NewLeader(1, [2, 3], A_STANDS, 2);
    hide Runs, Standing, Voting, Winning, ReplicateAll, NextIndexOk, FromKeys, Timer, Old;
    var sent := ReplicateAll(1, A_LEADS, [2, 3]);
    AllOld(1, A_LEADS, [2, 3]);
    LeadTimer({1, 2, 3}, FIRST_VOTED, A_STANDS, A_LEADS, sent);
    assert {1, 2, 3} - {1} == {2, 3};
    GoesOne(2, Deliver(FIRST_VOTED), A_STANDS, B_VOTED, FRESH, {FIRST_VOTED}, {1, 2, 3}, A_LEADS, sent, {});
  }

  lemma OneIsAsked()
    requires Now(3, A_LEADS, B_VOTED, FRESH, {}, {2, 3})
    ensures Now(4, A_LEADS, B_VOTED, FRESH, {LOST_REQUEST}, {2, 3})
  {
    hide StuckRun, Now, Standing, Voting, Winning;
    EventIs(3);
    assert {} + {LOST_REQUEST} == {LOST_REQUEST};
    Asks(3, A_LEADS, B_VOTED, FRESH, {}, {2, 3}, 1, 0, LOST_WRITE);
  }

  lemma OneAccepts()
    requires Now(4, A_LEADS, B_VOTED, FRESH, {LOST_REQUEST}, {2, 3})
    ensures Now(5, A_ACCEPTED, B_VOTED, FRESH, {}, {2, 3})
  {
    hide StuckRun, Now;
    EventIs(4);
    NewLeader(1, [2, 3], A_STANDS, 2);
    assert A_STANDS.currentTerm == 1;
    hide Runs, Standing, Voting, Winning, ReplicateAll, NextIndexOk, FromKeys, Timer, Old;
    AcceptsFirst(1, [2, 3], A_LEADS, 0, 0, LOST_WRITE, {LOST_REQUEST});
    var sent := ReplicateAll(1, A_ACCEPTED, [2, 3]);
    AllOld(1, A_ACCEPTED, [2, 3]);
    RequestTimer({2, 3}, LOST_REQUEST, A_LEADS, A_ACCEPTED, sent);
    GoesOne(4, Deliver(LOST_REQUEST), A_LEADS, B_VOTED, FRESH, {LOST_REQUEST}, {2, 3}, A_ACCEPTED, sent, {});
  }

  lemma TwoCrashes()
    requires Now(5, A_ACCEPTED, B_VOTED, FRESH, {}, {2, 3})
    ensures Now(6, A_ACCEPTED, Crashed(B_VOTED), FRESH, {}, {3})
  {
    hide StuckRun, Now, Standing, Voting, Winning, Accepting, Crashed;
    EventIs(5);
    assert {2, 3} - {2} == {3};
    Crashes(5, A_ACCEPTED, B_VOTED, FRESH, {}, {2, 3});
  }

  lemma ThreeStands(k: nat, before: NodeState)
    requires 6 <= k <= 7 && before.running && before.log == []
    requires Now(k, A_ACCEPTED, Crashed(B_VOTED), before, {}, {3})
    ensures Now(k + 1, A_ACCEPTED, Crashed(B_VOTED), Standing(3, before),
                PacketSet(Broadcast(3, [1, 2], RequestVote(before.currentTerm + 1, 3, 0, 0))), {3})
  {
    hide StuckRun, Now, Voting, Winning, Accepting, Crashed;
    EventIs(k);
    Stands(3, [1, 2], before, {});
    var sent := Broadcast(3, [1, 2], RequestVote(before.currentTerm + 1, 3, 0, 0));
    assert |sent| == 2 && sent[0].dst == 1 && sent[1].dst == 2;
    StandTimer({3}, 3, before, Standing(3, before), sent);
    hide Runs, Standing, Timer, Broadcast;
    GoesThree(k, ElectionTimeout(3), A_ACCEPTED, Crashed(B_VOTED), before, {}, {3}, Standing(3, before), sent,
              PacketSet(sent));
  }

  /** Less may be said of the network. */
  lemma Less(k: nat, one: NodeState, two: NodeState, three: NodeState, net: set<Packet>, keep: set<Packet>,
             armed: set<NodeId>)
    requires Now(k, one, two, three, net, armed) && keep <= net
    ensures Now(k, one, two, three, keep, armed)
  {
    hide StuckRun, At, Armed, Old;
  }

  lemma ThreeAsks()
    requires Now(6, A_ACCEPTED, Crashed(B_VOTED), FRESH, {}, {3})
    ensures Now(8, A_ACCEPTED, Crashed(B_VOTED), C_STANDS_AGAIN, {THREE_ASKS}, {3})
  {
    hide Now, Voting, Winning, Accepting, Crashed;
    ThreeStands(6, FRESH);
    Less(7, A_ACCEPTED, Crashed(B_VOTED), C_STANDS, PacketSet(Broadcast(3, [1, 2], RequestVote(1, 3, 0, 0))), {}, {3});
    ThreeStands(7, C_STANDS);
    var sent := Broadcast(3, [1, 2], RequestVote(2, 3, 0, 0));
    assert sent[0] == THREE_ASKS;
    Less(8, A_ACCEPTED, Crashed(B_VOTED), C_STANDS_AGAIN, PacketSet(sent), {THREE_ASKS}, {3});
  }

  lemma Deposed()
    ensures Runs(Deliver(THREE_ASKS), {THREE_ASKS}, 1, [2, 3], A_ACCEPTED, A_DEPOSED,
                 [Packet(1, 3, RequestVoteReply(2, false))])
  {
    AFacts();
    hide Standing, Winning, Accepting, NextIndexOk;
  }

  lemma OneStepsDown()
    requires Now(8, A_ACCEPTED, Crashed(B_VOTED), C_STANDS_AGAIN, {THREE_ASKS}, {3})
    ensures Now(9, A_DEPOSED, Crashed(B_VOTED), C_STANDS_AGAIN, {}, {3})
  {
    hide StuckRun, Now;
    EventIs(8);
    Deposed();
    VoteTimer({3}, THREE_ASKS, A_ACCEPTED, A_DEPOSED, 2, false);
    hide Runs, Standing, Voting, Winning, Accepting, Crashed, BecomeFollower, Timer;
    GoesOne(8, Deliver(THREE_ASKS), A_ACCEPTED, Crashed(B_VOTED), C_STANDS_AGAIN, {THREE_ASKS}, {3}, A_DEPOSED,
            [Packet(1, 3, RequestVoteReply(2, false))], {});
  }

  lemma AtTheEnd()
    ensures Now(9, A_DEPOSED, Crashed(B_VOTED), C_STANDS_AGAIN, {}, {3})
  {
    hide Now, StuckRun, Standing, Voting, Winning, Accepting, Crashed, BecomeFollower;
    Begins();
    OneStands();
    TwoVotes();
    OneLeads();
    OneIsAsked();
    OneAccepts();
    TwoCrashes();
    ThreeAsks();
    OneStepsDown();
  }

  lemma EndFacts()
    ensures A_DEPOSED.running && A_DEPOSED.role.Follower? && A_DEPOSED.currentTerm == 2 && A_DEPOSED.log == [LOST_ENTRY]
    ensures !Crashed(B_VOTED).running
    ensures C_STANDS_AGAIN.running && C_STANDS_AGAIN.role.Candidate? && C_STANDS_AGAIN.currentTerm == 2
            && C_STANDS_AGAIN.log == []
  {
    AFacts();
    hide Winning, Accepting;
  }

  /** Nodes 1 and 3, a majority, are up; neither leads, nothing sent can help, and only node 3, whose
      log passes against nobody else's, has a timer. */
  ghost predicate Stranded(s: System, armed: set<NodeId>) {
    && WellFormed(THREE, s) && IsUp(THREE, s, 1) && IsUp(THREE, s, 3)
    && Leaderless(THREE, s) && Spent(THREE, s) && Weak(THREE, s, 3) && armed == {3}
  }

  lemma NobodyLeadsThere(s: System)
    requires Is(s, A_DEPOSED, Crashed(B_VOTED), C_STANDS_AGAIN, {})
    ensures IsUp(THREE, s, 1) && IsUp(THREE, s, 3) && Leaderless(THREE, s)
  {
    hide Standing, Voting, Winning, Accepting, Crashed, BecomeFollower;
    ThreeNodes();
    EndFacts();
  }

  lemma OldIsHarmless(p: Packet)
    requires Old(p)
    ensures p.dst == 1 ==> Harmless(A_DEPOSED, p.msg)
    ensures p.dst == 3 ==> Harmless(C_STANDS_AGAIN, p.msg)
  {
    hide Standing, Voting, Winning, Accepting, Crashed, BecomeFollower;
    EndFacts();
  }

  lemma HarmlessThere(s: System, p: Packet)
    requires Is(s, A_DEPOSED, Crashed(B_VOTED), C_STANDS_AGAIN, {}) && Old(p) && IsUp(THREE, s, p.dst)
    ensures Harmless(s.nodes[p.dst], p.msg)
  {
    hide Standing, Voting, Winning, Accepting, Crashed, BecomeFollower, Harmless, Old;
    ThreeNodes();
    EndFacts();
    OldIsHarmless(p);
  }

  lemma SpentThere(s: System)
    requires Is(s, A_DEPOSED, Crashed(B_VOTED), C_STANDS_AGAIN, {}) && forall p :: p in s.net ==> Old(p)
    ensures Spent(THREE, s)
  {
    hide Standing, Voting, Winning, Accepting, Crashed, BecomeFollower, Harmless, Old;
    forall p | p in s.net && IsUp(THREE, s, p.dst) ensures Harmless(s.nodes[p.dst], p.msg) {
      HarmlessThere(s, p);
    }
  }

  lemma WeakThere(s: System)
    requires Is(s, A_DEPOSED, Crashed(B_VOTED), C_STANDS_AGAIN, {})
    ensures Weak(THREE, s, 3)
  {
    hide Standing, Voting, Winning, Accepting, Crashed, BecomeFollower;
    ThreeNodes();
    EndFacts();
    assert Supporters(THREE, s, 3) <= {3};
    HistorySteps.SubsetSize(Supporters(THREE, s, 3), {3});
  }

  lemma EndsStranded()
    ensures Stranded(Run(THREE, StuckRun()), Armed(THREE, StuckRun()))
  {
    hide StuckRun, Armed, Run, Leaderless, Spent, Weak, IsUp, Old, Standing, Voting, Winning, Accepting, Crashed,
      BecomeFollower;
    EventIs(0);
    AtTheEnd();
    assert StuckRun()[..9] == StuckRun();
    NobodyLeadsThere(Run(THREE, StuckRun()));
    SpentThere(Run(THREE, StuckRun()));
    WeakThere(Run(THREE, StuckRun()));
  }

  lemma NobodyMayWin()
    ensures !SomeoneMayWin(THREE, StuckRun())
  {
    hide StuckRun, Run, Armed, Leaderless, Spent, Weak;
    EndsStranded();
  }

  lemma NeverLedTo(more: seq<Event>)
    ensures !LeadsTo(THREE, StuckRun(), more)
  {
    hide StuckRun, Run, Armed, Leaderless, Spent, Weak, SomeoneMayWin, LeadsTo, IsUp;
    ThreeNodes();
    EndsStranded();
    NobodyMayWin();
    LeaderIffArmed(THREE, StuckRun());
  }

  /** A majority is up and no fault follows, and still no leader ever comes about: whatever is
      delivered or asked for, and whichever timer that runs goes off, nobody leads. */
  lemma MajorityStaysLeaderless(more: seq<Event>)
    requires Availability.Calm(more) && Punctual(THREE, StuckRun(), more)
    ensures ValidConfig(THREE) && Quorum(THREE, {1, 3})
    ensures IsUp(THREE, Run(THREE, StuckRun()), 1) && IsUp(THREE, Run(THREE, StuckRun()), 3)
    ensures Leaderless(THREE, Run(THREE, StuckRun() + more))
  {
    hide StuckRun, Run, Armed, Availability.Calm, Punctual, Leaderless, Spent, Weak, IsUp;
    ThreeNodes();
    EndsStranded();
    NeverLedTo(more);
  }
}
