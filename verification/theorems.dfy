// What every run of the cluster promises, said about the system alone: `At(c, events, i)` is
// the state after the first i events, and `i` and `j` are any two moments of one run.
module Theorems {
  import opened Types
  import opened Kv
  import opened Log
  import opened Messages
  import opened Wal
  import opened NodeSpec
  import opened Cluster
  import opened History
  import opened HistorySteps
  import opened Completeness
  import opened Invariant
  import opened Handlers
  import opened AppendHandlers
  import opened LeaderHandlers
  import opened Safety

  function At(c: Config, events: seq<Event>, i: nat): (s: System)
    requires i <= |events|
    ensures WellFormed(c, s)
  {
    Run(c, events[..i])
  }

  function PastAt(c: Config, events: seq<Event>, i: nat): History
    requires i <= |events|
  {
    Past(c, events[..i])
  }

  predicate Leads(c: Config, s: System, id: NodeId)
    requires WellFormed(c, s)
  {
    id in Members(c) && s.nodes[id].running && s.nodes[id].role.Leader?
  }

  // -- moments of one run

  lemma NextMoment(c: Config, events: seq<Event>, i: nat)
    requires i < |events|
    ensures At(c, events, i + 1) == Apply(c, At(c, events, i), events[i])
    ensures PastAt(c, events, i + 1) == Recorded(c, PastAt(c, events, i), At(c, events, i), events[i])
  {
    var upTo := events[..i + 1];
    assert upTo[..|upTo| - 1] == events[..i] && upTo[|upTo| - 1] == events[i];
    assert Run(c, upTo) == AfterLast(c, upTo);
    hide Apply, Recorded;
  }

  lemma OneMore(c: Config, events: seq<Event>, ev: Event)
    ensures Run(c, events + [ev]) == Apply(c, Run(c, events), ev)
  {
    var more := events + [ev];
    assert more[..|more| - 1] == events && more[|more| - 1] == ev;
    assert Run(c, more) == AfterLast(c, more);
    hide Apply;
  }

  lemma OneStepGrows(c: Config, events: seq<Event>, j: nat)
    requires ValidConfig(c) && 0 < j <= |events|
    ensures Grows(PastAt(c, events, j - 1), PastAt(c, events, j))
  {
    hide Inv, Grows, Apply, Recorded;
    assert events[..j][..j - 1] == events[..j - 1];
    RunKeeps(c, events[..j - 1]);
    StepKeeps(c, At(c, events, j - 1), PastAt(c, events, j - 1), events[j - 1]);
  }

  lemma {:induction false} PastGrows(c: Config, events: seq<Event>, i: nat, j: nat)
    requires ValidConfig(c) && i <= j <= |events|
    ensures Grows(PastAt(c, events, i), PastAt(c, events, j))
    decreases j
  {
    hide Grows, PastAt;
    if i == j {
      GrowsSelf(PastAt(c, events, i), 0);
    } else {
      PastGrows(c, events, i, j - 1);
      OneStepGrows(c, events, j);
      GrowsOn(PastAt(c, events, i), PastAt(c, events, j - 1), PastAt(c, events, j));
    }
  }

  lemma MomentOk(c: Config, events: seq<Event>, i: nat, j: nat)
    requires ValidConfig(c) && i <= j <= |events|
    ensures Inv(c, At(c, events, i), PastAt(c, events, i))
    ensures Inv(c, At(c, events, j), PastAt(c, events, j))
    ensures Grows(PastAt(c, events, i), PastAt(c, events, j))
  {
    hide Inv, Grows;
    RunKeeps(c, events[..i]);
    RunKeeps(c, events[..j]);
    PastGrows(c, events, i, j);
  }

  lemma LeaderFacts(c: Config, s: System, h: History, id: NodeId)
    requires Inv(c, s, h) && Leads(c, s, id)
    ensures var n := s.nodes[id];
            && LeaderOk(h, id, n)
            && h.elections[n.currentTerm].log <= n.log
  {
    NodeInvariant(c, s, h, id);
    assert ElectionOk(c, h, s.nodes[id].currentTerm);
  }

  // -- election safety

  /** At most one node ever leads in a term. */
  lemma ElectionSafety(c: Config, events: seq<Event>, i: nat, j: nat, a: NodeId, b: NodeId)
    requires ValidConfig(c) && i <= |events| && j <= |events|
    requires Leads(c, At(c, events, i), a) && Leads(c, At(c, events, j), b)
    requires At(c, events, i).nodes[a].currentTerm == At(c, events, j).nodes[b].currentTerm
    ensures a == b
  {
    if i <= j {
      MomentOk(c, events, i, j);
    } else {
      MomentOk(c, events, j, i);
    }
    LeaderFacts(c, At(c, events, i), PastAt(c, events, i), a);
    LeaderFacts(c, At(c, events, j), PastAt(c, events, j), b);
  }

  // -- log matching

  /** What recovery would read of a node's log. */
  function DiskLog(c: Config, s: System, id: NodeId): seq<LogEntry>
    requires WellFormed(c, s) && id in Members(c)
  {
    Replay(s.wals[id]).log
  }

  lemma DiskLogGrounded(c: Config, events: seq<Event>, i: nat, j: nat, id: NodeId)
    requires ValidConfig(c) && i <= j <= |events| && id in Members(c)
    ensures Grounded(DiskLog(c, At(c, events, i), id), PastAt(c, events, j).ledger)
  {
    MomentOk(c, events, i, j);
    hide Inv, Grows;
    NodeInvariant(c, At(c, events, i), PastAt(c, events, i), id);
    assert Grounded(HardsOf(c, At(c, events, i))[id].log, PastAt(c, events, i).ledger);
    LedgerGrounded(DiskLog(c, At(c, events, i), id), PastAt(c, events, i), PastAt(c, events, j));
  }

  /** Two logs that ever held an entry of one term at one index agree on everything up to it. */
  lemma LogMatching(c: Config, events: seq<Event>, i: nat, j: nat, a: NodeId, b: NodeId, k: nat)
    requires ValidConfig(c) && i <= |events| && j <= |events| && a in Members(c) && b in Members(c)
    requires k < |DiskLog(c, At(c, events, i), a)| && k < |DiskLog(c, At(c, events, j), b)|
    requires DiskLog(c, At(c, events, i), a)[k].term == DiskLog(c, At(c, events, j), b)[k].term
    ensures DiskLog(c, At(c, events, i), a)[..k + 1] == DiskLog(c, At(c, events, j), b)[..k + 1]
  {
    var last := Max(i, j);
    DiskLogGrounded(c, events, i, last, a);
    DiskLogGrounded(c, events, j, last, b);
    SameTermSamePrefix(DiskLog(c, At(c, events, i), a), DiskLog(c, At(c, events, j), b),
                       PastAt(c, events, last).ledger, k);
  }

  // -- leader completeness

  lemma CoveredLater(h: History, h': History, log: seq<LogEntry>, k: Index, t: Term)
    requires Grows(h, h') && Covered(h, log, k, t) && k <= |log|
    ensures Covered(h', log, k, t)
  {
    CoveredPersists(h, h', log, log, k, t, t);
  }

  lemma CommittedInNewerLeader(c: Config, hs: Hards, h: History, log: seq<LogEntry>, k: Index, t: Term, u: Term)
    requires HistoryInv(c, hs, h) && Covered(h, log, k, t) && k <= |log|
    requires u in h.elections && u > t
    ensures log[..k] <= h.elections[u].log
  {
    if k > 0 {
      var commit :| commit in h.commits && CoveredBy(h, log, k, t, commit);
      assert CommitOk(c, h, commit);
      QuorumReachesLeaders(c, hs, h, commit, u);
      assert h.ledger[commit.term][..k] == h.ledger[commit.term][..commit.index][..k];
    }
  }

  /** What node a knew committed in its term is in the log of every leader of a newer term,
      whenever in the run that leader leads. */
  lemma LeaderCompleteness(c: Config, events: seq<Event>, i: nat, j: nat, a: NodeId, b: NodeId)
    requires ValidConfig(c) && i <= |events| && j <= |events| && a in Members(c)
    requires At(c, events, i).nodes[a].running && Leads(c, At(c, events, j), b)
    requires At(c, events, j).nodes[b].currentTerm > At(c, events, i).nodes[a].currentTerm
    ensures var n := At(c, events, i).nodes[a];
            n.commitIndex <= |n.log| && n.log[..n.commitIndex] <= At(c, events, j).nodes[b].log
  {
    var n := At(c, events, i).nodes[a];
    var u := At(c, events, j).nodes[b].currentTerm;
    var last := Max(i, j);
    MomentOk(c, events, i, last);
    MomentOk(c, events, j, last);
    NodeInvariant(c, At(c, events, i), PastAt(c, events, i), a);
    LeaderFacts(c, At(c, events, j), PastAt(c, events, j), b);
    CoveredLater(PastAt(c, events, i), PastAt(c, events, last), n.log, n.commitIndex, n.currentTerm);
    CommittedInNewerLeader(c, HardsOf(c, At(c, events, last)), PastAt(c, events, last), n.log, n.commitIndex,
                           n.currentTerm, u);
  }

  // -- state machine safety

  lemma CoveredAgree(c: Config, hs: Hards, h: History, a: seq<LogEntry>, k: Index, t: Term,
                     b: seq<LogEntry>, m: Index, u: Term)
    requires HistoryInv(c, hs, h) && k <= |a| && m <= |b| && k <= m
    requires Covered(h, a, k, t) && Covered(h, b, m, u)
    ensures a[..k] == b[..k]
  {
    if k > 0 {
      var x :| x in h.commits && CoveredBy(h, a, k, t, x);
      var y :| y in h.commits && CoveredBy(h, b, m, u, y);
      assert CommitOk(c, h, x) && CommitOk(c, h, y);
      if x.term <= y.term {
        CommitReachesLedger(c, hs, h, x, y.term);
        assert a[..k] == h.ledger[x.term][..x.index][..k] == h.ledger[y.term][..x.index][..k];
      } else {
        CommitReachesLedger(c, hs, h, y, x.term);
        assert a[..k] == h.ledger[x.term][..y.index][..k] == h.ledger[y.term][..y.index][..k];
      }
      assert b[..m][..k] == b[..k];
    }
  }

  /** No two nodes ever apply different entries at one index, and nodes that have applied
      equally much hold equal stores. */
  lemma StateMachineSafety(c: Config, events: seq<Event>, i: nat, j: nat, a: NodeId, b: NodeId)
    requires ValidConfig(c) && i <= |events| && j <= |events| && a in Members(c) && b in Members(c)
    requires At(c, events, i).nodes[a].lastApplied <= At(c, events, j).nodes[b].lastApplied
    ensures var m, n := At(c, events, i).nodes[a], At(c, events, j).nodes[b];
            && m.lastApplied <= |m.log| && n.lastApplied <= |n.log|
            && m.log[..m.lastApplied] == n.log[..m.lastApplied]
            && m.kv == Fold(EMPTY_STORE, m.log[..m.lastApplied])
            && (m.lastApplied == n.lastApplied ==> m.kv == n.kv)
  {
    var m, n := At(c, events, i).nodes[a], At(c, events, j).nodes[b];
    var last := Max(i, j);
    MomentOk(c, events, i, last);
    MomentOk(c, events, j, last);
    NodeInvariant(c, At(c, events, i), PastAt(c, events, i), a);
    NodeInvariant(c, At(c, events, j), PastAt(c, events, j), b);
    var h := PastAt(c, events, last);
    if m.running && n.running {
      CoveredLater(PastAt(c, events, i), h, m.log, m.commitIndex, m.currentTerm);
      CoveredLater(PastAt(c, events, j), h, n.log, n.commitIndex, n.currentTerm);
      CoveredAgree(c, HardsOf(c, At(c, events, last)), h, m.log, m.lastApplied, m.currentTerm,
                   n.log, n.lastApplied, n.currentTerm);
    }
  }

  // -- durability

  lemma RestartWhileUp(c: Config, s: System, id: NodeId)
    requires WellFormed(c, s) && id in Members(c) && Contiguous(Replay(s.wals[id]).log)
    requires Restarted(s.nodes[id], Replay(s.wals[id])) == s.nodes[id]
    ensures Apply(c, s, Restart(id)) == s
  {
    hide Replay, Contiguous, Restarted;
    assert s.nodes[id := s.nodes[id]] == s.nodes;
  }

  lemma RestartAfterCrash(c: Config, s: System, id: NodeId)
    requires WellFormed(c, s) && id in Members(c) && Contiguous(Replay(s.wals[id]).log)
    ensures var crashed := Apply(c, s, Crash(id));
            && crashed.nodes[id] == Crashed(s.nodes[id])
            && Apply(c, crashed, Restart(id)).nodes[id] == Restarted(Crashed(s.nodes[id]), Replay(s.wals[id]))
  {
    hide Replay, Contiguous, Restarted, Crashed;
  }

  /** Between events, a running node's term, vote and log are exactly what its disk would
      recover, so restarting it, up or after a crash, changes none of the three. */
  lemma DurableBeforeSpeaking(c: Config, events: seq<Event>, id: NodeId)
    requires ValidConfig(c) && id in Members(c) && At(c, events, |events|).nodes[id].running
    ensures var s := At(c, events, |events|);
            var n := s.nodes[id];
            && Replay(s.wals[id]) == Recovered(n.currentTerm, n.votedFor, n.log)
            && Run(c, events + [Restart(id)]) == s
            && !Run(c, events + [Crash(id)]).nodes[id].running
            && Run(c, events + [Crash(id)] + [Restart(id)]).nodes[id]
               == INITIAL_NODE.(currentTerm := n.currentTerm, votedFor := n.votedFor, log := n.log)
  {
    assert events[..|events|] == events;
    var s := Run(c, events);
    RunKeeps(c, events);
    NodeInvariant(c, s, Past(c, events), id);
    RestartOk(c, s, Past(c, events), id);
    OneMore(c, events, Restart(id));
    OneMore(c, events, Crash(id));
    OneMore(c, events + [Crash(id)], Restart(id));
    hide Inv, HistoryInv, Replay, Run, Past, Contiguous, Apply, CandidateOk, LeaderOk, AppliedOk;
    RestartWhileUp(c, s, id);
    RestartAfterCrash(c, s, id);
  }

  /** Wherever a crash cuts any node's log, what is left replays to a log without gaps. */
  lemma EveryCutReplays(c: Config, events: seq<Event>, id: NodeId, k: nat)
    requires ValidConfig(c) && id in Members(c) && k <= |Run(c, events).wals[id]|
    ensures Contiguous(Replay(Run(c, events).wals[id][..k]).log)
  {
    RunKeeps(c, events);
    assert EveryCutRecovers(Run(c, events).wals[id]);
  }

  /** No handler ever looks up an index that is not there or appends out of order. */
  lemma NothingRaises(c: Config, events: seq<Event>)
    requires ValidConfig(c)
    ensures !Run(c, events).raised
  {
    RunKeeps(c, events);
  }

  /** Every AppendEntries ever sent reaches at least the commit index that it carries, with
      entries numbered on from its previous index. */
  lemma EntriesReachCommit(c: Config, events: seq<Event>, i: nat, p: Packet)
    requires ValidConfig(c) && i <= |events| && p in At(c, events, i).net && p.msg.AppendEntries?
    ensures p.msg.leaderCommit <= p.msg.prevLogIndex + |p.msg.entries| && EntriesFollow(p.msg)
  {
    var s, h := At(c, events, i), PastAt(c, events, i);
    RunKeeps(c, events[..i]);
    PacketInvariant(c, s, h, p);
    assert HistoryInv(c, HardsOf(c, s), h);
    hide Run, Past, Inv, HardsOf;
    LedgerFollows(c, HardsOf(c, s), h, p);
  }

  /** Whatever is on the network, a running node can handle it; and no candidate is the client. */
  lemma EveryPacketIsHandled(c: Config, events: seq<Event>, p: Packet)
    requires ValidConfig(c) && CanReceive(c, Run(c, events), p)
    ensures Ready(Run(c, events).nodes[p.dst], p.msg)
    ensures p.msg.RequestVote? ==> p.msg.candidateId != CLIENT_ID
  {
    var s, h := Run(c, events), Past(c, events);
    RunKeeps(c, events);
    NodeInvariant(c, s, h, p.dst);
    PacketInvariant(c, s, h, p);
    CandidateIsMember(c, HardsOf(c, s), h, p);
    hide Inv, HistoryInv, NodeOk, PacketOk;
    AlwaysReady(c, HardsOf(c, s), h, p.dst, s.nodes[p.dst], p);
  }

  lemma CandidateIsMember(c: Config, hs: Hards, h: History, p: Packet)
    requires HistoryInv(c, hs, h) && PacketOk(c, h, p)
    ensures p.msg.RequestVote? ==> p.msg.candidateId in Members(c)
  {
    if p.msg.RequestVote? {
      assert CandidacyOk(c, hs, h, p.msg.term, p.src);
    }
  }

  lemma HeartbeatIsHandled(c: Config, events: seq<Event>, id: NodeId)
    requires ValidConfig(c) && Leads(c, Run(c, events), id)
    ensures NextIndexOk(Run(c, events).nodes[id])
  {
    RunKeeps(c, events);
    LeaderFacts(c, Run(c, events), Past(c, events), id);
  }

  lemma RestartIsHandled(c: Config, events: seq<Event>, id: NodeId)
    requires ValidConfig(c) && id in Members(c)
    ensures Contiguous(Replay(Run(c, events).wals[id]).log)
  {
    var wal := Run(c, events).wals[id];
    EveryCutReplays(c, events, id, |wal|);
    assert wal[..|wal|] == wal;
  }

  // -- progress of one node

  /** What one handler may do to its node's log and commit index. */
  predicate Advances(n: NodeState, n': NodeState) {
    && n.commitIndex <= n'.commitIndex
    && n.commitIndex <= |n.log| && n.log[..n.commitIndex] <= n'.log
    && (n.role.Leader? && n'.role.Leader? ==> n.log <= n'.log)
  }

  lemma DispatchAdvances(c: Config, hs: Hards, h: History, id: NodeId, n: NodeState, p: Packet)
    requires HistoryInv(c, hs, h) && id in hs && n.running && NodeOk(c, h, id, n, hs[id])
    requires PacketOk(c, h, p) && p.dst == id && Ready(n, p.msg)
    ensures Advances(n, Dispatch(id, Peers(c, id), n, p.src, p.msg).node)
  {
    hide HistoryInv, CandidateOk, LeaderOk, Covered, Fold, Peers, UpToDate, OnAppendEntries, Majority, ReplicateAll,
         Replies, Unpaid;
    match p.msg
    case AppendEntries(_, _, _, _, _, _) => AppendAdvances(c, hs, h, id, n, p);
    case _ =>
  }

  lemma AppendAdvances(c: Config, hs: Hards, h: History, id: NodeId, n: NodeState, p: Packet)
    requires HistoryInv(c, hs, h) && id in hs && n.running && NodeOk(c, h, id, n, hs[id])
    requires PacketOk(c, h, p) && p.dst == id && p.msg.AppendEntries?
    ensures Advances(n, OnAppendEntries(id, n, p.src, p.msg).node)
  {
    hide HistoryInv, CandidateOk, LeaderOk, Covered, Fold, Merged, MergeRecords, Replies, Unpaid;
    if p.msg.term >= n.currentTerm && Consistent(n.log, p.msg.prevLogIndex, p.msg.prevLogTerm) {
      assert Accepted(c, h, n, p);
      GrowsSelf(h, id);
      AcceptedNodeOk(c, hs, h, h, id, n, p);
    }
  }

  /** While a node runs its commit index never falls, nothing up to it is rewritten, and a
      leader only ever appends. */
  lemma CommittedPrefixIsKept(c: Config, events: seq<Event>, i: nat, id: NodeId)
    requires ValidConfig(c) && i < |events| && id in Members(c)
    requires At(c, events, i).nodes[id].running && At(c, events, i + 1).nodes[id].running
    ensures Advances(At(c, events, i).nodes[id], At(c, events, i + 1).nodes[id])
  {
    var s, h := At(c, events, i), PastAt(c, events, i);
    RunKeeps(c, events[..i]);
    NodeInvariant(c, s, h, id);
    NextMoment(c, events, i);
    hide Inv, Run, Past, Apply, Advances, NodeOk, HistoryInv;
    StepAdvances(c, s, h, events[i], id);
  }

  /** Only a completed handler changes a node that stays up. */
  lemma OtherEvents(c: Config, s: System, ev: Event, id: NodeId)
    requires WellFormed(c, s) && id in Members(c)
    requires s.nodes[id].running && Apply(c, s, ev).nodes[id].running
    requires Restarted(s.nodes[id], Replay(s.wals[id])) == s.nodes[id]
    requires !(ev.Deliver? && CanReceive(c, s, ev.packet) && ev.packet.dst == id)
    requires !(ev.ElectionTimeout? && ev.id == id)
    ensures Apply(c, s, ev).nodes[id] == s.nodes[id]
  {
    hide Replay, Received, TimedOut, Restarted, Contiguous, NextIndexOk, PacketSet, ReplicateAll, Ready;
  }

  lemma StepAdvances(c: Config, s: System, h: History, ev: Event, id: NodeId)
    requires WellFormed(c, s) && Inv(c, s, h) && id in Members(c)
    requires s.nodes[id].running && Apply(c, s, ev).nodes[id].running
    ensures Advances(s.nodes[id], Apply(c, s, ev).nodes[id])
  {
    hide Advances, Replay, Inv, Restarted, Contiguous, Received, TimedOut, Ready;
    RestartOk(c, s, h, id);
    if ev.Deliver? && CanReceive(c, s, ev.packet) && ev.packet.dst == id {
      DeliveryAdvances(c, s, h, ev.packet);
    } else if ev.ElectionTimeout? && ev.id == id {
      TimeoutAdvances(c, s, h, id);
    } else {
      CommitWithinLog(c, s, h, id);
      OtherEvents(c, s, ev, id);
    }
  }

  lemma CommitWithinLog(c: Config, s: System, h: History, id: NodeId)
    requires Inv(c, s, h) && id in Members(c)
    ensures Advances(s.nodes[id], s.nodes[id])
  {
    NodeInvariant(c, s, h, id);
  }

  lemma DeliveryAdvances(c: Config, s: System, h: History, p: Packet)
    requires Inv(c, s, h) && CanReceive(c, s, p)
    ensures Ready(s.nodes[p.dst], p.msg)
    ensures Advances(s.nodes[p.dst], Received(c, s, p).node)
  {
    NodeInvariant(c, s, h, p.dst);
    PacketInvariant(c, s, h, p);
    hide Inv, HistoryInv, NodeOk, PacketOk, Dispatch, Advances;
    AlwaysReady(c, HardsOf(c, s), h, p.dst, s.nodes[p.dst], p);
    DispatchAdvances(c, HardsOf(c, s), h, p.dst, s.nodes[p.dst], p);
  }

  lemma TimeoutAdvances(c: Config, s: System, h: History, id: NodeId)
    requires Inv(c, s, h) && IsUp(c, s, id)
    ensures Advances(s.nodes[id], TimedOut(c, s, id).node)
  {
    CommitWithinLog(c, s, h, id);
    hide Inv, ReplicateAll, Majority, Peers;
  }
}
