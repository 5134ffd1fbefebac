// The invariant holds in every state of every run.
module Safety {
  import opened Types
  import opened Log
  import opened Messages
  import opened Wal
  import opened NodeSpec
  import opened Cluster
  import opened History
  import opened HistorySteps
  import opened Invariant
  import opened Handlers
  import opened AppendHandlers
  import opened LeaderHandlers

  // -- the parts of the invariant one step needs

  lemma NodeInvariant(c: Config, s: System, h: History, id: NodeId)
    requires Inv(c, s, h) && id in Members(c)
    ensures var hs := HardsOf(c, s);
            && HistoryInv(c, hs, h) && id in hs
            && hs[id] == Replay(s.wals[id])
            && NodeOk(c, h, id, s.nodes[id], hs[id])
  {
    assert NodeOk(c, h, id, s.nodes[id], Replay(s.wals[id]));
  }

  lemma PacketInvariant(c: Config, s: System, h: History, p: Packet)
    requires Inv(c, s, h) && p in s.net
    ensures PacketOk(c, h, p)
  {
  }

  lemma LedgerFollows(c: Config, hs: Hards, h: History, p: Packet)
    requires HistoryInv(c, hs, h) && PacketOk(c, h, p) && p.msg.AppendEntries?
    ensures EntriesFollow(p.msg)
  {
    var m := p.msg;
    assert LeaderLogOk(h, m.term);
    forall k | 0 <= k < |m.entries| ensures m.entries[k].index == m.prevLogIndex + 1 + k {
      assert GroundedAt(h.ledger[m.term], h.ledger, m.prevLogIndex + k);
    }
  }

  /** No handler meets a missing index or an entry that does not follow its log. */
  lemma AlwaysReady(c: Config, hs: Hards, h: History, id: NodeId, n: NodeState, p: Packet)
    requires HistoryInv(c, hs, h) && id in hs && n.running && NodeOk(c, h, id, n, hs[id]) && PacketOk(c, h, p)
    ensures Ready(n, p.msg)
  {
    if p.msg.AppendEntries? {
      LedgerFollows(c, hs, h, p);
    }
  }

  // -- deliveries

  lemma DispatchKeeps(c: Config, hs: Hards, h: History, id: NodeId, n: NodeState, p: Packet)
    requires HistoryInv(c, hs, h) && id in hs && n.running && NodeOk(c, h, id, n, hs[id])
    requires PacketOk(c, h, p) && p.dst == id && Ready(n, p.msg)
    ensures EffectOk(c, hs, h, RecordDelivery(c, h, n, p), id, Dispatch(id, Peers(c, id), n, p.src, p.msg))
  {
    hide HistoryInv, NodeOk, EffectOk, OnRequestVote, OnRequestVoteReply, OnAppendEntries, OnAppendEntriesReply,
         OnClientRequest, RecordRequestVote, RecordRequestVoteReply, RecordAppendEntries, RecordAppendEntriesReply,
         RecordClientRequest, Peers;
    match p.msg
    case RequestVote(_, _, _, _) => OnRequestVoteKeeps(c, hs, h, id, n, p);
    case RequestVoteReply(_, _) => OnRequestVoteReplyKeeps(c, hs, h, id, n, p);
    case AppendEntries(_, _, _, _, _, _) => OnAppendEntriesKeeps(c, hs, h, id, n, p);
    case AppendEntriesReply(_, _, _) => OnAppendEntriesReplyKeeps(c, hs, h, id, n, p);
    case ClientRequest(_, _) => OnClientRequestKeeps(c, hs, h, id, n, p);
    case ClientReply(_, _, _) => QuietOk(c, hs, h, id, n);
  }

  // -- deliveries cut short by a disk error

  lemma NothingKept(c: Config, hs: Hards, h: History, id: NodeId)
    requires HistoryInv(c, hs, h) && id in hs
    ensures FailureOk(c, hs, h, h, id, [])
  {
    hide HistoryInv, CutsContiguous;
    HardContiguous(c, hs, h, id);
    NoRecords(hs, id, hs[id]);
    GrowsSelf(h, id);
  }

  /** A handler that writes one state record keeps it or loses it. */
  lemma StateRecordFails(c: Config, hs: Hards, h: History, id: NodeId, n: NodeState, written: seq<Record>, k: nat)
    requires HistoryInv(c, hs, h) && id in hs && k <= |written|
    requires written == [] || (written == PersistState(n) && n.log == hs[id].log
                               && Forward(hs[id], Recovered(n.currentTerm, n.votedFor, n.log)))
    ensures FailureOk(c, hs, h, h, id, written[..k])
  {
    hide HistoryInv, CutsContiguous, Forward;
    if k == 0 {
      assert written[..0] == [];
      NothingKept(c, hs, h, id);
    } else {
      assert written[..k] == PersistState(n);
      PersistKeeps(c, hs, h, id, n);
      GrowsSelf(h, id);
    }
  }

  lemma RequestFails(c: Config, hs: Hards, h: History, id: NodeId, n: NodeState, p: Packet, k: nat)
    requires HistoryInv(c, hs, h) && id in hs && n.running && NodeOk(c, h, id, n, hs[id])
    requires p.msg.ClientRequest? && p.dst == id && NextIndexOk(n)
    requires k <= |OnClientRequest(id, Peers(c, id), n, p.src, p.msg).written|
    ensures FailureOk(c, hs, h, RecordFailure(h, n, p, k), id,
                      OnClientRequest(id, Peers(c, id), n, p.src, p.msg).written[..k])
  {
    hide HistoryInv, CutsContiguous, LeaderOk, CandidateOk, AppliedOk, Peers, ReplicateAll, AdvanceCommit, NextIndexOk,
         Grows, OnlyBy;
    var written := OnClientRequest(id, Peers(c, id), n, p.src, p.msg).written;
    if k == 0 {
      assert written[..0] == [];
      NothingKept(c, hs, h, id);
    } else {
      assert LeadingOk(c, hs, h, id, n);
      OwnEntryKeeps(c, hs, h, id, n, p.msg.command);
      assert written[..k] == written;
    }
  }

  lemma DispatchFails(c: Config, hs: Hards, h: History, id: NodeId, n: NodeState, p: Packet, k: nat)
    requires HistoryInv(c, hs, h) && id in hs && n.running && NodeOk(c, h, id, n, hs[id])
    requires PacketOk(c, h, p) && p.dst == id && Ready(n, p.msg)
    requires k <= |Dispatch(id, Peers(c, id), n, p.src, p.msg).written|
    ensures FailureOk(c, hs, h, RecordFailure(h, n, p, k), id, Dispatch(id, Peers(c, id), n, p.src, p.msg).written[..k])
  {
    hide HistoryInv, FailureOk, OnAppendEntries, OnClientRequest, Peers, CandidateOk, LeaderOk, AppliedOk, UpToDate,
         AdvanceCommit, ReplicateAll, TakeCharge;
    match p.msg
    case RequestVote(_, _, _, _) =>
      StateRecordFails(c, hs, h, id, OnRequestVote(id, n, p.src, p.msg).node,
                       OnRequestVote(id, n, p.src, p.msg).written, k);
    case RequestVoteReply(_, _) =>
      var effect := OnRequestVoteReply(id, Peers(c, id), n, p.src, p.msg);
      StateRecordFails(c, hs, h, id, effect.node, effect.written, k);
    case AppendEntries(_, _, _, _, _, _) => OnAppendEntriesFails(c, hs, h, id, n, p, k);
    case AppendEntriesReply(_, _, _) =>
      var effect := OnAppendEntriesReply(id, Peers(c, id), n, p.src, p.msg);
      StateRecordFails(c, hs, h, id, effect.node, effect.written, k);
    case ClientRequest(_, _) => RequestFails(c, hs, h, id, n, p, k);
    case ClientReply(_, _, _) => NothingKept(c, hs, h, id);
  }

  lemma TimeoutFails(c: Config, hs: Hards, h: History, id: NodeId, n: NodeState, k: nat)
    requires HistoryInv(c, hs, h) && id in hs && n.running && NodeOk(c, h, id, n, hs[id])
    requires k <= |OnElectionTimeout(id, Peers(c, id), n).written|
    ensures FailureOk(c, hs, h, h, id, OnElectionTimeout(id, Peers(c, id), n).written[..k])
  {
    hide HistoryInv, FailureOk, CandidateOk, LeaderOk, AppliedOk, TakeCharge, ReplicateAll, Peers;
    var n1 := BecomeCandidate(id, n.(currentTerm := n.currentTerm + 1)).(votedFor := Some(id));
    StateRecordFails(c, hs, h, id, n1, OnElectionTimeout(id, Peers(c, id), n).written, k);
  }

  // -- crash, restart and new requests

  lemma SameHards(c: Config, s: System, s': System)
    requires WellFormed(c, s) && WellFormed(c, s') && s'.wals == s.wals
    ensures HardsOf(c, s') == HardsOf(c, s)
  {
  }

  lemma NodeReplaced(c: Config, s: System, h: History, id: NodeId, n': NodeState)
    requires Inv(c, s, h) && id in Members(c)
    requires NodeOk(c, h, id, n', Replay(s.wals[id]))
    ensures Inv(c, s.(nodes := s.nodes[id := n']), h)
  {
    hide HistoryInv, NodeOk, PacketOk, EveryCutRecovers, HardsOf, Replay, ValidConfig;
    var s' := s.(nodes := s.nodes[id := n']);
    SameHards(c, s, s');
    forall v | v in Members(c) ensures NodeOk(c, h, v, s'.nodes[v], Replay(s'.wals[v])) {
      assert NodeOk(c, h, v, s.nodes[v], Replay(s.wals[v]));
    }
    forall v | v in Members(c) ensures EveryCutRecovers(s'.wals[v]) {
      assert EveryCutRecovers(s.wals[v]);
    }
    forall p | p in s'.net ensures PacketOk(c, h, p) {
      assert PacketOk(c, h, p);
    }
  }

  /** Recovery reads back exactly what a running node holds, and a log with no gap. */
  lemma RestartOk(c: Config, s: System, h: History, id: NodeId)
    requires Inv(c, s, h) && id in Members(c)
    ensures Contiguous(Replay(s.wals[id]).log)
    ensures NodeOk(c, h, id, Restarted(s.nodes[id], Replay(s.wals[id])), Replay(s.wals[id]))
    ensures s.nodes[id].running ==> Restarted(s.nodes[id], Replay(s.wals[id])) == s.nodes[id]
  {
    assert NodeOk(c, h, id, s.nodes[id], Replay(s.wals[id]));
    HardContiguous(c, HardsOf(c, s), h, id);
  }

  lemma SubmitKeeps(c: Config, s: System, h: History, p: Packet)
    requires Inv(c, s, h) && p.msg.ClientRequest?
    ensures Inv(c, s.(net := s.net + {p}), h)
  {
    hide HistoryInv, NodeOk, EveryCutRecovers, HardsOf, Replay, ValidConfig;
    var s' := s.(net := s.net + {p});
    SameHards(c, s, s');
    forall v | v in Members(c) ensures NodeOk(c, h, v, s'.nodes[v], Replay(s'.wals[v])) {
      assert NodeOk(c, h, v, s.nodes[v], Replay(s.wals[v]));
    }
    forall v | v in Members(c) ensures EveryCutRecovers(s'.wals[v]) {
      assert EveryCutRecovers(s.wals[v]);
    }
    forall q | q in s'.net ensures PacketOk(c, h, q) {
      assert q in s.net ==> PacketOk(c, h, q);
    }
  }

  // -- every event

  lemma EffectGrows(c: Config, hs: Hards, h: History, h': History, id: NodeId, effect: Effect)
    requires EffectOk(c, hs, h, h', id, effect)
    ensures Grows(h, h')
  {
  }

  lemma FailureGrows(c: Config, hs: Hards, h: History, h': History, id: NodeId, kept: seq<Record>)
    requires FailureOk(c, hs, h, h', id, kept)
    ensures Grows(h, h')
  {
  }

  lemma DeliverKeeps(c: Config, s: System, h: History, p: Packet)
    requires Inv(c, s, h) && CanReceive(c, s, p)
    ensures Ready(s.nodes[p.dst], p.msg)
    ensures Inv(c, Complete(s, p.dst, Received(c, s, p)), RecordDelivery(c, h, s.nodes[p.dst], p))
    ensures Grows(h, RecordDelivery(c, h, s.nodes[p.dst], p))
  {
    var hs := HardsOf(c, s);
    var n := s.nodes[p.dst];
    NodeInvariant(c, s, h, p.dst);
    PacketInvariant(c, s, h, p);
    hide Inv, HistoryInv, NodeOk, PacketOk, EffectOk, Dispatch, RecordDelivery;
    AlwaysReady(c, hs, h, p.dst, n, p);
    DispatchKeeps(c, hs, h, p.dst, n, p);
    EffectGrows(c, hs, h, RecordDelivery(c, h, n, p), p.dst, Received(c, s, p));
    CompleteKeeps(c, s, h, RecordDelivery(c, h, n, p), p.dst, Received(c, s, p));
  }

  lemma DeliverAndFailKeeps(c: Config, s: System, h: History, p: Packet, cut: nat)
    requires Inv(c, s, h) && CanReceive(c, s, p)
    ensures Ready(s.nodes[p.dst], p.msg)
    ensures Inv(c, Fail(s, p.dst, Received(c, s, p), cut), RecordFailure(h, s.nodes[p.dst], p, cut))
    ensures Grows(h, RecordFailure(h, s.nodes[p.dst], p, cut))
  {
    var hs := HardsOf(c, s);
    var n := s.nodes[p.dst];
    NodeInvariant(c, s, h, p.dst);
    PacketInvariant(c, s, h, p);
    hide Inv, HistoryInv, NodeOk, PacketOk, FailureOk, Dispatch;
    AlwaysReady(c, hs, h, p.dst, n, p);
    var effect := Received(c, s, p);
    var k := Min(cut, |effect.written|);
    DispatchFails(c, hs, h, p.dst, n, p, k);
    SameFailure(c, h, p.dst, n, p, cut);
    FailureGrows(c, hs, h, RecordFailure(h, n, p, k), p.dst, effect.written[..k]);
    FailKeeps(c, s, h, RecordFailure(h, n, p, k), p.dst, effect, cut);
  }

  lemma SameFailure(c: Config, h: History, id: NodeId, n: NodeState, p: Packet, cut: nat)
    requires Ready(n, p.msg)
    ensures var k := Min(cut, |Dispatch(id, Peers(c, id), n, p.src, p.msg).written|);
            RecordFailure(h, n, p, k) == RecordFailure(h, n, p, cut)
  {
    hide ReplicateAll, AdvanceCommit, Peers;
  }

  lemma TimeoutKeeps(c: Config, s: System, h: History, id: NodeId)
    requires Inv(c, s, h) && IsUp(c, s, id)
    ensures Inv(c, Complete(s, id, TimedOut(c, s, id)), RecordTimeout(c, h, id, s.nodes[id]))
    ensures Grows(h, RecordTimeout(c, h, id, s.nodes[id]))
  {
    var hs := HardsOf(c, s);
    NodeInvariant(c, s, h, id);
    hide Inv, HistoryInv, NodeOk, EffectOk, OnElectionTimeout, RecordTimeout, Complete, Peers;
    var effect := TimedOut(c, s, id);
    OnElectionTimeoutKeeps(c, hs, h, id, s.nodes[id]);
    EffectGrows(c, hs, h, RecordTimeout(c, h, id, s.nodes[id]), id, effect);
    CompleteKeeps(c, s, h, RecordTimeout(c, h, id, s.nodes[id]), id, effect);
  }

  lemma TimeoutAndFailKeeps(c: Config, s: System, h: History, id: NodeId, cut: nat)
    requires Inv(c, s, h) && IsUp(c, s, id)
    ensures Inv(c, Fail(s, id, TimedOut(c, s, id), cut), h)
  {
    var hs := HardsOf(c, s);
    NodeInvariant(c, s, h, id);
    hide Inv, HistoryInv, NodeOk, FailureOk, OnElectionTimeout, Fail, Peers;
    var effect := TimedOut(c, s, id);
    TimeoutFails(c, hs, h, id, s.nodes[id], Min(cut, |effect.written|));
    FailKeeps(c, s, h, h, id, effect, cut);
  }

  lemma HeartbeatEventKeeps(c: Config, s: System, h: History, id: NodeId)
    requires Inv(c, s, h) && IsUp(c, s, id) && s.nodes[id].role.Leader?
    ensures NextIndexOk(s.nodes[id])
    ensures Inv(c, Complete(s, id, SendHeartbeats(id, Peers(c, id), s.nodes[id])), h)
  {
    var hs := HardsOf(c, s);
    NodeInvariant(c, s, h, id);
    hide Inv, HistoryInv, EffectOk, AppliedOk, SendHeartbeats;
    assert LeadingOk(c, hs, h, id, s.nodes[id]);
    HeartbeatKeeps(c, hs, h, id, s.nodes[id]);
    CompleteKeeps(c, s, h, h, id, SendHeartbeats(id, Peers(c, id), s.nodes[id]));
  }

  lemma CrashKeeps(c: Config, s: System, h: History, id: NodeId)
    requires Inv(c, s, h) && id in Members(c)
    ensures Inv(c, s.(nodes := s.nodes[id := Crashed(s.nodes[id])]), h)
  {
    assert NodeOk(c, h, id, s.nodes[id], Replay(s.wals[id]));
    NodeReplaced(c, s, h, id, Crashed(s.nodes[id]));
  }

  /** Every event keeps the invariant, and none raises. */
  lemma StepKeeps(c: Config, s: System, h: History, ev: Event)
    requires Inv(c, s, h)
    ensures Inv(c, Apply(c, s, ev), Recorded(c, h, s, ev))
    ensures Grows(h, Recorded(c, h, s, ev))
  {
    GrowsSelf(h, 0);
    hide Grows, HistoryInv, NodeOk, PacketOk, EveryCutRecovers, Complete, Fail, Received, TimedOut, RecordDelivery,
         RecordTimeout,
         RecordFailure, SendHeartbeats, Ready, NextIndexOk, Crashed, Restarted, Replay, HardsOf;
    match ev
    case Deliver(p) =>
      if CanReceive(c, s, p) { DeliverKeeps(c, s, h, p); }
    case DeliverAndFail(p, cut) =>
      if CanReceive(c, s, p) { DeliverAndFailKeeps(c, s, h, p, cut); }
    case ElectionTimeout(id) =>
      if IsUp(c, s, id) { TimeoutKeeps(c, s, h, id); }
    case ElectionTimeoutAndFail(id, cut) =>
      if IsUp(c, s, id) { TimeoutAndFailKeeps(c, s, h, id, cut); }
    case Heartbeat(id) =>
      if IsUp(c, s, id) && s.nodes[id].role.Leader? { HeartbeatEventKeeps(c, s, h, id); }
    case Crash(id) =>
      if id in Members(c) { CrashKeeps(c, s, h, id); }
    case Restart(id) =>
      if id in Members(c) {
        RestartOk(c, s, h, id);
        NodeReplaced(c, s, h, id, Restarted(s.nodes[id], Replay(s.wals[id])));
      }
    case Submit(to, requestId, command) =>
      SubmitKeeps(c, s, h, Packet(CLIENT_ID, to, ClientRequest(requestId, command)));
  }

  lemma InitialOk(c: Config)
    requires ValidConfig(c)
    ensures Inv(c, Initial(c), NOTHING_YET)
  {
    var s := Initial(c);
    forall id | id in Members(c)
      ensures s.nodes[id] == INITIAL_NODE && s.wals[id] == [] && Replay(s.wals[id]) == EMPTY
    {
    }
    forall id | id in Members(c) ensures EveryCutRecovers(s.wals[id]) {
      assert s.wals[id][..0] == [];
    }
  }

  /** The invariant of every run. */
  lemma {:induction false} RunKeeps(c: Config, events: seq<Event>)
    requires ValidConfig(c)
    ensures Inv(c, Run(c, events), Past(c, events))
  {
    hide Inv, Apply, Recorded;
    if events == [] {
      InitialOk(c);
    } else {
      var earlier := events[..|events| - 1];
      RunKeeps(c, earlier);
      StepKeeps(c, Run(c, earlier), Past(c, earlier), events[|events| - 1]);
    }
  }
}
