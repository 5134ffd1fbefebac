// The invariant of every reachable state: hard states and history, each running node's
// memory, every packet ever sent, and every write-ahead log.
module Invariant {
  import opened Types
  import opened Kv
  import opened Log
  import opened Messages
  import opened Wal
  import opened NodeSpec
  import opened Cluster
  import opened History

  /** What a recovery of each node's log would read back now. */
  function HardsOf(c: Config, s: System): (hs: Hards)
    requires WellFormed(c, s)
    ensures hs.Keys == Members(c)
    ensures forall id :: id in Members(c) ==> hs[id] == Replay(s.wals[id])
  {
    Replayed(c.ids, s.wals)
  }

  function Replayed(ids: seq<NodeId>, wals: map<NodeId, seq<Record>>): (hs: Hards)
    requires forall id :: id in ids ==> id in wals
    ensures hs.Keys == SetOf(ids)
    ensures forall id :: id in ids ==> hs[id] == Replay(wals[id])
  {
    if ids == [] then map[] else Replayed(ids[1..], wals)[ids[0] := Replay(wals[ids[0]])]
  }

  /** The first `k` entries of `log` are what a commit of some term up to `t` committed. */
  ghost predicate Covered(h: History, log: seq<LogEntry>, k: Index, t: Term) {
    k == 0 || exists commit :: commit in h.commits && CoveredBy(h, log, k, t, commit)
  }

  ghost predicate CoveredBy(h: History, log: seq<LogEntry>, k: Index, t: Term, commit: Commit) {
    && commit.term <= t
    && commit.term in h.ledger
    && k == commit.index <= |h.ledger[commit.term]|
    && k <= |log|
    && log[..k] == h.ledger[commit.term][..k]
  }

  // -- nodes

  ghost predicate CandidateOk(c: Config, h: History, id: NodeId, n: NodeState) {
    && (n.currentTerm, id) in h.candidacies
    && h.candidacies[(n.currentTerm, id)] == n.log
    && id in n.votesGranted
    && n.votesGranted <= Members(c)
    && (forall v :: v in n.votesGranted ==>
          (n.currentTerm, v) in h.votes && h.votes[(n.currentTerm, v)].candidate == id)
    && !(n.currentTerm in h.elections && h.elections[n.currentTerm].leader == id)
  }

  ghost predicate LeaderOk(h: History, id: NodeId, n: NodeState) {
    && n.currentTerm in h.elections && h.elections[n.currentTerm].leader == id
    && n.currentTerm in h.ledger && h.ledger[n.currentTerm] == n.log
    && (n.currentTerm, id) in h.acks && h.acks[(n.currentTerm, id)] == |n.log|
    && (forall p :: p in n.matchIndex && n.matchIndex[p] > 0 ==>
          (n.currentTerm, p) in h.acks && n.matchIndex[p] <= h.acks[(n.currentTerm, p)])
    && NextIndexOk(n)
  }

  ghost predicate MemoryOk(n: NodeState, hard: Recovered) {
    n.currentTerm == hard.term && n.votedFor == hard.vote && n.log == hard.log
  }

  ghost predicate AppliedOk(h: History, n: NodeState) {
    && n.lastApplied == n.commitIndex <= |n.log|
    && Covered(h, n.log, n.commitIndex, n.currentTerm)
    && n.kv == Fold(EMPTY_STORE, n.log[..n.lastApplied])
  }

  ghost predicate NodeOk(c: Config, h: History, id: NodeId, n: NodeState, hard: Recovered) {
    if n.running then
      && MemoryOk(n, hard)
      && AppliedOk(h, n)
      && (n.role.Candidate? ==> CandidateOk(c, h, id, n))
      && (n.role.Leader? ==> LeaderOk(h, id, n))
    else
      n == INITIAL_NODE.(running := false)
  }

  // -- packets

  ghost predicate PacketOk(c: Config, h: History, p: Packet) {
    match p.msg
    case RequestVote(term, candidate, lastIndex, lastTerm) =>
      && candidate == p.src
      && (term, p.src) in h.candidacies
      && lastIndex == |h.candidacies[(term, p.src)]|
      && lastTerm == LastTerm(h.candidacies[(term, p.src)])
    case RequestVoteReply(term, granted) =>
      granted ==> p.src in Members(c) && (term, p.src) in h.votes && h.votes[(term, p.src)].candidate == p.dst
    case AppendEntries(term, leader, prev, prevTerm, entries, commit) =>
      && leader == p.src && p.src != p.dst
      && term in h.elections && h.elections[term].leader == p.src
      && term in h.ledger
      && prev + |entries| <= |h.ledger[term]|
      && prevTerm == TermAt(h.ledger[term], prev)
      && entries == h.ledger[term][prev..prev + |entries|]
      && commit <= prev + |entries|
      && Covered(h, h.ledger[term], commit, term)
    case AppendEntriesReply(term, success, index) =>
      && p.src != p.dst
      && (success ==> (term, p.src) in h.acks && index <= h.acks[(term, p.src)])
    case ClientRequest(_, _) => true
    case ClientReply(_, _, _) => true
  }

  // -- logs on disk

  /** Wherever a crash cuts this log, recovery finds a contiguous log. */
  ghost predicate EveryCutRecovers(wal: seq<Record>) {
    forall k :: 0 <= k <= |wal| ==> Contiguous(Replay(wal[..k]).log)
  }

  ghost predicate Inv(c: Config, s: System, h: History) {
    && ValidConfig(c)
    && WellFormed(c, s)
    && !s.raised
    && HistoryInv(c, HardsOf(c, s), h)
    && (forall id {:trigger NodeOk(c, h, id, s.nodes[id], Replay(s.wals[id]))} :: id in Members(c) ==>
          NodeOk(c, h, id, s.nodes[id], Replay(s.wals[id])))
    && (forall p {:trigger PacketOk(c, h, p)} :: p in s.net ==> PacketOk(c, h, p))
    && (forall id {:trigger EveryCutRecovers(s.wals[id])} :: id in Members(c) ==> EveryCutRecovers(s.wals[id]))
  }

  // -- what growth of history preserves

  /** Only `id` may have won a term or extended a leader's log. */
  ghost predicate OnlyBy(h: History, h': History, id: NodeId) {
    && (forall t :: t in h.elections && h.elections[t].leader != id && t in h.ledger ==>
          t in h'.ledger && h'.ledger[t] == h.ledger[t])
    && (forall t :: t in h'.elections && t !in h.elections ==> h'.elections[t].leader == id)
    && (forall k :: k in h.acks && k.1 != id ==> k in h'.acks && h'.acks[k] == h.acks[k])
  }

  lemma CoveredPersists(h: History, h': History, log: seq<LogEntry>, log': seq<LogEntry>, k: Index, t: Term, t': Term)
    requires Grows(h, h') && t <= t' && k <= |log'| && Covered(h, log, k, t)
    requires k <= |log| ==> log[..k] == log'[..k]
    ensures Covered(h', log', k, t')
  {
    if k > 0 {
      var commit :| commit in h.commits && CoveredBy(h, log, k, t, commit);
      assert h.ledger[commit.term] <= h'.ledger[commit.term];
      assert h'.ledger[commit.term][..k] == h.ledger[commit.term][..k];
      assert CoveredBy(h', log', k, t', commit);
    }
  }

  lemma PacketPersists(c: Config, h: History, h': History, p: Packet)
    requires Grows(h, h') && PacketOk(c, h, p)
    ensures PacketOk(c, h', p)
  {
    if p.msg.AppendEntries? {
      var m := p.msg;
      var lead := h.ledger[m.term];
      var lead' := h'.ledger[m.term];
      assert lead <= lead';
      assert lead'[m.prevLogIndex..m.prevLogIndex + |m.entries|] == lead[m.prevLogIndex..m.prevLogIndex + |m.entries|];
      assert TermAt(lead', m.prevLogIndex) == TermAt(lead, m.prevLogIndex);
      CoveredPersists(h, h', lead, lead', m.leaderCommit, m.term, m.term);
    }
  }

  /** A node that did not act keeps what it is entitled to. */
  lemma NodePersists(c: Config, h: History, h': History, actor: NodeId, id: NodeId, n: NodeState, hard: Recovered)
    requires Grows(h, h') && OnlyBy(h, h', actor) && id != actor
    requires NodeOk(c, h, id, n, hard)
    ensures NodeOk(c, h', id, n, hard)
  {
    if n.running {
      CoveredPersists(h, h', n.log, n.log, n.commitIndex, n.currentTerm, n.currentTerm);
    }
  }

  // -- one node's step, judged on its own

  function Rehard(hs: Hards, id: NodeId, records: seq<Record>): Hards
    requires id in hs
  {
    hs[id := ReplayFrom(hs[id], records)]
  }

  ghost predicate CutsContiguous(hard: Recovered, records: seq<Record>) {
    forall k :: 0 <= k <= |records| ==> Contiguous(ReplayFrom(hard, records[..k]).log)
  }

  /** A completed handler: history, the node, everything it sent and every cut of its records. */
  ghost predicate EffectOk(c: Config, hs: Hards, h: History, h': History, id: NodeId, effect: Effect) {
    && id in hs
    && Grows(h, h')
    && OnlyBy(h, h', id)
    && HistoryInv(c, Rehard(hs, id, effect.written), h')
    && NodeOk(c, h', id, effect.node, ReplayFrom(hs[id], effect.written))
    && (forall p {:trigger PacketOk(c, h', p)} :: p in effect.sent ==> PacketOk(c, h', p))
    && CutsContiguous(hs[id], effect.written)
  }

  /** A handler whose disk failed, of whose records `kept` survived. */
  ghost predicate FailureOk(c: Config, hs: Hards, h: History, h': History, id: NodeId, kept: seq<Record>) {
    && id in hs
    && Grows(h, h')
    && OnlyBy(h, h', id)
    && HistoryInv(c, Rehard(hs, id, kept), h')
    && CutsContiguous(hs[id], kept)
  }

  lemma WalExtends(wal: seq<Record>, records: seq<Record>)
    requires EveryCutRecovers(wal) && CutsContiguous(Replay(wal), records)
    ensures EveryCutRecovers(wal + records)
    ensures Replay(wal + records) == ReplayFrom(Replay(wal), records)
  {
    ReplayAppend(EMPTY, wal, records);
    forall k | 0 <= k <= |wal + records| ensures Contiguous(Replay((wal + records)[..k]).log) {
      if k <= |wal| {
        assert (wal + records)[..k] == wal[..k];
      } else {
        assert (wal + records)[..k] == wal + records[..k - |wal|];
        ReplayAppend(EMPTY, wal, records[..k - |wal|]);
      }
    }
  }

  lemma WalsAfter(c: Config, s: System, id: NodeId, records: seq<Record>, s': System)
    requires WellFormed(c, s) && WellFormed(c, s') && id in Members(c)
    requires s'.wals == s.wals[id := s.wals[id] + records]
    requires forall v {:trigger EveryCutRecovers(s.wals[v])} :: v in Members(c) ==> EveryCutRecovers(s.wals[v])
    requires CutsContiguous(Replay(s.wals[id]), records)
    ensures HardsOf(c, s') == Rehard(HardsOf(c, s), id, records)
    ensures forall v {:trigger EveryCutRecovers(s'.wals[v])} :: v in Members(c) ==> EveryCutRecovers(s'.wals[v])
  {
    hide EveryCutRecovers, CutsContiguous, ReplayFrom, Replay, HardsOf;
    assert EveryCutRecovers(s.wals[id]);
    WalExtends(s.wals[id], records);
    forall v | v in Members(c) ensures EveryCutRecovers(s'.wals[v]) {
      assert EveryCutRecovers(s.wals[v]);
    }
    var hs, hs' := HardsOf(c, s), HardsOf(c, s');
    forall v | v in Members(c) ensures hs'[v] == Rehard(hs, id, records)[v] {
    }
  }

  lemma CompleteKeeps(c: Config, s: System, h: History, h': History, id: NodeId, effect: Effect)
    requires Inv(c, s, h) && id in Members(c)
    requires EffectOk(c, HardsOf(c, s), h, h', id, effect)
    ensures Inv(c, Complete(s, id, effect), h')
  {
    hide HistoryInv, NodeOk, PacketOk, EveryCutRecovers, CutsContiguous, HardsOf, ReplayFrom, ValidConfig, Grows,
         OnlyBy;
    var s' := Complete(s, id, effect);
    WalsAfter(c, s, id, effect.written, s');
    forall v | v in Members(c) ensures NodeOk(c, h', v, s'.nodes[v], Replay(s'.wals[v])) {
      if v == id {
        assert EveryCutRecovers(s.wals[id]);
        WalExtends(s.wals[id], effect.written);
      } else {
        assert NodeOk(c, h, v, s.nodes[v], Replay(s.wals[v]));
        NodePersists(c, h, h', id, v, s.nodes[v], Replay(s.wals[v]));
      }
    }
    forall p | p in s'.net ensures PacketOk(c, h', p) {
      if p in s.net {
        assert PacketOk(c, h, p);
        PacketPersists(c, h, h', p);
      }
    }
  }

  lemma FailKeeps(c: Config, s: System, h: History, h': History, id: NodeId, effect: Effect, cut: nat)
    requires Inv(c, s, h) && id in Members(c)
    requires FailureOk(c, HardsOf(c, s), h, h', id, effect.written[..Min(cut, |effect.written|)])
    ensures Inv(c, Fail(s, id, effect, cut), h')
  {
    hide HistoryInv, PacketOk, EveryCutRecovers, CutsContiguous, HardsOf, ReplayFrom, ValidConfig, Grows, OnlyBy;
    var s' := Fail(s, id, effect, cut);
    var kept := effect.written[..Min(cut, |effect.written|)];
    WalsAfter(c, s, id, kept, s');
    forall v | v in Members(c) ensures NodeOk(c, h', v, s'.nodes[v], Replay(s'.wals[v])) {
      assert NodeOk(c, h, v, s.nodes[v], Replay(s.wals[v]));
      if v != id {
        NodePersists(c, h, h', id, v, s.nodes[v], Replay(s.wals[v]));
      }
    }
    forall p | p in s'.net ensures PacketOk(c, h', p) {
      assert PacketOk(c, h, p);
      PacketPersists(c, h, h', p);
    }
  }
}
