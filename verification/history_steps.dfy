// The kinds of change a step can make to hard states and history, and why each keeps the
// invariant. Every handler is a short chain of these.
module HistorySteps {
  import opened Types
  import opened Log
  import opened Wal
  import opened NodeSpec
  import opened Cluster
  import opened History

  // -- grounded logs

  lemma GroundedPrefix(log: seq<LogEntry>, ledger: map<Term, seq<LogEntry>>, k: nat)
    requires Grounded(log, ledger) && k <= |log|
    ensures Grounded(log[..k], ledger)
  {
    forall i | 0 <= i < k ensures GroundedAt(log[..k], ledger, i) {
      assert GroundedAt(log, ledger, i);
      assert log[..k][..i + 1] == log[..i + 1];
    }
  }

  lemma GroundedGrows(log: seq<LogEntry>, ledger: map<Term, seq<LogEntry>>, ledger': map<Term, seq<LogEntry>>)
    requires Grounded(log, ledger)
    requires forall t :: t in ledger ==> t in ledger' && ledger[t] <= ledger'[t]
    ensures Grounded(log, ledger')
  {
    forall i | 0 <= i < |log| ensures GroundedAt(log, ledger', i) {
      assert GroundedAt(log, ledger, i);
    }
  }

  /** Log matching: equal terms at one position make two grounded logs equal up to there. */
  lemma SameTermSamePrefix(a: seq<LogEntry>, b: seq<LogEntry>, ledger: map<Term, seq<LogEntry>>, i: nat)
    requires Grounded(a, ledger) && Grounded(b, ledger)
    requires i < |a| && i < |b| && a[i].term == b[i].term
    ensures a[..i + 1] == b[..i + 1]
  {
    assert GroundedAt(a, ledger, i) && GroundedAt(b, ledger, i);
  }

  /** A log ending in term t is a prefix of t's ledger, and holds nothing newer than t. */
  lemma LastTermBounds(h: History, log: seq<LogEntry>)
    requires LedgerOk(h) && Grounded(log, h.ledger) && log != []
    ensures LastTerm(log) in h.ledger && log <= h.ledger[LastTerm(log)]
    ensures forall i :: 0 <= i < |log| ==> log[i].term <= LastTerm(log)
  {
    var n := |log|;
    assert log[..n] == log;
    assert GroundedAt(log, h.ledger, n - 1);
    assert LeaderLogOk(h, LastTerm(log));
    forall i | 0 <= i < n ensures log[i].term <= LastTerm(log) {
      assert log[i] == h.ledger[LastTerm(log)][i];
    }
  }

  // -- quorums

  lemma Cardinality(ids: seq<NodeId>)
    requires forall i, j :: 0 <= i < j < |ids| ==> ids[i] != ids[j]
    ensures |SetOf(ids)| == |ids|
  {
    if ids != [] {
      var rest := ids[1..];
      Cardinality(rest);
      assert SetOf(ids) == SetOf(rest) + {ids[0]};
    }
  }

  lemma DisjointSizes(a: set<NodeId>, b: set<NodeId>, whole: set<NodeId>)
    requires a <= whole && b <= whole && a !! b
    ensures |a| + |b| <= |whole|
  {
    assert |a + b| == |a| + |b|;
    SubsetSize(a + b, whole);
  }

  lemma SubsetSize(a: set<NodeId>, whole: set<NodeId>)
    requires a <= whole
    ensures |a| <= |whole|
  {
    assert whole == a + (whole - a);
  }

  /** Two majorities of one cluster share a node. */
  lemma QuorumsMeet(c: Config, a: set<NodeId>, b: set<NodeId>) returns (v: NodeId)
    requires ValidConfig(c) && Quorum(c, a) && Quorum(c, b)
    ensures v in a && v in b
  {
    Cardinality(c.ids);
    if a !! b {
      DisjointSizes(a, b, Members(c));
      assert false;
    }
    v :| v in a && v in b;
  }

  // -- what was recorded stays true as history grows

  predicate Later(h: History, h': History) {
    h.ledger.Keys == h.elections.Keys && |h.elections| <= |h'.elections|
  }

  /** No election, no leader's log and no acknowledgement is new. */
  predicate SameLeaders(h: History, h': History) {
    h'.elections == h.elections && h'.ledger == h.ledger && h'.acks == h.acks
  }

  lemma LedgerGrounded(log: seq<LogEntry>, h: History, h': History)
    requires Grows(h, h') && Grounded(log, h.ledger)
    ensures Grounded(log, h'.ledger)
  {
    GroundedGrows(log, h.ledger, h'.ledger);
  }

  lemma KeptPersists(h: History, h': History, t: Term, i: nat, log: seq<LogEntry>, at: nat, at': nat)
    requires Grows(h, h') && at <= at'
    requires t in h.ledger && i <= |h.ledger[t]| && Kept(h, t, i, log, at)
    ensures t in h'.ledger && i <= |h'.ledger[t]| && Kept(h', t, i, log, at')
  {
    assert h.ledger[t] <= h'.ledger[t];
    assert h'.ledger[t][..i] == h.ledger[t][..i];
    if !(h.ledger[t][..i] <= log) {
      var w :| w in h.elections && w > t && h.elections[w].order < at && !(h.ledger[t][..i] <= h.elections[w].log);
      assert w in h'.elections && h'.elections[w] == h.elections[w];
    }
  }

  lemma KeptUpToPersists(h: History, h': History, t: Term, top: nat, log: seq<LogEntry>, at: nat, at': nat)
    requires Grows(h, h') && at <= at'
    requires t in h.ledger && top <= |h.ledger[t]| && KeptUpTo(h, t, top, log, at)
    ensures t in h'.ledger && top <= |h'.ledger[t]| && KeptUpTo(h', t, top, log, at')
  {
    assert h.ledger[t] <= h'.ledger[t];
    forall i | 0 <= i <= top ensures Kept(h', t, i, log, at') {
      assert Kept(h, t, i, log, at);
      KeptPersists(h, h', t, i, log, at, at');
    }
  }

  lemma VotePersists(c: Config, hs: Hards, h: History, h': History, t: Term, v: NodeId)
    requires Grows(h, h') && Later(h, h')
    requires (t, v) in h.votes && VoteOk(c, hs, h, t, v)
    requires Grounded(h.candidacies[(t, h.votes[(t, v)].candidate)], h.ledger)
    ensures (t, v) in h'.votes && VoteOk(c, hs, h', t, v)
  {
    var vote := h.votes[(t, v)];
    LedgerGrounded(vote.log, h, h');
    var log := h.candidacies[(t, vote.candidate)];
    assert h'.candidacies[(t, vote.candidate)] == log;
    forall i | 0 <= i < |log| && log[i].term in h'.elections && v in h'.elections[log[i].term].voters
      ensures log[i].term <= t
    {
      assert GroundedAt(log, h.ledger, i);
    }
  }

  lemma CandidacyPersists(c: Config, hs: Hards, h: History, h': History, t: Term, id: NodeId)
    requires Grows(h, h') && Later(h, h')
    requires (t, id) in h.candidacies && CandidacyOk(c, hs, h, t, id)
    ensures (t, id) in h'.candidacies && CandidacyOk(c, hs, h', t, id)
  {
    var log := h.candidacies[(t, id)];
    LedgerGrounded(log, h, h');
    forall i | 0 <= i < |log| && log[i].term in h'.elections && h'.elections[log[i].term].leader == id
      ensures log[i].term < t
    {
      assert GroundedAt(log, h.ledger, i);
    }
  }

  lemma ElectionPersists(c: Config, h: History, h': History, t: Term)
    requires Grows(h, h') && Later(h, h')
    requires t in h.elections && t in h.ledger && ElectionOk(c, h, t)
    requires t in h'.ledger && forall i :: |h.ledger[t]| <= i < |h'.ledger[t]| ==> h'.ledger[t][i].term == t
    ensures t in h'.elections && ElectionOk(c, h', t)
  {
    var e := h.elections[t];
    assert h.ledger[t] <= h'.ledger[t];
    forall i | |e.log| <= i < |h'.ledger[t]| ensures h'.ledger[t][i].term == t {
      if i < |h.ledger[t]| {
        assert h'.ledger[t][i] == h.ledger[t][i];
      }
    }
  }

  lemma CommitPersists(c: Config, h: History, h': History, k: Commit)
    requires Grows(h, h') && CommitOk(c, h, k)
    ensures CommitOk(c, h', k)
  {
    assert h.ledger[k.term] <= h'.ledger[k.term];
    assert h'.ledger[k.term][k.index - 1] == h.ledger[k.term][k.index - 1];
  }

  lemma VoterKeptPersists(h: History, h': History, t: Term, v: NodeId, u: Term)
    requires Grows(h, h')
    requires (t, v) in h.acks && (u, v) in h.votes && VoterKept(h, t, v, u)
    requires h'.acks[(t, v)] == h.acks[(t, v)]
    ensures VoterKept(h', t, v, u)
  {
    KeptUpToPersists(h, h', t, h.acks[(t, v)], h.votes[(u, v)].log, h.votes[(u, v)].at, h.votes[(u, v)].at);
  }

  // -- raising a term, or voting in one

  /** The log stays; the term rises, or it stays and a vote is cast where there was none. */
  predicate Forward(before: Recovered, after: Recovered) {
    && after.log == before.log
    && (after.term > before.term
        || (after.term == before.term && (after.vote == before.vote || before.vote == None)))
  }

  lemma RaiseKeeps(c: Config, hs: Hards, h: History, id: NodeId, after: Recovered)
    requires HistoryInv(c, hs, h) && id in hs && Forward(hs[id], after)
    ensures HistoryInv(c, hs[id := after], h)
  {
    var hs' := hs[id := after];
    forall v | v in hs' ensures Grounded(hs'[v].log, h.ledger) {
      assert Grounded(hs[v].log, h.ledger);
    }
    forall t, v | (t, v) in h.votes ensures VoteOk(c, hs', h, t, v) {
      assert VoteOk(c, hs, h, t, v);
    }
    forall t, v | (t, v) in h.candidacies ensures CandidacyOk(c, hs', h, t, v) {
      assert CandidacyOk(c, hs, h, t, v);
    }
    forall t, v | (t, v) in h.acks ensures AckOk(hs', h, t, v) {
      assert AckOk(hs, h, t, v);
    }
  }

  // -- adopting a leader's entries

  /** Whatever the old log shared with the leader's, the new one still shares. */
  ghost predicate KeepsAgreement(log: seq<LogEntry>, lead: seq<LogEntry>, log': seq<LogEntry>) {
    forall i :: 0 <= i <= |log| && log[..i] <= lead ==> log[..i] <= log'
  }

  lemma AdoptKeepsAck(hs: Hards, h: History, id: NodeId, w: Term, log': seq<LogEntry>, t: Term, i: nat)
    requires id in hs && w in h.elections && w in h.ledger && w >= t
    requires h.elections[w].log <= h.ledger[w]
    requires h.elections[w].order < |h.elections|
    requires t in h.ledger && i <= |h.ledger[t]|
    requires KeepsAgreement(hs[id].log, h.ledger[w], log')
    requires Kept(h, t, i, hs[id].log, |h.elections|)
    ensures Kept(h, t, i, log', |h.elections|)
  {
    var p := h.ledger[t][..i];
    if p <= hs[id].log {
      assert hs[id].log[..i] == p;
      if p <= h.ledger[w] {
        assert p <= log';
      } else {
        assert w > t;
        assert !(p <= h.elections[w].log);
      }
    }
  }

  lemma AdoptKeeps(c: Config, hs: Hards, h: History, id: NodeId, w: Term, log': seq<LogEntry>)
    requires HistoryInv(c, hs, h) && id in hs
    requires w in h.elections && w >= hs[id].term
    requires Grounded(log', h.ledger) && KeepsAgreement(hs[id].log, h.ledger[w], log')
    ensures HistoryInv(c, hs[id := hs[id].(log := log')], h)
  {
    var hs' := hs[id := hs[id].(log := log')];
    forall v | v in hs' ensures Grounded(hs'[v].log, h.ledger) {
      if v != id {
        assert Grounded(hs[v].log, h.ledger);
      }
    }
    forall t, v | (t, v) in h.votes ensures VoteOk(c, hs', h, t, v) {
      assert VoteOk(c, hs, h, t, v);
    }
    forall t, v | (t, v) in h.candidacies ensures CandidacyOk(c, hs', h, t, v) {
      assert CandidacyOk(c, hs, h, t, v);
    }
    assert ElectionOk(c, h, w);
    forall t, v | (t, v) in h.acks ensures AckOk(hs', h, t, v) {
      assert AckOk(hs, h, t, v);
      if v == id {
        forall i | 0 <= i <= h.acks[(t, v)] ensures Kept(h, t, i, log', |h.elections|) {
          assert Kept(h, t, i, hs[id].log, |h.elections|);
          AdoptKeepsAck(hs, h, id, w, log', t, i);
        }
      }
    }
  }

  // -- acknowledging

  lemma NewAckOk(hs: Hards, h: History, t: Term, id: NodeId, index: Index)
    requires AcksOk(hs, h) && id in hs && hs[id].term == t && t in h.ledger
    requires index <= |h.ledger[t]| && h.ledger[t][..index] <= hs[id].log
    ensures AckOk(hs, RecordAck(h, t, id, index), t, id)
  {
    var h' := RecordAck(h, t, id, index);
    if (t, id) in h.acks {
      assert AckOk(hs, h, t, id);
      KeptUpToPersists(h, h', t, h.acks[(t, id)], hs[id].log, |h.elections|, |h.elections|);
    }
    forall i | 0 <= i <= h'.acks[(t, id)] ensures Kept(h', t, i, hs[id].log, |h'.elections|) {
      if i <= index {
        assert h.ledger[t][..i] == h.ledger[t][..index][..i];
      }
    }
  }

  lemma AckKeeps(c: Config, hs: Hards, h: History, t: Term, id: NodeId, index: Index)
    requires HistoryInv(c, hs, h) && id in hs
    requires hs[id].term == t && t in h.ledger
    requires index <= |h.ledger[t]| && h.ledger[t][..index] <= hs[id].log
    ensures HistoryInv(c, hs, RecordAck(h, t, id, index))
    ensures Grows(h, RecordAck(h, t, id, index))
  {
    var h' := RecordAck(h, t, id, index);
    OldItemsPersist(c, hs, h, h');
    forall u, v | (u, v) in h'.acks ensures AckOk(hs, h', u, v) {
      if (u, v) == (t, id) {
        NewAckOk(hs, h, t, id, index);
      } else {
        assert AckOk(hs, h, u, v);
        KeptUpToPersists(h, h', u, h.acks[(u, v)], hs[v].log, |h.elections|, |h.elections|);
      }
    }
    forall u, v, w | (u, v) in h'.acks && (w, v) in h'.votes && u < w ensures VoterKept(h', u, v, w) {
      assert VoteOk(c, hs, h, w, v);
      if (u, v) != (t, id) {
        assert VoterKept(h, u, v, w);
        VoterKeptPersists(h, h', u, v, w);
      }
    }
  }

  /** The parts of the invariant that speak only of what was already recorded. */
  lemma OldItemsPersist(c: Config, hs: Hards, h: History, h': History)
    requires HistoryInv(c, hs, h) && Grows(h, h')
    requires h'.elections == h.elections && h'.ledger == h.ledger
    ensures HardsOk(c, hs, h') && LedgerOk(h') && ElectionsOk(c, h')
    ensures forall k {:trigger CommitOk(c, h', k)} :: k in h.commits ==> CommitOk(c, h', k)
    ensures forall t, v {:trigger VoteOk(c, hs, h', t, v)} :: (t, v) in h.votes ==> VoteOk(c, hs, h', t, v)
    ensures forall t, v {:trigger CandidacyOk(c, hs, h', t, v)} :: (t, v) in h.candidacies ==>
      CandidacyOk(c, hs, h', t, v)
  {
    forall v | v in hs ensures Grounded(hs[v].log, h'.ledger) {
      assert Grounded(hs[v].log, h.ledger);
    }
    forall t | t in h'.ledger ensures LeaderLogOk(h', t) {
      assert LeaderLogOk(h, t);
    }
    forall t | t in h'.elections ensures ElectionOk(c, h', t) {
      assert ElectionOk(c, h, t);
      ElectionPersists(c, h, h', t);
    }
    OldCommitsPersist(c, h, h');
    forall t, v | (t, v) in h.votes ensures VoteOk(c, hs, h', t, v) {
      assert VoteOk(c, hs, h, t, v);
      assert CandidacyOk(c, hs, h, t, h.votes[(t, v)].candidate);
      VotePersists(c, hs, h, h', t, v);
    }
    forall t, v | (t, v) in h.candidacies ensures CandidacyOk(c, hs, h', t, v) {
      assert CandidacyOk(c, hs, h, t, v);
      CandidacyPersists(c, hs, h, h', t, v);
    }
  }

  lemma OldCommitsPersist(c: Config, h: History, h': History)
    requires CommitsOk(c, h) && Grows(h, h')
    ensures forall k {:trigger CommitOk(c, h', k)} :: k in h.commits ==> CommitOk(c, h', k)
  {
    forall k | k in h.commits ensures CommitOk(c, h', k) {
      assert CommitOk(c, h, k);
      CommitPersists(c, h, h', k);
    }
  }

  lemma OldAcksPersist(c: Config, hs: Hards, h: History, h': History)
    requires HistoryInv(c, hs, h) && Grows(h, h') && Later(h, h')
    requires h'.acks == h.acks
    ensures AcksOk(hs, h')
    ensures forall t, v, u {:trigger VoterKept(h', t, v, u)} ::
              (t, v) in h.acks && (u, v) in h.votes && t < u ==> VoterKept(h', t, v, u)
  {
    forall t, v | (t, v) in h'.acks ensures AckOk(hs, h', t, v) {
      assert AckOk(hs, h, t, v);
      KeptUpToPersists(h, h', t, h.acks[(t, v)], hs[v].log, |h.elections|, |h'.elections|);
    }
    forall t, v, u | (t, v) in h.acks && (u, v) in h.votes && t < u ensures VoterKept(h', t, v, u) {
      assert VoterKept(h, t, v, u);
      VoterKeptPersists(h, h', t, v, u);
    }
  }

  // -- voting

  /** A voter's hard state has reached the term it voted in. */
  lemma VoterTerm(c: Config, hs: Hards, h: History, t: Term, v: NodeId)
    requires ElectionsOk(c, h) && VotesOk(c, hs, h)
    requires t in h.elections && v in h.elections[t].voters
    ensures v in hs && t <= hs[v].term
    ensures t == hs[v].term ==> hs[v].vote == Some(h.elections[t].leader)
  {
    assert ElectionOk(c, h, t);
    assert VoteOk(c, hs, h, t, v);
  }

  lemma VoteKeeps(c: Config, hs: Hards, h: History, t: Term, id: NodeId, candidate: NodeId)
    requires HistoryInv(c, hs, h) && id in hs
    requires hs[id].term == t && hs[id].vote == Some(candidate)
    requires (t, candidate) in h.candidacies
    requires var log := h.candidacies[(t, candidate)]; UpToDate(LastTerm(log), |log|, hs[id].log)
    ensures HistoryInv(c, hs, RecordVote(h, t, id, candidate, hs[id].log))
    ensures Grows(h, RecordVote(h, t, id, candidate, hs[id].log))
    ensures SameLeaders(h, RecordVote(h, t, id, candidate, hs[id].log))
    ensures var votes := RecordVote(h, t, id, candidate, hs[id].log).votes;
            (t, id) in votes && votes[(t, id)].candidate == candidate
  {
    assert (t, id) in h.votes ==> VoteOk(c, hs, h, t, id);
    var h' := RecordVote(h, t, id, candidate, hs[id].log);
    if (t, id) !in h.votes {
      OldItemsPersist(c, hs, h, h');
      OldAcksPersist(c, hs, h, h');
      assert VoteOk(c, hs, h', t, id) by {
        assert Grounded(hs[id].log, h.ledger);
        var log := h.candidacies[(t, candidate)];
        forall i | 0 <= i < |log| && log[i].term in h.elections && id in h.elections[log[i].term].voters
          ensures log[i].term <= t
        {
          VoterTerm(c, hs, h, log[i].term, id);
        }
      }
      NewVoteKept(hs, h, h', t, id);
    }
  }

  /** A fresh vote is cast with the log the voter holds now. */
  lemma NewVoteKept(hs: Hards, h: History, h': History, t: Term, id: NodeId)
    requires AcksOk(hs, h) && id in hs
    requires (t, id) in h'.votes && h'.votes[(t, id)].log == hs[id].log && h'.votes[(t, id)].at == |h.elections|
    requires Grows(h, h') && h'.acks == h.acks
    ensures forall u {:trigger VoterKept(h', u, id, t)} :: (u, id) in h.acks && u < t ==> VoterKept(h', u, id, t)
  {
    forall u | (u, id) in h.acks && u < t ensures VoterKept(h', u, id, t) {
      assert AckOk(hs, h, u, id);
      KeptUpToPersists(h, h', u, h.acks[(u, id)], hs[id].log, |h.elections|, |h.elections|);
    }
  }

  // -- standing for election

  lemma NotYet(c: Config, hs: Hards, h: History, t: Term, id: NodeId)
    requires VotesOk(c, hs, h) && CandidaciesOk(c, hs, h) && id in hs && t > hs[id].term
    ensures (t, id) !in h.votes && (t, id) !in h.candidacies
  {
    assert (t, id) in h.votes ==> VoteOk(c, hs, h, t, id);
    assert (t, id) in h.candidacies ==> CandidacyOk(c, hs, h, t, id);
  }

  /** What a candidacy adds, and that nothing recorded before changes. */
  lemma CandidacyRecorded(c: Config, hs: Hards, h: History, t: Term, id: NodeId)
    requires VotesOk(c, hs, h) && CandidaciesOk(c, hs, h) && LedgerOk(h) && id in hs && t > hs[id].term
    ensures var h' := RecordCandidacy(h, t, id, hs[id].log);
            && Grows(h, h') && SameLeaders(h, h') && Later(h, h')
            && h'.acks == h.acks && h'.commits == h.commits
            && h'.votes == h.votes[(t, id) := Vote(id, hs[id].log, |h.elections|)]
            && h'.candidacies == h.candidacies[(t, id) := hs[id].log]
  {
    NotYet(c, hs, h, t, id);
  }

  lemma CandidacyIsOk(c: Config, hs: Hards, h: History, t: Term, id: NodeId)
    requires HistoryInv(c, hs, h) && id in hs && t > hs[id].term
    ensures var hs' := hs[id := Recovered(t, Some(id), hs[id].log)];
            var h' := RecordCandidacy(h, t, id, hs[id].log);
            && (t, id) in h'.votes && (t, id) in h'.candidacies
            && VoteOk(c, hs', h', t, id) && CandidacyOk(c, hs', h', t, id)
  {
    var log := hs[id].log;
    CandidacyRecorded(c, hs, h, t, id);
    assert Grounded(hs[id].log, h.ledger);
    forall i | 0 <= i < |log| && log[i].term in h.elections && id in h.elections[log[i].term].voters
      ensures log[i].term < t
    {
      VoterTerm(c, hs, h, log[i].term, id);
    }
    forall i | 0 <= i < |log| && log[i].term in h.elections && h.elections[log[i].term].leader == id
      ensures log[i].term < t
    {
      assert ElectionOk(c, h, log[i].term);
      VoterTerm(c, hs, h, log[i].term, id);
    }
  }

  /** A node moves to a fresh term, votes for itself and advertises its log. */
  lemma CandidacyKeeps(c: Config, hs: Hards, h: History, t: Term, id: NodeId)
    requires HistoryInv(c, hs, h) && id in hs && t > hs[id].term
    ensures var hs' := hs[id := Recovered(t, Some(id), hs[id].log)];
            HistoryInv(c, hs', RecordCandidacy(h, t, id, hs[id].log))
    ensures var h' := RecordCandidacy(h, t, id, hs[id].log);
            && Grows(h, h') && SameLeaders(h, h')
            && (t, id) in h'.candidacies && h'.candidacies[(t, id)] == hs[id].log
            && (t, id) in h'.votes && h'.votes[(t, id)].candidate == id
  {
    var hs' := hs[id := Recovered(t, Some(id), hs[id].log)];
    var h' := RecordCandidacy(h, t, id, hs[id].log);
    CandidacyRecorded(c, hs, h, t, id);
    CandidacyIsOk(c, hs, h, t, id);
    hide VoteOk, CandidacyOk, VoterKept, AckOk, CommitOk, RecordCandidacy, Grows;
    RaiseKeeps(c, hs, h, id, hs'[id]);
    OldItemsPersist(c, hs', h, h');
    OldAcksPersist(c, hs', h, h');
    NewVoteKept(hs', h, h', t, id);
  }

  // -- winning

  /** A quorum voted for `id` in `t`, and `t` has no winner yet. */
  ghost predicate Winning(c: Config, h: History, t: Term, id: NodeId, voters: set<NodeId>) {
    && (t, id) in h.candidacies
    && t !in h.elections
    && id in voters
    && Quorum(c, voters)
    && forall v :: v in voters ==> (t, v) in h.votes && h.votes[(t, v)].candidate == id
  }

  /** A candidate with a quorum holds only entries of older terms, whatever its crashes kept. */
  lemma WinnerHoldsOlderTerms(c: Config, hs: Hards, h: History, t: Term, id: NodeId, voters: set<NodeId>, i: nat)
    requires HistoryInv(c, hs, h) && Winning(c, h, t, id, voters)
    requires i < |h.candidacies[(t, id)]|
    ensures h.candidacies[(t, id)][i].term < t
    ensures h.candidacies[(t, id)][i].term in h.elections
    ensures h.elections[h.candidacies[(t, id)][i].term].order < |h.elections|
  {
    var log := h.candidacies[(t, id)];
    assert CandidacyOk(c, hs, h, t, id);
    assert GroundedAt(log, h.ledger, i);
    var w := log[i].term;
    assert ElectionOk(c, h, w);
    var v := QuorumsMeet(c, h.elections[w].voters, voters);
    assert VoteOk(c, hs, h, t, v);
  }

  lemma WinKeeps(c: Config, hs: Hards, h: History, t: Term, id: NodeId, voters: set<NodeId>)
    requires HistoryInv(c, hs, h) && Winning(c, h, t, id, voters)
    ensures HistoryInv(c, hs, RecordElection(h, t, id, voters, h.candidacies[(t, id)]))
    ensures Grows(h, RecordElection(h, t, id, voters, h.candidacies[(t, id)]))
  {
    var log := h.candidacies[(t, id)];
    var h' := RecordElection(h, t, id, voters, log);
    assert t !in h.ledger;
    assert Grows(h, h');
    forall v | v in hs ensures Grounded(hs[v].log, h'.ledger) {
      assert Grounded(hs[v].log, h.ledger);
      LedgerGrounded(hs[v].log, h, h');
    }
    WinKeepsElections(c, hs, h, t, id, voters);
    forall u, v | (u, v) in h'.votes ensures VoteOk(c, hs, h', u, v) {
      assert VoteOk(c, hs, h, u, v);
      assert CandidacyOk(c, hs, h, u, h.votes[(u, v)].candidate);
      VotePersists(c, hs, h, h', u, v);
    }
    forall u, v | (u, v) in h'.candidacies ensures CandidacyOk(c, hs, h', u, v) {
      assert CandidacyOk(c, hs, h, u, v);
      CandidacyPersists(c, hs, h, h', u, v);
    }
    OldAcksPersist(c, hs, h, h');
    OldCommitsPersist(c, h, h');
  }

  lemma WinKeepsElections(c: Config, hs: Hards, h: History, t: Term, id: NodeId, voters: set<NodeId>)
    requires HistoryInv(c, hs, h) && Winning(c, h, t, id, voters)
    ensures var h' := RecordElection(h, t, id, voters, h.candidacies[(t, id)]);
            ElectionsOk(c, h') && LedgerOk(h')
  {
    var log := h.candidacies[(t, id)];
    var h' := RecordElection(h, t, id, voters, log);
    assert Grows(h, h');
    forall u | u in h'.ledger ensures LeaderLogOk(h', u) {
      if u == t {
        assert CandidacyOk(c, hs, h, t, id);
        forall i | 0 <= i < |log| ensures log[i].term <= t {
          WinnerHoldsOlderTerms(c, hs, h, t, id, voters, i);
        }
      } else {
        assert LeaderLogOk(h, u);
      }
      LedgerGrounded(h'.ledger[u], h, h');
    }
    NewElectionOk(c, hs, h, t, id, voters);
    forall u | u in h'.elections && u != t ensures ElectionOk(c, h', u) {
      assert ElectionOk(c, h, u);
      ElectionPersists(c, h, h', u);
    }
  }

  lemma NewElectionOk(c: Config, hs: Hards, h: History, t: Term, id: NodeId, voters: set<NodeId>)
    requires HistoryInv(c, hs, h) && Winning(c, h, t, id, voters)
    ensures ElectionOk(c, RecordElection(h, t, id, voters, h.candidacies[(t, id)]), t)
  {
    var log := h.candidacies[(t, id)];
    forall i | 0 <= i < |log|
      ensures log[i].term < t && log[i].term in h.elections && h.elections[log[i].term].order < |h.elections|
    {
      WinnerHoldsOlderTerms(c, hs, h, t, id, voters, i);
    }
    forall v | v in voters ensures h.votes[(t, v)].at <= |h.elections| {
      assert VoteOk(c, hs, h, t, v);
    }
  }

  // -- a leader's own append

  lemma AppendGrounded(log: seq<LogEntry>, ledger: map<Term, seq<LogEntry>>, t: Term, entry: LogEntry)
    requires Grounded(log, ledger) && entry.term == t && entry.index == |log| + 1
    requires t in ledger && ledger[t] == log + [entry]
    ensures Grounded(log + [entry], ledger)
  {
    var log' := log + [entry];
    forall i | 0 <= i < |log'| ensures GroundedAt(log', ledger, i) {
      if i < |log| {
        assert GroundedAt(log, ledger, i);
        assert log'[..i + 1] == log[..i + 1];
      }
    }
  }

  lemma AppendKeeps(c: Config, hs: Hards, h: History, t: Term, id: NodeId, entry: LogEntry)
    requires HistoryInv(c, hs, h) && id in hs && hs[id].term == t
    requires t in h.ledger && hs[id].log == h.ledger[t]
    requires entry.term == t && entry.index == |hs[id].log| + 1
    ensures var log := hs[id].log + [entry];
            && HistoryInv(c, hs[id := hs[id].(log := log)], RecordLog(h, t, log))
            && Grows(h, RecordLog(h, t, log))
  {
    var log := hs[id].log + [entry];
    var hs' := hs[id := hs[id].(log := log)];
    var h' := RecordLog(h, t, log);
    assert Grows(h, h');
    AppendKeepsLogs(c, hs, h, t, id, entry);
    forall u, v | (u, v) in h'.votes ensures VoteOk(c, hs', h', u, v) {
      assert VoteOk(c, hs, h, u, v);
      assert CandidacyOk(c, hs, h, u, h.votes[(u, v)].candidate);
      VotePersists(c, hs, h, h', u, v);
      assert VoteOk(c, hs, h', u, v);
    }
    forall u, v | (u, v) in h'.candidacies ensures CandidacyOk(c, hs', h', u, v) {
      assert CandidacyOk(c, hs, h, u, v);
      CandidacyPersists(c, hs, h, h', u, v);
      assert CandidacyOk(c, hs, h', u, v);
    }
    AppendKeepsAcks(c, hs, h, t, id, entry);
  }

  lemma AppendKeepsLogs(c: Config, hs: Hards, h: History, t: Term, id: NodeId, entry: LogEntry)
    requires HardsOk(c, hs, h) && LedgerOk(h) && ElectionsOk(c, h) && id in hs
    requires t in h.ledger && hs[id].log == h.ledger[t]
    requires entry.term == t && entry.index == |hs[id].log| + 1
    ensures var log := hs[id].log + [entry];
            var h' := RecordLog(h, t, log);
            HardsOk(c, hs[id := hs[id].(log := log)], h') && LedgerOk(h') && ElectionsOk(c, h')
  {
    var log := hs[id].log + [entry];
    var hs' := hs[id := hs[id].(log := log)];
    var h' := RecordLog(h, t, log);
    assert Grows(h, h');
    assert LeaderLogOk(h, t);
    LedgerGrounded(hs[id].log, h, h');
    AppendGrounded(hs[id].log, h'.ledger, t, entry);
    forall v | v in hs' ensures Grounded(hs'[v].log, h'.ledger) {
      if v != id {
        assert Grounded(hs[v].log, h.ledger);
        LedgerGrounded(hs[v].log, h, h');
      }
    }
    forall u | u in h'.ledger ensures LeaderLogOk(h', u) {
      assert LeaderLogOk(h, u);
      if u != t {
        LedgerGrounded(h.ledger[u], h, h');
      }
    }
    AppendKeepsElections(c, h, h', t, entry);
  }

  lemma AppendKeepsElections(c: Config, h: History, h': History, t: Term, entry: LogEntry)
    requires ElectionsOk(c, h) && t in h.ledger && entry.term == t
    requires h' == RecordLog(h, t, h.ledger[t] + [entry])
    ensures ElectionsOk(c, h')
  {
    assert Grows(h, h');
    forall u | u in h'.elections ensures ElectionOk(c, h', u) {
      AppendKeepsElection(c, h, h', t, entry, u);
    }
  }

  lemma AppendKeepsElection(c: Config, h: History, h': History, t: Term, entry: LogEntry, u: Term)
    requires ElectionsOk(c, h) && t in h.ledger && entry.term == t && Grows(h, h')
    requires h' == RecordLog(h, t, h.ledger[t] + [entry]) && u in h.elections
    ensures ElectionOk(c, h', u)
  {
    hide ElectionOk, Grows;
    assert ElectionOk(c, h, u);
    ElectionPersists(c, h, h', u);
  }

  lemma AppendKeepsAcks(c: Config, hs: Hards, h: History, t: Term, id: NodeId, entry: LogEntry)
    requires HistoryInv(c, hs, h) && id in hs
    requires t in h.ledger && hs[id].log == h.ledger[t]
    ensures var log := hs[id].log + [entry];
            var h' := RecordLog(h, t, log);
            AcksOk(hs[id := hs[id].(log := log)], h') && VotersKept(h') && CommitsOk(c, h')
  {
    var log := hs[id].log + [entry];
    var hs' := hs[id := hs[id].(log := log)];
    var h' := RecordLog(h, t, log);
    assert Grows(h, h');
    OldAcksPersist(c, hs, h, h');
    forall u, v | (u, v) in h'.acks ensures AckOk(hs', h', u, v) {
      assert AckOk(hs, h', u, v);
      forall i | 0 <= i <= h'.acks[(u, v)] ensures Kept(h', u, i, hs'[v].log, |h'.elections|) {
        assert Kept(h', u, i, hs[v].log, |h'.elections|);
      }
    }
    OldCommitsPersist(c, h, h');
  }

  // -- noting a commit

  lemma CommitKeeps(c: Config, hs: Hards, h: History, k: Commit)
    requires HistoryInv(c, hs, h) && CommitOk(c, h, k)
    ensures HistoryInv(c, hs, h.(commits := h.commits + {k}))
    ensures Grows(h, h.(commits := h.commits + {k}))
  {
    var h' := h.(commits := h.commits + {k});
    OldItemsPersist(c, hs, h, h');
    OldAcksPersist(c, hs, h, h');
    assert k in h'.commits && CommitOk(c, h', k);
  }
}
