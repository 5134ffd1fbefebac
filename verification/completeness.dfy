// Leader completeness: what a quorum has acknowledged is in the log of every newer leader.
module Completeness {
  import opened Types
  import opened Log
  import opened NodeSpec
  import opened Cluster
  import opened History
  import opened HistorySteps

  /** A voter that holds the first `i` entries only elects logs that hold them too,
      provided every earlier winner newer than `t` holds them. */
  lemma UpToDateHolds(c: Config, hs: Hards, h: History, t: Term, i: nat, u: Term, voted: seq<LogEntry>)
    requires HistoryInv(c, hs, h)
    requires t in h.ledger && 1 <= i <= |h.ledger[t]| && h.ledger[t][i - 1].term == t
    requires u in h.elections && u > t
    requires Grounded(voted, h.ledger) && h.ledger[t][..i] <= voted
    requires var log := h.elections[u].log; UpToDate(LastTerm(log), |log|, voted)
    requires forall w :: w in h.elections && w > t && h.elections[w].order < h.elections[u].order ==>
               h.ledger[t][..i] <= h.elections[w].log
    ensures h.ledger[t][..i] <= h.elections[u].log
  {
    var log := h.elections[u].log;
    var p := h.ledger[t][..i];
    assert ElectionOk(c, h, u);
    assert CandidacyOk(c, hs, h, u, h.elections[u].leader);
    assert voted[i - 1] == p[i - 1];
    LastTermBounds(h, voted);
    LastTermBounds(h, log);
    var w := LastTerm(log);
    if w == LastTerm(voted) {
      assert p <= voted <= h.ledger[w];
      assert log <= h.ledger[w] && |log| >= |voted|;
    } else {
      assert w == log[|log| - 1].term;
      assert w > t && h.elections[w].order < h.elections[u].order;
      assert ElectionOk(c, h, w);
      var first := h.elections[w].log;
      assert forall i :: 0 <= i < |first| ==> h.ledger[w][i] == first[i];
      assert h.ledger[w][|log| - 1].term == w;
      assert p <= first <= h.ledger[w];
    }
  }

  /** By induction on the order of elections. */
  lemma {:induction false} QuorumReachesLeaders(c: Config, hs: Hards, h: History, k: Commit, u: Term)
    requires HistoryInv(c, hs, h) && CommitOk(c, h, k)
    requires u in h.elections && u > k.term
    ensures h.ledger[k.term][..k.index] <= h.elections[u].log
    decreases h.elections[u].order
  {
    assert ElectionOk(c, h, u);
    forall w | w in h.elections && w > k.term && h.elections[w].order < h.elections[u].order
      ensures h.ledger[k.term][..k.index] <= h.elections[w].log
    {
      QuorumReachesLeaders(c, hs, h, k, w);
    }
    var v := QuorumsMeet(c, k.quorum, h.elections[u].voters);
    assert VoterKept(h, k.term, v, u);
    assert VoteOk(c, hs, h, u, v);
    var vote := h.votes[(u, v)];
    assert Kept(h, k.term, k.index, vote.log, vote.at);
    UpToDateHolds(c, hs, h, k.term, k.index, u, vote.log);
  }

  /** The newer of two leaders' logs holds whatever was committed under the older. */
  lemma CommitReachesLedger(c: Config, hs: Hards, h: History, k: Commit, u: Term)
    requires HistoryInv(c, hs, h) && CommitOk(c, h, k)
    requires u in h.ledger && u >= k.term
    ensures k.index <= |h.ledger[u]| && h.ledger[k.term][..k.index] == h.ledger[u][..k.index]
  {
    if u > k.term {
      QuorumReachesLeaders(c, hs, h, k, u);
      assert ElectionOk(c, h, u);
      assert h.ledger[k.term][..k.index] <= h.ledger[u];
    }
  }
}
