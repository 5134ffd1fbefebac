// The checkers of groundhog/invariants, turned on a run of the cluster after every event.
//
// Five of the six never report anything. LeaderCompleteness can: a candidate of an old term
// may collect its last vote after a newer term has committed something, and the checker
// takes that election for a later one. `StaleWin` is exactly when it does.
module Watching {
  import opened Types
  import opened Log
  import opened Cluster
  import opened History
  import opened Completeness
  import opened Invariant
  import opened Safety
  import opened Theorems
  import opened Checkers

  function ViewOf(c: Config, s: System): (v: ClusterView)
    requires WellFormed(c, s)
    ensures Whole(v)
  {
    ClusterView(c.ids, s.nodes)
  }

  function ViewAt(c: Config, events: seq<Event>, i: nat): (v: ClusterView)
    requires i <= |events|
    ensures Whole(v)
  {
    ViewOf(c, At(c, events, i))
  }

  lemma LeadingLeads(c: Config, events: seq<Event>, i: nat, id: NodeId)
    requires i <= |events|
    ensures Leading(ViewAt(c, events, i), id) <==> Leads(c, At(c, events, i), id)
  {
  }

  // -- election safety

  /** Every leader the checker remembers did lead, at one of the first `i` moments. */
  ghost predicate SawLeaders(c: Config, events: seq<Event>, i: nat, known: map<Term, NodeId>)
    requires i <= |events|
  {
    forall t :: t in known ==> LedAt(c, events, i, t, known[t])
  }

  ghost predicate LedAt(c: Config, events: seq<Event>, i: nat, t: Term, id: NodeId)
    requires i <= |events|
  {
    exists k: nat {:trigger At(c, events, k)} :: 1 <= k <= i && Leads(c, At(c, events, k), id)
      && At(c, events, k).nodes[id].currentTerm == t
  }

  lemma LedOnce(c: Config, events: seq<Event>, i: nat, j: nat, t: Term, a: NodeId, b: NodeId)
    requires ValidConfig(c) && i <= |events| && j <= |events|
    requires LedAt(c, events, i, t, a) && Leads(c, At(c, events, j), b) && At(c, events, j).nodes[b].currentTerm == t
    ensures a == b
  {
    var k :| 1 <= k <= i && Leads(c, At(c, events, k), a) && At(c, events, k).nodes[a].currentTerm == t;
    Theorems.ElectionSafety(c, events, k, j, a, b);
  }

  lemma KnownLeader(c: Config, events: seq<Event>, i: nat, j: nat, known: map<Term, NodeId>, a: NodeId)
    requires ValidConfig(c) && i <= j <= |events| && SawLeaders(c, events, i, known) && Leads(c, At(c, events, j), a)
    requires At(c, events, j).nodes[a].currentTerm in known
    ensures known[At(c, events, j).nodes[a].currentTerm] == a
  {
    hide At, LedAt;
    var t := At(c, events, j).nodes[a].currentTerm;
    LedOnce(c, events, i, j, t, known[t], a);
  }

  /** The election checker stays quiet. */
  lemma ElectionSafetyQuiet(c: Config, events: seq<Event>, i: nat, j: nat, known: map<Term, NodeId>)
    requires ValidConfig(c) && i <= j <= |events| && SawLeaders(c, events, i, known)
    ensures OneLeaderPerTerm(known, ViewAt(c, events, j))
  {
    hide At, LedAt, SawLeaders;
    var v := ViewAt(c, events, j);
    forall a | Leading(v, a) && v.nodes[a].currentTerm in known ensures known[v.nodes[a].currentTerm] == a {
      KnownLeader(c, events, i, j, known, a);
    }
    forall a, b | Leading(v, a) && Leading(v, b) && v.nodes[a].currentTerm == v.nodes[b].currentTerm ensures a == b {
      Theorems.ElectionSafety(c, events, j, j, a, b);
    }
  }

  lemma SawMoreLeaders(c: Config, events: seq<Event>, i: nat, known: map<Term, NodeId>, known': map<Term, NodeId>)
    requires i < |events| && SawLeaders(c, events, i, known)
    requires forall t :: t in known' ==>
      || (t in known && known'[t] == known[t])
      || (Leading(ViewAt(c, events, i + 1), known'[t]) && ViewAt(c, events, i + 1).nodes[known'[t]].currentTerm == t)
    ensures SawLeaders(c, events, i + 1, known')
  {
    hide Run;
    forall t | t in known' ensures LedAt(c, events, i + 1, t, known'[t]) {
      if !(t in known && known'[t] == known[t]) {
        LeadingLeads(c, events, i + 1, known'[t]);
        assert At(c, events, i + 1).nodes[known'[t]].currentTerm == t;
      } else {
        assert LedAt(c, events, i, t, known[t]);
      }
    }
  }

  // -- leader append-only

  ghost predicate SawLogs(c: Config, events: seq<Event>, i: nat, seen: map<NodeId, seq<LogEntry>>)
    requires i <= |events|
  {
    forall id :: id in seen ==> Leads(c, At(c, events, i), id) && seen[id] == At(c, events, i).nodes[id].log
  }

  lemma AppendOnlyQuiet(c: Config, events: seq<Event>, i: nat, seen: map<NodeId, seq<LogEntry>>)
    requires ValidConfig(c) && i < |events| && SawLogs(c, events, i, seen)
    ensures LeadersKept(seen, ViewAt(c, events, i + 1))
  {
    var v := ViewAt(c, events, i + 1);
    hide Run;
    forall a | Leading(v, a) && a in seen ensures Extends(v.nodes[a].log, seen[a]) {
      LeadingLeads(c, events, i + 1, a);
      CommittedPrefixIsKept(c, events, i, a);
    }
  }

  // -- log matching

  lemma MemoryOrNothing(c: Config, events: seq<Event>, i: nat, id: NodeId)
    requires ValidConfig(c) && i <= |events| && id in Members(c)
    ensures var n := At(c, events, i).nodes[id];
            n.log == if n.running then DiskLog(c, At(c, events, i), id) else []
  {
    MomentOk(c, events, i, i);
    NodeInvariant(c, At(c, events, i), PastAt(c, events, i), id);
  }

  lemma LogMatchingQuiet(c: Config, events: seq<Event>, i: nat)
    requires ValidConfig(c) && i <= |events|
    ensures AllMatching(ViewAt(c, events, i))
  {
    var v := ViewAt(c, events, i);
    hide Run, DiskLog;
    forall a, b | a in v.nodes && b in v.nodes ensures Matching(v.nodes[a].log, v.nodes[b].log) {
      MemoryOrNothing(c, events, i, a);
      MemoryOrNothing(c, events, i, b);
      forall k | 0 <= k < |v.nodes[a].log| && k < |v.nodes[b].log| && v.nodes[a].log[k].term == v.nodes[b].log[k].term
        ensures v.nodes[a].log[..k + 1] == v.nodes[b].log[..k + 1]
      {
        Theorems.LogMatching(c, events, i, i, a, b, k);
      }
    }
  }

  // -- state machine safety

  ghost predicate AppliedThen(c: Config, events: seq<Event>, k: nat, id: NodeId, index: Index, entry: AppliedEntry)
    requires k <= |events|
  {
    Applies(ViewAt(c, events, k), id, index, entry)
  }

  /** `entry` was applied at `index` by some node at one of the first `i` moments. */
  ghost predicate AppliedBy(c: Config, events: seq<Event>, i: nat, index: Index, entry: AppliedEntry)
    requires i <= |events|
  {
    exists k: nat, id {:trigger AppliedThen(c, events, k, id, index, entry)} ::
      k <= i && AppliedThen(c, events, k, id, index, entry)
  }

  ghost predicate SawApplied(c: Config, events: seq<Event>, i: nat, applied: map<Index, AppliedEntry>)
    requires i <= |events|
  {
    forall index :: index in applied ==> AppliedBy(c, events, i, index, applied[index])
  }

  lemma AppliedAlike(c: Config, events: seq<Event>, i: nat, j: nat, a: NodeId, b: NodeId, index: Index)
    requires ValidConfig(c) && i <= |events| && j <= |events| && a in Members(c) && b in Members(c)
    requires HasApplied(At(c, events, i).nodes[a], index) && HasApplied(At(c, events, j).nodes[b], index)
    ensures At(c, events, i).nodes[a].log[index - 1] == At(c, events, j).nodes[b].log[index - 1]
  {
    hide Run, Fold;
    var m, n := At(c, events, i).nodes[a], At(c, events, j).nodes[b];
    if m.lastApplied <= n.lastApplied {
      Theorems.StateMachineSafety(c, events, i, j, a, b);
      assert m.log[..m.lastApplied][index - 1] == n.log[..m.lastApplied][index - 1];
    } else {
      Theorems.StateMachineSafety(c, events, j, i, b, a);
      assert m.log[..n.lastApplied][index - 1] == n.log[..n.lastApplied][index - 1];
    }
  }

  lemma AppliedInLog(c: Config, events: seq<Event>, i: nat, id: NodeId)
    requires ValidConfig(c) && i <= |events| && id in Members(c)
    ensures var n := At(c, events, i).nodes[id]; n.lastApplied == n.commitIndex <= |n.log|
  {
    MomentOk(c, events, i, i);
    NodeInvariant(c, At(c, events, i), PastAt(c, events, i), id);
  }

  lemma AppliedAsBefore(c: Config, events: seq<Event>, i: nat, j: nat, id: NodeId, index: Index, entry: AppliedEntry)
    requires ValidConfig(c) && i <= |events| && j <= |events| && id in Members(c)
    requires AppliedBy(c, events, i, index, entry) && HasApplied(At(c, events, j).nodes[id], index)
    ensures entry == AppliedAs(At(c, events, j).nodes[id].log[index - 1])
  {
    hide At;
    var k: nat, other :| k <= i && AppliedThen(c, events, k, other, index, entry);
    AppliedAlike(c, events, k, j, other, id, index);
  }

  lemma NodeAgrees(c: Config, events: seq<Event>, i: nat, j: nat, applied: map<Index, AppliedEntry>, id: NodeId)
    requires ValidConfig(c) && i <= |events| && j <= |events| && SawApplied(c, events, i, applied) && id in Members(c)
    ensures AgreesWith(applied, At(c, events, j).nodes[id])
  {
    hide At, AppliedBy;
    var n := At(c, events, j).nodes[id];
    AppliedInLog(c, events, j, id);
    forall index | 1 <= index <= n.lastApplied && index in applied
      ensures applied[index] == AppliedAs(n.log[index - 1])
    {
      AppliedAsBefore(c, events, i, j, id, index, applied[index]);
    }
  }

  lemma NodesAgree(c: Config, events: seq<Event>, j: nat, a: NodeId, b: NodeId)
    requires ValidConfig(c) && j <= |events| && a in Members(c) && b in Members(c)
    ensures AgreeTogether(At(c, events, j).nodes[a], At(c, events, j).nodes[b])
  {
    hide At;
    var m, n := At(c, events, j).nodes[a], At(c, events, j).nodes[b];
    forall index: Index | HasApplied(m, index) && HasApplied(n, index)
      ensures AppliedAs(m.log[index - 1]) == AppliedAs(n.log[index - 1])
    {
      AppliedAlike(c, events, j, j, a, b, index);
    }
  }

  lemma StateMachineSafetyQuiet(c: Config, events: seq<Event>, i: nat, j: nat, applied: map<Index, AppliedEntry>)
    requires ValidConfig(c) && i <= |events| && j <= |events| && SawApplied(c, events, i, applied)
    ensures AllAgree(applied, ViewAt(c, events, j))
  {
    hide At, SawApplied, AgreesWith, AgreeTogether;
    var v := ViewAt(c, events, j);
    forall id | id in v.nodes ensures AgreesWith(applied, v.nodes[id]) {
      NodeAgrees(c, events, i, j, applied, id);
    }
    forall a, b | a in v.nodes && b in v.nodes ensures AgreeTogether(v.nodes[a], v.nodes[b]) {
      NodesAgree(c, events, j, a, b);
    }
  }

  lemma SawMoreApplied(c: Config, events: seq<Event>, i: nat, v: ClusterView,
                       applied: map<Index, AppliedEntry>, applied': map<Index, AppliedEntry>)
    requires i < |events| && SawApplied(c, events, i, applied) && v == ViewAt(c, events, i + 1)
    requires forall index :: index in applied' && index !in applied ==>
      exists id :: Applies(v, id, index, applied'[index])
    requires forall index :: index in applied ==> index in applied' && applied'[index] == applied[index]
    ensures SawApplied(c, events, i + 1, applied')
  {
    hide ViewAt, Applies;
    forall index | index in applied' ensures AppliedBy(c, events, i + 1, index, applied'[index]) {
      if index in applied {
        var k: nat, id :| k <= i && AppliedThen(c, events, k, id, index, applied[index]);
      } else {
        var id :| Applies(v, id, index, applied'[index]);
        assert AppliedThen(c, events, i + 1, id, index, applied'[index]);
      }
    }
  }

  // -- monotonic progress

  ghost predicate SawProgress(c: Config, events: seq<Event>, i: nat, highWater: map<NodeId, Index>)
    requires i <= |events|
  {
    forall id {:trigger id in highWater} :: id in Members(c) && id in highWater ==>
      At(c, events, i).nodes[id].running && highWater[id] == At(c, events, i).nodes[id].commitIndex
  }

  lemma ProgressQuiet(c: Config, events: seq<Event>, i: nat, highWater: map<NodeId, Index>)
    requires ValidConfig(c) && i < |events| && SawProgress(c, events, i, highWater)
    ensures AllProgress(highWater, ViewAt(c, events, i + 1))
  {
    var v := ViewAt(c, events, i + 1);
    hide Run;
    forall id | id in v.nodes ensures Progresses(highWater, id, v.nodes[id]) {
      AppliedInLog(c, events, i + 1, id);
      if v.nodes[id].running && id in highWater {
        CommittedPrefixIsKept(c, events, i, id);
      }
    }
  }

  // -- leader completeness

  ghost predicate CommittedThen(c: Config, events: seq<Event>, k: nat, id: NodeId, index: Index, entry: LogEntry)
    requires k <= |events|
  {
    Commits(ViewAt(c, events, k), id, index, entry)
  }

  ghost predicate CommittedBy(c: Config, events: seq<Event>, i: nat, index: Index, entry: LogEntry)
    requires i <= |events|
  {
    exists k: nat, id {:trigger CommittedThen(c, events, k, id, index, entry)} ::
      1 <= k <= i && CommittedThen(c, events, k, id, index, entry)
  }

  /** The checker holds exactly what some node had committed at one of the first `i` moments. */
  ghost predicate SawCommits(c: Config, events: seq<Event>, i: nat, committed: map<Index, LogEntry>)
    requires i <= |events|
  {
    && (forall index :: index in committed ==> CommittedBy(c, events, i, index, committed[index]))
    && (forall k: nat, id, index, entry {:trigger CommittedThen(c, events, k, id, index, entry)} ::
          1 <= k <= i && CommittedThen(c, events, k, id, index, entry) ==> index in committed)
  }

  lemma SawMoreCommits(c: Config, events: seq<Event>, i: nat, v: ClusterView,
                       committed: map<Index, LogEntry>, committed': map<Index, LogEntry>)
    requires i < |events| && SawCommits(c, events, i, committed) && v == ViewAt(c, events, i + 1)
    requires forall index :: index in committed' && index !in committed ==>
      exists id :: Commits(v, id, index, committed'[index])
    requires forall index :: index in committed ==> index in committed' && committed'[index] == committed[index]
    requires forall id, index ::
      id in v.nodes && 1 <= index <= v.nodes[id].commitIndex && index <= |v.nodes[id].log| ==> index in committed'
    ensures SawCommits(c, events, i + 1, committed')
  {
    hide ViewAt;
    forall index | index in committed' ensures CommittedBy(c, events, i + 1, index, committed'[index]) {
      if index in committed {
        var k: nat, id :| 1 <= k <= i && CommittedThen(c, events, k, id, index, committed[index]);
      } else {
        var id :| Commits(v, id, index, committed'[index]);
        assert CommittedThen(c, events, i + 1, id, index, committed'[index]);
      }
    }
  }

  lemma CommittedAlike(c: Config, events: seq<Event>, i: nat, j: nat, a: NodeId, b: NodeId, index: Index,
                       left: LogEntry, right: LogEntry)
    requires ValidConfig(c) && i <= |events| && j <= |events|
    requires CommittedThen(c, events, i, a, index, left) && CommittedThen(c, events, j, b, index, right)
    ensures left == right
  {
    hide At;
    AppliedInLog(c, events, i, a);
    AppliedInLog(c, events, j, b);
    AppliedAlike(c, events, i, j, a, b, index);
  }

  lemma CommittedInLeader(c: Config, hs: Hards, h: History, log: seq<LogEntry>, k: Index, t: Term, u: Term)
    requires HistoryInv(c, hs, h) && Covered(h, log, k, t) && 1 <= k <= |log| && u in h.ledger
    ensures log[k - 1].term <= u ==> log[..k] <= h.ledger[u]
  {
    var commit :| commit in h.commits && CoveredBy(h, log, k, t, commit);
    assert CommitOk(c, h, commit);
    assert log[..k][k - 1] == h.ledger[commit.term][..k][k - 1];
    if commit.term <= u {
      CommitReachesLedger(c, hs, h, commit, u);
    }
  }

  lemma LedgerTerms(c: Config, hs: Hards, h: History, u: Term, index: Index)
    requires HistoryInv(c, hs, h) && u in h.ledger && 1 <= index <= |h.ledger[u]|
    ensures h.ledger[u][index - 1].term <= u
  {
    assert LeaderLogOk(h, u);
  }

  lemma CommitStands(c: Config, events: seq<Event>, i: nat, j: nat, a: NodeId)
    requires ValidConfig(c) && i <= j <= |events| && a in Members(c)
    ensures var m := At(c, events, i).nodes[a];
            m.commitIndex <= |m.log| && Covered(PastAt(c, events, j), m.log, m.commitIndex, m.currentTerm)
  {
    var m := At(c, events, i).nodes[a];
    MomentOk(c, events, i, j);
    NodeInvariant(c, At(c, events, i), PastAt(c, events, i), a);
    hide Inv, Grows, HistoryInv, PastAt;
    CoveredLater(PastAt(c, events, i), PastAt(c, events, j), m.log, m.commitIndex, m.currentTerm);
  }

  lemma LeaderStands(c: Config, events: seq<Event>, j: nat, b: NodeId)
    requires ValidConfig(c) && j <= |events| && Leads(c, At(c, events, j), b)
    ensures var h, n := PastAt(c, events, j), At(c, events, j).nodes[b];
            && HistoryInv(c, HardsOf(c, At(c, events, j)), h)
            && n.currentTerm in h.ledger && h.ledger[n.currentTerm] == n.log
  {
    MomentOk(c, events, j, j);
    LeaderFacts(c, At(c, events, j), PastAt(c, events, j), b);
  }

  /** A leader whose term is no older than the last entry that node a has committed holds all
      that a has committed; and no leader ever holds an entry newer than its own term. */
  lemma CommittedOrNewer(c: Config, events: seq<Event>, i: nat, j: nat, a: NodeId, b: NodeId, index: Index)
    requires ValidConfig(c) && i <= j <= |events| && a in Members(c) && Leads(c, At(c, events, j), b)
    requires 1 <= index <= At(c, events, i).nodes[a].commitIndex
    ensures var m, n := At(c, events, i).nodes[a], At(c, events, j).nodes[b];
            && m.commitIndex <= |m.log|
            && (m.log[m.commitIndex - 1].term <= n.currentTerm ==> Holds(n.log, index, m.log[index - 1]))
            && (Holds(n.log, index, m.log[index - 1]) ==> m.log[index - 1].term <= n.currentTerm)
  {
    hide At, PastAt, HistoryInv, Covered, HardsOf;
    var m, n, h := At(c, events, i).nodes[a], At(c, events, j).nodes[b], PastAt(c, events, j);
    CommitStands(c, events, i, j, a);
    LeaderStands(c, events, j, b);
    if index <= |n.log| {
      LedgerTerms(c, HardsOf(c, At(c, events, j)), h, n.currentTerm, index);
    }
    CommittedInLeader(c, HardsOf(c, At(c, events, j)), h, m.log, m.commitIndex, m.currentTerm, n.currentTerm);
    assert m.log[..m.commitIndex][index - 1] == m.log[index - 1];
  }

  /** No committed entry is of a term after `t`. */
  ghost predicate NoneNewer(committed: map<Index, LogEntry>, t: Term) {
    forall index :: index in committed ==> committed[index].term <= t
  }

  /** A leader holds every committed entry exactly when none of them is newer than its term. */
  lemma HoldsAllIffNoneNewer(c: Config, events: seq<Event>, j: nat, b: NodeId, committed: map<Index, LogEntry>)
    requires ValidConfig(c) && j <= |events| && SawCommits(c, events, j, committed) && Leads(c, At(c, events, j), b)
    ensures HoldsAll(At(c, events, j).nodes[b].log, committed) <==>
      NoneNewer(committed, At(c, events, j).nodes[b].currentTerm)
  {
    hide At, SawCommits, Holds;
    var n := At(c, events, j).nodes[b];
    forall index | index in committed
      ensures Holds(n.log, index, committed[index]) ==> committed[index].term <= n.currentTerm
      ensures NoneNewer(committed, n.currentTerm) ==> Holds(n.log, index, committed[index])
    {
      var last := OneCommitted(c, events, j, b, committed, index);
    }
  }

  /** `last` is as far as the node that committed `index` had committed by then. */
  lemma OneCommitted(c: Config, events: seq<Event>, j: nat, b: NodeId, committed: map<Index, LogEntry>, index: Index)
    returns (last: Index)
    requires ValidConfig(c) && j <= |events| && SawCommits(c, events, j, committed) && Leads(c, At(c, events, j), b)
    requires index in committed
    ensures last in committed
    ensures var n := At(c, events, j).nodes[b];
            && (Holds(n.log, index, committed[index]) ==> committed[index].term <= n.currentTerm)
            && (committed[last].term <= n.currentTerm ==> Holds(n.log, index, committed[index]))
  {
    var k, a := Committer(c, events, j, committed, index);
    hide At, SawCommits, CommittedThen, Holds;
    CommittedOrNewer(c, events, k, j, a, b, index);
    LastCommitted(c, events, j, k, a, committed);
    last := At(c, events, k).nodes[a].commitIndex;
  }

  lemma Committer(c: Config, events: seq<Event>, j: nat, committed: map<Index, LogEntry>, index: Index)
    returns (k: nat, a: NodeId)
    requires j <= |events| && SawCommits(c, events, j, committed) && index in committed
    ensures 1 <= k <= j && a in Members(c)
    ensures var m := At(c, events, k).nodes[a];
            1 <= index <= m.commitIndex && index <= |m.log| && m.log[index - 1] == committed[index]
  {
    hide At;
    k, a :| 1 <= k <= j && CommittedThen(c, events, k, a, index, committed[index]);
  }

  lemma LastCommittedThen(c: Config, events: seq<Event>, k: nat, a: NodeId)
    requires k <= |events| && a in Members(c)
    requires 1 <= At(c, events, k).nodes[a].commitIndex <= |At(c, events, k).nodes[a].log|
    ensures var m := At(c, events, k).nodes[a];
            CommittedThen(c, events, k, a, m.commitIndex, m.log[m.commitIndex - 1])
  {
    hide At;
  }

  /** The entry at a node's commit index is in the checker's book too. */
  lemma LastCommitted(c: Config, events: seq<Event>, j: nat, k: nat, a: NodeId, committed: map<Index, LogEntry>)
    requires ValidConfig(c) && 1 <= k <= j <= |events| && SawCommits(c, events, j, committed) && a in Members(c)
    requires 1 <= At(c, events, k).nodes[a].commitIndex <= |At(c, events, k).nodes[a].log|
    ensures var m := At(c, events, k).nodes[a];
            m.commitIndex in committed && committed[m.commitIndex] == m.log[m.commitIndex - 1]
  {
    hide At, CommittedThen;
    var m := At(c, events, k).nodes[a];
    var last := m.log[m.commitIndex - 1];
    LastCommittedThen(c, events, k, a);
    var k': nat, a' :| 1 <= k' <= j && CommittedThen(c, events, k', a', m.commitIndex, committed[m.commitIndex]);
    CommittedAlike(c, events, k, k', a, a', m.commitIndex, last, committed[m.commitIndex]);
  }

  // -- which leaders are checked, and when that goes wrong

  ghost predicate LeadsThen(c: Config, events: seq<Event>, k: nat, id: NodeId, t: Term)
    requires k <= |events|
  {
    Leads(c, At(c, events, k), id) && At(c, events, k).nodes[id].currentTerm == t
  }

  /** The checker has ticked off exactly the terms that had a leader at the first `i` moments. */
  ghost predicate SawChecked(c: Config, events: seq<Event>, i: nat, checked: map<Term, NodeId>)
    requires i <= |events|
  {
    && SawLeaders(c, events, i, checked)
    && forall k: nat, id, t {:trigger LeadsThen(c, events, k, id, t)} ::
         1 <= k <= i && LeadsThen(c, events, k, id, t) ==> t in checked
  }

  lemma SawMoreChecked(c: Config, events: seq<Event>, i: nat, v: ClusterView, checked: map<Term, NodeId>,
                       checked': map<Term, NodeId>)
    requires i < |events| && SawChecked(c, events, i, checked) && v == ViewAt(c, events, i + 1)
    requires forall t :: t in checked' ==>
      || (t in checked && checked'[t] == checked[t])
      || (Leading(v, checked'[t]) && v.nodes[checked'[t]].currentTerm == t)
    requires forall t :: t in checked ==> t in checked'
    requires forall a {:trigger Leading(v, a)} :: Leading(v, a) ==> v.nodes[a].currentTerm in checked'
    ensures SawChecked(c, events, i + 1, checked')
  {
    hide Run, SawLeaders;
    SawMoreLeaders(c, events, i, checked, checked');
    forall k: nat, id, t | 1 <= k <= i + 1 && LeadsThen(c, events, k, id, t) ensures t in checked' {
      if k == i + 1 {
        assert Leading(v, id);
      }
    }
  }

  /** A leader has been checked already exactly when it was seen leading its term before. */
  lemma CheckedIfLed(c: Config, events: seq<Event>, i: nat, a: NodeId, checked: map<Term, NodeId>)
    requires ValidConfig(c) && i < |events| && SawChecked(c, events, i, checked) && Leading(ViewAt(c, events, i + 1), a)
    ensures Checked(checked, ViewAt(c, events, i + 1), a)
        <==> LedAt(c, events, i, ViewAt(c, events, i + 1).nodes[a].currentTerm, a)
  {
    hide Run;
    var t := ViewAt(c, events, i + 1).nodes[a].currentTerm;
    if LedAt(c, events, i, t, a) {
      var k: nat :| 1 <= k <= i && Leads(c, At(c, events, k), a) && At(c, events, k).nodes[a].currentTerm == t;
      assert LeadsThen(c, events, k, a, t);
      assert LedAt(c, events, i, t, checked[t]);
      LedOnce(c, events, i, k, t, checked[t], a);
    }
  }

  lemma NoRivals(c: Config, events: seq<Event>, j: nat, a: NodeId)
    requires ValidConfig(c) && j <= |events| && Leading(ViewAt(c, events, j), a)
    ensures !HasRival(ViewAt(c, events, j), a)
  {
    hide Run;
    var v := ViewAt(c, events, j);
    forall b | b != a && Leading(v, b) ensures v.nodes[b].currentTerm != v.nodes[a].currentTerm {
      if v.nodes[b].currentTerm == v.nodes[a].currentTerm {
        Theorems.ElectionSafety(c, events, j, j, a, b);
      }
    }
  }

  /** Some node has committed an entry of a term after `t`. */
  ghost predicate NewerCommitted(c: Config, events: seq<Event>, j: nat, t: Term)
    requires j <= |events|
  {
    exists k: nat, id, index, entry {:trigger CommittedThen(c, events, k, id, index, entry)} ::
      1 <= k <= j && CommittedThen(c, events, k, id, index, entry) && entry.term > t
  }

  lemma NoneNewerCommitted(c: Config, events: seq<Event>, j: nat, committed: map<Index, LogEntry>, t: Term)
    requires ValidConfig(c) && j <= |events| && SawCommits(c, events, j, committed)
    ensures NoneNewer(committed, t) <==> !NewerCommitted(c, events, j, t)
  {
    hide CommittedThen;
    if NewerCommitted(c, events, j, t) {
      var k: nat, id, index, entry :| 1 <= k <= j && CommittedThen(c, events, k, id, index, entry) && entry.term > t;
      var k': nat, id' :| 1 <= k' <= j && CommittedThen(c, events, k', id', index, committed[index]);
      CommittedAlike(c, events, k, k', id, id', index, entry, committed[index]);
    } else {
      forall index | index in committed ensures committed[index].term <= t {
        var k: nat, id :| 1 <= k <= j && CommittedThen(c, events, k, id, index, committed[index]);
      }
    }
  }

  /** At moment `j`, node `a` turns up leading a term older than something already committed. */
  ghost predicate StaleWinBy(c: Config, events: seq<Event>, j: nat, a: NodeId)
    requires 1 <= j <= |events|
  {
    && Leads(c, At(c, events, j), a)
    && !LedAt(c, events, j - 1, At(c, events, j).nodes[a].currentTerm, a)
    && NewerCommitted(c, events, j, At(c, events, j).nodes[a].currentTerm)
  }

  ghost predicate StaleWin(c: Config, events: seq<Event>, j: nat)
    requires 1 <= j <= |events|
  {
    exists a {:trigger StaleWinBy(c, events, j, a)} :: StaleWinBy(c, events, j, a)
  }

  /** The leader-completeness checker objects to a leader exactly when its win is stale. */
  lemma ObjectsToStaleWins(c: Config, events: seq<Event>, i: nat, a: NodeId, committed: map<Index, LogEntry>,
                           checked: map<Term, NodeId>)
    requires ValidConfig(c) && i < |events| && SawCommits(c, events, i + 1, committed)
             && SawChecked(c, events, i, checked)
    requires Leading(ViewAt(c, events, i + 1), a)
    ensures StaleWinBy(c, events, i + 1, a)
        <==>
          && !Checked(checked, ViewAt(c, events, i + 1), a)
          && !HoldsAll(ViewAt(c, events, i + 1).nodes[a].log, committed)
  {
    hide Run, SawCommits, SawChecked, NewerCommitted, LedAt, HoldsAll, NoneNewer, Checked;
    CheckedIfLed(c, events, i, a, checked);
    HoldsAllIffNoneNewer(c, events, i + 1, a, committed);
    NoneNewerCommitted(c, events, i + 1, committed, At(c, events, i + 1).nodes[a].currentTerm);
  }

  lemma WhenObjecting(c: Config, events: seq<Event>, i: nat, v: ClusterView, problem: Option<Problem>,
                      committed: map<Index, LogEntry>, checked: map<Term, NodeId>)
    requires ValidConfig(c) && i < |events| && v == ViewAt(c, events, i + 1)
    requires SawCommits(c, events, i + 1, committed) && SawChecked(c, events, i, checked)
    requires problem.None? ==> forall a {:trigger Leading(v, a)} :: Leading(v, a) && !Checked(checked, v, a) ==>
      HoldsAll(v.nodes[a].log, committed)
    requires problem.Some? ==> exists a {:trigger Leading(v, a)} ::
      (Leading(v, a) && !HoldsAll(v.nodes[a].log, committed) && (Checked(checked, v, a) ==> HasRival(v, a)))
    ensures problem.Some? <==> StaleWin(c, events, i + 1)
  {
    hide At, SawCommits, SawChecked, HoldsAll, HasRival;
    if problem.Some? {
      var a :| Leading(v, a) && !HoldsAll(v.nodes[a].log, committed) && (Checked(checked, v, a) ==> HasRival(v, a));
      NoRivals(c, events, i + 1, a);
      ObjectsToStaleWins(c, events, i, a, committed, checked);
    } else if StaleWin(c, events, i + 1) {
      var a :| StaleWinBy(c, events, i + 1, a);
      ObjectsToStaleWins(c, events, i, a, committed, checked);
    }
  }

  // -- all six at once

  /** groundhog/invariants/base.py: the registry, at stride 1 and stopping at the first problem. */
  class Invariants {
    const elections: ElectionSafety
    const appends: LeaderAppendOnly
    const logs: LogMatching
    const completeness: LeaderCompleteness
    const machines: StateMachineSafety
    const progress: MonotonicProgress

    /** What the checkers remember is what the first `i` moments of the run showed them. */
    ghost predicate Saw(c: Config, events: seq<Event>, i: nat)
      requires i <= |events|
      reads elections, appends, completeness, machines, progress
    {
      && SawLeaders(c, events, i, elections.leaders)
      && SawLogs(c, events, i, appends.seen)
      && SawCommits(c, events, i, completeness.committed)
      && SawChecked(c, events, i, completeness.checkedTerms)
      && SawApplied(c, events, i, machines.applied)
      && SawProgress(c, events, i, progress.highWater)
    }

    ghost function Checkers(): set<object> {
      {elections, appends, completeness, machines, progress}
    }

    constructor (ghost c: Config, ghost events: seq<Event>)
      ensures fresh(Checkers()) && Saw(c, events, 0)
    {
      elections := new ElectionSafety();
      appends := new LeaderAppendOnly();
      logs := new LogMatching();
      completeness := new LeaderCompleteness();
      machines := new StateMachineSafety();
      progress := new MonotonicProgress();
    }

    method ObserveElections(v: ClusterView, ghost c: Config, ghost events: seq<Event>, ghost i: nat)
      returns (problem: Option<Problem>)
      requires ValidConfig(c) && i < |events| && v == ViewAt(c, events, i + 1)
               && SawLeaders(c, events, i, elections.leaders)
      modifies elections
      ensures problem.None? && SawLeaders(c, events, i + 1, elections.leaders)
    {
      ghost var before := elections.leaders;
      ElectionSafetyLater(c, events, i, before);
      problem := elections.Observe(v);
      SawMoreLeaders(c, events, i, before, elections.leaders);
    }

    method ObserveAppends(v: ClusterView, ghost c: Config, ghost events: seq<Event>, ghost i: nat)
      returns (problem: Option<Problem>)
      requires ValidConfig(c) && i < |events| && v == ViewAt(c, events, i + 1) && SawLogs(c, events, i, appends.seen)
      modifies appends
      ensures problem.None? && SawLogs(c, events, i + 1, appends.seen)
    {
      AppendOnlyQuiet(c, events, i, appends.seen);
      hide Run;
      problem := appends.Observe(v);
    }

    method ObserveCompleteness(v: ClusterView, ghost c: Config, ghost events: seq<Event>, ghost i: nat)
      returns (problem: Option<Problem>)
      requires ValidConfig(c) && i < |events| && v == ViewAt(c, events, i + 1)
      requires SawCommits(c, events, i, completeness.committed) && SawChecked(c, events, i, completeness.checkedTerms)
      modifies completeness
      ensures problem.Some? <==> StaleWin(c, events, i + 1)
      ensures problem.None? ==>
        SawCommits(c, events, i + 1, completeness.committed) && SawChecked(c, events, i + 1, completeness.checkedTerms)
    {
      ghost var committed, checked := completeness.committed, completeness.checkedTerms;
      problem := completeness.Observe(v);
      hide Run;
      SawMoreCommits(c, events, i, v, committed, completeness.committed);
      WhenObjecting(c, events, i, v, problem, completeness.committed, checked);
      if problem.None? {
        SawMoreChecked(c, events, i, v, checked, completeness.checkedTerms);
      }
    }

    method ObserveMachines(v: ClusterView, ghost c: Config, ghost events: seq<Event>, ghost i: nat)
      returns (problem: Option<Problem>)
      requires ValidConfig(c) && i < |events| && v == ViewAt(c, events, i + 1)
               && SawApplied(c, events, i, machines.applied)
      modifies machines
      ensures problem.None? && SawApplied(c, events, i + 1, machines.applied)
    {
      ghost var before := machines.applied;
      StateMachineSafetyQuiet(c, events, i, i + 1, before);
      hide Run, AllAgree;
      problem := machines.Observe(v);
      SawMoreApplied(c, events, i, v, before, machines.applied);
    }

    method ObserveProgress(v: ClusterView, ghost c: Config, ghost events: seq<Event>, ghost i: nat)
      returns (problem: Option<Problem>)
      requires ValidConfig(c) && i < |events| && v == ViewAt(c, events, i + 1)
               && SawProgress(c, events, i, progress.highWater)
      modifies progress
      ensures problem.None? && SawProgress(c, events, i + 1, progress.highWater)
    {
      ProgressQuiet(c, events, i, progress.highWater);
      hide Run;
      problem := progress.Observe(v);
    }

    /** All six, in the order of `all_checkers`. */
    method Observe(v: ClusterView, ghost c: Config, ghost events: seq<Event>, ghost i: nat)
      returns (problem: Option<Problem>)
      requires ValidConfig(c) && i < |events| && v == ViewAt(c, events, i + 1) && Saw(c, events, i)
      modifies Checkers()
      ensures problem.Some? <==> StaleWin(c, events, i + 1)
      ensures problem.None? ==> Saw(c, events, i + 1)
    {
      hide SawLeaders, SawLogs, SawCommits, SawChecked, SawApplied, SawProgress, StaleWin, AllMatching, At;
      problem := ObserveElections(v, c, events, i);
      problem := ObserveAppends(v, c, events, i);
      LogMatchingQuiet(c, events, i + 1);
      problem := logs.Observe(v);
      problem := ObserveCompleteness(v, c, events, i);
      if problem.Some? {
        return;
      }
      problem := ObserveMachines(v, c, events, i);
      problem := ObserveProgress(v, c, events, i);
    }
  }

  ghost predicate NoStaleWin(c: Config, events: seq<Event>, upTo: nat)
    requires upTo <= |events|
  {
    forall j {:trigger StaleWin(c, events, j)} :: 1 <= j <= upTo ==> !StaleWin(c, events, j)
  }

  lemma OneMoreQuiet(c: Config, events: seq<Event>, i: nat)
    requires i < |events| && NoStaleWin(c, events, i)
    ensures NoStaleWin(c, events, 0)
    ensures !StaleWin(c, events, i + 1) ==> NoStaleWin(c, events, i + 1)
  {
    hide StaleWin;
  }

  /** Watch a whole run. The checkers let it pass exactly when no win in it is stale; what stops
      it otherwise is the leader-completeness checker, at the first stale win. */
  method Watch(c: Config, events: seq<Event>) returns (problem: Option<Problem>, at: nat)
    requires ValidConfig(c)
    ensures at <= |events|
    ensures problem.None? ==> NoStaleWin(c, events, |events|)
    ensures problem.Some? ==> at >= 1 && StaleWin(c, events, at) && NoStaleWin(c, events, at - 1)
  {
    var invariants := new Invariants(c, events);
    var s := Initial(c);
    at := 0;
    assert s == At(c, events, at) && NoStaleWin(c, events, at);
    hide At, StaleWin, NoStaleWin, Apply, Initial, Invariants.Saw, ValidConfig;
    while at < |events|
      invariant 0 <= at <= |events| && s == At(c, events, at)
      invariant fresh(invariants.Checkers())
      invariant invariants.Saw(c, events, at) && NoStaleWin(c, events, at)
    {
      NextMoment(c, events, at);
      OneMoreQuiet(c, events, at);
      s := Apply(c, s, events[at]);
      problem := invariants.Observe(ViewOf(c, s), c, events, at);
      at := at + 1;
      if problem.Some? {
        return;
      }
    }
    problem := None;
  }

  lemma ElectionSafetyLater(c: Config, events: seq<Event>, i: nat, known: map<Term, NodeId>)
    requires ValidConfig(c) && i < |events| && SawLeaders(c, events, i, known)
    ensures OneLeaderPerTerm(known, ViewAt(c, events, i + 1))
  {
    ElectionSafetyQuiet(c, events, i, i + 1, known);
  }
}
