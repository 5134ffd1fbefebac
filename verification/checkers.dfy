// groundhog/invariants/safety.py: the six checkers, which watch a run event by event.
//
// Each is proved against the property it names: `Observe` reports a problem exactly when the
// property fails of what it is shown, given what it has seen before.
module Checkers {
  import opened Types
  import opened Kv
  import opened Log
  import opened NodeSpec

  /** What a checker may look at: every node, in a fixed order. */
  datatype ClusterView = ClusterView(order: seq<NodeId>, nodes: map<NodeId, NodeState>)

  datatype Problem =
    | TwoLeaders(term: Term, incumbent: NodeId, rival: NodeId)
    | LogsDisagree(left: NodeId, right: NodeId, index: Index, divergedAt: Index)
    | LeaderChangedEntries(leader: NodeId)
    | LeaderLacksEntry(leader: NodeId, index: Index)
    | AppliedPastLog(node: NodeId)
    | AppliedDifferently(node: NodeId, index: Index)
    | AppliedPastCommit(node: NodeId)
    | CommitWentBack(node: NodeId)

  predicate Whole(v: ClusterView) {
    (forall i :: 0 <= i < |v.order| ==> v.order[i] in v.nodes) && (forall id :: id in v.nodes ==> id in v.order)
  }

  predicate Leading(v: ClusterView, id: NodeId) {
    id in v.nodes && v.nodes[id].running && v.nodes[id].role.Leader?
  }

  /** `view.leaders()`. */
  function Leaders(v: ClusterView, order: seq<NodeId>): (ids: seq<NodeId>)
    requires forall i :: 0 <= i < |order| ==> order[i] in v.nodes
    ensures forall id :: id in ids <==> id in order && Leading(v, id)
    ensures forall k :: 0 <= k < |ids| ==> Leading(v, ids[k])
  {
    if order == [] then []
    else if Leading(v, order[0]) then [order[0]] + Leaders(v, order[1..])
    else Leaders(v, order[1..])
  }

  function LeadersOf(v: ClusterView): (ids: seq<NodeId>)
    requires Whole(v)
    ensures forall id :: id in ids <==> Leading(v, id)
    ensures forall k :: 0 <= k < |ids| ==> Leading(v, ids[k])
  {
    Leaders(v, v.order)
  }

  // -- election safety

  /** No leader in view shares its term with another, in view or seen before. */
  ghost predicate OneLeaderPerTerm(known: map<Term, NodeId>, v: ClusterView) {
    && (forall a {:trigger Leading(v, a)} :: Leading(v, a) && v.nodes[a].currentTerm in known ==>
          known[v.nodes[a].currentTerm] == a)
    && (forall a, b {:trigger Leading(v, a), Leading(v, b)} ::
          Leading(v, a) && Leading(v, b) && v.nodes[a].currentTerm == v.nodes[b].currentTerm ==> a == b)
  }

  class ElectionSafety {
    var leaders: map<Term, NodeId>

    constructor ()
      ensures leaders == map[]
    {
      leaders := map[];
    }

    method Observe(v: ClusterView) returns (problem: Option<Problem>)
      requires Whole(v)
      modifies this
      ensures problem.None? <==> OneLeaderPerTerm(old(leaders), v)
      ensures problem.Some? ==>
        && problem.value.TwoLeaders? && problem.value.incumbent != problem.value.rival
        && Leading(v, problem.value.rival) && v.nodes[problem.value.rival].currentTerm == problem.value.term
        && problem.value.term in leaders && leaders[problem.value.term] == problem.value.incumbent
      ensures problem.None? ==> forall a {:trigger Leading(v, a)} :: Leading(v, a) ==>
        v.nodes[a].currentTerm in leaders && leaders[v.nodes[a].currentTerm] == a
      ensures forall t :: t in old(leaders) ==> t in leaders && leaders[t] == old(leaders)[t]
      ensures forall t :: t in leaders ==>
        (t in old(leaders) && leaders[t] == old(leaders)[t])
          || (Leading(v, leaders[t]) && v.nodes[leaders[t]].currentTerm == t)
    {
      var ids := LeadersOf(v);
      var i := 0;
      while i < |ids|
        invariant 0 <= i <= |ids|
        invariant forall t :: t in old(leaders) ==> t in leaders && leaders[t] == old(leaders)[t]
        invariant forall t :: t in leaders ==>
          (t in old(leaders) && leaders[t] == old(leaders)[t])
            || (Leading(v, leaders[t]) && v.nodes[leaders[t]].currentTerm == t)
        invariant forall k :: 0 <= k < i ==>
          v.nodes[ids[k]].currentTerm in leaders && leaders[v.nodes[ids[k]].currentTerm] == ids[k]
      {
        var node := v.nodes[ids[i]];
        assert Leading(v, ids[i]);
        if node.currentTerm !in leaders {
          leaders := leaders[node.currentTerm := ids[i]];
        } else if leaders[node.currentTerm] != ids[i] {
          return Some(TwoLeaders(node.currentTerm, leaders[node.currentTerm], ids[i]));
        }
        i := i + 1;
      }
      assert forall a :: Leading(v, a) ==> a in ids;
      problem := None;
    }
  }

  // -- log matching

  /** An entry shared by index and term is shared with everything before it. */
  predicate Matching(left: seq<LogEntry>, right: seq<LogEntry>) {
    forall k :: 0 <= k < |left| && k < |right| && left[k].term == right[k].term ==> left[..k + 1] == right[..k + 1]
  }

  /** The first position where two logs differ, or the length of the shorter. */
  function DivergesAt(left: seq<LogEntry>, right: seq<LogEntry>): (d: nat)
    ensures d <= |left| && d <= |right| && left[..d] == right[..d]
    ensures d < |left| && d < |right| ==> left[d] != right[d]
  {
    if left == [] || right == [] || left[0] != right[0] then 0
    else
      var d := DivergesAt(left[1..], right[1..]);
      assert left[..d + 1] == [left[0]] + left[1..][..d];
      assert right[..d + 1] == [right[0]] + right[1..][..d];
      d + 1
  }

  /** Checking only past the first divergence is checking the whole property. */
  lemma MatchingPastDivergence(left: seq<LogEntry>, right: seq<LogEntry>)
    ensures Matching(left, right) <==>
      forall k :: DivergesAt(left, right) <= k < |left| && k < |right| ==> left[k].term != right[k].term
  {
    var d := DivergesAt(left, right);
    forall k | 0 <= k < |left| && k < |right| && left[k].term == right[k].term
      ensures k < d ==> left[..k + 1] == right[..k + 1]
    {
      if k < d {
        assert left[..d][..k + 1] == left[..k + 1] && right[..d][..k + 1] == right[..k + 1];
      }
    }
    if Matching(left, right) {
      forall k | d <= k < |left| && k < |right| ensures left[k].term != right[k].term {
        SameUpTo(left, right, k + 1, d);
      }
    }
  }

  lemma SameUpTo(left: seq<LogEntry>, right: seq<LogEntry>, n: nat, k: nat)
    requires k < n <= |left| && n <= |right|
    ensures left[..n] == right[..n] ==> left[k] == right[k]
  {
    if left[..n] == right[..n] {
      assert left[..n][k] == right[..n][k];
    }
  }

  ghost predicate AllMatching(v: ClusterView) {
    forall a, b :: a in v.nodes && b in v.nodes ==> Matching(v.nodes[a].log, v.nodes[b].log)
  }

  /** The two logs have entries of one term at `index`, the first such since they parted at
      `divergedAt`. */
  predicate Disagree(v: ClusterView, p: Problem)
    requires p.LogsDisagree?
  {
    && p.left in v.nodes && p.right in v.nodes
    && var left, right := v.nodes[p.left].log, v.nodes[p.right].log;
       && p.divergedAt == DivergesAt(left, right) + 1 <= p.index <= Min(|left|, |right|)
       && left[p.index - 1].term == right[p.index - 1].term
       && forall k :: p.divergedAt - 1 <= k < p.index - 1 ==> left[k].term != right[k].term
  }

  class LogMatching {
    constructor () {
    }

    method Scan(left: seq<LogEntry>, right: seq<LogEntry>) returns (diverged: Index, clash: Option<Index>)
      ensures clash.None? <==> Matching(left, right)
      ensures clash.Some? ==>
        && 0 < clash.value <= |left| && clash.value <= |right|
        && left[clash.value - 1].term == right[clash.value - 1].term
        && diverged == DivergesAt(left, right) + 1 <= clash.value
        && forall k :: diverged - 1 <= k < clash.value - 1 ==> left[k].term != right[k].term
    {
      MatchingPastDivergence(left, right);
      var shared := Min(|left|, |right|);
      diverged := shared + 1;
      var index := 1;
      while index <= shared
        invariant 1 <= index <= shared + 1 && diverged == shared + 1
        invariant left[..index - 1] == right[..index - 1]
      {
        if left[index - 1] != right[index - 1] {
          diverged := index;
          break;
        }
        assert left[..index] == left[..index - 1] + [left[index - 1]];
        assert right[..index] == right[..index - 1] + [right[index - 1]];
        index := index + 1;
      }
      SameDivergence(left, right, diverged - 1);
      index := diverged;
      while index <= shared
        invariant diverged <= index <= shared + 1
        invariant forall k :: diverged - 1 <= k < index - 1 ==> left[k].term != right[k].term
      {
        if left[index - 1].term == right[index - 1].term {
          return diverged, Some(index);
        }
        index := index + 1;
      }
      clash := None;
    }

    lemma NothingShared(left: seq<LogEntry>, right: seq<LogEntry>)
      requires left == [] || right == []
      ensures Matching(left, right)
    {
    }

    lemma SameDivergence(left: seq<LogEntry>, right: seq<LogEntry>, d: nat)
      requires d <= |left| && d <= |right| && left[..d] == right[..d]
      requires d < |left| && d < |right| ==> left[d] != right[d]
      ensures DivergesAt(left, right) == d
    {
      var e := DivergesAt(left, right);
      if e < d {
        SameUpTo(left, right, d, e);
      } else if d < e {
        SameUpTo(left, right, e, d);
      }
    }

    method Observe(v: ClusterView) returns (problem: Option<Problem>)
      requires Whole(v)
      ensures problem.None? <==> AllMatching(v)
      ensures problem.Some? ==> problem.value.LogsDisagree? && Disagree(v, problem.value)
    {
      hide Matching, DivergesAt;
      var i := 0;
      while i < |v.order|
        invariant 0 <= i <= |v.order|
        invariant forall k, m {:trigger v.order[k], v.order[m]} :: 0 <= k < i && k < m < |v.order| ==>
          Matching(v.nodes[v.order[k]].log, v.nodes[v.order[m]].log)
      {
        var left := v.order[i];
        var j := i + 1;
        while j < |v.order|
          invariant i < j <= |v.order|
          invariant forall m {:trigger v.order[m]} :: i < m < j ==> Matching(v.nodes[left].log, v.nodes[v.order[m]].log)
        {
          var right := v.order[j];
          var shared := Min(|v.nodes[left].log|, |v.nodes[right].log|);
          if shared == 0 {
            NothingShared(v.nodes[left].log, v.nodes[right].log);
            j := j + 1;
            continue;
          }
          var diverged, clash := Scan(v.nodes[left].log, v.nodes[right].log);
          if clash.Some? {
            return Some(LogsDisagree(left, right, clash.value, diverged));
          }
          j := j + 1;
        }
        i := i + 1;
      }
      PairsAreAll(v);
      problem := None;
    }

    lemma PairsAreAll(v: ClusterView)
      requires Whole(v)
      requires forall k, m {:trigger v.order[k], v.order[m]} :: 0 <= k < |v.order| && k < m < |v.order| ==>
        Matching(v.nodes[v.order[k]].log, v.nodes[v.order[m]].log)
      ensures AllMatching(v)
    {
      forall a, b | a in v.nodes && b in v.nodes ensures Matching(v.nodes[a].log, v.nodes[b].log) {
        var k :| 0 <= k < |v.order| && v.order[k] == a;
        var m :| 0 <= m < |v.order| && v.order[m] == b;
        assert k < m ==> Matching(v.nodes[v.order[k]].log, v.nodes[v.order[m]].log);
        assert m < k ==> Matching(v.nodes[v.order[m]].log, v.nodes[v.order[k]].log);
      }
    }
  }

  // -- leader append-only

  /** Every leader still has what it was last seen to have while leading. */
  predicate Extends(log: seq<LogEntry>, before: seq<LogEntry>): (whole: bool)
    ensures log == before ==> whole
  {
    before <= log
  }

  ghost predicate LeadersKept(seen: map<NodeId, seq<LogEntry>>, v: ClusterView) {
    forall a {:trigger Leading(v, a)} :: Leading(v, a) && a in seen ==> Extends(v.nodes[a].log, seen[a])
  }

  class LeaderAppendOnly {
    var seen: map<NodeId, seq<LogEntry>>

    constructor ()
      ensures seen == map[]
    {
      seen := map[];
    }

    method Observe(v: ClusterView) returns (problem: Option<Problem>)
      requires Whole(v)
      modifies this
      ensures problem.None? <==> LeadersKept(old(seen), v)
      ensures problem.Some? ==> problem.value.LeaderChangedEntries? && Leading(v, problem.value.leader)
      ensures problem.Some? ==>
        problem.value.leader in old(seen)
        && !Extends(v.nodes[problem.value.leader].log, old(seen)[problem.value.leader])
      ensures problem.None? ==> forall id :: id in seen <==> Leading(v, id)
      ensures problem.None? ==> forall id :: id in seen ==> seen[id] == v.nodes[id].log
    {
      hide Extends;
      var ids := LeadersOf(v);
      assert forall a :: Leading(v, a) ==> a in ids;
      problem := ObserveLeaders(ids, v);
      if problem.None? {
        DropDeposed(ids);
      }
    }

    method ObserveLeaders(ids: seq<NodeId>, v: ClusterView) returns (problem: Option<Problem>)
      requires forall k :: 0 <= k < |ids| ==> ids[k] in v.nodes
      modifies this
      ensures problem.None? <==> forall id :: id in ids && id in old(seen) ==> Extends(v.nodes[id].log, old(seen)[id])
      ensures problem.None? ==> forall id :: id in ids ==> id in seen && seen[id] == v.nodes[id].log
      ensures problem.Some? ==>
        && problem.value.LeaderChangedEntries? && problem.value.leader in ids && problem.value.leader in old(seen)
        && !Extends(v.nodes[problem.value.leader].log, old(seen)[problem.value.leader])
    {
      hide Extends;
      ghost var done: set<NodeId> := {};
      var i := 0;
      while i < |ids|
        invariant 0 <= i <= |ids|
        invariant forall k :: 0 <= k < i ==> ids[k] in done
        invariant forall id :: id in done ==> id in ids && id in seen && seen[id] == v.nodes[id].log
        invariant forall id :: id in done && id in old(seen) ==> Extends(v.nodes[id].log, old(seen)[id])
        invariant forall id :: id !in done && id in seen ==> id in old(seen) && seen[id] == old(seen)[id]
        invariant forall id :: id !in done && id in old(seen) ==> id in seen
      {
        problem := ObserveLeader(ids[i], v.nodes[ids[i]].log);
        if problem.Some? {
          return;
        }
        done := done + {ids[i]};
        i := i + 1;
      }
      problem := None;
    }

    method ObserveLeader(id: NodeId, current: seq<LogEntry>) returns (problem: Option<Problem>)
      modifies this
      ensures problem.None? <==> (id in old(seen) ==> Extends(current, old(seen)[id]))
      ensures problem.Some? ==> problem.value == LeaderChangedEntries(id)
      ensures seen == if problem.None? then old(seen)[id := current] else old(seen)
    {
      if id in seen && current[..Min(|seen[id]|, |current|)] != seen[id] {
        return Some(LeaderChangedEntries(id));
      }
      seen := seen[id := current];
      problem := None;
    }

    /** Nothing is remembered of a node outside `leading`. */
    method DropDeposed(leading: seq<NodeId>)
      modifies this
      ensures forall id :: id in seen <==> id in old(seen) && id in leading
      ensures forall id :: id in seen ==> seen[id] == old(seen)[id]
    {
      seen := seen - (seen.Keys - set id | id in leading);
    }
  }

  // -- monotonic progress

  predicate Progresses(highWater: map<NodeId, Index>, id: NodeId, n: NodeState) {
    n.running ==> n.lastApplied <= n.commitIndex && (id in highWater ==> highWater[id] <= n.commitIndex)
  }

  ghost predicate AllProgress(highWater: map<NodeId, Index>, v: ClusterView) {
    forall id {:trigger v.nodes[id]} :: id in v.nodes ==> Progresses(highWater, id, v.nodes[id])
  }

  class MonotonicProgress {
    var highWater: map<NodeId, Index>

    constructor ()
      ensures highWater == map[]
    {
      highWater := map[];
    }

    method Observe(v: ClusterView) returns (problem: Option<Problem>)
      requires Whole(v)
      modifies this
      ensures problem.None? <==> AllProgress(old(highWater), v)
      ensures problem.Some? ==>
        match problem.value
        case AppliedPastCommit(id) =>
          id in v.nodes && v.nodes[id].running && v.nodes[id].lastApplied > v.nodes[id].commitIndex
        case CommitWentBack(id) =>
          && id in v.nodes && v.nodes[id].running && id in old(highWater)
          && v.nodes[id].commitIndex < old(highWater)[id]
        case _ => false
      ensures problem.None? ==> forall id :: id in v.nodes ==>
        (id in highWater <==> v.nodes[id].running) && (id in highWater ==> highWater[id] == v.nodes[id].commitIndex)
    {
      var i := 0;
      while i < |v.order|
        invariant 0 <= i <= |v.order|
        invariant forall id :: id in v.order[..i] ==> Progresses(old(highWater), id, v.nodes[id])
        invariant forall id :: id in v.order[..i] ==>
          (id in highWater <==> v.nodes[id].running) && (id in highWater ==> highWater[id] == v.nodes[id].commitIndex)
        invariant forall id :: id !in v.order[..i] ==>
          (id in highWater <==> id in old(highWater)) && (id in highWater ==> highWater[id] == old(highWater)[id])
      {
        var id := v.order[i];
        var node := v.nodes[id];
        assert v.order[..i + 1] == v.order[..i] + [id];
        if !node.running {
          highWater := highWater - {id};
        } else {
          if node.lastApplied > node.commitIndex {
            return Some(AppliedPastCommit(id));
          }
          if id in highWater && node.commitIndex < highWater[id] {
            assert !Progresses(old(highWater), id, v.nodes[id]);
            return Some(CommitWentBack(id));
          }
          highWater := highWater[id := node.commitIndex];
        }
        i := i + 1;
      }
      assert v.order[..i] == v.order;
      problem := None;
    }
  }

  // -- leader completeness

  predicate Holds(log: seq<LogEntry>, index: Index, entry: LogEntry) {
    1 <= index <= |log| && log[index - 1] == entry
  }

  predicate HoldsAll(log: seq<LogEntry>, committed: map<Index, LogEntry>) {
    forall index :: index in committed ==> Holds(log, index, committed[index])
  }

  predicate Checked(checkedTerms: map<Term, NodeId>, v: ClusterView, id: NodeId)
    requires id in v.nodes
  {
    v.nodes[id].currentTerm in checkedTerms && checkedTerms[v.nodes[id].currentTerm] == id
  }

  /** Another leader in view has the same term. */
  ghost predicate HasRival(v: ClusterView, id: NodeId)
    requires id in v.nodes
  {
    exists b {:trigger Leading(v, b)} :: b != id && Leading(v, b) && v.nodes[b].currentTerm == v.nodes[id].currentTerm
  }

  /** `id` says that it has committed `entry` at `index`. */
  predicate Commits(v: ClusterView, id: NodeId, index: Index, entry: LogEntry) {
    id in v.nodes && index <= v.nodes[id].commitIndex && Holds(v.nodes[id].log, index, entry)
  }

  lemma {:induction false} LeastIndexExists(indices: set<Index>)
    requires indices != {}
    ensures exists k :: k in indices && forall other :: other in indices ==> k <= other
    decreases |indices|
  {
    var k :| k in indices;
    if indices == {k} {
      assert forall other :: other in indices ==> k <= other;
    } else {
      var rest := indices - {k};
      assert rest != {};
      LeastIndexExists(rest);
      var least :| least in rest && forall other :: other in rest ==> least <= other;
      var m := Min(k, least);
      assert forall other :: other in indices ==> other == k || other in rest;
      assert m in indices && forall other :: other in indices ==> m <= other;
    }
  }

  /** The leader lacks the first of the committed entries that it lacks. */
  predicate LacksFirst(v: ClusterView, committed: map<Index, LogEntry>, p: Problem)
    requires p.LeaderLacksEntry?
  {
    && Leading(v, p.leader) && p.index in committed
    && !Holds(v.nodes[p.leader].log, p.index, committed[p.index])
    && forall k :: k in committed && k < p.index ==> Holds(v.nodes[p.leader].log, k, committed[k])
  }

  class LeaderCompleteness {
    var committed: map<Index, LogEntry>
    var checkedTerms: map<Term, NodeId>

    constructor ()
      ensures committed == map[] && checkedTerms == map[]
    {
      committed, checkedTerms := map[], map[];
    }

    method GatherFrom(id: NodeId, v: ClusterView)
      requires id in v.nodes
      modifies this`committed
      ensures forall index :: index in old(committed) ==>
        index in committed && committed[index] == old(committed)[index]
      ensures forall index :: index in committed && index !in old(committed) ==> Commits(v, id, index, committed[index])
      ensures forall index :: 1 <= index <= v.nodes[id].commitIndex && index <= |v.nodes[id].log| ==> index in committed
    {
      var node := v.nodes[id];
      var index := 1;
      while index <= node.commitIndex
        invariant 1 <= index <= Max(1, node.commitIndex + 1)
        invariant forall k :: k in old(committed) ==> k in committed && committed[k] == old(committed)[k]
        invariant forall k :: k in committed && k !in old(committed) ==> Commits(v, id, k, committed[k])
        invariant forall k :: 1 <= k < index && k <= |node.log| ==> k in committed
      {
        if index !in committed && index <= |node.log| {
          committed := committed[index := node.log[index - 1]];
        }
        index := index + 1;
      }
    }

    method Gather(v: ClusterView)
      requires Whole(v)
      modifies this`committed
      ensures forall index :: index in old(committed) ==>
        index in committed && committed[index] == old(committed)[index]
      ensures forall index :: index in committed && index !in old(committed) ==>
        exists id :: Commits(v, id, index, committed[index])
      ensures forall id, index ::
        id in v.nodes && 1 <= index <= v.nodes[id].commitIndex && index <= |v.nodes[id].log| ==>
        index in committed
    {
      var i := 0;
      while i < |v.order|
        invariant 0 <= i <= |v.order|
        invariant forall k :: k in old(committed) ==> k in committed && committed[k] == old(committed)[k]
        invariant forall k :: k in committed && k !in old(committed) ==> exists id :: Commits(v, id, k, committed[k])
        invariant forall j, k ::
          0 <= j < i && 1 <= k <= v.nodes[v.order[j]].commitIndex && k <= |v.nodes[v.order[j]].log| ==>
          k in committed
      {
        GatherFrom(v.order[i], v);
        i := i + 1;
      }
    }

    method Missing(log: seq<LogEntry>) returns (index: Option<Index>)
      ensures index.None? <==> HoldsAll(log, committed)
      ensures index.Some? ==> index.value in committed && !Holds(log, index.value, committed[index.value])
      ensures index.Some? ==> forall k :: k in committed && k < index.value ==> Holds(log, k, committed[k])
    {
      var left := committed.Keys;
      while left != {}
        invariant left <= committed.Keys
        invariant forall k :: k in committed && k !in left ==> Holds(log, k, committed[k])
      {
        LeastIndexExists(left);
        var k :| k in left && forall other :: other in left ==> k <= other;
        if !(1 <= k <= |log|) || log[k - 1] != committed[k] {
          return Some(k);
        }
        left := left - {k};
      }
      index := None;
    }

    method Observe(v: ClusterView) returns (problem: Option<Problem>)
      requires Whole(v)
      modifies this
      ensures forall index :: index in old(committed) ==>
        index in committed && committed[index] == old(committed)[index]
      ensures forall index :: index in committed && index !in old(committed) ==>
        exists id :: Commits(v, id, index, committed[index])
      ensures forall id, index ::
        id in v.nodes && 1 <= index <= v.nodes[id].commitIndex && index <= |v.nodes[id].log| ==>
        index in committed
      ensures problem.None? ==>
        forall a {:trigger Leading(v, a)} :: Leading(v, a) && !Checked(old(checkedTerms), v, a) ==>
        HoldsAll(v.nodes[a].log, committed)
      ensures problem.Some? ==> problem.value.LeaderLacksEntry? && LacksFirst(v, committed, problem.value)
      ensures problem.Some? ==>
        && !HoldsAll(v.nodes[problem.value.leader].log, committed)
        && (Checked(old(checkedTerms), v, problem.value.leader) ==> HasRival(v, problem.value.leader))
      ensures forall t :: t in checkedTerms ==>
        (t in old(checkedTerms) && checkedTerms[t] == old(checkedTerms)[t])
        || (Leading(v, checkedTerms[t]) && v.nodes[checkedTerms[t]].currentTerm == t)
      ensures forall t :: t in old(checkedTerms) ==> t in checkedTerms
      ensures problem.None? ==> forall a {:trigger Leading(v, a)} :: Leading(v, a) ==>
        v.nodes[a].currentTerm in checkedTerms
    {
      Gather(v);
      problem := CheckLeaders(LeadersOf(v), v);
      assert forall a :: Leading(v, a) ==> a in LeadersOf(v);
    }

    method CheckLeaders(ids: seq<NodeId>, v: ClusterView) returns (problem: Option<Problem>)
      requires forall k :: 0 <= k < |ids| ==> Leading(v, ids[k])
      requires forall a :: a in ids ==> a in v.nodes
      modifies this`checkedTerms
      ensures problem.None? ==> forall a :: a in ids && !Checked(old(checkedTerms), v, a) ==>
        HoldsAll(v.nodes[a].log, committed)
      ensures problem.Some? ==> problem.value.LeaderLacksEntry? && LacksFirst(v, committed, problem.value)
      ensures problem.Some? ==>
        && !HoldsAll(v.nodes[problem.value.leader].log, committed)
        && (Checked(old(checkedTerms), v, problem.value.leader) ==> HasRival(v, problem.value.leader))
      ensures forall t :: t in checkedTerms ==>
        (t in old(checkedTerms) && checkedTerms[t] == old(checkedTerms)[t])
        || (Leading(v, checkedTerms[t]) && v.nodes[checkedTerms[t]].currentTerm == t)
      ensures forall t :: t in old(checkedTerms) ==> t in checkedTerms
      ensures problem.None? ==> forall a :: a in ids ==> v.nodes[a].currentTerm in checkedTerms
    {
      hide HoldsAll;
      var i := 0;
      while i < |ids|
        invariant 0 <= i <= |ids|
        invariant forall t ::
          t in checkedTerms && !(t in old(checkedTerms) && old(checkedTerms)[t] == checkedTerms[t]) ==>
          && Leading(v, checkedTerms[t]) && v.nodes[checkedTerms[t]].currentTerm == t
          && HoldsAll(v.nodes[checkedTerms[t]].log, committed)
        invariant forall t :: t in old(checkedTerms) ==> t in checkedTerms
        invariant forall k :: 0 <= k < i ==> v.nodes[ids[k]].currentTerm in checkedTerms
        invariant forall k :: 0 <= k < i ==>
          Checked(old(checkedTerms), v, ids[k]) || HoldsAll(v.nodes[ids[k]].log, committed)
      {
        var node := v.nodes[ids[i]];
        assert Leading(v, ids[i]);
        if node.currentTerm !in checkedTerms || checkedTerms[node.currentTerm] != ids[i] {
          checkedTerms := checkedTerms[node.currentTerm := ids[i]];
          var missing := Missing(node.log);
          if missing.Some? {
            return Some(LeaderLacksEntry(ids[i], missing.value));
          }
        }
        i := i + 1;
      }
      problem := None;
    }
  }

  // -- state machine safety

  datatype AppliedEntry = AppliedEntry(term: Term, command: Command)

  function AppliedAs(entry: LogEntry): AppliedEntry {
    AppliedEntry(entry.term, entry.command)
  }

  /** Everything a node has applied is in its log, as it was first seen applied. */
  predicate AgreesWith(applied: map<Index, AppliedEntry>, n: NodeState) {
    && n.lastApplied <= |n.log|
    && forall index :: 1 <= index <= n.lastApplied && index in applied ==> applied[index] == AppliedAs(n.log[index - 1])
  }

  ghost predicate AgreeTogether(m: NodeState, n: NodeState) {
    forall index {:trigger HasApplied(m, index)} :: HasApplied(m, index) && HasApplied(n, index) ==>
      AppliedAs(m.log[index - 1]) == AppliedAs(n.log[index - 1])
  }

  predicate HasApplied(n: NodeState, index: Index) {
    1 <= index <= n.lastApplied && index <= |n.log|
  }

  ghost predicate AllAgree(applied: map<Index, AppliedEntry>, v: ClusterView) {
    && (forall id {:trigger v.nodes[id]} :: id in v.nodes ==> AgreesWith(applied, v.nodes[id]))
    && (forall a, b {:trigger v.nodes[a], v.nodes[b]} :: a in v.nodes && b in v.nodes ==>
          AgreeTogether(v.nodes[a], v.nodes[b]))
  }

  predicate Applies(v: ClusterView, id: NodeId, index: Index, entry: AppliedEntry) {
    && id in v.nodes && HasApplied(v.nodes[id], index)
    && AppliedAs(v.nodes[id].log[index - 1]) == entry
  }

  /** The node named has applied something that is not in its log, or not what was first applied. */
  predicate AppliedWrongly(applied: map<Index, AppliedEntry>, v: ClusterView, p: Problem) {
    match p
    case AppliedPastLog(id) => id in v.nodes && v.nodes[id].lastApplied > |v.nodes[id].log|
    case AppliedDifferently(id, index) =>
      && id in v.nodes && HasApplied(v.nodes[id], index)
      && index in applied && applied[index] != AppliedAs(v.nodes[id].log[index - 1])
    case _ => false
  }

  /** Everything the node has applied is remembered as it is in its log. */
  predicate Remembers(applied: map<Index, AppliedEntry>, n: NodeState) {
    && n.lastApplied <= |n.log|
    && forall index :: 1 <= index <= n.lastApplied ==>
         index in applied && applied[index] == AppliedAs(n.log[index - 1])
  }

  predicate Grew(before: map<Index, AppliedEntry>, now: map<Index, AppliedEntry>) {
    forall index :: index in before ==> index in now && now[index] == before[index]
  }

  lemma RemembersLater(before: map<Index, AppliedEntry>, now: map<Index, AppliedEntry>, n: NodeState)
    requires Grew(before, now) && Remembers(before, n)
    ensures Remembers(now, n)
  {
  }

  /** What is remembered anew is what some node in view has applied. */
  ghost predicate NewAreApplied(before: map<Index, AppliedEntry>, now: map<Index, AppliedEntry>, v: ClusterView) {
    forall index :: index in now && index !in before ==> exists id :: Applies(v, id, index, now[index])
  }

  lemma NewLater(before: map<Index, AppliedEntry>, now: map<Index, AppliedEntry>, later: map<Index, AppliedEntry>,
                 v: ClusterView)
    requires Grew(before, now) && Grew(now, later) && NewAreApplied(before, now, v) && NewAreApplied(now, later, v)
    ensures Grew(before, later) && NewAreApplied(before, later, v)
  {
    hide Applies;
  }

  class StateMachineSafety {
    var applied: map<Index, AppliedEntry>

    constructor ()
      ensures applied == map[]
    {
      applied := map[];
    }

    method ObserveNode(id: NodeId, v: ClusterView) returns (problem: Option<Problem>)
      requires id in v.nodes
      modifies this
      ensures problem.None? <==> AgreesWith(old(applied), v.nodes[id])
      ensures problem.Some? ==> AppliedWrongly(applied, v, problem.value)
      ensures Grew(old(applied), applied)
      ensures forall index :: index in applied && index !in old(applied) ==> Applies(v, id, index, applied[index])
      ensures problem.None? ==> Remembers(applied, v.nodes[id])
    {
      var node := v.nodes[id];
      var index := 1;
      while index <= node.lastApplied
        invariant 1 <= index <= Max(1, node.lastApplied + 1) && index - 1 <= |node.log|
        invariant forall k :: k in old(applied) ==> k in applied && applied[k] == old(applied)[k]
        invariant forall k :: k in applied && k !in old(applied) ==> k < index && Applies(v, id, k, applied[k])
        invariant forall k :: 1 <= k < index ==> k in applied && applied[k] == AppliedAs(node.log[k - 1])
      {
        if index > |node.log| {
          return Some(AppliedPastLog(id));
        }
        var entry := node.log[index - 1];
        if index !in applied {
          applied := applied[index := AppliedAs(entry)];
        } else if applied[index] != AppliedAs(entry) {
          return Some(AppliedDifferently(id, index));
        }
        index := index + 1;
      }
      problem := None;
    }

    method Observe(v: ClusterView) returns (problem: Option<Problem>)
      requires Whole(v)
      modifies this
      ensures problem.None? <==> AllAgree(old(applied), v)
      ensures problem.None? ==> forall id :: id in v.nodes ==> Remembers(applied, v.nodes[id])
      ensures problem.Some? ==> AppliedWrongly(applied, v, problem.value)
      ensures Grew(old(applied), applied) && NewAreApplied(old(applied), applied, v)
    {
      hide Remembers, AgreesWith, AllAgree, AppliedWrongly, Applies;
      var i := 0;
      while i < |v.order|
        invariant 0 <= i <= |v.order|
        invariant Grew(old(applied), applied) && NewAreApplied(old(applied), applied, v)
        invariant forall j {:trigger v.order[j]} :: 0 <= j < i ==> Remembers(applied, v.nodes[v.order[j]])
      {
        hide Grew, NewAreApplied;
        ghost var before := applied;
        problem := ObserveNode(v.order[i], v);
        OneApplier(before, applied, v, v.order[i]);
        NewLater(old(applied), before, applied, v);
        if problem.Some? {
          NotAllAgree(old(applied), before, v, v.order[i]);
          return;
        }
        forall j | 0 <= j < i ensures Remembers(applied, v.nodes[v.order[j]]) {
          RemembersLater(before, applied, v.nodes[v.order[j]]);
        }
        i := i + 1;
      }
      EachAgrees(old(applied), applied, v);
      problem := None;
    }

    lemma OneApplier(before: map<Index, AppliedEntry>, now: map<Index, AppliedEntry>, v: ClusterView, id: NodeId)
      requires forall index :: index in now && index !in before ==> Applies(v, id, index, now[index])
      ensures NewAreApplied(before, now, v)
    {
    }

    lemma NotAllAgree(before: map<Index, AppliedEntry>, now: map<Index, AppliedEntry>, v: ClusterView, id: NodeId)
      requires id in v.nodes && !AgreesWith(now, v.nodes[id])
      requires Grew(before, now) && NewAreApplied(before, now, v)
      ensures !AllAgree(before, v)
    {
      var n := v.nodes[id];
      if AgreesWith(before, n) {
        var index :| 1 <= index <= n.lastApplied && index in now && now[index] != AppliedAs(n.log[index - 1]);
        var other :| Applies(v, other, index, now[index]);
        assert HasApplied(n, index);
        assert !AgreeTogether(v.nodes[other], n);
      }
    }

    lemma BothRemembered(now: map<Index, AppliedEntry>, m: NodeState, n: NodeState)
      requires Remembers(now, m) && Remembers(now, n)
      ensures AgreeTogether(m, n)
    {
      forall index: Index | HasApplied(m, index) && HasApplied(n, index)
        ensures AppliedAs(m.log[index - 1]) == AppliedAs(n.log[index - 1])
      {
        assert now[index] == AppliedAs(m.log[index - 1]) && now[index] == AppliedAs(n.log[index - 1]);
      }
    }

    lemma EachAgrees(before: map<Index, AppliedEntry>, now: map<Index, AppliedEntry>, v: ClusterView)
      requires Whole(v) && Grew(before, now)
      requires forall j {:trigger v.order[j]} :: 0 <= j < |v.order| ==> Remembers(now, v.nodes[v.order[j]])
      ensures AllAgree(before, v) && forall id :: id in v.nodes ==> Remembers(now, v.nodes[id])
    {
      forall id | id in v.nodes ensures Remembers(now, v.nodes[id]) && AgreesWith(before, v.nodes[id]) {
        var j :| 0 <= j < |v.order| && v.order[j] == id;
      }
      forall a, b | a in v.nodes && b in v.nodes ensures AgreeTogether(v.nodes[a], v.nodes[b]) {
        BothRemembered(now, v.nodes[a], v.nodes[b]);
      }
    }
  }
}
