// groundhog/sim/faults.py: the timeline of episodes, drawn before the run starts, and the events
// that it becomes.
//
// The draws are parameters: any values in their ranges, so what is proved holds for every seed.
module Faults {
  import opened Types
  import opened Networks

  /** An inclusive range to draw from. */
  datatype Range = Range(lo: nat, hi: nat)

  predicate Within(drawn: nat, range: Range) {
    range.lo <= drawn <= range.hi
  }

  /** Something that goes wrong at one tick and is over after some more. */
  datatype Episode<T> = Episode(at: Tick, duration: Tick, what: T)

  datatype Outage = Outage(node: NodeId, hang: bool)

  /** What one turn of the generator's loop draws: the quiet spell before the episode, how long
      the episode lasts, and what it is. */
  datatype Draw<T> = Draw(gap: nat, duration: nat, what: T)

  predicate InRange<T>(draw: Draw<T>, gap: Range, duration: Range) {
    Within(draw.gap, gap) && Within(draw.duration, duration)
  }

  /** Every turn draws from the ranges, and time moves on with every turn. */
  ghost predicate DrawsOk<T(!new)>(draws: nat -> Draw<T>, gap: Range, duration: Range) {
    gap.lo + duration.lo > 0 && forall k {:trigger draws(k)} :: InRange(draws(k), gap, duration)
  }

  predicate NoRepeats(ids: seq<NodeId>) {
    forall i, j :: 0 <= i < j < |ids| ==> ids[i] != ids[j]
  }

  // -- one cut

  /** Two sides that between them are all the nodes, and neither is empty. */
  predicate IsCut(ids: set<NodeId>, sideA: set<NodeId>, sideB: set<NodeId>) {
    sideA !! sideB && sideA + sideB == ids && sideA != {} && sideB != {}
  }

  function Without(pool: seq<NodeId>, k: nat): seq<NodeId>
    requires k < |pool|
  {
    pool[..k] + pool[k + 1..]
  }

  /** Each pick is of one that is still in the pool. */
  predicate PicksOk(size: nat, picks: seq<nat>)
    decreases |picks|
  {
    picks == [] || (picks[0] < size && PicksOk(size - 1, picks[1..]))
  }

  /** What is left of the pool once all have been picked. */
  function Left(pool: seq<NodeId>, picks: seq<nat>): (rest: seq<NodeId>)
    requires PicksOk(|pool|, picks)
    ensures |rest| == |pool| - |picks|
    decreases |picks|
  {
    if picks == [] then pool else Left(Without(pool, picks[0]), picks[1..])
  }

  lemma WithoutOne(pool: seq<NodeId>, k: nat)
    requires NoRepeats(pool) && k < |pool|
    ensures NoRepeats(Without(pool, k)) && SetOf(Without(pool, k)) == SetOf(pool) - {pool[k]} && pool[k] in SetOf(pool)
  {
    var rest := Without(pool, k);
    forall id | id in SetOf(pool) && id != pool[k] ensures id in rest {
      var i :| 0 <= i < |pool| && pool[i] == id;
      assert i < k ==> rest[i] == id;
      assert i > k ==> rest[i - 1] == id;
    }
  }

  /** The first `i` picks have moved `chosen` out of the pool. */
  predicate Picked(ids: seq<NodeId>, picks: seq<nat>, i: nat, pool: seq<NodeId>, chosen: set<NodeId>)
    requires PicksOk(|ids|, picks)
  {
    && i <= |picks| && |pool| == |ids| - i && NoRepeats(pool)
    && PicksOk(|pool|, picks[i..]) && Left(pool, picks[i..]) == Left(ids, picks)
    && chosen !! SetOf(pool) && chosen + SetOf(pool) == SetOf(ids) && |chosen| == i
  }

  lemma MovesOver(whole: set<NodeId>, chosen: set<NodeId>, pool: set<NodeId>, id: NodeId)
    requires chosen !! pool && chosen + pool == whole && id in pool
    ensures chosen + {id} !! pool - {id} && (chosen + {id}) + (pool - {id}) == whole
    ensures |chosen + {id}| == |chosen| + 1
  {
  }

  lemma PickNext(ids: seq<NodeId>, picks: seq<nat>, i: nat, pool: seq<NodeId>, chosen: set<NodeId>)
    requires PicksOk(|ids|, picks) && Picked(ids, picks, i, pool, chosen) && i < |picks|
    ensures picks[i] < |pool| && Picked(ids, picks, i + 1, Without(pool, picks[i]), chosen + {pool[picks[i]]})
  {
    assert picks[i..][0] == picks[i] && picks[i..][1..] == picks[i + 1..];
    assert |Without(pool, picks[i])| == |pool| - 1;
    hide NoRepeats, SetOf, Without;
    WithoutOne(pool, picks[i]);
    MovesOver(SetOf(ids), chosen, SetOf(pool), pool[picks[i]]);
  }

  lemma PicksEnd(ids: seq<NodeId>, picks: seq<nat>, pool: seq<NodeId>, chosen: set<NodeId>)
    requires PicksOk(|ids|, picks) && Picked(ids, picks, |picks|, pool, chosen) && 1 <= |picks| < |ids|
    ensures IsCut(SetOf(ids), chosen, SetOf(pool)) && |chosen| == |picks| && SetOf(pool) == SetOf(Left(ids, picks))
  {
    assert picks[|picks|..] == [] && pool[0] in SetOf(pool);
    hide NoRepeats, SetOf, Left;
  }

  /** Picks whoever was drawn for side A, one at a time; who is left is side B. */
  method Split(ids: seq<NodeId>, picks: seq<nat>) returns (sideA: set<NodeId>, sideB: set<NodeId>)
    requires NoRepeats(ids) && 1 <= |picks| < |ids| && PicksOk(|ids|, picks)
    ensures IsCut(SetOf(ids), sideA, sideB) && |sideA| == |picks| && sideB == SetOf(Left(ids, picks))
  {
    var pool := ids;
    var chosen: set<NodeId> := {};
    assert picks[0..] == picks;
    hide NoRepeats, SetOf, Left, Without, PicksOk, IsCut;
    for i := 0 to |picks|
      invariant Picked(ids, picks, i, pool, chosen)
    {
      PickNext(ids, picks, i, pool, chosen);
      hide Picked;
      chosen := chosen + {pool[picks[i]]};
      pool := Without(pool, picks[i]);
    }
    PicksEnd(ids, picks, pool, chosen);
    sideA, sideB := chosen, SetOf(pool);
  }

  /** Every side but none and all of the nodes can be drawn. */
  lemma {:induction false} EveryCutCanBeDrawn(ids: seq<NodeId>, sideB: set<NodeId>) returns (picks: seq<nat>)
    requires NoRepeats(ids) && sideB <= SetOf(ids)
    ensures PicksOk(|ids|, picks) && SetOf(Left(ids, picks)) == sideB
    ensures sideB != {} ==> |picks| < |ids|
    ensures sideB != SetOf(ids) ==> 1 <= |picks|
    decreases |ids|
  {
    if sideB == SetOf(ids) {
      picks := [];
    } else {
      var id :| id in SetOf(ids) && id !in sideB;
      var k :| 0 <= k < |ids| && ids[k] == id;
      WithoutOne(ids, k);
      var rest := EveryCutCanBeDrawn(Without(ids, k), sideB);
      picks := [k] + rest;
      assert picks[1..] == rest;
    }
  }

  /** What is drawn for a cut: who is on side A, and whether only one direction is cut. */
  datatype Cutting = Cutting(picks: seq<nat>, oneWay: bool)

  predicate CuttingOk(ids: seq<NodeId>, cutting: Cutting) {
    1 <= |cutting.picks| < |ids| && PicksOk(|ids|, cutting.picks)
  }

  function CutOf(ids: seq<NodeId>, cutting: Cutting): Partition
    requires CuttingOk(ids, cutting)
  {
    var sideB := SetOf(Left(ids, cutting.picks));
    Partition(SetOf(ids) - sideB, sideB, cutting.oneWay)
  }

  // -- one timeline

  /** When the first `i` episodes are over. */
  function Over<T>(episodes: seq<Episode<T>>, i: nat): Tick
    requires i <= |episodes|
  {
    if i == 0 then 0 else episodes[i - 1].at + episodes[i - 1].duration
  }

  /** The i-th episode begins after the i-th drawn gap and lasts as long as the i-th was drawn to. */
  predicate TimedAt<T, D>(episodes: seq<Episode<T>>, draws: nat -> Draw<D>, i: nat)
    requires i < |episodes|
  {
    episodes[i].at == Over(episodes, i) + draws(i).gap && episodes[i].duration == draws(i).duration
  }

  predicate Timed<T, D>(episodes: seq<Episode<T>>, draws: nat -> Draw<D>) {
    forall i :: 0 <= i < |episodes| ==> TimedAt(episodes, draws, i)
  }

  /** All begin before the horizon, and the next that would be drawn would not. */
  predicate UpTo<T, D>(episodes: seq<Episode<T>>, draws: nat -> Draw<D>, horizon: Tick) {
    && (forall i :: 0 <= i < |episodes| ==> episodes[i].at < horizon)
    && Over(episodes, |episodes|) + draws(|episodes|).gap >= horizon
  }

  /** Each episode is over, by at least `gap`, when the next begins. */
  predicate OneAtATime<T>(episodes: seq<Episode<T>>, gap: nat) {
    forall i, j :: 0 <= i < j < |episodes| ==> episodes[i].at + episodes[i].duration + gap <= episodes[j].at
  }

  /** No quiet spell is longer than `longest`: not before the first episode, not between one and
      the next, and not after the last, up to the horizon. */
  predicate Unbroken<T>(episodes: seq<Episode<T>>, longest: nat, horizon: Tick) {
    && (forall i {:trigger Over(episodes, i)} :: 0 <= i < |episodes| ==>
          episodes[i].at <= Over(episodes, i) + longest)
    && horizon <= Over(episodes, |episodes|) + longest
  }

  /** However it is drawn, a timeline keeps its episodes apart and leaves no gap too long. */
  lemma TimelineHolds<T, D(!new)>(episodes: seq<Episode<T>>, draws: nat -> Draw<D>, gap: Range, duration: Range,
                                  horizon: Tick)
    requires DrawsOk(draws, gap, duration) && Timed(episodes, draws) && UpTo(episodes, draws, horizon)
    ensures OneAtATime(episodes, gap.lo) && Unbroken(episodes, gap.hi, horizon)
    ensures forall i :: 0 <= i < |episodes| ==>
      gap.lo <= episodes[i].at < horizon && Within(episodes[i].duration, duration)
  {
    forall i, j | 0 <= i < j < |episodes|
      ensures episodes[i].at + episodes[i].duration + gap.lo <= episodes[j].at
    {
      LaterByGaps(episodes, draws, gap, duration, i, j);
    }
    forall i | 0 <= i < |episodes| ensures episodes[i].at <= Over(episodes, i) + gap.hi {
      assert InRange(draws(i), gap, duration) && TimedAt(episodes, draws, i);
    }
    forall i | 0 <= i < |episodes| ensures gap.lo <= episodes[i].at && Within(episodes[i].duration, duration) {
      assert InRange(draws(i), gap, duration) && TimedAt(episodes, draws, i);
    }
    assert InRange(draws(|episodes|), gap, duration);
  }

  lemma {:induction false} LaterByGaps<T, D(!new)>(episodes: seq<Episode<T>>, draws: nat -> Draw<D>, gap: Range,
                                                   duration: Range, i: nat, j: nat)
    requires DrawsOk(draws, gap, duration) && Timed(episodes, draws) && i < j < |episodes|
    ensures episodes[i].at + episodes[i].duration + gap.lo <= episodes[j].at
    decreases j
  {
    assert InRange(draws(j), gap, duration) && TimedAt(episodes, draws, j);
    if i < j - 1 {
      LaterByGaps(episodes, draws, gap, duration, i, j - 1);
    }
  }

  /** The draws leave no choice: there is one timeline. */
  lemma {:induction false} OneTimeline<T, D>(episodes: seq<Episode<T>>, others: seq<Episode<T>>, draws: nat -> Draw<D>,
                                             horizon: Tick, i: nat)
    requires Timed(episodes, draws) && UpTo(episodes, draws, horizon)
    requires Timed(others, draws) && UpTo(others, draws, horizon) && i <= |episodes|
    ensures i <= |others| && Over(episodes, i) == Over(others, i)
    ensures i > 0 ==> episodes[i - 1].at == others[i - 1].at && episodes[i - 1].duration == others[i - 1].duration
    decreases i
  {
    if i > 0 {
      OneTimeline(episodes, others, draws, horizon, i - 1);
      assert TimedAt(episodes, draws, i - 1) && episodes[i - 1].at < horizon;
      assert i - 1 < |others| && TimedAt(others, draws, i - 1);
    }
  }

  lemma OneMoreEpisode<T, D>(episodes: seq<Episode<T>>, draws: nat -> Draw<D>, e: Episode<T>)
    requires Timed(episodes, draws)
    requires e.at == Over(episodes, |episodes|) + draws(|episodes|).gap && e.duration == draws(|episodes|).duration
    ensures Timed(episodes + [e], draws) && Over(episodes + [e], |episodes| + 1) == e.at + e.duration
  {
    var all := episodes + [e];
    forall i | 0 <= i < |all|
      ensures TimedAt(all, draws, i)
    {
      assert Over(all, i) == Over(episodes, i);
      assert i < |episodes| ==> all[i] == episodes[i] && TimedAt(episodes, draws, i);
    }
  }

  lemma NothingYet<D>(draws: nat -> Draw<D>)
    ensures Timed<Partition, D>([], draws) && Over<Partition>([], 0) == 0
    ensures Timed<Outage, D>([], draws) && Over<Outage>([], 0) == 0
  {
  }

  lemma TimeMovesOn<D(!new)>(draws: nat -> Draw<D>, gap: Range, duration: Range, k: nat)
    requires DrawsOk(draws, gap, duration)
    ensures draws(k).duration + draws(k + 1).gap > 0
  {
    assert InRange(draws(k), gap, duration) && InRange(draws(k + 1), gap, duration);
  }

  // -- partitions, one at a time

  ghost predicate CutsOk(ids: seq<NodeId>, draws: nat -> Draw<Cutting>) {
    forall k {:trigger draws(k)} :: CuttingOk(ids, draws(k).what)
  }

  /** The network is cut as was drawn, into two sides that are all the nodes. */
  predicate CutAs(ids: seq<NodeId>, cut: Partition, cutting: Cutting) {
    && CuttingOk(ids, cutting) && cut == CutOf(ids, cutting)
    && IsCut(SetOf(ids), cut.sideA, cut.sideB) && |cut.sideA| == |cutting.picks|
  }

  predicate AllCut(ids: seq<NodeId>, episodes: seq<Episode<Partition>>, draws: nat -> Draw<Cutting>) {
    forall i :: 0 <= i < |episodes| ==> CutAs(ids, episodes[i].what, draws(i).what)
  }

  method DrawCut(ids: seq<NodeId>, cutting: Cutting) returns (cut: Partition)
    requires NoRepeats(ids) && CuttingOk(ids, cutting)
    ensures CutAs(ids, cut, cutting)
  {
    var sideA, sideB := Split(ids, cutting.picks);
    assert sideA == SetOf(ids) - sideB;
    cut := Partition(sideA, sideB, cutting.oneWay);
  }

  method GeneratePartitions(ids: seq<NodeId>, draws: nat -> Draw<Cutting>, ghost gap: Range, ghost duration: Range,
                            horizon: Tick)
    returns (episodes: seq<Episode<Partition>>)
    requires NoRepeats(ids) && DrawsOk(draws, gap, duration) && (|ids| >= 2 ==> CutsOk(ids, draws))
    ensures if |ids| < 2 then episodes == []
            else Timed(episodes, draws) && UpTo(episodes, draws, horizon) && AllCut(ids, episodes, draws)
  {
    hide CutAs, Timed, TimedAt, Over, DrawsOk, CuttingOk;
    episodes := [];
    if |ids| < 2 {
      return;
    }
    NothingYet(draws);
    var at := draws(0).gap;
    while at < horizon
      invariant at == Over(episodes, |episodes|) + draws(|episodes|).gap && Timed(episodes, draws)
      invariant forall i :: 0 <= i < |episodes| ==> episodes[i].at < horizon
      invariant AllCut(ids, episodes, draws)
      decreases horizon - at
    {
      var drawn := draws(|episodes|);
      var cut := DrawCut(ids, drawn.what);
      var next := Episode(at, drawn.duration, cut);
      OneMoreEpisode(episodes, draws, next);
      TimeMovesOn(draws, gap, duration, |episodes|);
      episodes := episodes + [next];
      at := at + drawn.duration + draws(|episodes|).gap;
    }
  }

  // -- outages, one at a time for each node

  type Outages = seq<Episode<Outage>>

  /** What is drawn for one node, and every outage of it. */
  ghost predicate Suffers(mine: Outages, node: NodeId, draws: nat -> Draw<bool>, horizon: Tick) {
    && Timed(mine, draws) && UpTo(mine, draws, horizon)
    && forall i :: 0 <= i < |mine| ==> mine[i].what == Outage(node, draws(i).what)
  }

  method OutagesOf(node: NodeId, draws: nat -> Draw<bool>, ghost gap: Range, ghost duration: Range, horizon: Tick)
    returns (episodes: Outages)
    requires DrawsOk(draws, gap, duration)
    ensures Suffers(episodes, node, draws, horizon)
  {
    episodes := [];
    var at := draws(0).gap;
    while at < horizon
      invariant at == Over(episodes, |episodes|) + draws(|episodes|).gap && Timed(episodes, draws)
      invariant forall i :: 0 <= i < |episodes| ==> episodes[i].at < horizon
      invariant forall i :: 0 <= i < |episodes| ==> episodes[i].what == Outage(node, draws(i).what)
      decreases horizon - at
    {
      hide Timed, Over;
      var drawn := draws(|episodes|);
      var next := Episode(at, drawn.duration, Outage(node, drawn.what));
      OneMoreEpisode(episodes, draws, next);
      TimeMovesOn(draws, gap, duration, |episodes|);
      episodes := episodes + [next];
      at := at + drawn.duration + draws(|episodes|).gap;
    }
  }

  predicate NoLater(a: Episode<Outage>, b: Episode<Outage>) {
    a.at < b.at || (a.at == b.at && a.what.node <= b.what.node)
  }

  predicate Sorted(episodes: Outages) {
    forall i, j :: 0 <= i < j < |episodes| ==> NoLater(episodes[i], episodes[j])
  }

  /** The outages of one node, in order. */
  function OnNode(episodes: Outages, node: NodeId): (mine: Outages)
    ensures forall e :: e in mine <==> e in episodes && e.what.node == node
  {
    if episodes == [] then []
    else if episodes[0].what.node == node then [episodes[0]] + OnNode(episodes[1..], node)
    else OnNode(episodes[1..], node)
  }

  /** What `list.sort` promises. */
  function Inserted(episodes: Outages, e: Episode<Outage>): (all: Outages)
    requires Sorted(episodes)
    ensures Sorted(all) && |all| == |episodes| + 1
    ensures forall x :: x in all <==> x == e || x in episodes
  {
    if episodes == [] || NoLater(e, episodes[0]) then [e] + episodes
    else
      var rest := Inserted(episodes[1..], e);
      assert forall i :: 0 <= i < |rest| ==> rest[i] in rest;
      [episodes[0]] + rest
  }

  /** Sorting in an outage that is later than its node's others puts it after them, and leaves
      every other node's as they were. */
  lemma {:induction false} InsertedOnNode(episodes: Outages, e: Episode<Outage>, node: NodeId)
    requires Sorted(episodes) && forall x :: x in episodes && x.what.node == e.what.node ==> x.at < e.at
    ensures OnNode(Inserted(episodes, e), node)
         == if node == e.what.node then OnNode(episodes, node) + [e] else OnNode(episodes, node)
    decreases |episodes|
  {
    if episodes == [] {
    } else if NoLater(e, episodes[0]) {
      assert ([e] + episodes)[1..] == episodes;
      forall x | x in episodes ensures x.what.node != e.what.node {
        var i :| 0 <= i < |episodes| && episodes[i] == x;
        assert i > 0 ==> NoLater(episodes[0], episodes[i]);
      }
      NoneThere(episodes, e.what.node);
    } else {
      InsertedOnNode(episodes[1..], e, node);
      var rest := Inserted(episodes[1..], e);
      assert ([episodes[0]] + rest)[1..] == rest;
    }
  }

  /** Sorts the outages of one more node in among those of the others. */
  method SortIn(episodes: Outages, mine: Outages, node: NodeId) returns (all: Outages)
    requires Sorted(episodes) && forall e :: e in episodes ==> e.what.node != node
    requires forall i :: 0 <= i < |mine| ==> mine[i].what.node == node
    requires forall i, j :: 0 <= i < j < |mine| ==> mine[i].at < mine[j].at
    ensures Sorted(all)
    ensures forall id :: OnNode(all, id) == if id == node then mine else OnNode(episodes, id)
  {
    all := episodes;
    NoneThere(episodes, node);
    for k := 0 to |mine|
      invariant Sorted(all)
      invariant forall id :: OnNode(all, id) == if id == node then mine[..k] else OnNode(episodes, id)
    {
      forall x | x in all && x.what.node == node ensures x.at < mine[k].at {
        assert x in OnNode(all, node);
      }
      ghost var before := all;
      all := Inserted(all, mine[k]);
      assert mine[..k + 1] == mine[..k] + [mine[k]];
      forall id ensures OnNode(all, id) == if id == node then mine[..k + 1] else OnNode(episodes, id) {
        InsertedOnNode(before, mine[k], id);
      }
    }
    assert mine[..|mine|] == mine;
  }

  lemma {:induction false} NoneThere(episodes: Outages, node: NodeId)
    requires forall e :: e in episodes ==> e.what.node != node
    ensures OnNode(episodes, node) == []
    decreases |episodes|
  {
    if episodes != [] {
      assert episodes[0] in episodes;
      NoneThere(episodes[1..], node);
    }
  }

  /** The outages of each of `ids` are as drawn for it, and nobody else has any. */
  ghost predicate EachSuffers(episodes: Outages, ids: seq<NodeId>, draws: NodeId -> nat -> Draw<bool>, horizon: Tick) {
    forall id :: if id in ids then Suffers(OnNode(episodes, id), id, draws(id), horizon) else OnNode(episodes, id) == []
  }

  lemma OneMoreSuffers(episodes: Outages, all: Outages, mine: Outages, ids: seq<NodeId>, node: NodeId,
                       draws: NodeId -> nat -> Draw<bool>, horizon: Tick)
    requires EachSuffers(episodes, ids, draws, horizon) && Suffers(mine, node, draws(node), horizon)
    requires forall id :: OnNode(all, id) == if id == node then mine else OnNode(episodes, id)
    ensures EachSuffers(all, ids + [node], draws, horizon)
  {
    hide Suffers, OnNode;
  }

  lemma NotYetThere(episodes: Outages, ids: seq<NodeId>, node: NodeId, draws: NodeId -> nat -> Draw<bool>,
                    horizon: Tick)
    requires EachSuffers(episodes, ids, draws, horizon) && node !in ids
    ensures forall e :: e in episodes ==> e.what.node != node
  {
    hide Suffers;
    forall e | e in episodes ensures e.what.node != node {
      assert e in OnNode(episodes, e.what.node);
    }
  }

  /** However they are sorted, each node's outages are its own timeline, and nobody else has any. */
  method GenerateOutages(ids: seq<NodeId>, draws: NodeId -> nat -> Draw<bool>, ghost gap: Range, ghost duration: Range,
                         horizon: Tick)
    returns (episodes: Outages)
    requires NoRepeats(ids) && forall id :: id in ids ==> DrawsOk(draws(id), gap, duration)
    ensures Sorted(episodes) && EachSuffers(episodes, ids, draws, horizon)
  {
    hide Suffers, EachSuffers, DrawsOk, Sorted;
    NobodySuffers(draws, horizon);
    episodes := [];
    for i := 0 to |ids|
      invariant Sorted(episodes) && EachSuffers(episodes, ids[..i], draws, horizon)
    {
      var mine := OutagesOf(ids[i], draws(ids[i]), gap, duration, horizon);
      InOrder(mine, ids[i], draws(ids[i]), gap, duration, horizon);
      NotYetThere(episodes, ids[..i], ids[i], draws, horizon);
      var all := SortIn(episodes, mine, ids[i]);
      OneMoreSuffers(episodes, all, mine, ids[..i], ids[i], draws, horizon);
      episodes := all;
      assert ids[..i + 1] == ids[..i] + [ids[i]];
    }
    assert ids[..|ids|] == ids;
  }

  lemma NobodySuffers(draws: NodeId -> nat -> Draw<bool>, horizon: Tick)
    ensures Sorted([]) && EachSuffers([], [], draws, horizon)
  {
  }

  lemma InOrder(mine: Outages, node: NodeId, draws: nat -> Draw<bool>, gap: Range, duration: Range, horizon: Tick)
    requires DrawsOk(draws, gap, duration) && Suffers(mine, node, draws, horizon)
    ensures forall i :: 0 <= i < |mine| ==> mine[i].what.node == node
    ensures forall i, j :: 0 <= i < j < |mine| ==> mine[i].at < mine[j].at
  {
    TimelineHolds(mine, draws, gap, duration, horizon);
    forall i, j | 0 <= i < j < |mine| ensures mine[i].at < mine[j].at {
      assert Within(mine[i].duration, duration);
    }
  }

  // -- the injector

  datatype Armed<T> = Armed(tick: Tick, now: Option<T>)

  /** What `arm` puts on the queue for one thing that goes wrong, in order. */
  function Arm<T>(episodes: seq<Episode<T>>): seq<Armed<T>> {
    if episodes == [] then []
    else
      var e := episodes[0];
      [Armed(e.at, Some(e.what)), Armed(e.at + e.duration, None)] + Arm(episodes[1..])
  }

  /** What is wrong once every armed event up to `tick` has fired. */
  function After<T>(events: seq<Armed<T>>, tick: Tick, wrong: Option<T>): Option<T> {
    if events == [] || events[0].tick > tick then wrong else After(events[1..], tick, events[0].now)
  }

  predicate Active<T>(e: Episode<T>, tick: Tick) {
    e.at <= tick < e.at + e.duration
  }

  /** The events fire in the order they were armed in. */
  lemma {:induction false} ArmedInOrder<T>(episodes: seq<Episode<T>>, gap: nat)
    requires OneAtATime(episodes, gap)
    ensures forall i, j :: 0 <= i < j < |Arm(episodes)| ==> Arm(episodes)[i].tick <= Arm(episodes)[j].tick
    ensures episodes != [] ==> |Arm(episodes)| > 0 && Arm(episodes)[0].tick == episodes[0].at
    decreases |episodes|
  {
    if episodes != [] {
      ArmedInOrder(episodes[1..], gap);
      var rest := Arm(episodes[1..]);
      assert rest != [] ==> episodes[1..] != [] && rest[0].tick == episodes[1].at;
    }
  }

  lemma FirstFires<T>(episodes: seq<Episode<T>>, tick: Tick)
    requires episodes != []
    ensures var e := episodes[0];
            After(Arm(episodes), tick, None) == if tick < e.at then None
                                                else if tick < e.at + e.duration then Some(e.what)
                                                else After(Arm(episodes[1..]), tick, None)
  {
    var e, rest := episodes[0], Arm(episodes[1..]);
    var heal := [Armed(e.at + e.duration, None)] + rest;
    assert Arm(episodes)[1..] == heal && heal[1..] == rest;
  }

  /** At every tick what is wrong is what the one active episode says, or nothing: the network is
      split as the partition has it, and a node is down or hung as its outage has it. */
  lemma {:induction false} WrongWhileActive<T>(episodes: seq<Episode<T>>, gap: nat, tick: Tick)
    requires OneAtATime(episodes, gap)
    ensures forall i :: 0 <= i < |episodes| && Active(episodes[i], tick) ==>
      After(Arm(episodes), tick, None) == Some(episodes[i].what)
    ensures (forall i :: 0 <= i < |episodes| ==> !Active(episodes[i], tick)) ==>
      After(Arm(episodes), tick, None) == None
    decreases |episodes|
  {
    hide After, Arm;
    if episodes == [] {
      NothingArmed<T>(tick);
    } else {
      FirstFires(episodes, tick);
      WrongWhileActive(episodes[1..], gap, tick);
      assert forall i :: 1 <= i < |episodes| ==> episodes[i] == episodes[1..][i - 1];
      assert forall i :: 0 <= i < |episodes| - 1 ==> episodes[1..][i] == episodes[i + 1];
    }
  }

  lemma NothingArmed<T>(tick: Tick)
    ensures After<T>(Arm([]), tick, None) == None
  {
  }
}
