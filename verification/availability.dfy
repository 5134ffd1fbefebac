// What a majority that is up can always still do: elect a leader, have it take a command, and
// apply that command everywhere.
module Availability {
  import opened Types
  import opened Kv
  import opened Log
  import opened Messages
  import opened NodeSpec
  import opened Cluster
  import opened History
  import opened Theorems
  import opened Payments
  import opened Promises
  import opened HandlerLaws
  import opened Commits
  import opened CatchUpRuns
  import opened Elections

  // -- a stretch of a run in which nothing fails

  predicate CalmEvent(ev: Event) {
    ev.ElectionTimeout? || ev.Heartbeat? || ev.Deliver? || ev.Submit?
  }

  predicate QuietEvent(ev: Event) {
    CalmEvent(ev) && (ev.Deliver? ==> !ev.packet.msg.ClientRequest?)
  }

  /** Timeouts, heartbeats, deliveries and submissions: nothing crashes, restarts or fails. */
  predicate Calm(events: seq<Event>) {
    forall i :: 0 <= i < |events| ==> CalmEvent(events[i])
  }

  /** And no node is given a new request. */
  predicate Quiet(events: seq<Event>) {
    forall i :: 0 <= i < |events| ==> QuietEvent(events[i])
  }

  // -- bringing everyone along

  /** Node `a` leads its term, and every node of `q` is up in no newer one. */
  ghost predicate Led(c: Config, s: System, q: set<NodeId>, a: NodeId)
    requires WellFormed(c, s)
  {
    && Leads(c, s, a) && q <= Members(c)
    && forall v :: v in q ==> IsUp(c, s, v) && s.nodes[v].currentTerm <= s.nodes[a].currentTerm
  }

  /** The nodes `done` hold the leader's log, and it credits them with all of it. */
  ghost predicate Hold(c: Config, s: System, a: NodeId, done: set<NodeId>)
    requires WellFormed(c, s) && a in Members(c) && done <= Members(c)
  {
    forall v :: v in done && v != a ==>
      s.nodes[a].log <= s.nodes[v].log && Get(s.nodes[a].matchIndex, v, 0) == |s.nodes[a].log|
  }

  lemma OneMoreHolds(c: Config, s: System, s': System, q: set<NodeId>, a: NodeId, done: set<NodeId>, b: NodeId)
    requires WellFormed(c, s) && WellFormed(c, s') && Led(c, s, q, a) && done <= q && b in q && b != a && b !in done
    requires Hold(c, s, a, done) && CaughtUp(c, s, s', a, b) && Beside(c, s, s', a, b)
    ensures Led(c, s', q, a) && Hold(c, s', a, done + {b})
    ensures s'.nodes[a].log == s.nodes[a].log && s'.nodes[a].currentTerm == s.nodes[a].currentTerm
    ensures OnlyTouched(c, s, s', q + {a})
  {
    forall v | v in q ensures IsUp(c, s', v) && s'.nodes[v].currentTerm <= s'.nodes[a].currentTerm {
      if v != a && v != b {
        assert s'.nodes[v] == s.nodes[v];
      }
    }
    forall v | v in done + {b} && v != a
      ensures s'.nodes[a].log <= s'.nodes[v].log && Get(s'.nodes[a].matchIndex, v, 0) == |s'.nodes[a].log|
    {
      if v != b {
        assert s'.nodes[v] == s.nodes[v];
      }
    }
  }

  lemma QuietJoin(first: seq<Event>, second: seq<Event>)
    requires Quiet(first) && Quiet(second)
    ensures Quiet(first + second)
  {
  }

  lemma PairOf(c: Config, s: System, q: set<NodeId>, a: NodeId, b: NodeId)
    requires WellFormed(c, s) && Led(c, s, q, a) && b in q && b != a
    ensures Paired(c, s, a, b)
  {
  }

  lemma CatchUpIsCalm(events: seq<Event>, a: NodeId)
    requires events != [] && events[0] == Heartbeat(a) && forall i :: 0 < i < |events| ==> Exchanges(events[i])
    ensures Quiet(events)
  {
  }

  lemma NothingToDo(c: Config, s: System, q: set<NodeId>, a: NodeId, done: set<NodeId>)
    requires WellFormed(c, s) && a in Members(c)
    ensures done + SetOf([]) == done && Quiet([]) && SameLead(c, s, s, q, a)
  {
    assert SetOf<NodeId>([]) == {};
  }

  lemma TodoLeft(todo: seq<NodeId>, q: set<NodeId>, a: NodeId, done: set<NodeId>)
    requires todo != [] && Distinct(todo) && forall v :: v in todo ==> v in q && v != a && v !in done
    ensures Distinct(todo[1..]) && forall v :: v in todo[1..] ==> v in q && v != a && v !in done + {todo[0]}
    ensures done + SetOf(todo) == done + {todo[0]} + SetOf(todo[1..])
  {
    FirstAndRest(todo);
    forall v | v in todo[1..] ensures v in q && v != a && v !in done + {todo[0]} {
      var i :| 0 <= i < |todo[1..]| && todo[1..][i] == v;
      assert todo[i + 1] == v && todo[0] != todo[i + 1];
    }
  }

  /** The leader `a`, its log and its term are as they were, and only `q` has moved. */
  ghost predicate SameLead(c: Config, s: System, s': System, q: set<NodeId>, a: NodeId)
    requires WellFormed(c, s) && WellFormed(c, s') && a in Members(c)
  {
    && OnlyTouched(c, s, s', q)
    && s'.nodes[a].log == s.nodes[a].log && s'.nodes[a].currentTerm == s.nodes[a].currentTerm
  }

  lemma SameLeadThen(c: Config, s: System, s1: System, s2: System, q: set<NodeId>, a: NodeId)
    requires WellFormed(c, s) && WellFormed(c, s1) && WellFormed(c, s2) && a in Members(c)
    requires SameLead(c, s, s1, q, a) && SameLead(c, s1, s2, q, a)
    ensures SameLead(c, s, s2, q, a)
  {
    TouchedThen(c, s, s1, s2, q, q);
    assert q + q == q;
  }

  lemma SameLeadMeans(c: Config, s: System, s': System, q: set<NodeId>, a: NodeId)
    requires WellFormed(c, s) && WellFormed(c, s') && a in Members(c) && SameLead(c, s, s', q, a)
    ensures s'.nodes[a].log == s.nodes[a].log && s'.nodes[a].currentTerm == s.nodes[a].currentTerm
  {
  }

  lemma OneAlong(c: Config, events: seq<Event>, q: set<NodeId>, a: NodeId, done: set<NodeId>, b: NodeId)
    returns (more: seq<Event>)
    requires ValidConfig(c) && Led(c, Run(c, events), q, a) && a in q && done <= q && Hold(c, Run(c, events), a, done)
    requires b in q && b != a && b !in done
    ensures Quiet(more) && Led(c, Run(c, events + more), q, a) && Hold(c, Run(c, events + more), a, done + {b})
    ensures SameLead(c, Run(c, events), Run(c, events + more), q, a)
  {
    hide Run, CaughtUp, Beside, Led, Hold, OnlyTouched, Members, ValidConfig, Paired, Calm, Quiet;
    PairOf(c, Run(c, events), q, a, b);
    more := LeaderCanCatchUp(c, events, a, b);
    CatchUpIsCalm(more, a);
    OneMoreHolds(c, Run(c, events), Run(c, events + more), q, a, done, b);
    assert q + {a} == q;
  }

  lemma {:induction false} BringAlong(c: Config, events: seq<Event>, q: set<NodeId>, a: NodeId, done: set<NodeId>,
                                      todo: seq<NodeId>)
    returns (more: seq<Event>)
    requires ValidConfig(c) && Led(c, Run(c, events), q, a) && a in q && done <= q && Hold(c, Run(c, events), a, done)
    requires Distinct(todo) && forall v :: v in todo ==> v in q && v != a && v !in done
    ensures Quiet(more) && Led(c, Run(c, events + more), q, a)
    ensures Hold(c, Run(c, events + more), a, done + SetOf(todo))
    ensures SameLead(c, Run(c, events), Run(c, events + more), q, a)
    decreases |todo|
  {
    assert a in Members(c);
    hide Run, Led, Hold, SameLead, Members, ValidConfig, SetOf, Distinct, Calm, Quiet, WellFormed;
    if todo == [] {
      more := [];
      NoMore(events);
      NothingToDo(c, Run(c, events), q, a, done);
    } else {
      TodoLeft(todo, q, a, done);
      var first := OneAlong(c, events, q, a, done, todo[0]);
      var after := BringAlong(c, events + first, q, a, done + {todo[0]}, todo[1..]);
      more := first + after;
      InTwo(events, first, after);
      SameLeadThen(c, Run(c, events), Run(c, events + first), Run(c, events + more), q, a);
      QuietJoin(first, after);
    }
  }

  lemma NoMore(events: seq<Event>)
    ensures events + [] == events
  {
  }

  lemma InTwo(events: seq<Event>, first: seq<Event>, second: seq<Event>)
    ensures events + first + second == events + (first + second)
  {
  }

  // -- committing everywhere

  /** The leader has committed all of its log, and the nodes of `q` hold it. */
  ghost predicate Full(c: Config, s: System, q: set<NodeId>, a: NodeId)
    requires WellFormed(c, s)
  {
    && Led(c, s, q, a) && a in q
    && s.nodes[a].commitIndex == |s.nodes[a].log|
    && forall v :: v in q && v != a ==> s.nodes[a].log <= s.nodes[v].log
  }

  /** The nodes `done` have committed and applied what the leader has, and hold its store. */
  ghost predicate Share(c: Config, s: System, a: NodeId, done: set<NodeId>)
    requires WellFormed(c, s) && a in Members(c) && done <= Members(c)
  {
    forall v :: v in done ==>
      && s.nodes[v].commitIndex == s.nodes[v].lastApplied == s.nodes[a].commitIndex
      && s.nodes[v].kv == s.nodes[a].kv
  }

  lemma OneMoreShares(c: Config, s: System, s': System, q: set<NodeId>, a: NodeId, done: set<NodeId>, b: NodeId)
    requires WellFormed(c, s) && WellFormed(c, s') && Full(c, s, q, a) && done <= q && b in q && b != a
    requires Share(c, s, a, done) && OnlyTouched(c, s, s', {b})
    requires var n, f, f' := s.nodes[a], s.nodes[b], s'.nodes[b];
             && f'.running && f'.log == f.log && f'.currentTerm == n.currentTerm
             && f'.commitIndex == f'.lastApplied == n.commitIndex && f'.kv == n.kv
    ensures Full(c, s', q, a) && Share(c, s', a, done + {b}) && s'.nodes[a] == s.nodes[a]
    ensures OnlyTouched(c, s, s', q)
  {
    assert forall v :: v in q ==> v in Members(c);
    hide Share;
    assert forall v :: v in q && v != b ==> s'.nodes[v] == s.nodes[v];
    SharesOn(c, s, s', a, done, b);
  }

  lemma SharesOn(c: Config, s: System, s': System, a: NodeId, done: set<NodeId>, b: NodeId)
    requires WellFormed(c, s) && WellFormed(c, s') && a in Members(c) && b in Members(c) && b != a
    requires done <= Members(c) && Share(c, s, a, done) && OnlyTouched(c, s, s', {b})
    requires var n, f' := s.nodes[a], s'.nodes[b]; f'.commitIndex == f'.lastApplied == n.commitIndex && f'.kv == n.kv
    ensures Share(c, s', a, done + {b})
  {
    assert s'.nodes[a] == s.nodes[a];
    assert forall v :: v in done && v != b ==> s'.nodes[v] == s.nodes[v];
  }

  lemma NoneAhead(c: Config, events: seq<Event>, q: set<NodeId>, a: NodeId, b: NodeId)
    requires ValidConfig(c) && Full(c, Run(c, events), q, a) && b in q
    ensures Run(c, events).nodes[b].commitIndex <= Run(c, events).nodes[a].commitIndex
  {
    hide Run;
    NoMore(events);
    assert events[..|events|] == events;
    CommittedIsLed(c, events, |events|, a, b);
  }

  lemma FullMeans(c: Config, s: System, q: set<NodeId>, a: NodeId, b: NodeId)
    requires WellFormed(c, s) && Full(c, s, q, a) && b in q && b != a
    ensures Paired(c, s, a, b) && s.nodes[a].log <= s.nodes[b].log && a in Members(c) && b in Members(c)
  {
  }

  lemma BeatIsCalm(a: NodeId, p: Packet)
    requires p.msg.AppendEntries?
    ensures Quiet([Heartbeat(a)] + [Deliver(p)])
  {
  }

  lemma OneCommits(c: Config, events: seq<Event>, q: set<NodeId>, a: NodeId, done: set<NodeId>, b: NodeId)
    returns (more: seq<Event>)
    requires ValidConfig(c) && Full(c, Run(c, events), q, a) && done <= q && Share(c, Run(c, events), a, done)
    requires b in q && b != a
    ensures Quiet(more) && Full(c, Run(c, events + more), q, a) && Share(c, Run(c, events + more), a, done + {b})
    ensures OnlyTouched(c, Run(c, events), Run(c, events + more), q)
    ensures Run(c, events + more).nodes[a] == Run(c, events).nodes[a]
  {
    hide Run, Full, Share, OnlyTouched, Paired, Members, ValidConfig, Calm, Quiet;
    NoneAhead(c, events, q, a, b);
    FullMeans(c, Run(c, events), q, a, b);
    var p := FollowerCanCommit(c, events, a, b);
    more := [Heartbeat(a)] + [Deliver(p)];
    InTwo(events, [Heartbeat(a)], [Deliver(p)]);
    BeatIsCalm(a, p);
    OneMoreShares(c, Run(c, events), Run(c, events + more), q, a, done, b);
  }

  lemma {:induction false} AllCommit(c: Config, events: seq<Event>, q: set<NodeId>, a: NodeId, done: set<NodeId>,
                                     todo: seq<NodeId>)
    returns (more: seq<Event>)
    requires ValidConfig(c) && Full(c, Run(c, events), q, a) && done <= q && Share(c, Run(c, events), a, done)
    requires Distinct(todo) && forall v :: v in todo ==> v in q && v != a && v !in done
    ensures Quiet(more) && Full(c, Run(c, events + more), q, a)
    ensures Share(c, Run(c, events + more), a, done + SetOf(todo))
    ensures OnlyTouched(c, Run(c, events), Run(c, events + more), q)
    ensures Run(c, events + more).nodes[a] == Run(c, events).nodes[a]
    decreases |todo|
  {
    assert a in Members(c);
    hide Run, Full, Share, OnlyTouched, Members, ValidConfig, SetOf, Distinct, Calm, Quiet, WellFormed;
    if todo == [] {
      more := [];
      NoMore(events);
      NothingToShare(c, Run(c, events), q, a, done);
    } else {
      TodoLeft(todo, q, a, done);
      var first := OneCommits(c, events, q, a, done, todo[0]);
      var after := AllCommit(c, events + first, q, a, done + {todo[0]}, todo[1..]);
      more := first + after;
      InTwo(events, first, after);
      TouchedThen(c, Run(c, events), Run(c, events + first), Run(c, events + more), q, q);
      assert q + q == q;
      QuietJoin(first, after);
    }
  }

  lemma NothingToShare(c: Config, s: System, q: set<NodeId>, a: NodeId, done: set<NodeId>)
    requires WellFormed(c, s)
    ensures done + SetOf([]) == done && Quiet([]) && OnlyTouched(c, s, s, q)
  {
    assert SetOf<NodeId>([]) == {};
  }

  // -- a command, from the client to every store

  function Request(x: NodeId, requestId: nat, command: Command): Packet {
    Packet(CLIENT_ID, x, ClientRequest(requestId, command))
  }

  lemma Requested(c: Config, events: seq<Event>, x: NodeId, requestId: nat, command: Command) returns (more: seq<Event>)
    requires ValidConfig(c) && Leads(c, Run(c, events), x)
    ensures more == Asking(x, requestId, command)
    ensures var s, s' := Run(c, events), Run(c, events + more);
            var n, n' := s.nodes[x], s'.nodes[x];
            && OnlyTouched(c, s, s', {x}) && Leads(c, s', x) && n'.currentTerm == n.currentTerm
            && n'.log == n.log + [LogEntry(n.currentTerm, |n.log| + 1, command)]
  {
    hide Run, Apply, OnClientRequest, Peers, NextIndexOk, AllCommitted, Ready, ValidConfig;
    more := [Submit(x, requestId, command), Deliver(Request(x, requestId, command))];
    var s := Run(c, events);
    var p := Request(x, requestId, command);
    var s1 := Run(c, events + [Submit(x, requestId, command)]);
    OneMore(c, events, Submit(x, requestId, command));
    SubmitOnlySends(c, s, x, requestId, command);
    EveryPacketIsHandled(c, events + [Submit(x, requestId, command)], p);
    ReadyMeans(s1.nodes[x], p.msg);
    TwoMore(c, events, more[0], more[1]);
    DeliverEvent(c, s1, p, 0);
    RequestCommitsAll(x, Peers(c, x), s.nodes[x], CLIENT_ID, p.msg);
  }

  lemma ReadyMeans(n: NodeState, m: Message)
    requires Ready(n, m)
    ensures NextIndexOk(n)
  {
  }

  lemma SubmitOnlySends(c: Config, s: System, x: NodeId, requestId: nat, command: Command)
    requires WellFormed(c, s)
    ensures Apply(c, s, Submit(x, requestId, command)) == s.(net := s.net + {Request(x, requestId, command)})
  {
  }

  /** The ok reply to it. */
  function Answer(x: NodeId, requestId: nat): Packet {
    Packet(x, CLIENT_ID, ClientReply(requestId, true, None))
  }

  /** Every node of `q` is up and has committed and applied the whole log of `x`, which leads and
      whose log is `before` and then the command; they all hold the same store. */
  ghost predicate Served(c: Config, s: System, q: set<NodeId>, x: NodeId, before: seq<LogEntry>, command: Command)
    requires WellFormed(c, s)
  {
    && Leads(c, s, x) && q <= Members(c)
    && var n := s.nodes[x];
       && n.log == before + [LogEntry(n.currentTerm, |before| + 1, command)]
       && n.kv == Fold(EMPTY_STORE, n.log)
       && forall v :: v in q ==>
            var f := s.nodes[v];
            f.running && n.log <= f.log && f.commitIndex == f.lastApplied == |n.log| && f.kv == n.kv
  }

  lemma StillLed(c: Config, s: System, s': System, q: set<NodeId>, x: NodeId)
    requires WellFormed(c, s) && WellFormed(c, s') && Led(c, s, q, x) && OnlyTouched(c, s, s', {x})
    requires Leads(c, s', x) && s'.nodes[x].currentTerm == s.nodes[x].currentTerm
    ensures Led(c, s', q, x) && Hold(c, s', x, {})
  {
    assert forall v :: v in q && v != x ==> s'.nodes[v] == s.nodes[v];
  }

  lemma AllHeld(c: Config, events: seq<Event>, q: set<NodeId>, x: NodeId)
    requires ValidConfig(c) && Led(c, Run(c, events), q, x) && Quorum(c, q) && x in q
    requires Hold(c, Run(c, events), x, q - {x})
    requires var n := Run(c, events).nodes[x]; n.log != [] && LastTerm(n.log) == n.currentTerm
    ensures Full(c, Run(c, events), q, x) && Share(c, Run(c, events), x, {x})
  {
    hide Run;
    assert events[..|events|] == events;
    MajorityCommits(c, events, |events|, x, q);
  }

  lemma AllServed(c: Config, events: seq<Event>, q: set<NodeId>, x: NodeId, before: seq<LogEntry>, command: Command)
    requires ValidConfig(c) && Full(c, Run(c, events), q, x) && Share(c, Run(c, events), x, q)
    requires var n := Run(c, events).nodes[x]; n.log == before + [LogEntry(n.currentTerm, |before| + 1, command)]
    ensures Served(c, Run(c, events), q, x, before, command)
  {
    hide Run, Fold;
    assert events[..|events|] == events;
    StateMachineSafety(c, events, |events|, |events|, x, x);
    var n := Run(c, events).nodes[x];
    assert n.log[..|n.log|] == n.log;
    assert forall v :: v in q ==> IsUp(c, Run(c, events), v);
  }

  /** The voters of `q`, to be visited one by one. */
  lemma Visit(c: Config, x: NodeId, q: set<NodeId>) returns (voters: seq<NodeId>)
    requires ValidConfig(c) && Quorum(c, q) && x in q
    ensures Distinct(voters) && forall v :: v in voters ==> v in q && v != x
    ensures {} + SetOf(voters) == q - {x} && {x} + SetOf(voters) == q
  {
    voters := VotersOf(c, x, q);
  }

  lemma EndsWith(before: seq<LogEntry>, t: Term, command: Command)
    ensures LastTerm(before + [LogEntry(t, |before| + 1, command)]) == t
  {
  }

  function Asking(x: NodeId, requestId: nat, command: Command): seq<Event> {
    [Submit(x, requestId, command), Deliver(Request(x, requestId, command))]
  }

  /** The command becomes the last entry of the leader's log, which all of `q` then hold. */
  lemma LeaderCanFill(c: Config, events: seq<Event>, q: set<NodeId>, x: NodeId, requestId: nat, command: Command)
    returns (more: seq<Event>)
    requires ValidConfig(c) && Quorum(c, q) && x in q && Led(c, Run(c, events), q, x)
    ensures Quiet(more) && x in Members(c)
    ensures var s' := Run(c, events + Asking(x, requestId, command) + more);
            && Full(c, s', q, x) && Share(c, s', x, {x})
            && var n, n' := Run(c, events).nodes[x], s'.nodes[x];
               n'.log == n.log + [LogEntry(n'.currentTerm, |n.log| + 1, command)]
  {
    assert Leads(c, Run(c, events), x);
    hide Run, Led, Full, Share, Hold, OnlyTouched, Quorum, ValidConfig, Calm, Quiet, Members, Distinct, SetOf, Asking;
    hide SameLead, LastTerm, Leads;
    var asking := Requested(c, events, x, requestId, command);
    StillLed(c, Run(c, events), Run(c, events + asking), q, x);
    var voters := Visit(c, x, q);
    more := BringAlong(c, events + asking, q, x, {}, voters);
    SameLeadMeans(c, Run(c, events + asking), Run(c, events + asking + more), q, x);
    EndsWith(Run(c, events).nodes[x].log, Run(c, events).nodes[x].currentTerm, command);
    AllHeld(c, events + asking + more, q, x);
  }

  // -- the answer

  lemma HandlersKeepUp(id: NodeId, peers: seq<NodeId>, n: NodeState, frm: NodeId, m: Message)
    requires Ready(n, m)
    ensures Dispatch(id, peers, n, frm, m).node.running == n.running
  {
    hide ReplicateAll, CommitPoint, Fold, Unpaid, Replies, Merged, MergeRecords, UpToDate, Majority;
    if m.AppendEntries? {
      MergeReaches(n.log, m);
    }
  }

  lemma StepKeepsUp(c: Config, s: System, ev: Event, id: NodeId)
    requires WellFormed(c, s) && IsUp(c, s, id) && CalmEvent(ev)
    ensures IsUp(c, Apply(c, s, ev), id) && s.net <= Apply(c, s, ev).net
  {
    hide Ready, Dispatch, OnElectionTimeout, NextIndexOk, ReplicateAll, PacketSet, Peers;
    if ev.Deliver? && CanReceive(c, s, ev.packet) && Ready(s.nodes[ev.packet.dst], ev.packet.msg) {
      var p := ev.packet;
      HandlersKeepUp(p.dst, Peers(c, p.dst), s.nodes[p.dst], p.src, p.msg);
    } else if ev.ElectionTimeout? && IsUp(c, s, ev.id) {
      TimeoutKeepsUp(ev.id, Peers(c, ev.id), s.nodes[ev.id]);
    }
  }

  /** From moment `i` on the run is quiet. */
  predicate QuietFrom(events: seq<Event>, i: nat)
    requires i <= |events|
  {
    forall k :: i <= k < |events| ==> QuietEvent(events[k])
  }

  /** Through a quiet stretch a node stays up, its debts stay on the book as they are, and nothing
      sent is gone. */
  lemma {:induction false} QuietKeeps(c: Config, events: seq<Event>, i: nat, m: nat, x: NodeId, index: Index)
    requires ValidConfig(c) && i <= m <= |events| && QuietFrom(events, i)
    requires IsUp(c, At(c, events, i), x) && (x, index) in Debts(c, events[..i])
    ensures IsUp(c, At(c, events, m), x) && At(c, events, i).net <= At(c, events, m).net
    ensures (x, index) in Debts(c, events[..m])
            && Debts(c, events[..m])[(x, index)] == Debts(c, events[..i])[(x, index)]
    decreases m
  {
    hide At, Debts, Apply, PastAt, Recorded, IsUp, QuietEvent;
    if m > i {
      QuietKeeps(c, events, i, m - 1, x, index);
      NextMoment(c, events, m - 1);
      QuietIsCalm(events[m - 1]);
      StepKeepsUp(c, At(c, events, m - 1), events[m - 1], x);
      NextDebts(c, events, m - 1);
      QuietBooksNothing(c, Debts(c, events[..m - 1]), At(c, events, m - 1), events[m - 1]);
    }
  }

  lemma QuietIsCalm(ev: Event)
    requires QuietEvent(ev)
    ensures CalmEvent(ev)
  {
  }

  lemma QuietBooksNothing(c: Config, book: Book, s: System, ev: Event)
    requires WellFormed(c, s) && QuietEvent(ev)
    ensures Booked(c, book, s, ev) == book
  {
  }

  lemma SentArrives(c: Config, events: seq<Event>, i: nat, p: Packet, r: Packet)
    requires i < |events| && events[i] == Deliver(p) && CanReceive(c, At(c, events, i), p)
    requires Ready(At(c, events, i).nodes[p.dst], p.msg) && r in Received(c, At(c, events, i), p).sent
    ensures r in At(c, events, i + 1).net
  {
    hide Run, Ready, Dispatch, Apply;
    NextMoment(c, events, i);
    DeliverEvent(c, At(c, events, i), p, 0);
  }

  /** What a node pays for an index in a quiet stretch is what its book says. */
  lemma PaidByTheBook(c: Config, events: seq<Event>, e: nat, x: NodeId, index: Index, debt: Debt)
    requires ValidConfig(c) && PaysFor(c, events, e, x, index) && QuietEvent(events[e])
    requires (x, index) in Debts(c, events[..e]) && Debts(c, events[..e])[(x, index)] == debt
    ensures Packet(x, debt.client, ClientReply(debt.requestId, true, None)) in At(c, events, e + 1).net
  {
    hide Run, Past, Debts, Dispatch, Ready, DebtOk;
    var p := events[e].packet;
    BooksAreKept(c, events[..e]);
    var pending := At(c, events, e).nodes[x].pendingClients;
    assert PendingOk(PastAt(c, events, e), Debts(c, events[..e]), x, pending);
    OwedAsBooked(PastAt(c, events, e), Debts(c, events[..e]), x, index, pending[index]);
    SentArrives(c, events, e, p, ReplyFor(x, pending, index));
  }

  lemma OwedAsBooked(h: History, book: Book, id: NodeId, index: Index, owed: (NodeId, nat))
    requires DebtOk(h, book, id, index, owed)
    ensures (id, index) in book && owed == (book[(id, index)].client, book[(id, index)].requestId)
  {
  }

  /** A debt on the book is paid as booked by the end of a quiet stretch in which its index comes
      to be applied. */
  lemma PaidInTheEnd(c: Config, events: seq<Event>, i: nat, x: NodeId, index: Index, debt: Debt)
    requires ValidConfig(c) && i <= |events| && QuietFrom(events, i) && IsUp(c, At(c, events, i), x)
    requires (x, index) in Debts(c, events[..i]) && Debts(c, events[..i])[(x, index)] == debt
    requires index in At(c, events, i).nodes[x].pendingClients
    requires index <= At(c, events, |events|).nodes[x].lastApplied
    ensures Packet(x, debt.client, ClientReply(debt.requestId, true, None)) in At(c, events, |events|).net
  {
    hide At, Debts, PaysFor, QuietEvent, QuietFrom, UpThroughout, ValidConfig;
    UpAllAlong(c, events, i, x, index);
    var e := PaidExactlyOnce(c, events, i, |events|, x, index);
    LaterQuiet(events, i, e);
    QuietKeeps(c, events, i, e, x, index);
    PaidByTheBook(c, events, e, x, index, debt);
    QuietKeeps(c, events, i, e + 1, x, index);
    QuietKeeps(c, events, e + 1, |events|, x, index);
  }

  lemma LaterQuiet(events: seq<Event>, i: nat, e: nat)
    requires i <= e < |events| && QuietFrom(events, i)
    ensures QuietEvent(events[e]) && QuietFrom(events, e) && QuietFrom(events, e + 1)
  {
  }

  lemma UpAllAlong(c: Config, events: seq<Event>, i: nat, x: NodeId, index: Index)
    requires ValidConfig(c) && i <= |events| && QuietFrom(events, i) && IsUp(c, At(c, events, i), x)
    requires (x, index) in Debts(c, events[..i])
    ensures UpThroughout(c, events, i, |events|, x)
  {
    hide At, Debts;
    forall m | i <= m <= |events| ensures At(c, events, m).nodes[x].running {
      QuietKeeps(c, events, i, m, x, index);
    }
  }

  /** A leader that takes a request owes the reply, or has paid it at once. */
  lemma OwesOrAnswers(c: Config, events: seq<Event>, i: nat, x: NodeId, requestId: nat, command: Command)
    requires ValidConfig(c) && i < |events| && events[i] == Deliver(Request(x, requestId, command))
    requires Leads(c, At(c, events, i), x) && events[i].packet in At(c, events, i).net
    ensures var n := At(c, events, i).nodes[x];
            var index, book := |n.log| + 1, Debts(c, events[..i + 1]);
            && IsUp(c, At(c, events, i + 1), x)
            && (x, index) in book && book[(x, index)] == Debt(n.currentTerm, CLIENT_ID, requestId, command)
            && (index in At(c, events, i + 1).nodes[x].pendingClients
                || Answer(x, requestId) in At(c, events, i + 1).net)
  {
    hide Run, Debts, Dispatch, Ready, OkReplies;
    var p, n := events[i].packet, At(c, events, i).nodes[x];
    var index := |n.log| + 1;
    DeliveryPays(c, events, i, p);
    NextDebts(c, events, i);
    UpAfterDelivery(c, events, i, p);
    if index !in At(c, events, i + 1).nodes[x].pendingClients {
      assert ReplyFor(x, Owing(n, CLIENT_ID, p.msg), index) == Answer(x, requestId);
      PickedOut(Received(c, At(c, events, i), p).sent, Answer(x, requestId));
      SentArrives(c, events, i, p, Answer(x, requestId));
    }
  }

  /** A request that a leader took is answered once its entry has been applied, if nothing fails
      and no other request comes between. */
  lemma AnsweredOnceApplied(c: Config, events: seq<Event>, i: nat, x: NodeId, requestId: nat, command: Command)
    requires ValidConfig(c) && i < |events| && events[i] == Deliver(Request(x, requestId, command))
    requires Leads(c, At(c, events, i), x) && events[i].packet in At(c, events, i).net && QuietFrom(events, i + 1)
    requires At(c, events, |events|).nodes[x].lastApplied > |At(c, events, i).nodes[x].log|
    ensures Answer(x, requestId) in At(c, events, |events|).net
  {
    hide At, Debts, QuietEvent;
    OwesOrAnswers(c, events, i, x, requestId, command);
    var n := At(c, events, i).nodes[x];
    var index := |n.log| + 1;
    if index in At(c, events, i + 1).nodes[x].pendingClients {
      PaidInTheEnd(c, events, i + 1, x, index, Debt(n.currentTerm, CLIENT_ID, requestId, command));
    } else {
      QuietKeeps(c, events, i + 1, |events|, x, index);
    }
  }

  lemma UpAfterDelivery(c: Config, events: seq<Event>, i: nat, p: Packet)
    requires i < |events| && events[i] == Deliver(p) && IsUp(c, At(c, events, i), p.dst)
    ensures IsUp(c, At(c, events, i + 1), p.dst)
  {
    hide Run, Apply;
    NextMoment(c, events, i);
    StepKeepsUp(c, At(c, events, i), events[i], p.dst);
  }

  lemma Moments(events: seq<Event>, more: seq<Event>, x: NodeId, requestId: nat, command: Command)
    requires Quiet(more)
    ensures var all, i := events + Asking(x, requestId, command) + more, |events| + 1;
            && all[..i] == events + [Submit(x, requestId, command)] && all[..|all|] == all
            && all[i] == Deliver(Request(x, requestId, command)) && QuietFrom(all, i + 1)
  {
    hide QuietEvent;
    var all, i := events + Asking(x, requestId, command) + more, |events| + 1;
    assert forall k :: i < k < |all| ==> all[k] == more[k - i - 1];
  }

  lemma ClientIsAnswered(c: Config, events: seq<Event>, more: seq<Event>, x: NodeId, requestId: nat, command: Command)
    requires ValidConfig(c) && Leads(c, Run(c, events), x) && Quiet(more)
    requires var all := events + Asking(x, requestId, command) + more;
             Run(c, all).nodes[x].lastApplied > |Run(c, events).nodes[x].log|
    ensures Answer(x, requestId) in Run(c, events + Asking(x, requestId, command) + more).net
  {
    hide Run, Apply;
    var all := events + Asking(x, requestId, command) + more;
    var i := |events| + 1;
    hide Quiet, QuietEvent;
    Moments(events, more, x, requestId, command);
    OneMore(c, events, Submit(x, requestId, command));
    SubmitOnlySends(c, Run(c, events), x, requestId, command);
    AnsweredOnceApplied(c, all, i, x, requestId, command);
  }

  /** A leader among a majority that is up, in no newer term than its own, can take any command,
      have it applied by all of them, and answer the client. */
  lemma LeaderCanServe(c: Config, events: seq<Event>, q: set<NodeId>, x: NodeId, requestId: nat, command: Command)
    returns (more: seq<Event>)
    requires ValidConfig(c) && Quorum(c, q) && x in q && Led(c, Run(c, events), q, x)
    ensures Quiet(more) && x in Members(c)
    ensures var s' := Run(c, events + Asking(x, requestId, command) + more);
            && Served(c, s', q, x, Run(c, events).nodes[x].log, command)
            && Answer(x, requestId) in s'.net
  {
    hide Run, Led, Full, Share, Served, OnlyTouched, Quorum, ValidConfig, Calm, Quiet, Members, Distinct, SetOf;
    var asking := Asking(x, requestId, command);
    var filling := LeaderCanFill(c, events, q, x, requestId, command);
    var voters := Visit(c, x, q);
    var sharing := AllCommit(c, events + asking + filling, q, x, {x}, voters);
    AllServed(c, events + asking + filling + sharing, q, x, Run(c, events).nodes[x].log, command);
    more := filling + sharing;
    InTwo(events + asking, filling, sharing);
    QuietJoin(filling, sharing);
    LedMeans(c, Run(c, events), q, x);
    ServedMeans(c, Run(c, events + asking + more), q, x, Run(c, events).nodes[x].log, command);
    ClientIsAnswered(c, events, more, x, requestId, command);
  }

  lemma LedMeans(c: Config, s: System, q: set<NodeId>, x: NodeId)
    requires WellFormed(c, s) && Led(c, s, q, x)
    ensures Leads(c, s, x)
  {
  }

  lemma ServedMeans(c: Config, s: System, q: set<NodeId>, x: NodeId, before: seq<LogEntry>, command: Command)
    requires WellFormed(c, s) && Served(c, s, q, x, before, command) && x in q
    ensures s.nodes[x].lastApplied == |before| + 1
  {
  }

  lemma InThree(events: seq<Event>, first: seq<Event>, second: seq<Event>, third: seq<Event>)
    ensures events + first + second + third == events + (first + second + third)
  {
  }

  lemma ElectedIsLed(c: Config, s: System, s': System, q: set<NodeId>, x: NodeId, t: Term)
    requires WellFormed(c, s) && WellFormed(c, s') && Elected(c, s, s', q, x, t) && x in q
    ensures Led(c, s', q, x) && x in Members(c) && s'.nodes[x].log == s.nodes[x].log
  {
  }

  /** From every state of every run in which a majority is up, and for every command: timeouts of
      one of its nodes and deliveries make that node the leader, and once it is sent the command,
      heartbeats and deliveries have all of them apply it, after what the leader's log held, and
      have the client answered. */
  lemma MajorityServes(c: Config, events: seq<Event>, q: set<NodeId>, requestId: nat, command: Command)
    returns (x: NodeId, campaign: seq<Event>, more: seq<Event>)
    requires ValidConfig(c) && Quorum(c, q) && forall v :: v in q ==> IsUp(c, Run(c, events), v)
    ensures Calm(campaign) && Quiet(more) && x in q && x in Members(c)
    ensures var s' := Run(c, events + campaign + Asking(x, requestId, command) + more);
            && Served(c, s', q, x, Run(c, events).nodes[x].log, command)
            && Answer(x, requestId) in s'.net
  {
    hide Run, Led, Served, OnlyTouched, Elected, Electable, IsUp, Calm, Quiet, Members;
    var t, standing, voting, counting;
    x, t, standing, voting, counting := MajorityElects(c, events, q);
    campaign := standing + voting + counting;
    InThree(events, standing, voting, counting);
    CampaignIsCalm(standing, voting, counting, x);
    ElectedIsLed(c, Run(c, events), Run(c, events + campaign), q, x, t);
    more := LeaderCanServe(c, events + campaign, q, x, requestId, command);
  }

  lemma CampaignIsCalm(standing: seq<Event>, voting: seq<Event>, counting: seq<Event>, x: NodeId)
    requires forall i :: 0 <= i < |standing| ==> standing[i] == ElectionTimeout(x)
    requires |voting| == |counting| && forall i :: 0 <= i < |voting| ==> voting[i].Deliver? && counting[i].Deliver?
    ensures Calm(standing + voting + counting)
  {
  }
}
