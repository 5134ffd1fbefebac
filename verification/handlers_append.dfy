// `on_append_entries`: the conflict rule, wherever a crash cuts it.
module AppendHandlers {
  import opened Types
  import opened Kv
  import opened Log
  import opened Messages
  import opened Wal
  import opened NodeSpec
  import opened Cluster
  import opened History
  import opened HistorySteps
  import opened Completeness
  import opened Invariant
  import opened Handlers
  import HandlerLaws

  // -- how a follower's log meets a leader's

  /** The message's entries are the stretch of the leader's log after `prev`. */
  predicate Stretch(lead: seq<LogEntry>, prev: Index, entries: seq<LogEntry>) {
    prev + |entries| <= |lead| && entries == lead[prev..prev + |entries|]
  }

  /** The consistency check compares one term, and that is enough. */
  lemma AgreeUpToDivergence(log: seq<LogEntry>, lead: seq<LogEntry>, ledger: map<Term, seq<LogEntry>>,
                            prev: Index, entries: seq<LogEntry>)
    requires Grounded(log, ledger) && Grounded(lead, ledger) && Stretch(lead, prev, entries)
    requires Consistent(log, prev, TermAt(lead, prev))
    ensures var d := prev + Divergence(log, prev, entries); log[..d] == lead[..d]
  {
    var j := Divergence(log, prev, entries);
    var d := prev + j;
    if j > 0 {
      assert log[prev + (j - 1)].term == entries[j - 1].term;
      assert entries[j - 1] == lead[d - 1];
    }
    if d > 0 {
      SameTermSamePrefix(log, lead, ledger, d - 1);
    }
  }

  /** The log after the first `k` merge records have landed. */
  function CutLog(log: seq<LogEntry>, prev: Index, entries: seq<LogEntry>, k: nat): seq<LogEntry>
    requires prev <= |log| && k <= |MergeRecords(log, prev, entries)|
  {
    var j := Divergence(log, prev, entries);
    if k == 0 then log
    else if j < |entries| && prev + j < |log| then log[..prev + j] + entries[j..][..k - 1]
    else log + entries[j..][..k]
  }

  lemma EntryRecordsCut(entries: seq<LogEntry>, k: nat)
    requires k <= |entries|
    ensures EntryRecords(entries)[..k] == EntryRecords(entries[..k])
  {
  }

  lemma TruncateThenEntries(hard: Recovered, index: Index, entries: seq<LogEntry>)
    ensures ReplayFrom(hard, [TruncateRecord(index)] + EntryRecords(entries))
         == hard.(log := DropFrom(hard.log, index) + entries)
  {
    var records := [TruncateRecord(index)] + EntryRecords(entries);
    assert records[1..] == EntryRecords(entries);
    ReplayEntries(ReplayOne(hard, TruncateRecord(index)), entries);
  }

  lemma MergeCut(hard: Recovered, prev: Index, entries: seq<LogEntry>, k: nat)
    requires prev <= |hard.log| && k <= |MergeRecords(hard.log, prev, entries)|
    ensures ReplayFrom(hard, MergeRecords(hard.log, prev, entries)[..k])
         == hard.(log := CutLog(hard.log, prev, entries, k))
  {
    hide ReplayFrom, ReplayOne, DropFrom, Divergence;
    var j := Divergence(hard.log, prev, entries);
    var rest := entries[j..];
    var records := MergeRecords(hard.log, prev, entries);
    if k == 0 {
      assert records[..0] == [];
      NothingReplayed(hard);
    } else if j < |entries| && prev + j < |hard.log| {
      EntryRecordsCut(rest, k - 1);
      assert records[..k] == [TruncateRecord(prev + j + 1)] + EntryRecords(rest[..k - 1]);
      TruncateThenEntries(hard, prev + j + 1, rest[..k - 1]);
      DropAtEntry(hard.log, prev + j);
    } else {
      assert records == EntryRecords(rest);
      EntryRecordsCut(rest, k);
      ReplayEntries(hard, rest[..k]);
    }
  }

  lemma NothingReplayed(hard: Recovered)
    ensures ReplayFrom(hard, []) == hard
  {
  }

  lemma DropAtEntry(log: seq<LogEntry>, d: nat)
    requires d <= |log|
    ensures DropFrom(log, d + 1) == log[..d]
  {
  }

  lemma FullCutIsMerged(log: seq<LogEntry>, prev: Index, entries: seq<LogEntry>)
    requires prev <= |log|
    ensures CutLog(log, prev, entries, |MergeRecords(log, prev, entries)|) == Merged(log, prev, entries)
  {
    var j := Divergence(log, prev, entries);
    var rest := entries[j..];
    if j == |entries| {
      assert rest == [];
    } else if prev + j < |log| {
      assert rest[..|rest|] == rest;
    } else {
      assert rest[..|rest|] == rest;
      assert log[..prev + j] == log;
    }
  }

  lemma AgreementStops(log: seq<LogEntry>, lead: seq<LogEntry>, d: nat, i: nat)
    requires d < |log| && d < |lead| && log[d] != lead[d]
    requires i <= |log| && log[..i] <= lead
    ensures i <= d
  {
    assert forall k :: 0 <= k < i ==> log[..i][k] == lead[k];
  }

  lemma StretchJoins(log: seq<LogEntry>, lead: seq<LogEntry>, prev: Index, entries: seq<LogEntry>, j: nat, m: nat)
    requires Stretch(lead, prev, entries) && j + m <= |entries| && prev + j <= |log|
    requires log[..prev + j] == lead[..prev + j]
    ensures log[..prev + j] + entries[j..][..m] == lead[..prev + j + m]
  {
    assert entries[j..][..m] == lead[prev + j..prev + j + m];
    assert lead[..prev + j + m] == lead[..prev + j] + lead[prev + j..prev + j + m];
  }

  lemma ConflictKeepsAgreement(log: seq<LogEntry>, lead: seq<LogEntry>, d: nat, top: nat)
    requires d <= top <= |lead| && d < |log| && d < |lead| && log[d] != lead[d]
    ensures KeepsAgreement(log, lead, lead[..top])
  {
    forall i | 0 <= i <= |log| && log[..i] <= lead ensures log[..i] <= lead[..top] {
      AgreementStops(log, lead, d, i);
      assert log[..i] == lead[..i];
    }
  }

  /** Every cut leaves a grounded log that still agrees with the leader wherever it did. */
  lemma CutLogOk(log: seq<LogEntry>, lead: seq<LogEntry>, ledger: map<Term, seq<LogEntry>>,
                 prev: Index, entries: seq<LogEntry>, k: nat)
    requires Grounded(log, ledger) && Grounded(lead, ledger) && Stretch(lead, prev, entries)
    requires Consistent(log, prev, TermAt(lead, prev))
    requires k <= |MergeRecords(log, prev, entries)|
    ensures Grounded(CutLog(log, prev, entries, k), ledger)
    ensures KeepsAgreement(log, lead, CutLog(log, prev, entries, k))
  {
    hide Grounded;
    var j := Divergence(log, prev, entries);
    var d := prev + j;
    if k > 0 {
      AgreeUpToDivergence(log, lead, ledger, prev, entries);
      if j < |entries| && d < |log| {
        StretchJoins(log, lead, prev, entries, j, k - 1);
        GroundedPrefix(lead, ledger, d + (k - 1));
        assert entries[j] == lead[d];
        ConflictKeepsAgreement(log, lead, d, d + (k - 1));
      } else {
        StretchJoins(log, lead, prev, entries, j, k);
        GroundedPrefix(lead, ledger, d + k);
        assert log[..d] == log;
      }
    }
  }

  /** After rules 3 and 4 the follower holds everything the message delivered. */
  lemma MergedHolds(log: seq<LogEntry>, lead: seq<LogEntry>, ledger: map<Term, seq<LogEntry>>,
                    prev: Index, entries: seq<LogEntry>)
    requires Grounded(log, ledger) && Grounded(lead, ledger) && Stretch(lead, prev, entries)
    requires Consistent(log, prev, TermAt(lead, prev))
    ensures lead[..prev + |entries|] <= Merged(log, prev, entries)
    ensures Grounded(Merged(log, prev, entries), ledger)
    ensures KeepsAgreement(log, lead, Merged(log, prev, entries))
  {
    hide Grounded, KeepsAgreement, CutLog;
    var j := Divergence(log, prev, entries);
    AgreeUpToDivergence(log, lead, ledger, prev, entries);
    CutLogOk(log, lead, ledger, prev, entries, |MergeRecords(log, prev, entries)|);
    FullCutIsMerged(log, prev, entries);
    if j < |entries| {
      StretchJoins(log, lead, prev, entries, j, |entries| - j);
      TakeFull(entries[j..]);
    }
  }

  // -- the handler

  /** The message comes from a leader at least as new as the node, and passes the check. */
  ghost predicate Accepted(c: Config, h: History, n: NodeState, p: Packet) {
    && p.msg.AppendEntries?
    && PacketOk(c, h, p)
    && p.msg.term >= n.currentTerm
    && Consistent(n.log, p.msg.prevLogIndex, p.msg.prevLogTerm)
  }

  lemma AcceptedLogs(c: Config, hs: Hards, h: History, id: NodeId, n: NodeState, p: Packet)
    requires HistoryInv(c, hs, h) && id in hs && MemoryOk(n, hs[id]) && Accepted(c, h, n, p)
    ensures p.msg.term in h.ledger && p.msg.term in h.elections
    ensures var lead := h.ledger[p.msg.term];
            && Grounded(n.log, h.ledger) && Grounded(lead, h.ledger)
            && Stretch(lead, p.msg.prevLogIndex, p.msg.entries)
            && Consistent(n.log, p.msg.prevLogIndex, TermAt(lead, p.msg.prevLogIndex))
  {
    assert Grounded(hs[id].log, h.ledger);
    assert LeaderLogOk(h, p.msg.term);
  }

  /** Any cut of the merge records is an adoption of the sender's log. */
  lemma MergeCutKeeps(c: Config, hs: Hards, h: History, id: NodeId, n: NodeState, p: Packet, k: nat)
    requires HistoryInv(c, hs, h) && id in hs && MemoryOk(n, hs[id]) && Accepted(c, h, n, p)
    requires k <= |MergeRecords(n.log, p.msg.prevLogIndex, p.msg.entries)|
    ensures var records := MergeRecords(n.log, p.msg.prevLogIndex, p.msg.entries)[..k];
            var log' := CutLog(n.log, p.msg.prevLogIndex, p.msg.entries, k);
            && ReplayFrom(hs[id], records) == hs[id].(log := log')
            && HistoryInv(c, hs[id := hs[id].(log := log')], h)
            && Contiguous(log')
  {
    hide HistoryInv, MergeRecords, CutLog, Consistent, Stretch, KeepsAgreement, Grounded, PacketOk;
    var m := p.msg;
    AcceptedLogs(c, hs, h, id, n, p);
    MergeCut(hs[id], m.prevLogIndex, m.entries, k);
    CutLogOk(n.log, h.ledger[m.term], h.ledger, m.prevLogIndex, m.entries, k);
    AdoptKeeps(c, hs, h, id, m.term, CutLog(n.log, m.prevLogIndex, m.entries, k));
    GroundedContiguous(CutLog(n.log, m.prevLogIndex, m.entries, k), h.ledger);
  }

  lemma TakeFull<T>(xs: seq<T>)
    ensures xs[..|xs|] == xs
  {
  }

  lemma MergedKeeps(c: Config, hs: Hards, h: History, id: NodeId, n: NodeState, p: Packet)
    requires HistoryInv(c, hs, h) && id in hs && MemoryOk(n, hs[id]) && Accepted(c, h, n, p)
    ensures var records := MergeRecords(n.log, p.msg.prevLogIndex, p.msg.entries);
            var log' := Merged(n.log, p.msg.prevLogIndex, p.msg.entries);
            && ReplayFrom(hs[id], records) == hs[id].(log := log')
            && HistoryInv(c, hs[id := hs[id].(log := log')], h)
            && Contiguous(log')
  {
    hide HistoryInv, MergeRecords, CutLog, Merged, Accepted;
    assert p.msg.AppendEntries? && Consistent(n.log, p.msg.prevLogIndex, p.msg.prevLogTerm) by {
      AcceptedShape(c, h, n, p);
    }
    var records := MergeRecords(n.log, p.msg.prevLogIndex, p.msg.entries);
    MergeCutKeeps(c, hs, h, id, n, p, |records|);
    TakeFull(records);
    FullCutIsMerged(n.log, p.msg.prevLogIndex, p.msg.entries);
  }

  lemma AcceptedShape(c: Config, h: History, n: NodeState, p: Packet)
    requires Accepted(c, h, n, p)
    ensures p.msg.AppendEntries? && p.msg.term >= n.currentTerm
    ensures Consistent(n.log, p.msg.prevLogIndex, p.msg.prevLogTerm)
  {
  }

  function AcceptedRecords(n: NodeState, m: Message): seq<Record>
    requires m.AppendEntries?
  {
    MergeRecords(n.log, m.prevLogIndex, m.entries)
    + [StateRecord(m.term, if m.term > n.currentTerm then None else n.votedFor)]
  }

  /** Where the records of an accepted message leave the disk. */
  function AcceptedHard(n: NodeState, m: Message): Recovered
    requires m.AppendEntries? && Consistent(n.log, m.prevLogIndex, m.prevLogTerm)
  {
    Recovered(m.term, if m.term > n.currentTerm then None else n.votedFor,
              Merged(n.log, m.prevLogIndex, m.entries))
  }

  lemma AcceptedHardKeeps(c: Config, hs: Hards, h: History, id: NodeId, n: NodeState, p: Packet)
    requires HistoryInv(c, hs, h) && id in hs && MemoryOk(n, hs[id]) && Accepted(c, h, n, p)
    ensures ReplayFrom(hs[id], AcceptedRecords(n, p.msg)) == AcceptedHard(n, p.msg)
    ensures HistoryInv(c, hs[id := AcceptedHard(n, p.msg)], h)
    ensures Contiguous(AcceptedHard(n, p.msg).log)
  {
    hide HistoryInv, MergeRecords, Merged, Grounded, PacketOk;
    var m := p.msg;
    var records := MergeRecords(n.log, m.prevLogIndex, m.entries);
    var state := StateRecord(m.term, if m.term > n.currentTerm then None else n.votedFor);
    MergedKeeps(c, hs, h, id, n, p);
    var mid := hs[id].(log := Merged(n.log, m.prevLogIndex, m.entries));
    ReplayAppend(hs[id], records, [state]);
    OneRecord(mid, state);
    RaiseKeeps(c, hs[id := mid], h, id, AcceptedHard(n, m));
    assert hs[id := mid][id := AcceptedHard(n, m)] == hs[id := AcceptedHard(n, m)];
  }

  lemma AcceptedCuts(c: Config, hs: Hards, h: History, id: NodeId, n: NodeState, p: Packet, k: nat)
    requires HistoryInv(c, hs, h) && id in hs && MemoryOk(n, hs[id]) && Accepted(c, h, n, p)
    requires k <= |AcceptedRecords(n, p.msg)|
    ensures var kept := AcceptedRecords(n, p.msg)[..k];
            && HistoryInv(c, Rehard(hs, id, kept), h)
            && Contiguous(ReplayFrom(hs[id], kept).log)
  {
    hide HistoryInv, MergeRecords, Merged, CutLog, Grounded, PacketOk, Contiguous, ReplayFrom;
    var m := p.msg;
    var records := MergeRecords(n.log, m.prevLogIndex, m.entries);
    if k <= |records| {
      assert AcceptedRecords(n, m)[..k] == records[..k];
      MergeCutKeeps(c, hs, h, id, n, p, k);
    } else {
      TakeFull(AcceptedRecords(n, m));
      AcceptedHardKeeps(c, hs, h, id, n, p);
    }
  }

  lemma AllAcceptedCuts(c: Config, hs: Hards, h: History, id: NodeId, n: NodeState, p: Packet)
    requires HistoryInv(c, hs, h) && id in hs && MemoryOk(n, hs[id]) && Accepted(c, h, n, p)
    ensures CutsContiguous(hs[id], AcceptedRecords(n, p.msg))
  {
    hide HistoryInv, AcceptedRecords, ReplayFrom, PacketOk, Contiguous, Consistent;
    forall k | 0 <= k <= |AcceptedRecords(n, p.msg)|
      ensures Contiguous(ReplayFrom(hs[id], AcceptedRecords(n, p.msg)[..k]).log)
    {
      AcceptedCuts(c, hs, h, id, n, p, k);
    }
  }

  /** The acknowledgement of an accepted message is true of the disk. */
  lemma AcceptedAck(c: Config, hs: Hards, h: History, id: NodeId, n: NodeState, p: Packet)
    requires HistoryInv(c, hs, h) && id in hs && MemoryOk(n, hs[id]) && Accepted(c, h, n, p)
    ensures var m := p.msg;
            var h' := RecordAppendEntries(h, id, n, m);
            && HistoryInv(c, Rehard(hs, id, AcceptedRecords(n, m)), h')
            && Grows(h, h') && OnlyBy(h, h', id)
            && (m.term, id) in h'.acks && m.prevLogIndex + |m.entries| <= h'.acks[(m.term, id)]
  {
    hide HistoryInv, MergeRecords, Merged, AcceptedRecords, Grounded, ReplayFrom;
    var m := p.msg;
    var lead := h.ledger[m.term];
    AcceptedLogs(c, hs, h, id, n, p);
    AcceptedHardKeeps(c, hs, h, id, n, p);
    MergedHolds(n.log, lead, h.ledger, m.prevLogIndex, m.entries);
    AckKeeps(c, hs[id := AcceptedHard(n, m)], h, m.term, id, m.prevLogIndex + |m.entries|);
  }

  // -- the commit index

  /** What a node has committed is in the log of every leader it can still hear. */
  lemma CommittedInLead(c: Config, hs: Hards, h: History, log: seq<LogEntry>, k: Index, t: Term, u: Term)
    requires HistoryInv(c, hs, h) && Covered(h, log, k, t) && k <= |log|
    requires u in h.ledger && t <= u
    ensures log[..k] <= h.ledger[u]
  {
    if k > 0 {
      var commit :| commit in h.commits && CoveredBy(h, log, k, t, commit);
      assert CommitOk(c, h, commit);
      CommitReachesLedger(c, hs, h, commit, u);
      assert h.ledger[commit.term][..k] == h.ledger[commit.term][..commit.index][..k];
      assert h.ledger[u][..k] == h.ledger[u][..commit.index][..k];
    }
  }

  /** Rules 3 and 4 never touch the committed prefix. */
  lemma CommittedUntouched(c: Config, hs: Hards, h: History, id: NodeId, n: NodeState, p: Packet)
    requires HistoryInv(c, hs, h) && id in hs && MemoryOk(n, hs[id]) && Accepted(c, h, n, p)
    requires n.commitIndex <= |n.log| && Covered(h, n.log, n.commitIndex, n.currentTerm)
    ensures n.log[..n.commitIndex] <= Merged(n.log, p.msg.prevLogIndex, p.msg.entries)
  {
    var m := p.msg;
    var lead := h.ledger[m.term];
    AcceptedLogs(c, hs, h, id, n, p);
    CommittedInLead(c, hs, h, n.log, n.commitIndex, n.currentTerm, m.term);
    MergedHolds(n.log, lead, h.ledger, m.prevLogIndex, m.entries);
  }

  lemma AdvanceApplies(id: NodeId, n: NodeState, commit: Index)
    requires n.lastApplied == n.commitIndex <= commit <= |n.log|
    requires n.kv == Fold(EMPTY_STORE, n.log[..n.lastApplied])
    ensures var n' := AdvanceTo(id, n, commit).0;
            && n'.lastApplied == n'.commitIndex == commit
            && n'.kv == Fold(EMPTY_STORE, n.log[..commit])
  {
    FoldAppend(EMPTY_STORE, n.log[..n.lastApplied], n.log[n.lastApplied..commit]);
    assert n.log[..n.lastApplied] + n.log[n.lastApplied..commit] == n.log[..commit];
  }

  /** The node after an accepted message: its log merged, its commit index never lower. */
  lemma AcceptedNodeOk(c: Config, hs: Hards, h: History, h': History, id: NodeId, n: NodeState, p: Packet)
    requires HistoryInv(c, hs, h) && id in hs && n.running && MemoryOk(n, hs[id]) && AppliedOk(h, n)
    requires Accepted(c, h, n, p) && Grows(h, h')
    ensures var n' := OnAppendEntries(id, n, p.src, p.msg).node;
            && NodeOk(c, h', id, n', AcceptedHard(n, p.msg))
            && n'.commitIndex >= n.commitIndex
            && n.log[..n.commitIndex] <= n'.log
  {
    hide HistoryInv, Merged, Grounded, Fold, GroundedAt, Divergence;
    var m := p.msg;
    var lead := h.ledger[m.term];
    var merged := Merged(n.log, m.prevLogIndex, m.entries);
    CommittedUntouched(c, hs, h, id, n, p);
    AcceptedLogs(c, hs, h, id, n, p);
    MergedHolds(n.log, lead, h.ledger, m.prevLogIndex, m.entries);
    var n2 := BecomeFollower(n, m.term, Some(m.leaderId)).(log := merged);
    assert merged[..n.commitIndex] == n.log[..n.commitIndex];
    if m.leaderCommit > n.commitIndex {
      assert merged[..m.leaderCommit] == lead[..m.leaderCommit];
      AdvanceApplies(id, n2, m.leaderCommit);
      CoveredPersists(h, h', lead, merged, m.leaderCommit, m.term, m.term);
    } else {
      CoveredPersists(h, h', n.log, merged, n.commitIndex, n.currentTerm, m.term);
    }
  }

  // -- completed, or cut short

  lemma OnAppendEntriesKeeps(c: Config, hs: Hards, h: History, id: NodeId, n: NodeState, p: Packet)
    requires HistoryInv(c, hs, h) && id in hs && n.running && NodeOk(c, h, id, n, hs[id])
    requires PacketOk(c, h, p) && p.msg.AppendEntries? && p.dst == id
    ensures EffectOk(c, hs, h, RecordAppendEntries(h, id, n, p.msg), id, OnAppendEntries(id, n, p.src, p.msg))
  {
    var m := p.msg;
    if m.term < n.currentTerm {
      StaleLeaderRefused(c, hs, h, id, n, p);
    } else if !Consistent(n.log, m.prevLogIndex, m.prevLogTerm) {
      MismatchRefused(c, hs, h, id, n, p);
    } else {
      MessageAccepted(c, hs, h, id, n, p);
    }
  }

  lemma StaleLeaderRefused(c: Config, hs: Hards, h: History, id: NodeId, n: NodeState, p: Packet)
    requires HistoryInv(c, hs, h) && id in hs && NodeOk(c, h, id, n, hs[id])
    requires PacketOk(c, h, p) && p.dst == id && p.msg.AppendEntries? && p.msg.term < n.currentTerm
    ensures EffectOk(c, hs, h, RecordAppendEntries(h, id, n, p.msg), id, OnAppendEntries(id, n, p.src, p.msg))
  {
    hide HistoryInv, NodeOk, CutsContiguous;
    QuietOk(c, hs, h, id, n);
  }

  lemma MismatchRefused(c: Config, hs: Hards, h: History, id: NodeId, n: NodeState, p: Packet)
    requires HistoryInv(c, hs, h) && id in hs && n.running && NodeOk(c, h, id, n, hs[id])
    requires PacketOk(c, h, p) && p.dst == id && p.msg.AppendEntries? && p.msg.term >= n.currentTerm
    requires !Consistent(n.log, p.msg.prevLogIndex, p.msg.prevLogTerm)
    ensures EffectOk(c, hs, h, RecordAppendEntries(h, id, n, p.msg), id, OnAppendEntries(id, n, p.src, p.msg))
  {
    hide HistoryInv, CutsContiguous, CandidateOk, LeaderOk, Consistent, Covered, Fold;
    var n1 := BecomeFollower(n, p.msg.term, Some(p.msg.leaderId));
    GrowsSelf(h, id);
    PersistKeeps(c, hs, h, id, n1);
    FollowerOk(c, h, h, id, n, n1, ReplayFrom(hs[id], PersistState(n1)));
  }

  lemma MessageAccepted(c: Config, hs: Hards, h: History, id: NodeId, n: NodeState, p: Packet)
    requires HistoryInv(c, hs, h) && id in hs && n.running && NodeOk(c, h, id, n, hs[id])
    requires PacketOk(c, h, p) && p.msg.AppendEntries? && p.dst == id
    requires p.msg.term >= n.currentTerm && Consistent(n.log, p.msg.prevLogIndex, p.msg.prevLogTerm)
    ensures EffectOk(c, hs, h, RecordAppendEntries(h, id, n, p.msg), id, OnAppendEntries(id, n, p.src, p.msg))
  {
    hide HistoryInv, CutsContiguous, Merged, MergeRecords, Fold, Grows, OnlyBy, RecordAppendEntries;
    assert Accepted(c, h, n, p);
    AcceptedWrites(c, h, id, n, p);
    hide NodeOk, Consistent, ReplayFrom, Accepted;
    var h' := RecordAppendEntries(h, id, n, p.msg);
    var effect := OnAppendEntries(id, n, p.src, p.msg);
    AcceptedAck(c, hs, h, id, n, p);
    AcceptedHardKeeps(c, hs, h, id, n, p);
    AllAcceptedCuts(c, hs, h, id, n, p);
    AcceptedNodeOk(c, hs, h, h', id, n, p);
    AcceptedSends(c, h', id, n, p);
  }

  lemma AcceptedWrites(c: Config, h: History, id: NodeId, n: NodeState, p: Packet)
    requires Accepted(c, h, n, p)
    ensures p.msg.AppendEntries? && OnAppendEntries(id, n, p.src, p.msg).written == AcceptedRecords(n, p.msg)
  {
  }

  lemma AcceptedSends(c: Config, h': History, id: NodeId, n: NodeState, p: Packet)
    requires p.msg.AppendEntries? && p.msg.term >= n.currentTerm && p.src != id
    requires Consistent(n.log, p.msg.prevLogIndex, p.msg.prevLogTerm)
    requires (p.msg.term, id) in h'.acks && p.msg.prevLogIndex + |p.msg.entries| <= h'.acks[(p.msg.term, id)]
    ensures forall q {:trigger PacketOk(c, h', q)} ::
              q in OnAppendEntries(id, n, p.src, p.msg).sent ==> PacketOk(c, h', q)
  {
    hide Merged;
    HandlerLaws.OnlyReplies(id, n.pendingClients, n.lastApplied,
                            Min(p.msg.leaderCommit, p.msg.prevLogIndex + |p.msg.entries|));
  }

  lemma OnAppendEntriesFails(c: Config, hs: Hards, h: History, id: NodeId, n: NodeState, p: Packet, k: nat)
    requires HistoryInv(c, hs, h) && id in hs && n.running && NodeOk(c, h, id, n, hs[id])
    requires PacketOk(c, h, p) && p.msg.AppendEntries? && p.dst == id
    requires k <= |OnAppendEntries(id, n, p.src, p.msg).written|
    ensures FailureOk(c, hs, h, h, id, OnAppendEntries(id, n, p.src, p.msg).written[..k])
  {
    hide HistoryInv, CandidateOk, LeaderOk, AppliedOk, Consistent, Merged, MergeRecords, AcceptedRecords;
    var m := p.msg;
    var effect := OnAppendEntries(id, n, p.src, m);
    if m.term >= n.currentTerm && Consistent(n.log, m.prevLogIndex, m.prevLogTerm) {
      assert Accepted(c, h, n, p);
      AcceptedWrites(c, h, id, n, p);
      AcceptedCuts(c, hs, h, id, n, p, k);
      AllAcceptedCuts(c, hs, h, id, n, p);
    } else if m.term < n.currentTerm {
      StaleLeaderRefused(c, hs, h, id, n, p);
    } else {
      MismatchRefused(c, hs, h, id, n, p);
    }
    GrowsSelf(h, id);
    PartialCuts(hs, id, effect.written, k);
    if k == 0 {
      HardContiguous(c, hs, h, id);
      NoRecords(hs, id, hs[id]);
      assert effect.written[..0] == [];
    } else if k == |effect.written| {
      TakeFull(effect.written);
    }
  }

  lemma PartialCuts(hs: Hards, id: NodeId, records: seq<Record>, k: nat)
    requires id in hs && k <= |records| && CutsContiguous(hs[id], records)
    ensures CutsContiguous(hs[id], records[..k])
  {
    forall i | 0 <= i <= k ensures Contiguous(ReplayFrom(hs[id], records[..k][..i]).log) {
      assert records[..k][..i] == records[..i];
    }
  }
}
