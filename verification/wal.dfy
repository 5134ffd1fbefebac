// groundhog/raft/persist.py: the write-ahead log records and what replaying them rebuilds.
module Wal {
  import opened Types
  import opened Log

  datatype Record =
    | StateRecord(term: Term, votedFor: Option<NodeId>)
    | EntryRecord(entry: LogEntry)
    | TruncateRecord(index: Index)

  /** Hard state and log, as recovery reads them back. */
  datatype Recovered = Recovered(term: Term, vote: Option<NodeId>, log: seq<LogEntry>)

  const EMPTY := Recovered(0, None, [])

  /** `del entries[index - 1 :]`; with index 0 the slice starts at -1 and takes the last entry. */
  function DropFrom(entries: seq<LogEntry>, index: Index): seq<LogEntry> {
    if index == 0 then
      if entries == [] then [] else entries[..|entries| - 1]
    else
      entries[..Min(index - 1, |entries|)]
  }

  function ReplayOne(r: Recovered, record: Record): Recovered {
    match record
    case StateRecord(term, votedFor) => Recovered(term, votedFor, r.log)
    case EntryRecord(entry) => Recovered(r.term, r.vote, r.log + [entry])
    case TruncateRecord(index) => Recovered(r.term, r.vote, DropFrom(r.log, index))
  }

  function ReplayFrom(r: Recovered, records: seq<Record>): Recovered
    decreases |records|
  {
    if records == [] then r else ReplayFrom(ReplayOne(r, records[0]), records[1..])
  }

  function Replay(records: seq<Record>): Recovered {
    ReplayFrom(EMPTY, records)
  }

  lemma {:induction false} ReplayAppend(r: Recovered, xs: seq<Record>, ys: seq<Record>)
    ensures ReplayFrom(r, xs + ys) == ReplayFrom(ReplayFrom(r, xs), ys)
    decreases |xs|
  {
    if xs == [] {
      assert xs + ys == ys;
    } else {
      assert (xs + ys)[1..] == xs[1..] + ys;
      ReplayAppend(ReplayOne(r, xs[0]), xs[1..], ys);
    }
  }

  function EntryRecords(entries: seq<LogEntry>): (records: seq<Record>)
    ensures |records| == |entries|
    ensures forall i :: 0 <= i < |entries| ==> records[i] == EntryRecord(entries[i])
  {
    seq(|entries|, i requires 0 <= i < |entries| => EntryRecord(entries[i]))
  }

  lemma {:induction false} ReplayEntries(r: Recovered, entries: seq<LogEntry>)
    ensures ReplayFrom(r, EntryRecords(entries)) == Recovered(r.term, r.vote, r.log + entries)
    decreases |entries|
  {
    if entries == [] {
      assert r.log + entries == r.log;
    } else {
      assert EntryRecords(entries)[1..] == EntryRecords(entries[1..]);
      ReplayEntries(ReplayOne(r, EntryRecord(entries[0])), entries[1..]);
      assert r.log + entries == (r.log + [entries[0]]) + entries[1..];
    }
  }
}
