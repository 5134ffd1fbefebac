// groundhog/raft/persist.py: write-ahead records as bytes, and recovery from them.
module Persist {
  import opened Types
  import opened Bytes
  import opened Kv
  import opened Log
  import opened Wal

  const STATE := 1
  const ENTRY := 2
  const TRUNCATE := 3

  /** kind, term, index or voted-for */
  const HEADER := 17

  /** A null vote is stored as 0, which no node is called. */
  const NO_VOTE: NodeId := 0

  /** `_HEADER.pack`; None where a field does not fit and packing raises. */
  function PackHeader(kind: nat, first: nat, second: nat): Option<seq<byte>>
    requires kind < 256
  {
    if Fits(first, 8) && Fits(second, 8) then Some(Pack(kind, 1) + Pack(first, 8) + Pack(second, 8)) else None
  }

  function EncodeRecord(record: Record): Option<seq<byte>> {
    match record
    case StateRecord(term, votedFor) =>
      PackHeader(STATE, term, if votedFor.Some? then votedFor.value else NO_VOTE)
    case EntryRecord(entry) =>
      var header := PackHeader(ENTRY, entry.term, entry.index);
      var command := EncodeCommand(entry.command);
      if header.Some? && command.Some? then Some(header.value + command.value) else None
    case TruncateRecord(index) => PackHeader(TRUNCATE, 0, index)
  }

  /** One record read back; None where the reader raises. */
  function DecodeRecord(bytes: seq<byte>): Option<Record> {
    if |bytes| < HEADER then
      None
    else
      var kind, first, second := Unpack(bytes[..1]), Unpack(bytes[1..9]), Unpack(bytes[9..HEADER]);
      if kind == STATE then
        Some(StateRecord(first, if second == NO_VOTE then None else Some(second)))
      else if kind == ENTRY then
        var command := DecodeCommand(bytes[HEADER..]);
        if command.Some? then Some(EntryRecord(LogEntry(first, second, command.value))) else None
      else if kind == TRUNCATE then
        Some(TruncateRecord(second))
      else
        None
  }

  lemma HeaderRoundTrip(kind: nat, first: nat, second: nat, rest: seq<byte>)
    requires kind < 256 && PackHeader(kind, first, second).Some?
    ensures var bytes := PackHeader(kind, first, second).value + rest;
            && |bytes| == HEADER + |rest|
            && Unpack(bytes[..1]) == kind && Unpack(bytes[1..9]) == first && Unpack(bytes[9..HEADER]) == second
            && bytes[HEADER..] == rest
  {
    var bytes := PackHeader(kind, first, second).value + rest;
    PowerValues();
    UnpackPack(kind, 1);
    UnpackPack(first, 8);
    UnpackPack(second, 8);
    assert bytes[..1] == Pack(kind, 1);
    assert bytes[1..9] == Pack(first, 8);
    assert bytes[9..HEADER] == Pack(second, 8);
  }

  /** Numbers below 2^64 and commands that encode are what a record can hold: a byte for its kind,
      two numbers, and for an entry the command. */
  lemma RecordEncodes(record: Record)
    ensures EncodeRecord(record).Some? <==>
      match record
      case StateRecord(term, vote) =>
        term < 0x1_0000_0000_0000_0000 && (vote.Some? ==> vote.value < 0x1_0000_0000_0000_0000)
      case EntryRecord(e) =>
        && e.term < 0x1_0000_0000_0000_0000 && e.index < 0x1_0000_0000_0000_0000
        && EncodeCommand(e.command).Some?
      case TruncateRecord(index) => index < 0x1_0000_0000_0000_0000
    ensures EncodeRecord(record).Some? ==>
      var data := EncodeRecord(record).value;
      && |data| >= 17
      && data[0] == (if record.StateRecord? then 1 else if record.EntryRecord? then 2 else 3)
      && (match record
          case StateRecord(term, vote) =>
            Unpack(data[1..9]) == term && Unpack(data[9..17]) == (if vote.Some? then vote.value else 0)
          case EntryRecord(e) => Unpack(data[1..9]) == e.term && Unpack(data[9..17]) == e.index
          case TruncateRecord(index) => Unpack(data[1..9]) == 0 && Unpack(data[9..17]) == index)
      && (record.EntryRecord? ==> data[17..] == EncodeCommand(record.entry.command).value)
  {
    hide EncodeCommand;
    PowerValues();
    BigEndian(STATE, 1, 0);
    BigEndian(ENTRY, 1, 0);
    BigEndian(TRUNCATE, 1, 0);
    hide Pack, Unpack;
    if EncodeRecord(record).Some? {
      NumbersOf(record);
    }
  }

  lemma NumbersOf(record: Record)
    requires EncodeRecord(record).Some?
    ensures var data := EncodeRecord(record).value;
            && |data| >= 17
            && match record
               case StateRecord(term, vote) =>
                 Unpack(data[1..9]) == term && Unpack(data[9..17]) == (if vote.Some? then vote.value else 0)
               case EntryRecord(e) => Unpack(data[1..9]) == e.term && Unpack(data[9..17]) == e.index
               case TruncateRecord(index) => Unpack(data[1..9]) == 0 && Unpack(data[9..17]) == index
  {
    hide Pack, Unpack, EncodeCommand, PackHeader;
    match record
    case StateRecord(term, vote) => HeaderAlone(STATE, term, if vote.Some? then vote.value else NO_VOTE);
    case EntryRecord(e) => HeaderRoundTrip(ENTRY, e.term, e.index, EncodeCommand(e.command).value);
    case TruncateRecord(index) => HeaderAlone(TRUNCATE, 0, index);
  }

  lemma HeaderAlone(kind: nat, first: nat, second: nat)
    requires kind < 256 && PackHeader(kind, first, second).Some?
    ensures var bytes := PackHeader(kind, first, second).value;
            && |bytes| == HEADER
            && Unpack(bytes[..1]) == kind && Unpack(bytes[1..9]) == first && Unpack(bytes[9..HEADER]) == second
  {
    hide Pack, Unpack, PackHeader;
    HeaderRoundTrip(kind, first, second, []);
    var bytes := PackHeader(kind, first, second).value;
    assert bytes + [] == bytes;
  }

  /** A record written within its field widths is read back as it was, provided no vote
      is for the node id that stands for null. */
  lemma RecordRoundTrip(record: Record)
    requires EncodeRecord(record).Some?
    ensures DecodeRecord(EncodeRecord(record).value) == Some(record)
        <==> !(record.StateRecord? && record.votedFor == Some(NO_VOTE))
  {
    hide Pack, Unpack, PackHeader, DecodeCommand, EncodeCommand;
    match record
    case StateRecord(term, votedFor) =>
      HeaderAlone(STATE, term, if votedFor.Some? then votedFor.value else NO_VOTE);
    case EntryRecord(entry) =>
      HeaderRoundTrip(ENTRY, entry.term, entry.index, EncodeCommand(entry.command).value);
      CommandRoundTrip(entry.command);
    case TruncateRecord(index) =>
      HeaderAlone(TRUNCATE, 0, index);
  }

  // -- replay

  /** Every record decodes. */
  predicate Readable(records: seq<seq<byte>>) {
    forall i :: 0 <= i < |records| ==> DecodeRecord(records[i]).Some?
  }

  function Parsed(records: seq<seq<byte>>): seq<Record>
    requires Readable(records)
  {
    seq(|records|, i requires 0 <= i < |records| => DecodeRecord(records[i]).value)
  }

  /** `replay`: None where an unreadable record raises. */
  method ReplayRecords(records: seq<seq<byte>>) returns (r: Option<Recovered>)
    ensures r.Some? <==> Readable(records)
    ensures r.Some? ==> r.value == Replay(Parsed(records))
  {
    var state: (Term, Option<NodeId>) := (0, None);
    var entries: seq<LogEntry> := [];
    var i := 0;
    while i < |records|
      invariant 0 <= i <= |records|
      invariant Readable(records[..i])
      invariant Recovered(state.0, state.1, entries) == Replay(Parsed(records[..i]))
    {
      var record := records[i];
      var decoded := DecodeRecord(record);
      if decoded.None? {
        return None;
      }
      ReplayNext(records, i);
      match decoded.value {
        case StateRecord(term, votedFor) => state := (term, votedFor);
        case EntryRecord(entry) => entries := entries + [entry];
        case TruncateRecord(index) => entries := DropFrom(entries, index);
      }
      i := i + 1;
    }
    assert records[..i] == records;
    r := Some(Recovered(state.0, state.1, entries));
  }

  lemma ReplayNext(records: seq<seq<byte>>, i: nat)
    requires i < |records| && Readable(records[..i]) && DecodeRecord(records[i]).Some?
    ensures Readable(records[..i + 1])
    ensures Replay(Parsed(records[..i + 1])) == ReplayOne(Replay(Parsed(records[..i])), DecodeRecord(records[i]).value)
  {
    var record := DecodeRecord(records[i]).value;
    assert records[..i + 1] == records[..i] + [records[i]];
    assert Parsed(records[..i + 1]) == Parsed(records[..i]) + [record];
    ReplayAppend(EMPTY, Parsed(records[..i]), [record]);
    ReplaySingle(Replay(Parsed(records[..i])), record);
  }

  lemma ReplaySingle(r: Recovered, record: Record)
    ensures ReplayFrom(r, [record]) == ReplayOne(r, record)
  {
    assert ReplayFrom(ReplayOne(r, record), []) == ReplayOne(r, record);
  }
}
