// groundhog/raft/persist.py: the write-ahead log as a disk holds it.
//
// Whether a write fails, and how much of it lands, is drawn at random by the disk; here the
// draws are any function of the write's number, so what is proved holds for every draw.
module RaftStorages {
  import opened Types
  import opened Bytes
  import opened Log
  import opened Wal
  import opened Codec
  import opened Persist
  import opened Disk

  /** A record whose fields fit their widths, in a frame the codec accepts. */
  predicate Storable(record: Record) {
    var bytes := Persist.EncodeRecord(record);
    bytes.Some? && |bytes.value| <= MAX_RECORD_SIZE
  }

  /** What a vote may be for: the id that stands for null is no node's. */
  predicate RealVote(votedFor: Option<NodeId>) {
    votedFor != Some(NO_VOTE)
  }

  predicate RealVotes(records: seq<Record>) {
    forall i :: 0 <= i < |records| && records[i].StateRecord? ==> RealVote(records[i].votedFor)
  }

  lemma {:induction false} ReplayedVoteIsReal(r: Recovered, records: seq<Record>)
    requires RealVote(r.vote) && RealVotes(records)
    ensures RealVote(ReplayFrom(r, records).vote)
    decreases |records|
  {
    if records != [] {
      assert records[0] == records[0 := records[0]][0];
      ReplayedVoteIsReal(ReplayOne(r, records[0]), records[1..]);
    }
  }

  /** `bytes` are what the write-ahead records `records` look like on disk. */
  predicate Stores(bytes: seq<seq<byte>>, records: seq<Record>) {
    && |bytes| == |records|
    && forall i :: 0 <= i < |bytes| ==> DecodeRecord(bytes[i]) == Some(records[i])
  }

  lemma StoresAppend(bytes: seq<seq<byte>>, records: seq<Record>, more: seq<seq<byte>>, added: seq<Record>)
    requires Stores(bytes, records) && Stores(more, added)
    ensures Stores(bytes + more, records + added)
  {
    hide DecodeRecord;
  }

  lemma StoredVotesAreReal(bytes: seq<seq<byte>>, records: seq<Record>)
    requires Stores(bytes, records)
    ensures RealVotes(records)
  {
    forall i | 0 <= i < |records| && records[i].StateRecord? ensures RealVote(records[i].votedFor) {
      assert DecodeRecord(bytes[i]) == Some(records[i]);
      DecodedVoteIsReal(bytes[i]);
    }
  }

  lemma DecodedVoteIsReal(bytes: seq<byte>)
    requires DecodeRecord(bytes).Some? && DecodeRecord(bytes).value.StateRecord?
    ensures RealVote(DecodeRecord(bytes).value.votedFor)
  {
    hide Unpack, Kv.DecodeCommand;
  }

  lemma ParsedStored(bytes: seq<seq<byte>>, records: seq<Record>)
    requires Stores(bytes, records)
    ensures Readable(bytes) && Parsed(bytes) == records
  {
    hide DecodeRecord;
  }

  /** For each write in turn, whether it fails and the draw of how much of it lands. */
  type Draws = nat -> (bool, nat)

  /** One of the writes from number `from` up to number `upTo` fails. */
  predicate Fails(draws: Draws, from: nat, upTo: nat) {
    exists k :: from <= k < upTo && draws(k).0
  }

  lemma FailsInTwo(draws: Draws, from: nat, middle: nat, upTo: nat)
    requires from <= middle <= upTo
    ensures Fails(draws, from, upTo) <==> Fails(draws, from, middle) || Fails(draws, middle, upTo)
  {
  }

  lemma OneTried(draws: Draws, now: nat)
    ensures Fails(draws, now, now + 1) <==> draws(now).0
  {
    assert draws(now).0 ==> now <= now < now + 1 && draws(now).0;
  }

  lemma NoneTried(draws: Draws, now: nat)
    ensures !Fails(draws, now, now)
  {
  }

  class RaftStorage {
    const disk: SimStorage
    const draws: Draws

    /** The draws of whether a crash loses what is unsynced, and of how much it otherwise keeps. */
    const tails: Draws

    /** How many writes have been tried. */
    var writes: nat

    /** The records on the disk, as replay understands them. */
    ghost var wal: seq<Record>

    ghost predicate Valid()
      reads this, disk
    {
      disk.Valid() && Stores(disk.attempted, wal)
    }

    constructor (disk: SimStorage, draws: Draws, tails: Draws)
      requires disk.Valid() && disk.attempted == []
      ensures Valid() && this.disk == disk && this.draws == draws && this.tails == tails && wal == [] && writes == 0
    {
      this.disk, this.draws, this.tails, writes := disk, draws, tails, 0;
      wal := [];
    }

    /** The disk lets a call down exactly if it is not up or a write was drawn to fail. */
    twostate predicate Drew(status: Status)
      reads this, disk
    {
      && writes >= old(writes)
      && (status.Ok? ==> !Fails(draws, old(writes), writes) && (old(disk.Up()) ==> disk.Up()))
      && (status == Raised(DiskError) ==> !old(disk.Up()) || Fails(draws, old(writes), writes))
    }

    /** What a write that should have added `records` may have done. */
    twostate predicate Wrote(status: Status, records: seq<Record>)
      reads this, disk
    {
      && disk.synced == old(disk.synced) && Drew(status)
      && match status
         case Ok => wal == old(wal) + records
         case Raised(error) =>
           && (error.DiskError? || error.ValueError?)
           && (wal == old(wal) || wal == old(wal) + records)
           && (error.ValueError? ==> exists i :: 0 <= i < |records| && !Storable(records[i]))
    }

    method Write(blobs: seq<seq<byte>>, ghost records: seq<Record>) returns (status: Status)
      requires Valid() && Stores(blobs, records) && blobs != []
      requires forall i :: 0 <= i < |records| ==> Persist.EncodeRecord(records[i]) == Some(blobs[i])
      modifies this, disk
      ensures Valid() && Wrote(status, records)
    {
      hide Fails, Persist.EncodeRecord, DecodeRecord;
      OneTried(draws, writes);
      var (fails, draw) := draws(writes);
      writes := writes + 1;
      status := disk.Append(blobs, fails, draw);
      if disk.attempted != old(disk.attempted) || status.Ok? {
        StoresAppend(old(disk.attempted), old(wal), blobs, records);
        wal := wal + records;
      }
      if status == Raised(ValueError) {
        var i :| 0 <= i < |blobs| && |blobs[i]| > MAX_RECORD_SIZE;
        assert !Storable(records[i]);
      }
    }

    method WriteOne(record: Record) returns (status: Status)
      requires Valid()
      requires record.StateRecord? ==> RealVote(record.votedFor)
      modifies this, disk
      ensures Valid() && Wrote(status, [record])
    {
      var blob := Persist.EncodeRecord(record);
      if blob.None? {
        assert !Storable([record][0]);
        return Raised(ValueError);
      }
      RecordRoundTrip(record);
      status := Write([blob.value], [record]);
    }

    method SaveState(term: Term, votedFor: Option<NodeId>) returns (status: Status)
      requires Valid() && RealVote(votedFor)
      modifies this, disk
      ensures Valid() && Wrote(status, [StateRecord(term, votedFor)])
    {
      status := WriteOne(StateRecord(term, votedFor));
    }

    method TruncateFrom(index: Index) returns (status: Status)
      requires Valid()
      modifies this, disk
      ensures Valid() && Wrote(status, [TruncateRecord(index)])
    {
      status := WriteOne(TruncateRecord(index));
    }

    method AppendEntries(entries: seq<LogEntry>) returns (status: Status)
      requires Valid()
      modifies this, disk
      ensures Valid() && Wrote(status, EntryRecords(entries))
    {
      if entries == [] {
        assert wal + EntryRecords(entries) == wal;
        return Ok;
      }
      var blobs := EncodeEntries(entries);
      if blobs.None? {
        return Raised(ValueError);
      }
      status := Write(blobs.value, EntryRecords(entries));
    }

    /** The encodings of the entries' records, or None if one of them cannot be stored. */
    static method EncodeEntries(entries: seq<LogEntry>) returns (blobs: Option<seq<seq<byte>>>)
      ensures blobs.None? ==> exists i :: 0 <= i < |entries| && !Storable(EntryRecords(entries)[i])
      ensures blobs.Some? ==>
        && Stores(blobs.value, EntryRecords(entries))
        && forall i :: 0 <= i < |entries| ==> Persist.EncodeRecord(EntryRecords(entries)[i]) == Some(blobs.value[i])
    {
      var done: seq<seq<byte>> := [];
      var i := 0;
      while i < |entries|
        invariant 0 <= i == |done| <= |entries|
        invariant forall k :: 0 <= k < i ==> Persist.EncodeRecord(EntryRecords(entries)[k]) == Some(done[k])
        invariant Stores(done, EntryRecords(entries)[..i])
      {
        var blob := Persist.EncodeRecord(EntryRecord(entries[i]));
        if blob.None? {
          assert !Storable(EntryRecords(entries)[i]);
          return None;
        }
        RecordRoundTrip(EntryRecord(entries[i]));
        done := done + [blob.value];
        i := i + 1;
      }
      assert EntryRecords(entries)[..i] == EntryRecords(entries);
      blobs := Some(done);
    }

    /** On success every record of `wal` is synced; on failure nothing more is. */
    method Sync() returns (status: Status)
      requires Valid()
      modifies disk
      ensures Valid()
      ensures status == Ok || status == Raised(DiskError)
      ensures disk.synced == if status.Ok? then |wal| else old(disk.synced)
      ensures disk.Up() == old(disk.Up()) == status.Ok?
      ensures status.Ok? ==> disk.durable == |disk.bytes|
    {
      var cost: nat := *;
      status := disk.Sync(cost);
    }

    /** The state that the surviving records replay to; `wal` shrinks to those records. */
    method Recover() returns (status: Status, term: Term, vote: Option<NodeId>, log: RaftLog)
      requires disk.Valid() && disk.Up()
      requires |disk.attempted| <= |wal| && Stores(disk.attempted, wal[..|disk.attempted|])
      modifies this`wal, disk`cache
      ensures Valid() && disk.Up() && wal == old(wal)[..|disk.attempted|]
      ensures status == if Contiguous(Replay(wal).log) then Ok else Raised(ValueError)
      ensures fresh(log) && log.Valid()
      ensures status.Ok? ==> Recovered(term, vote, log.items) == Replay(wal) && RealVote(vote)
    {
      wal := wal[..|disk.attempted|];
      var read, records := disk.ReadAll();
      ParsedStored(disk.attempted, wal);
      StoredVotesAreReal(disk.attempted, wal);
      ReplayedVoteIsReal(EMPTY, wal);
      var recovered := ReplayRecords(records);
      term, vote := recovered.value.term, recovered.value.vote;
      if Contiguous(recovered.value.log) {
        log := new RaftLog(recovered.value.log);
        status := Ok;
      } else {
        log := new RaftLog([]);
        status := Raised(ValueError);
      }
    }
  }
}
