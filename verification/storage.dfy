// groundhog/storage.py: the durability contract, and the file that meets it.
module Storage {
  import opened Types
  import opened Codec

  lemma OffsetAt(crc: Checksum, records: seq<seq<byte>>, index: nat)
    requires index <= |records|
    ensures |Frames(crc, records[..index])| <= |Frames(crc, records)|
    ensures Frames(crc, records)[..|Frames(crc, records[..index])|] == Frames(crc, records[..index])
    ensures index < |records| ==> Offsets(crc, records)[index] == |Frames(crc, records[..index])|
    ensures index == |records| ==> records[..index] == records
    ensures Offsets(crc, records)[..index] == Offsets(crc, records[..index])
  {
    FramesTake(crc, records, index);
    forall i | 0 <= i < index ensures records[..index][..i] == records[..i] {
    }
  }

  /** The real store: a file, and an index of it that no operation lets go stale. */
  class FileStorage {
    const crc: Checksum
    var file: seq<byte>
    var records: seq<seq<byte>>
    var offsets: seq<nat>
    var end: nat
    const discardedOnOpen: nat

    /** A fresh scan of the file would report exactly the index held in memory. */
    ghost predicate Valid()
      reads this
    {
      && Encodable(records)
      && file == Frames(crc, records)
      && offsets == Offsets(crc, records)
      && end == |file|
    }

    lemma IndexAgreesWithRescan()
      requires Valid()
      ensures ScanOf(crc, file) == Scan(records, offsets, end, 0)
    {
      DecodeFrames(crc, records);
    }

    /** Whatever the file held, exactly its decodable prefix is kept. */
    constructor (crc: Checksum, contents: seq<byte>)
      ensures Valid()
      ensures this.crc == crc && records == Decode(crc, contents)
      ensures discardedOnOpen <= |contents| && file == contents[..|contents| - discardedOnOpen]
    {
      var scan := DecodeRecords(crc, contents);
      DecodeReencodes(crc, contents);
      this.crc := crc;
      records := scan.records;
      offsets := scan.offsets;
      end := scan.validBytes;
      discardedOnOpen := scan.discardedBytes;
      file := if scan.discardedBytes > 0 then contents[..scan.validBytes] else contents;
    }

    method Append(added: seq<seq<byte>>) returns (status: Status)
      requires Valid()
      modifies this
      ensures Valid()
      ensures status == if Encodable(added) then Ok else Raised(ValueError)
      ensures records == if Encodable(added) then old(records) + added else old(records)
    {
      if added == [] {
        assert records + added == records;
        return Ok;
      }
      if exists i :: 0 <= i < |added| && |added[i]| > MAX_RECORD_SIZE {
        return Raised(ValueError);
      }
      ghost var before := records;
      FramesAppend(crc, records, added);
      file := file[..end] + Frames(crc, added);
      var offset, i := end, 0;
      assert before + added[..0] == before;
      while i < |added|
        invariant 0 <= i <= |added|
        invariant records == before + added[..i]
        invariant offset == |Frames(crc, records)|
        invariant offsets == Offsets(crc, records)
        invariant file == Frames(crc, before + added)
        invariant Encodable(added)
      {
        OffsetsStep(crc, records, added[i]);
        FramesAppend(crc, records, [added[i]]);
        FramesOne(crc, added[i]);
        records := records + [added[i]];
        offsets := offsets + [offset];
        offset := offset + HEADER_SIZE + |added[i]|;
        i := i + 1;
        assert before + added[..i] == before + added[..i - 1] + [added[i - 1]];
      }
      assert added[..i] == added;
      end := offset;
      status := Ok;
    }

    /** The file is held as its durable bytes, so there is nothing more to write out. */
    method Sync() returns (status: Status)
      requires Valid()
      ensures status == Ok
    {
      status := Ok;
    }

    method ReadAll() returns (all: seq<seq<byte>>)
      requires Valid()
      ensures all == Decode(crc, file) == records
    {
      DecodeFrames(crc, records);
      all := records;
    }

    /** Keeps the first `index` records, in the file and in the index of it. */
    method TruncateFrom(index: int) returns (status: Status)
      requires Valid()
      modifies this
      ensures Valid()
      ensures status == if 0 <= index <= old(|records|) then Ok else Raised(IndexError)
      ensures records == if 0 <= index <= old(|records|) then old(records)[..index] else old(records)
    {
      if !(0 <= index <= |records|) {
        return Raised(IndexError);
      }
      OffsetAt(crc, records, index);
      var offset := if index < |records| then offsets[index] else end;
      file := file[..offset];
      end := offset;
      offsets := offsets[..index];
      records := records[..index];
      status := Ok;
    }
  }
}
