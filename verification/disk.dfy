// groundhog/sim/disk.py: a disk that fails, loses and tears.
module Disk {
  import opened Types
  import opened Codec
  import opened Storage

  /** What recovery reads after a crash, whatever byte the crash cut at. */
  lemma SurvivingRecords(crc: Checksum, attempted: seq<seq<byte>>, synced: nat, durable: nat, image: seq<byte>)
    requires Encodable(attempted) && synced <= |attempted|
    requires image <= Frames(crc, attempted)
    requires |Frames(crc, attempted[..synced])| <= durable <= |image|
    ensures var records := Decode(crc, image);
            && records <= attempted
            && synced <= |records|
            && Frames(crc, records) <= image
  {
    var cut := |image|;
    assert image == Frames(crc, attempted)[..cut];
    DecodePrefix(crc, attempted, cut);
    WholeFramesInside(crc, attempted, cut, synced);
    DecodeReencodes(crc, image);
  }

  /** Truncating a log truncates its synced part and its durable bytes together. */
  lemma TruncatedWatermark(crc: Checksum, attempted: seq<seq<byte>>, synced: nat, durable: nat, index: nat)
    requires synced <= |attempted| && index <= |attempted|
    requires |Frames(crc, attempted[..synced])| <= durable
    ensures |Frames(crc, attempted[..index][..Min(synced, index)])| <= Min(durable, |Frames(crc, attempted[..index])|)
  {
    hide Frames;
    var kept := Min(synced, index);
    assert attempted[..index][..kept] == attempted[..kept];
    assert attempted[..synced][..kept] == attempted[..kept];
    FramesTake(crc, attempted[..synced], kept);
    FramesTake(crc, attempted[..index], kept);
  }

  lemma FramesNone(crc: Checksum)
    ensures Frames(crc, []) == []
  {
  }

  /** What a write of `blob` leaves on the image: all of it, or as much as was drawn. */
  function Landed(blob: seq<byte>, fails: bool, draw: nat): (part: seq<byte>)
    ensures part <= blob && |part| == if fails then draw % (|blob| + 1) else |blob|
  {
    if fails then blob[..draw % (|blob| + 1)] else blob
  }

  class SimStorage {
    const crc: Checksum
    var bytes: seq<byte>
    var durable: nat
    var online: bool
    var failed: bool
    var cache: Option<Scan>
    var owedTicks: nat

    /** Every record handed to the disk since it last recovered, after those it recovered. */
    ghost var attempted: seq<seq<byte>>
    /** How many of them were there at the last sync. */
    ghost var synced: nat

    predicate Up()
      reads this
    {
      online && !failed
    }

    ghost predicate CacheOk()
      reads this
    {
      cache.Some? ==>
        && cache.value.records == Decode(crc, bytes)
        && cache.value.offsets == Offsets(crc, Decode(crc, bytes))
        && cache.value.validBytes == |Frames(crc, Decode(crc, bytes))|
    }

    ghost predicate Valid()
      reads this
    {
      && Encodable(attempted) && synced <= |attempted|
      && bytes <= Frames(crc, attempted)
      && |Frames(crc, attempted[..synced])| <= durable <= |bytes|
      && (Up() ==> bytes == Frames(crc, attempted))
      && CacheOk()
    }

    constructor (crc: Checksum)
      ensures Valid() && Up() && attempted == [] && synced == 0 && this.crc == crc
    {
      this.crc := crc;
      bytes, durable, online, failed, owedTicks := [], 0, true, false, 0;
      cache := Some(Scan([], [], 0, 0));
      attempted, synced := [], 0;
    }

    method RequireOnline() returns (status: Status)
      ensures status == if Up() then Ok else Raised(DiskError)
    {
      status := if !online || failed then Raised(DiskError) else Ok;
    }

    /** `fails` and `draw` are the write-error draw and the draw of how much landed. A failed
        write leaves exactly the drawn part of its bytes, anything from nothing to all. */
    method Append(records: seq<seq<byte>>, fails: bool, draw: nat) returns (status: Status)
      requires Valid()
      modifies this
      ensures Valid() && durable == old(durable) && synced == old(synced) && online == old(online)
      ensures bytes == if !old(Up()) || !Encodable(records) then old(bytes)
                       else old(bytes) + Landed(Frames(crc, records), fails, draw)
      ensures failed == (old(failed) || (old(Up()) && Encodable(records) && records != [] && fails))
      ensures owedTicks == old(owedTicks)
      ensures status == if !old(Up()) then Raised(DiskError)
                        else if !Encodable(records) then Raised(ValueError)
                        else if fails && records != [] then Raised(DiskError)
                        else Ok
      ensures attempted == if old(Up()) && Encodable(records) then old(attempted) + records else old(attempted)
      ensures Up() == (old(Up()) && !(Encodable(records) && records != [] && fails))
    {
      hide Frames, Decode, Offsets;
      status := RequireOnline();
      if status.Raised? {
        return;
      }
      if records == [] {
        FramesNone(crc);
        assert attempted + records == attempted && bytes + [] == bytes;
        return Ok;
      }
      if exists i :: 0 <= i < |records| && |records[i]| > MAX_RECORD_SIZE {
        return Raised(ValueError);
      }
      var blob := Frames(crc, records);
      FramesAppend(crc, attempted, records);
      assert (attempted + records)[..synced] == attempted[..synced];
      attempted := attempted + records;
      cache := None;
      if fails {
        var landed := draw % (|blob| + 1);
        bytes := bytes + blob[..landed];
        failed := true;
        return Raised(DiskError);
      }
      bytes := bytes + blob;
      status := Ok;
    }

    method Sync(cost: nat) returns (status: Status)
      requires Valid()
      modifies this
      ensures Valid() && Up() == old(Up()) && bytes == old(bytes) && attempted == old(attempted)
      ensures online == old(online) && failed == old(failed)
      ensures status == if old(Up()) then Ok else Raised(DiskError)
      ensures old(Up()) ==> durable == |bytes| && synced == |attempted| && owedTicks == old(owedTicks) + cost
      ensures !old(Up()) ==> unchanged(this)
    {
      status := RequireOnline();
      if status.Raised? {
        return;
      }
      durable := |bytes|;
      owedTicks := owedTicks + cost;
      assert attempted[..|attempted|] == attempted;
      synced := |attempted|;
      status := Ok;
    }

    method CachedScan() returns (scan: Scan)
      requires Valid()
      modifies this`cache
      ensures Valid() && Up() == old(Up())
      ensures scan.records == Decode(crc, bytes) && scan.offsets == Offsets(crc, Decode(crc, bytes))
      ensures scan.validBytes == |Frames(crc, Decode(crc, bytes))|
    {
      if cache.None? {
        var rescan := DecodeRecords(crc, bytes);
        cache := Some(rescan);
      }
      scan := cache.value;
    }

    method ReadAll() returns (status: Status, records: seq<seq<byte>>)
      requires Valid()
      modifies this`cache
      ensures Valid() && Up() == old(Up())
      ensures status == if Up() then Ok else Raised(DiskError)
      ensures Up() ==> records == attempted
    {
      records := [];
      status := RequireOnline();
      if status.Ok? {
        var scan := CachedScan();
        DecodeFrames(crc, attempted);
        records := scan.records;
      }
    }

    method TruncateFrom(index: int) returns (status: Status)
      requires Valid()
      modifies this
      ensures Valid() && Up() == old(Up())
      ensures status == if !old(Up()) then Raised(DiskError)
                        else if 0 <= index <= old(|attempted|) then Ok
                        else Raised(IndexError)
      ensures attempted == if status.Ok? then old(attempted)[..index] else old(attempted)
      ensures synced == if status.Ok? then Min(old(synced), index) else old(synced)
      ensures status.Ok? ==> bytes == Frames(crc, attempted) && durable == Min(old(durable), |bytes|)
      ensures status.Raised? ==> bytes == old(bytes) && durable == old(durable)
      ensures online == old(online) && failed == old(failed) && owedTicks == old(owedTicks)
    {
      hide Frames, Decode, Offsets;
      :- RequireOnline();
      var scan := CachedScan();
      DecodeFrames(crc, attempted);
      if !(0 <= index <= |scan.records|) {
        return Raised(IndexError);
      }
      OffsetAt(crc, attempted, index);
      TruncatedWatermark(crc, attempted, synced, durable, index);
      var offset := if index < |scan.records| then scan.offsets[index] else scan.validBytes;
      assert offset == |Frames(crc, attempted[..index])|;
      bytes := bytes[..offset];
      durable := Min(durable, offset);
      cache := None;
      synced := Min(synced, index);
      attempted := attempted[..index];
      status := Ok;
    }

    /** The node dies keeping `kept` unsynced bytes. */
    method CrashAfter(kept: int) returns (status: Status)
      requires Valid()
      modifies this
      ensures Valid() && attempted == old(attempted) && synced == old(synced)
      ensures status == if 0 <= kept <= old(|bytes| - durable) then Ok else Raised(ValueError)
      ensures status.Ok? ==> !online && !failed && bytes == old(bytes)[..old(durable) + kept] && durable == |bytes|
      ensures owedTicks == old(owedTicks)
      ensures status.Raised? ==> unchanged(this)
    {
      var tail := |bytes| - durable;
      if !(0 <= kept <= tail) {
        return Raised(ValueError);
      }
      bytes := bytes[..durable + kept];
      durable := |bytes|;
      online := false;
      failed := false;
      cache := None;
      status := Ok;
    }

    /** `lose` and `draw` are the draws that decide how much of the unsynced tail survives. */
    method Crash(lose: bool, draw: nat)
      requires Valid()
      modifies this
      ensures Valid() && attempted == old(attempted) && synced == old(synced)
      ensures !online && old(bytes[..durable]) <= bytes <= old(bytes) && durable == |bytes|
      ensures var tail := old(|bytes| - durable);
              bytes == old(bytes)[..old(durable) + if lose then 0 else draw % (tail + 1)]
      ensures !failed && owedTicks == old(owedTicks)
    {
      var tail := |bytes| - durable;
      var kept := if lose then 0 else draw % (tail + 1);
      var status := CrashAfter(kept);
    }

    /** Recovery keeps a prefix of what was attempted, holding all that was synced, and
        repairs the image to exactly the encoding of what it kept. */
    method Restart()
      requires Valid()
      modifies this
      ensures Valid() && Up()
      ensures attempted <= old(attempted) && old(synced) <= |attempted|
      ensures attempted == Decode(crc, old(bytes))
      ensures bytes == Frames(crc, attempted) && durable == |bytes| && synced == |attempted|
      ensures old(Up()) ==> attempted == old(attempted)
      ensures owedTicks == old(owedTicks)
    {
      hide Frames, Decode, Offsets;
      SurvivingRecords(crc, attempted, synced, durable, bytes);
      if Up() {
        DecodeFrames(crc, attempted);
      }
      var scan := DecodeRecords(crc, bytes);
      ghost var kept := scan.records;
      bytes := bytes[..scan.validBytes];
      durable := |bytes|;
      online := true;
      failed := false;
      assert bytes == Frames(crc, kept);
      DecodeFrames(crc, kept);
      cache := Some(scan);
      attempted := kept;
      assert kept[..|kept|] == kept;
      synced := |kept|;
    }

    /** The records among the durable bytes: part of those attempted, and all those synced. */
    method DurableRecords() returns (records: seq<seq<byte>>)
      requires Valid()
      ensures records == Decode(crc, bytes[..durable])
      ensures records <= attempted && synced <= |records|
    {
      SurvivingRecords(crc, attempted, synced, durable, bytes[..durable]);
      var scan := DecodeRecords(crc, bytes[..durable]);
      records := scan.records;
    }

    method TakeOwedTicks() returns (owed: nat)
      modifies this`owedTicks
      ensures owed == old(owedTicks) && owedTicks == 0
    {
      owed := owedTicks;
      owedTicks := 0;
    }
  }
}
