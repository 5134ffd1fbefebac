// groundhog/codec.py: `[u32 length][u32 checksum][payload]`, for any checksum function.
module Codec {
  import opened Types
  import opened Bytes

  const HEADER_SIZE := 8
  const MAX_RECORD_SIZE := 0x400_0000

  type u32 = x: int | 0 <= x < 0x1_0000_0000

  type Checksum = seq<byte> -> u32

  predicate Encodable(payloads: seq<seq<byte>>) {
    forall i :: 0 <= i < |payloads| ==> |payloads[i]| <= MAX_RECORD_SIZE
  }

  function Frame(crc: Checksum, payload: seq<byte>): (frame: seq<byte>)
    ensures |frame| == HEADER_SIZE + |payload|
  {
    var length := Pack(|payload|, 4);
    length + Pack(crc(length + payload), 4) + payload
  }

  /** `encode_record`: a payload above the bound is refused. */
  function EncodeRecord(crc: Checksum, payload: seq<byte>): Option<seq<byte>> {
    if |payload| > MAX_RECORD_SIZE then None else Some(Frame(crc, payload))
  }

  /** The image of a log: its frames, end to end. */
  function Frames(crc: Checksum, payloads: seq<seq<byte>>): (bytes: seq<byte>)
    decreases |payloads|
  {
    if payloads == [] then [] else Frame(crc, payloads[0]) + Frames(crc, payloads[1..])
  }

  /** The whole, checksummed record at the start of `data`, if there is one. */
  function HeadRecord(crc: Checksum, data: seq<byte>): Option<seq<byte>> {
    if |data| < HEADER_SIZE then
      None
    else
      var length := Unpack(data[..4]);
      if length > MAX_RECORD_SIZE || HEADER_SIZE + length > |data| then
        None
      else
        var payload := data[HEADER_SIZE..HEADER_SIZE + length];
        if crc(data[..4] + payload) != Unpack(data[4..8]) then None else Some(payload)
  }

  /** The records at the start of `data`, up to the first that does not check out. */
  function Decode(crc: Checksum, data: seq<byte>): (records: seq<seq<byte>>)
    ensures Encodable(records)
    decreases |data|
  {
    match HeadRecord(crc, data)
    case None => []
    case Some(payload) => [payload] + Decode(crc, data[HEADER_SIZE + |payload|..])
  }

  // -- framing laws

  lemma {:induction false} FramesAppend(crc: Checksum, xs: seq<seq<byte>>, ys: seq<seq<byte>>)
    ensures Frames(crc, xs + ys) == Frames(crc, xs) + Frames(crc, ys)
    decreases |xs|
  {
    if xs == [] {
      assert xs + ys == ys;
    } else {
      assert (xs + ys)[1..] == xs[1..] + ys;
      FramesAppend(crc, xs[1..], ys);
    }
  }

  lemma FramesTake(crc: Checksum, xs: seq<seq<byte>>, k: nat)
    requires k <= |xs|
    ensures Frames(crc, xs[..k]) <= Frames(crc, xs)
    ensures Frames(crc, xs) == Frames(crc, xs[..k]) + Frames(crc, xs[k..])
  {
    FramesAppend(crc, xs[..k], xs[k..]);
    assert xs[..k] + xs[k..] == xs;
  }

  /** A frame at the head of any bytes is recognised, whatever follows it. */
  lemma HeadOfFrame(crc: Checksum, payload: seq<byte>, rest: seq<byte>)
    requires |payload| <= MAX_RECORD_SIZE
    ensures HeadRecord(crc, Frame(crc, payload) + rest) == Some(payload)
  {
    var data := Frame(crc, payload) + rest;
    var length := Pack(|payload|, 4);
    PowerValues();
    UnpackPack(|payload|, 4);
    UnpackPack(crc(length + payload), 4);
    assert data[..4] == length;
    assert data[4..8] == Pack(crc(length + payload), 4);
    assert data[HEADER_SIZE..HEADER_SIZE + |payload|] == payload;
  }

  /** A frame that was cut short is not recognised. */
  lemma HeadOfCutFrame(crc: Checksum, payload: seq<byte>, cut: nat)
    requires |payload| <= MAX_RECORD_SIZE && cut < HEADER_SIZE + |payload|
    ensures HeadRecord(crc, Frame(crc, payload)[..cut]) == None
  {
    if cut >= HEADER_SIZE {
      PowerValues();
      UnpackPack(|payload|, 4);
      assert Frame(crc, payload)[..cut][..4] == Pack(|payload|, 4);
    }
  }

  /** Bytes begin with a record exactly if they begin with its frame. */
  lemma RecognisedIffFramed(crc: Checksum, data: seq<byte>, payload: seq<byte>)
    ensures HeadRecord(crc, data) == Some(payload)
       <==> |payload| <= MAX_RECORD_SIZE && Frame(crc, payload) <= data
  {
    if HeadRecord(crc, data) == Some(payload) {
      HeadReencodes(crc, data);
    }
    if |payload| <= MAX_RECORD_SIZE && Frame(crc, payload) <= data {
      var rest := data[HEADER_SIZE + |payload|..];
      assert data == Frame(crc, payload) + rest;
      HeadOfFrame(crc, payload, rest);
    }
  }

  /** A frame is the payload's length and a checksum of length and payload, most significant byte
      first, and the payload; one of more than 64 MiB is refused. */
  lemma FrameLayout(crc: Checksum, payload: seq<byte>)
    ensures EncodeRecord(crc, payload).Some? <==> |payload| <= 64 * 1024 * 1024
    ensures EncodeRecord(crc, payload).Some? ==>
      var frame := EncodeRecord(crc, payload).value;
      && |frame| == 8 + |payload| && frame[8..] == payload
      && MostSignificantFirst(frame[..4], |payload|)
      && MostSignificantFirst(frame[4..8], crc(frame[..4] + payload))
  {
    var length := Pack(|payload|, 4);
    var frame := Frame(crc, payload);
    assert frame[..4] == length && frame[4..8] == Pack(crc(length + payload), 4);
    PackedMostSignificantFirst(|payload|, 4);
    PackedMostSignificantFirst(crc(length + payload), 4);
  }

  /** How many whole frames fit in the first `cut` bytes. */
  function WholeFrames(payloads: seq<seq<byte>>, cut: nat): (k: nat)
    ensures k <= |payloads|
    decreases |payloads|
  {
    if payloads == [] || cut < HEADER_SIZE + |payloads[0]| then
      0
    else
      1 + WholeFrames(payloads[1..], cut - (HEADER_SIZE + |payloads[0]|))
  }

  /** `WholeFrames` counts exactly the records that lie wholly inside the cut. */
  lemma {:induction false} WholeFramesInside(crc: Checksum, payloads: seq<seq<byte>>, cut: nat, k: nat)
    requires k <= |payloads|
    ensures k <= WholeFrames(payloads, cut) <==> |Frames(crc, payloads[..k])| <= cut
    decreases |payloads|
  {
    if payloads != [] && k > 0 {
      assert payloads[..k][0] == payloads[0];
      assert payloads[..k][1..] == payloads[1..][..k - 1];
      if cut >= HEADER_SIZE + |payloads[0]| {
        WholeFramesInside(crc, payloads[1..], cut - (HEADER_SIZE + |payloads[0]|), k - 1);
      }
    }
  }

  /** Decoding any byte prefix of a log yields exactly the records wholly inside it. */
  lemma {:induction false} DecodePrefix(crc: Checksum, payloads: seq<seq<byte>>, cut: nat)
    requires Encodable(payloads) && cut <= |Frames(crc, payloads)|
    ensures Decode(crc, Frames(crc, payloads)[..cut]) == payloads[..WholeFrames(payloads, cut)]
    decreases |payloads|
  {
    if payloads != [] {
      var head := Frame(crc, payloads[0]);
      var data := Frames(crc, payloads)[..cut];
      if cut < |head| {
        assert data == head[..cut];
        HeadOfCutFrame(crc, payloads[0], cut);
      } else {
        var rest := Frames(crc, payloads[1..])[..cut - |head|];
        assert data == head + rest;
        HeadOfFrame(crc, payloads[0], rest);
        assert data[HEADER_SIZE + |payloads[0]|..] == rest;
        DecodePrefix(crc, payloads[1..], cut - |head|);
        assert [payloads[0]] + payloads[1..][..WholeFrames(payloads[1..], cut - |head|)]
            == payloads[..WholeFrames(payloads, cut)];
      }
    }
  }

  lemma DecodeFrames(crc: Checksum, payloads: seq<seq<byte>>)
    requires Encodable(payloads)
    ensures Decode(crc, Frames(crc, payloads)) == payloads
  {
    var image := Frames(crc, payloads);
    DecodePrefix(crc, payloads, |image|);
    assert image[..|image|] == image;
    assert payloads[..|payloads|] == payloads;
    WholeFramesInside(crc, payloads, |image|, |payloads|);
  }

  /** A recognised record occupies exactly the bytes its frame would. */
  lemma HeadReencodes(crc: Checksum, data: seq<byte>)
    requires HeadRecord(crc, data).Some?
    ensures Frame(crc, HeadRecord(crc, data).value) <= data
  {
    var payload := HeadRecord(crc, data).value;
    PackUnpack(data[..4]);
    PackUnpack(data[4..8]);
    assert data[..HEADER_SIZE + |payload|] == data[..4] + data[4..8] + payload;
  }

  /** Re-encoding what was decoded from arbitrary bytes reproduces the prefix it came from. */
  lemma {:induction false} DecodeReencodes(crc: Checksum, data: seq<byte>)
    ensures Frames(crc, Decode(crc, data)) <= data
    decreases |data|
  {
    var head := HeadRecord(crc, data);
    if head.Some? {
      HeadReencodes(crc, data);
      var size := HEADER_SIZE + |head.value|;
      DecodeReencodes(crc, data[size..]);
      assert Decode(crc, data)[1..] == Decode(crc, data[size..]);
      assert data == data[..size] + data[size..];
    }
  }

  // -- the scan

  /** What `decode_records` reports. */
  datatype Scan = Scan(records: seq<seq<byte>>, offsets: seq<nat>, validBytes: nat, discardedBytes: nat)

  /** The length of the encoding of what precedes each record. */
  function Offsets(crc: Checksum, records: seq<seq<byte>>): (offsets: seq<nat>)
    ensures |offsets| == |records|
  {
    seq(|records|, i requires 0 <= i < |records| => |Frames(crc, records[..i])|)
  }

  function ScanOf(crc: Checksum, data: seq<byte>): Scan {
    var records := Decode(crc, data);
    var valid := |Frames(crc, records)|;
    DecodeReencodes(crc, data);
    Scan(records, Offsets(crc, records), valid, |data| - valid)
  }

  lemma OffsetsStep(crc: Checksum, records: seq<seq<byte>>, payload: seq<byte>)
    ensures Offsets(crc, records + [payload]) == Offsets(crc, records) + [|Frames(crc, records)|]
  {
    hide Frames;
    assert (records + [payload])[..|records|] == records;
    forall i | 0 <= i < |records|
      ensures Offsets(crc, records + [payload])[i] == Offsets(crc, records)[i]
    {
      assert (records + [payload])[..i] == records[..i];
    }
  }

  lemma FramesOne(crc: Checksum, payload: seq<byte>)
    ensures Frames(crc, [payload]) == Frame(crc, payload)
  {
    assert Frames(crc, [payload]) == Frame(crc, payload) + Frames(crc, []);
  }

  lemma DecodeHead(crc: Checksum, data: seq<byte>)
    requires HeadRecord(crc, data).Some?
    ensures var payload := HeadRecord(crc, data).value;
            && HEADER_SIZE + |payload| <= |data|
            && Decode(crc, data) == [payload] + Decode(crc, data[HEADER_SIZE + |payload|..])
  {
  }

  lemma DecodeStep(crc: Checksum, data: seq<byte>, offset: nat, records: seq<seq<byte>>, payload: seq<byte>)
    requires offset <= |data| && offset == |Frames(crc, records)|
    requires HeadRecord(crc, data[offset..]) == Some(payload)
    requires Decode(crc, data) == records + Decode(crc, data[offset..])
    ensures var next := offset + HEADER_SIZE + |payload|;
            && next <= |data|
            && next == |Frames(crc, records + [payload])|
            && Decode(crc, data) == (records + [payload]) + Decode(crc, data[next..])
  {
    hide HeadRecord, Decode, Frames, Frame;
    FramesAppend(crc, records, [payload]);
    FramesOne(crc, payload);
    DecodeHead(crc, data[offset..]);
    assert data[offset..][HEADER_SIZE + |payload|..] == data[offset + HEADER_SIZE + |payload|..];
  }

  lemma DecodeNothing(crc: Checksum, data: seq<byte>)
    requires HeadRecord(crc, data) == None
    ensures Decode(crc, data) == []
  {
  }

  /** The record at `offset`, field by field as the reader unpacks it. */
  lemma HeadAt(crc: Checksum, data: seq<byte>, offset: nat)
    requires offset <= |data|
    ensures var head := HeadRecord(crc, data[offset..]);
            if offset + HEADER_SIZE > |data| then
              head == None
            else
              var length := Unpack(data[offset..offset + 4]);
              var end := offset + HEADER_SIZE + length;
              if length > MAX_RECORD_SIZE || end > |data| then
                head == None
              else
                var payload := data[offset + HEADER_SIZE..end];
                head == if crc(data[offset..offset + 4] + payload) == Unpack(data[offset + 4..offset + 8])
                        then Some(payload) else None
  {
    var here := data[offset..];
    if offset + HEADER_SIZE <= |data| {
      assert here[..4] == data[offset..offset + 4] && here[4..8] == data[offset + 4..offset + 8];
      var length := Unpack(here[..4]);
      if offset + HEADER_SIZE + length <= |data| {
        assert here[HEADER_SIZE..HEADER_SIZE + length] == data[offset + HEADER_SIZE..offset + HEADER_SIZE + length];
      }
    }
  }

  /** The scan has recognised `records`, at `offsets`, and stands at `offset`. */
  predicate ScannedTo(crc: Checksum, data: seq<byte>, offset: nat, records: seq<seq<byte>>, offsets: seq<nat>) {
    && offset <= |data| && offset == |Frames(crc, records)|
    && Decode(crc, data) == records + Decode(crc, data[offset..])
    && offsets == Offsets(crc, records)
  }

  lemma ScanStarts(crc: Checksum, data: seq<byte>)
    ensures ScannedTo(crc, data, 0, [], [])
  {
    assert data[0..] == data;
    hide Decode;
  }

  lemma ScanGoesOn(crc: Checksum, data: seq<byte>, offset: nat, records: seq<seq<byte>>, offsets: seq<nat>,
                   payload: seq<byte>)
    requires ScannedTo(crc, data, offset, records, offsets) && HeadRecord(crc, data[offset..]) == Some(payload)
    ensures ScannedTo(crc, data, offset + HEADER_SIZE + |payload|, records + [payload], offsets + [offset])
  {
    hide HeadRecord, Decode, Frames, Offsets;
    DecodeStep(crc, data, offset, records, payload);
    OffsetsStep(crc, records, payload);
  }

  /** Nothing is recognised at `offset`, so the scan is complete. */
  lemma ScanEnds(crc: Checksum, data: seq<byte>, offset: nat, records: seq<seq<byte>>, offsets: seq<nat>)
    requires ScannedTo(crc, data, offset, records, offsets)
    requires offset + HEADER_SIZE > |data| || HeadRecord(crc, data[offset..]) == None
    ensures offset <= |data| && ScanOf(crc, data) == Scan(records, offsets, offset, |data| - offset)
  {
    HeadAt(crc, data, offset);
    hide HeadRecord, Decode, Frames, Offsets, Unpack;
    DecodeNothing(crc, data[offset..]);
    assert records + [] == records;
  }

  /** The record at `offset`; None where the scan stops. */
  method ReadRecord(crc: Checksum, data: seq<byte>, offset: nat) returns (record: Option<seq<byte>>)
    requires offset + HEADER_SIZE <= |data|
    ensures record == HeadRecord(crc, data[offset..])
  {
    HeadAt(crc, data, offset);
    hide HeadRecord, Unpack;
    var length := Unpack(data[offset..offset + 4]);
    var checksum := Unpack(data[offset + 4..offset + 8]);
    if length > MAX_RECORD_SIZE {
      return None;
    }
    var end := offset + HEADER_SIZE + length;
    if end > |data| {
      return None;
    }
    var payload := data[offset + HEADER_SIZE..end];
    if crc(data[offset..offset + 4] + payload) != checksum {
      return None;
    }
    record := Some(payload);
  }

  method DecodeRecords(crc: Checksum, data: seq<byte>) returns (scan: Scan)
    ensures scan == ScanOf(crc, data)
  {
    var records: seq<seq<byte>> := [];
    var offsets: seq<nat> := [];
    var offset, size := 0, |data|;
    ScanStarts(crc, data);
    hide ScannedTo, HeadRecord, ScanOf;
    while offset + HEADER_SIZE <= size
      invariant ScannedTo(crc, data, offset, records, offsets)
      decreases size - offset
    {
      var payload := ReadRecord(crc, data, offset);
      if payload.None? {
        break;
      }
      ScanGoesOn(crc, data, offset, records, offsets, payload.value);
      records := records + [payload.value];
      offsets := offsets + [offset];
      offset := offset + HEADER_SIZE + |payload.value|;
    }
    ScanEnds(crc, data, offset, records, offsets);
    scan := Scan(records, offsets, offset, size - offset);
  }
}
