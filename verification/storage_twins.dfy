// The two implementations of the `Storage` protocol, side by side: a file, and a simulated
// disk on which nothing fails. tests/test_storage.py holds both to one contract.
module StorageTwins {
  import opened Types
  import opened Codec
  import opened Storage
  import opened Disk

  datatype Call =
    | Append(added: seq<seq<byte>>)
    | TruncateFrom(index: int)
    | Sync(cost: nat)
    | ReadAll

  /** How a call ended, and what a reading call read. */
  datatype Reply = Reply(status: Status, read: seq<seq<byte>>)

  /** What the protocol promises of one call on a log of `records`. */
  function Answer(records: seq<seq<byte>>, call: Call): Reply {
    match call
    case Append(added) => Reply(if Encodable(added) then Ok else Raised(ValueError), [])
    case TruncateFrom(index) => Reply(if 0 <= index <= |records| then Ok else Raised(IndexError), [])
    case Sync(_) => Reply(Ok, [])
    case ReadAll => Reply(Ok, records)
  }

  function After(records: seq<seq<byte>>, call: Call): seq<seq<byte>> {
    match call
    case Append(added) => if Encodable(added) then records + added else records
    case TruncateFrom(index) => if 0 <= index <= |records| then records[..index] else records
    case _ => records
  }

  method CallFile(file: FileStorage, call: Call) returns (reply: Reply)
    requires file.Valid()
    modifies file
    ensures file.Valid()
    ensures reply == Answer(old(file.records), call) && file.records == After(old(file.records), call)
  {
    var status, read: seq<seq<byte>> := Ok, [];
    match call {
      case Append(added) => status := file.Append(added);
      case TruncateFrom(index) => status := file.TruncateFrom(index);
      case Sync(_) => status := file.Sync();
      case ReadAll => read := file.ReadAll();
    }
    reply := Reply(status, read);
  }

  method CallDisk(disk: SimStorage, call: Call) returns (reply: Reply)
    requires disk.Valid() && disk.Up()
    modifies disk
    ensures disk.Valid() && disk.Up()
    ensures reply == Answer(old(disk.attempted), call) && disk.attempted == After(old(disk.attempted), call)
  {
    var status, read: seq<seq<byte>> := Ok, [];
    match call {
      case Append(added) => status := disk.Append(added, false, 0);
      case TruncateFrom(index) => status := disk.TruncateFrom(index);
      case Sync(cost) => status := disk.Sync(cost);
      case ReadAll => status, read := disk.ReadAll();
    }
    reply := Reply(status, read);
  }

  /** The same calls on both: the same replies throughout, and in the end the same bytes. */
  method SameCalls(file: FileStorage, disk: SimStorage, calls: seq<Call>)
    returns (fromFile: seq<Reply>, fromDisk: seq<Reply>)
    requires file.Valid() && disk.Valid() && disk.Up() && file.crc == disk.crc && file.records == disk.attempted
    modifies file, disk
    ensures file.Valid() && disk.Valid() && disk.Up()
    ensures |fromFile| == |calls| && fromFile == fromDisk
    ensures file.records == disk.attempted && file.file == disk.bytes
  {
    fromFile, fromDisk := [], [];
    var i := 0;
    while i < |calls|
      invariant 0 <= i <= |calls|
      invariant file.Valid() && disk.Valid() && disk.Up() && file.records == disk.attempted
      invariant |fromFile| == i && fromFile == fromDisk
    {
      var one := CallFile(file, calls[i]);
      var other := CallDisk(disk, calls[i]);
      fromFile, fromDisk := fromFile + [one], fromDisk + [other];
      i := i + 1;
    }
  }

  /** Whatever a crash left of the disk, recovering it there and opening it as a file give the
      same log: all that was synced, and of the rest a prefix. */
  method SameAfterCrash(disk: SimStorage, lose: bool, draw: nat) returns (file: FileStorage)
    requires disk.Valid()
    modifies disk
    ensures fresh(file) && file.Valid() && disk.Valid() && disk.Up()
    ensures file.records == disk.attempted && file.file == disk.bytes
    ensures disk.attempted <= old(disk.attempted) && old(disk.synced) <= |disk.attempted|
  {
    hide Frames, Decode, Offsets;
    disk.Crash(lose, draw);
    file := new FileStorage(disk.crc, disk.bytes);
    disk.Restart();
  }
}
