// groundhog/kv.py: the replicated state machine.
module Kv {
  import opened Types
  import opened Bytes

  const PUT := "put"
  const DELETE := "delete"

  datatype Command = Command(op: string, key: Text, value: Text)

  /** The value of a `KvStore`. */
  datatype Store = Store(data: map<Text, Text>, applied: nat)

  const EMPTY_STORE := Store(map[], 0)

  function Applied(store: Store, command: Command): Store {
    if command.op == PUT then
      Store(store.data[command.key := command.value], store.applied + 1)
    else
      Store(store.data - {command.key}, store.applied + 1)
  }

  class KvStore {
    var data: map<Text, Text>
    var applied: nat

    function View(): Store
      reads this
    {
      Store(data, applied)
    }

    constructor ()
      ensures View() == EMPTY_STORE
    {
      data, applied := map[], 0;
    }

    method Apply(command: Command)
      modifies this
      ensures View() == Applied(old(View()), command)
    {
      if command.op == PUT {
        data := data[command.key := command.value];
      } else {
        data := data - {command.key};
      }
      applied := applied + 1;
    }
  }

  // -- commands as bytes: a header of one, two and four bytes, then key and value

  const COMMAND_HEADER := 7

  function OpCode(op: string): Option<byte> {
    if op == PUT then Some(1) else if op == DELETE then Some(2) else None
  }

  function OpOf(code: nat): Option<string> {
    if code == 1 then Some(PUT) else if code == 2 then Some(DELETE) else None
  }

  /** `encode_command`; None where an unknown operation or an oversized field raises. */
  function EncodeCommand(command: Command): Option<seq<byte>> {
    match OpCode(command.op)
    case None => None
    case Some(code) =>
      if !Fits(|command.key|, 2) || !Fits(|command.value|, 4) then
        None
      else
        Some(Pack(code, 1) + Pack(|command.key|, 2) + Pack(|command.value|, 4) + command.key + command.value)
  }

  /** `decode_command`; None where it raises. */
  function DecodeCommand(data: seq<byte>): Option<Command> {
    if |data| < COMMAND_HEADER then
      None
    else
      var middle := COMMAND_HEADER + Unpack(data[1..3]);
      var end := middle + Unpack(data[3..7]);
      if end != |data| then
        None
      else
        match OpOf(Unpack(data[..1]))
        case None => None
        case Some(op) => Some(Command(op, data[COMMAND_HEADER..middle], data[middle..end]))
  }

  lemma CommandRoundTrip(command: Command)
    requires EncodeCommand(command).Some?
    ensures DecodeCommand(EncodeCommand(command).value) == Some(command)
  {
    var code := OpCode(command.op).value;
    var data := EncodeCommand(command).value;
    PowerValues();
    UnpackPack(code, 1);
    UnpackPack(|command.key|, 2);
    UnpackPack(|command.value|, 4);
    assert data[..1] == Pack(code, 1);
    assert data[1..3] == Pack(|command.key|, 2);
    assert data[3..7] == Pack(|command.value|, 4);
    assert data[COMMAND_HEADER..COMMAND_HEADER + |command.key|] == command.key;
    var middle := COMMAND_HEADER + |command.key|;
    assert data[middle..middle + |command.value|] == command.value;
  }

  /** Exactly the two operations encode, with a key of up to 64 KiB and a value of up to 4 GiB;
      a byte for the operation comes first, then the two lengths, the key and the value. */
  lemma CommandEncodes(command: Command)
    ensures EncodeCommand(command).Some?
       <==> (command.op == "put" || command.op == "delete")
            && |command.key| <= 0xFFFF && |command.value| <= 0xFFFF_FFFF
    ensures EncodeCommand(command).Some? ==>
      var data := EncodeCommand(command).value;
      && |data| == 7 + |command.key| + |command.value|
      && data[0] == (if command.op == "put" then 1 else 2)
      && Unpack(data[1..3]) == |command.key| && Unpack(data[3..7]) == |command.value|
      && data[7..7 + |command.key|] == command.key && data[7 + |command.key|..] == command.value
  {
    PowerValues();
    if EncodeCommand(command).Some? {
      var data := EncodeCommand(command).value;
      CommandRoundTrip(command);
      UnpackPack(OpCode(command.op).value, 1);
      UnpackPack(|command.key|, 2);
      UnpackPack(|command.value|, 4);
      assert data[1..3] == Pack(|command.key|, 2) && data[3..7] == Pack(|command.value|, 4);
      assert Pack(OpCode(command.op).value, 1)[0] == OpCode(command.op).value by {
        BigEndian(OpCode(command.op).value, 1, 0);
      }
    }
  }

  /** Whatever decodes is the encoding of what it decodes to. */
  lemma CommandReencodes(data: seq<byte>)
    requires DecodeCommand(data).Some?
    ensures EncodeCommand(DecodeCommand(data).value) == Some(data)
  {
    var command := DecodeCommand(data).value;
    PackUnpack(data[..1]);
    PackUnpack(data[1..3]);
    PackUnpack(data[3..7]);
    assert data[..1] + data[1..3] == data[..3];
    assert data[..3] + data[3..7] == data[..7];
    assert data[..7] + command.key + command.value == data;
  }

  // -- rebuilding a store from a log of encoded commands

  predicate Decodable(records: seq<seq<byte>>) {
    forall i :: 0 <= i < |records| ==> DecodeCommand(records[i]).Some?
  }

  function Build(store: Store, records: seq<seq<byte>>): Store
    requires Decodable(records)
    decreases |records|
  {
    if records == [] then store
    else
      assert forall i :: 0 <= i < |records[1..]| ==> records[1..][i] == records[i + 1];
      Build(Applied(store, DecodeCommand(records[0]).value), records[1..])
  }

  /** `KvStore.replay`; None where an undecodable record raises. */
  method Rebuild(records: seq<seq<byte>>) returns (store: Option<KvStore>)
    ensures store.Some? <==> Decodable(records)
    ensures store.Some? ==> fresh(store.value) && store.value.View() == Build(EMPTY_STORE, records)
  {
    var built := new KvStore();
    var i := 0;
    while i < |records|
      invariant 0 <= i <= |records| && fresh(built)
      invariant Decodable(records[..i])
      invariant Decodable(records) ==> Build(built.View(), records[i..]) == Build(EMPTY_STORE, records)
    {
      var command := DecodeCommand(records[i]);
      if command.None? {
        return None;
      }
      assert records[..i + 1] == records[..i] + [records[i]];
      assert records[i..][0] == records[i] && records[i..][1..] == records[i + 1..];
      built.Apply(command.value);
      i := i + 1;
    }
    assert records[..i] == records;
    store := Some(built);
  }
}
