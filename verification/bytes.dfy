// Big-endian unsigned fields, as `struct` packs and unpacks them.
module Bytes {
  import opened Types

  function Power256(width: nat): (p: nat)
    ensures p >= 1
  {
    if width == 0 then 1 else 256 * Power256(width - 1)
  }

  /** Values a field of `width` bytes can hold; packing any other raises. */
  predicate Fits(value: nat, width: nat) {
    value < Power256(width)
  }

  function Pack(value: nat, width: nat): (bytes: seq<byte>)
    ensures |bytes| == width
  {
    if width == 0 then [] else Pack(value / 256, width - 1) + [value % 256]
  }

  function Unpack(bytes: seq<byte>): nat {
    if bytes == [] then 0 else 256 * Unpack(bytes[..|bytes| - 1]) + bytes[|bytes| - 1]
  }

  lemma {:induction false} UnpackPack(value: nat, width: nat)
    requires Fits(value, width)
    ensures Unpack(Pack(value, width)) == value
  {
    if width > 0 {
      var bytes := Pack(value, width);
      assert bytes[..width - 1] == Pack(value / 256, width - 1);
      UnpackPack(value / 256, width - 1);
    }
  }

  predicate MostSignificantFirst(bytes: seq<byte>, value: nat) {
    forall i :: 0 <= i < |bytes| ==> bytes[i] == value / Power256(|bytes| - 1 - i) % 256
  }

  lemma PackedMostSignificantFirst(value: nat, width: nat)
    ensures MostSignificantFirst(Pack(value, width), value)
  {
    forall i | 0 <= i < width ensures Pack(value, width)[i] == value / Power256(width - 1 - i) % 256 {
      BigEndian(value, width, i);
    }
  }

  /** The most significant byte comes first. */
  lemma {:induction false} BigEndian(value: nat, width: nat, i: nat)
    requires i < width
    ensures Pack(value, width)[i] == value / Power256(width - 1 - i) % 256
  {
    if i < width - 1 {
      BigEndian(value / 256, width - 1, i);
      DivideTwice(value, Power256(width - 2 - i));
    }
  }

  lemma DivideTwice(value: nat, p: nat)
    requires p > 0
    ensures value / 256 / p == value / (256 * p)
  {
    var q, r := value / 256, value % 256;
    var q', r' := q / p, q % p;
    assert q == q' * p + r';
    assert 256 * q == 256 * (q' * p) + 256 * r';
    assert 256 * (q' * p) == (256 * p) * q';
    assert value == (256 * p) * q' + (256 * r' + r);
    assert 0 <= 256 * r' + r < 256 * p;
    QuotientIs(value, 256 * p, q', 256 * r' + r);
  }

  lemma QuotientIs(value: nat, d: nat, q: nat, r: nat)
    requires d > 0 && value == d * q + r && r < d
    ensures value / d == q
  {
    var q', r' := value / d, value % d;
    assert value == d * q' + r';
    if q' > q {
      OneMoreTime(d, q, q');
    } else if q' < q {
      OneMoreTime(d, q', q);
    }
  }

  lemma OneMoreTime(d: nat, q: nat, more: nat)
    requires q < more
    ensures d * q + d <= d * more
  {
    var rest := more - q - 1;
    assert d * (q + 1 + rest) == d * q + d + d * rest;
  }

  lemma {:induction false} PackUnpack(bytes: seq<byte>)
    ensures Fits(Unpack(bytes), |bytes|)
    ensures Pack(Unpack(bytes), |bytes|) == bytes
  {
    if bytes != [] {
      var front := bytes[..|bytes| - 1];
      PackUnpack(front);
      assert Unpack(bytes) / 256 == Unpack(front);
      assert Unpack(bytes) % 256 == bytes[|bytes| - 1];
      assert bytes == front + [bytes[|bytes| - 1]];
    }
  }

  lemma PowerValues()
    ensures Power256(1) == 0x100
    ensures Power256(2) == 0x1_0000
    ensures Power256(4) == 0x1_0000_0000
    ensures Power256(8) == 0x1_0000_0000_0000_0000
  {
    assert Power256(2) == 256 * Power256(1);
    assert Power256(3) == 256 * Power256(2);
    assert Power256(4) == 256 * Power256(3);
    assert Power256(5) == 256 * Power256(4);
    assert Power256(6) == 256 * Power256(5);
    assert Power256(7) == 256 * Power256(6);
    assert Power256(8) == 256 * Power256(7);
  }
}
