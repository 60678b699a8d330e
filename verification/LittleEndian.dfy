/** Fixed-width unsigned integers as little-endian bytes. */
module LittleEndian {
  type byte = x: int | 0 <= x < 256

  function Pow256(width: nat): (p: nat)
    ensures p >= 1
  {
    if width == 0 then 1 else 256 * Pow256(width - 1)
  }

  function Encode(n: nat, width: nat): (bytes: seq<byte>)
    ensures |bytes| == width
  {
    if width == 0 then [] else [n % 256] + Encode(n / 256, width - 1)
  }

  function Value(bytes: seq<byte>): (n: nat)
    ensures n < Pow256(|bytes|)
  {
    if bytes == [] then 0 else bytes[0] + 256 * Value(bytes[1..])
  }

  lemma {:induction false} ValueOfEncode(n: nat, width: nat)
    requires n < Pow256(width)
    ensures Value(Encode(n, width)) == n
  {
    if width > 0 {
      ValueOfEncode(n / 256, width - 1);
      assert Encode(n, width)[1..] == Encode(n / 256, width - 1);
    }
  }

  /** Writing what was read gives the bytes back. */
  lemma {:induction false} EncodeOfValue(bytes: seq<byte>)
    ensures Encode(Value(bytes), |bytes|) == bytes
  {
    if bytes != [] {
      EncodeOfValue(bytes[1..]);
      assert (bytes[0] + 256 * Value(bytes[1..])) % 256 == bytes[0];
      assert bytes == [bytes[0]] + bytes[1..];
    }
  }

  /** Four bytes written out. */
  function Four(a: int, b: int, c: int, d: int): int { a + 256 * b + 65536 * c + 16777216 * d }

  lemma FirstFour(b: seq<byte>)
    requires |b| >= 4
    ensures Value(b) == Four(b[0], b[1], b[2], b[3]) + 0x1_0000_0000 * Value(b[4..])
  {
    assert b[1..][1..] == b[2..] && b[2..][1..] == b[3..] && b[3..][1..] == b[4..];
    assert Value(b[3..]) == b[3] + 256 * Value(b[4..]);
    assert Value(b[2..]) == b[2] + 256 * Value(b[3..]);
    assert Value(b[1..]) == b[1] + 256 * Value(b[2..]);
  }

  /** One, two, four and eight bytes written out. */
  lemma ValueOfBytes(b: seq<byte>)
    ensures |b| == 1 ==> Value(b) == b[0]
    ensures |b| == 2 ==> Value(b) == b[0] + 256 * (b[1] as int)
    ensures |b| == 4 ==> Value(b) == Four(b[0], b[1], b[2], b[3])
    ensures |b| == 8 ==>
      Value(b) == Four(b[0], b[1], b[2], b[3]) + 0x1_0000_0000 * Four(b[4], b[5], b[6], b[7])
  {
    if |b| == 2 {
      assert Value(b[1..]) == b[1] + 256 * Value(b[1..][1..]);
    } else if |b| >= 4 {
      FirstFour(b);
      if |b| == 8 {
        FirstFour(b[4..]);
        assert b[4..][4..] == [];
      }
    }
  }

  lemma SmallEncode(n: byte)
    ensures Encode(n, 8) == [n, 0, 0, 0, 0, 0, 0, 0]
  {
    hide Value, Encode;
    var bytes: seq<byte> := [n, 0, 0, 0, 0, 0, 0, 0];
    ValueOfBytes(bytes);
    EncodeOfValue(bytes);
  }

  lemma Pow256Of8()
    ensures Pow256(8) == 0x1_0000_0000_0000_0000
    ensures Pow256(4) == 0x1_0000_0000
    ensures Pow256(2) == 0x1_0000
    ensures Pow256(1) == 0x100
  {
    assert Pow256(0) == 1;
    assert Pow256(2) == 256 * Pow256(1);
    assert Pow256(3) == 256 * Pow256(2);
    assert Pow256(4) == 256 * Pow256(3);
    assert Pow256(5) == 256 * Pow256(4);
    assert Pow256(6) == 256 * Pow256(5);
    assert Pow256(7) == 256 * Pow256(6);
    assert Pow256(8) == 256 * Pow256(7);
  }
}
