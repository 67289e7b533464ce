/** Big-endian integers and length-prefixed fields. */
module Bytes {
  import opened Common

  const U64: nat := 0x1_0000_0000_0000_0000

  function Pow256(n: nat): nat {
    if n == 0 then 1 else 256 * Pow256(n - 1)
  }

  /** The low `len` bytes of `n`, most significant first. */
  function BigEndian(n: nat, len: nat): (s: seq<byte>)
    ensures |s| == len
  {
    if len == 0 then [] else BigEndian(n / 256, len - 1) + [n % 256]
  }

  function FromBigEndian(s: seq<byte>): nat {
    if s == [] then 0 else 256 * FromBigEndian(s[..|s| - 1]) + Last(s)
  }

  lemma {:induction false} BigEndianRoundTrip(n: nat, len: nat)
    requires n < Pow256(len)
    ensures FromBigEndian(BigEndian(n, len)) == n
  {
    if len > 0 {
      BigEndianRoundTrip(n / 256, len - 1);
      var s := BigEndian(n, len);
      assert s[..len - 1] == BigEndian(n / 256, len - 1);
    }
  }

  lemma LowByte(high: nat, low: byte)
    ensures (256 * high + low) / 256 == high && (256 * high + low) % 256 == low
  {
  }

  lemma {:induction false} BigEndianOfFrom(s: seq<byte>)
    ensures BigEndian(FromBigEndian(s), |s|) == s
  {
    if s != [] {
      var front, low := s[..|s| - 1], Last(s);
      BigEndianOfFrom(front);
      LowByte(FromBigEndian(front), low);
      assert BigEndian(256 * FromBigEndian(front) + low, |s|) == BigEndian(FromBigEndian(front), |front|) + [low];
      assert s == front + [low];
    }
  }

  lemma {:induction false} FromBigEndianBelow(s: seq<byte>)
    ensures FromBigEndian(s) < Pow256(|s|)
  {
    if s != [] {
      FromBigEndianBelow(s[..|s| - 1]);
    }
  }

  lemma Pow256Of8()
    ensures Pow256(8) == U64
  {
    assert Pow256(4) == 0x1_0000_0000;
  }

  lemma BigEndian64(n: nat)
    requires n < U64
    ensures FromBigEndian(BigEndian(n, 8)) == n
  {
    Pow256Of8();
    BigEndianRoundTrip(n, 8);
  }

  lemma FromBigEndianBound(s: seq<byte>)
    requires |s| == 8
    ensures FromBigEndian(s) < U64
  {
    Pow256Of8();
    FromBigEndianBelow(s);
  }

  /** `append_field`: the value behind its 64-bit length. */
  function Field(value: seq<byte>): seq<byte> {
    BigEndian(|value|, 8) + value
  }

  function Fields(values: seq<seq<byte>>): seq<byte> {
    if values == [] then [] else Field(values[0]) + Fields(values[1..])
  }

  predicate Addressable(values: seq<seq<byte>>) {
    forall v | v in values :: |v| < U64
  }

  /** A field is found again at the front of whatever follows it. */
  lemma FieldInjective(a: seq<byte>, x: seq<byte>, b: seq<byte>, y: seq<byte>)
    requires |a| < U64 && |b| < U64
    requires Field(a) + x == Field(b) + y
    ensures a == b && x == y
  {
    var s, t := Field(a) + x, Field(b) + y;
    assert s[..8] == BigEndian(|a|, 8) && t[..8] == BigEndian(|b|, 8);
    BigEndian64(|a|);
    BigEndian64(|b|);
    assert s[8..8 + |a|] == a && t[8..8 + |b|] == b;
    assert s[8 + |a|..] == x && t[8 + |b|..] == y;
  }

  /** Length-prefixed fields determine the values and their number. */
  lemma {:induction false} FieldsInjective(a: seq<seq<byte>>, b: seq<seq<byte>>)
    requires Addressable(a) && Addressable(b)
    requires Fields(a) == Fields(b)
    ensures a == b
  {
    if a != [] && b != [] {
      assert a[0] in a && b[0] in b;
      FieldInjective(a[0], Fields(a[1..]), b[0], Fields(b[1..]));
      assert forall v | v in a[1..] :: v in a;
      assert forall v | v in b[1..] :: v in b;
      FieldsInjective(a[1..], b[1..]);
      assert a == [a[0]] + a[1..] && b == [b[0]] + b[1..];
    }
  }
}
