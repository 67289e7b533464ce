/**
  Padded base64 (section 4 of RFC 4648) as the strict standard engine encodes and decodes
  it, and the length shortcut of the download loop.
 */
module Base64 {
  import opened Common

  const PAD: byte := 61

  function Char(v: nat): byte
    requires v < 64
  {
    if v < 26 then 65 + v
    else if v < 52 then 97 + (v - 26)
    else if v < 62 then 48 + (v - 52)
    else if v == 62 then 43
    else 47
  }

  function Value(c: byte): (v: Option<nat>)
    ensures v.Some? ==> v.value < 64 && Char(v.value) == c
  {
    if 65 <= c <= 90 then Some(c - 65)
    else if 97 <= c <= 122 then Some(c - 97 + 26)
    else if 48 <= c <= 57 then Some(c - 48 + 52)
    else if c == 43 then Some(62)
    else if c == 47 then Some(63)
    else None
  }

  /** Three bytes as four six-bit digits, and back. */
  function Split(a: byte, b: byte, c: byte): (d: (nat, nat, nat, nat))
    ensures d.0 < 64 && d.1 < 64 && d.2 < 64 && d.3 < 64
  {
    (a / 4, a % 4 * 16 + b / 16, b % 16 * 4 + c / 64, c % 64)
  }

  function Join(d: (nat, nat, nat, nat)): seq<byte>
    requires d.0 < 64 && d.1 < 64 && d.2 < 64 && d.3 < 64
  {
    [d.0 * 4 + d.1 / 16, d.1 % 16 * 16 + d.2 / 4, d.2 % 4 * 64 + d.3]
  }

  lemma Mix16(x: nat, y: nat)
    requires y < 16
    ensures (x * 16 + y) / 16 == x && (x * 16 + y) % 16 == y
  {
  }

  lemma Mix4(x: nat, y: nat)
    requires y < 4
    ensures (x * 4 + y) / 4 == x && (x * 4 + y) % 4 == y
  {
  }

  lemma Mix64(x: nat, y: nat)
    requires y < 64
    ensures (x * 64 + y) / 64 == x && (x * 64 + y) % 64 == y
  {
  }

  lemma JoinOfSplit(a: byte, b: byte, c: byte)
    ensures Join(Split(a, b, c)) == [a, b, c]
  {
    var (b1, c1) := (b / 16, c / 64);
    Mix16(a % 4, b1);
    Mix4(b % 16, c1);
    assert b == b1 * 16 + b % 16 && c == c1 * 64 + c % 64;
  }

  function EncodeGroup(a: byte, b: byte, c: byte): (t: seq<byte>)
    ensures |t| == 4
  {
    var d := Split(a, b, c);
    [Char(d.0), Char(d.1), Char(d.2), Char(d.3)]
  }

  function Encode(s: seq<byte>): seq<byte>
    decreases |s|, 1
  {
    if s == [] then [] else EncodeGroups(s)
  }

  function EncodeGroups(s: seq<byte>): seq<byte>
    requires s != []
    decreases |s|, 0
  {
    if |s| == 1 then EncodeGroup(s[0], 0, 0)[..2] + [PAD, PAD]
    else if |s| == 2 then EncodeGroup(s[0], s[1], 0)[..3] + [PAD]
    else EncodeGroup(s[0], s[1], s[2]) + Encode(s[3..])
  }

  /** Three bytes from four characters of the alphabet. */
  function DecodeGroup(t: seq<byte>): Option<seq<byte>>
    requires |t| >= 4
  {
    var (a, b, c, d) := (Value(t[0]), Value(t[1]), Value(t[2]), Value(t[3]));
    if a.None? || b.None? || c.None? || d.None? then None
    else Some(Join((a.value, b.value, c.value, d.value)))
  }

  /** The last group may end in padding, which stands for zero bits. */
  function DecodeLast(t: seq<byte>): Option<seq<byte>>
    requires |t| == 4
  {
    var zero := Char(0);
    if t[3] != PAD then DecodeGroup(t)
    else if t[2] != PAD then
      var g := DecodeGroup(t[..3] + [zero]);
      if g.Some? && g.value[2] == 0 then Some(g.value[..2]) else None
    else
      var g := DecodeGroup(t[..2] + [zero, zero]);
      if g.Some? && g.value[1] == 0 then Some(g.value[..1]) else None
  }

  function Decode(t: seq<byte>): Option<seq<byte>>
    decreases |t|, 1
  {
    if t == [] then Some([]) else if |t| < 4 then None else DecodeGroups(t)
  }

  function DecodeGroups(t: seq<byte>): Option<seq<byte>>
    requires |t| >= 4
    decreases |t|, 0
  {
    if |t| == 4 then DecodeLast(t)
    else
      var (group, rest) := (DecodeGroup(t), Decode(t[4..]));
      if group.None? || rest.None? then None else Some(group.value + rest.value)
  }

  lemma ValueOfChar(v: nat)
    requires v < 64
    ensures Value(Char(v)) == Some(v)
  {
  }

  lemma GroupRoundTrip(a: byte, b: byte, c: byte)
    ensures DecodeGroup(EncodeGroup(a, b, c)) == Some([a, b, c])
  {
    var d := Split(a, b, c);
    ValueOfChar(d.0);
    ValueOfChar(d.1);
    ValueOfChar(d.2);
    ValueOfChar(d.3);
    JoinOfSplit(a, b, c);
  }

  lemma NotPad(v: nat)
    requires v < 64
    ensures Char(v) != PAD && !Space(Char(v))
  {
  }

  lemma GroupHasNoPad(a: byte, b: byte, c: byte)
    ensures forall x | x in EncodeGroup(a, b, c) :: x != PAD && !Space(x)
  {
    var d := Split(a, b, c);
    NotPad(d.0);
    NotPad(d.1);
    NotPad(d.2);
    NotPad(d.3);
  }

  lemma OneByte(a: byte)
    ensures Decode(Encode([a])) == Some([a])
  {
    GroupRoundTrip(a, 0, 0);
    GroupHasNoPad(a, 0, 0);
    var t := EncodeGroups([a]);
    assert t[..2] + [Char(0), Char(0)] == EncodeGroup(a, 0, 0);
    assert [a, 0, 0][..1] == [a];
    assert DecodeLast(t) == Some([a]);
    assert DecodeGroups(t) == Some([a]);
  }

  lemma TwoBytes(a: byte, b: byte)
    ensures Decode(Encode([a, b])) == Some([a, b])
  {
    GroupRoundTrip(a, b, 0);
    GroupHasNoPad(a, b, 0);
    var t := EncodeGroups([a, b]);
    assert t[..3] + [Char(0)] == EncodeGroup(a, b, 0);
    assert [a, b, 0][..2] == [a, b];
    assert DecodeLast(t) == Some([a, b]);
    assert DecodeGroups(t) == Some([a, b]);
  }

  lemma {:induction false} RoundTrip(s: seq<byte>)
    ensures Decode(Encode(s)) == Some(s)
  {
    if |s| == 1 {
      OneByte(s[0]);
      assert s == [s[0]];
    } else if |s| == 2 {
      TwoBytes(s[0], s[1]);
      assert s == [s[0], s[1]];
    } else if |s| >= 3 {
      RoundTrip(s[3..]);
      ThreeBytes(s[0], s[1], s[2], s[3..]);
      assert s == [s[0], s[1], s[2]] + s[3..];
    }
  }

  lemma ThreeBytes(a: byte, b: byte, c: byte, rest: seq<byte>)
    requires Decode(Encode(rest)) == Some(rest)
    ensures Decode(Encode([a, b, c] + rest)) == Some([a, b, c] + rest)
  {
    GroupRoundTrip(a, b, c);
    GroupHasNoPad(a, b, c);
    GroupThenRest(EncodeGroup(a, b, c), Encode(rest));
    assert ([a, b, c] + rest)[3..] == rest;
  }

  lemma GroupThenRest(group: seq<byte>, rest: seq<byte>)
    requires |group| == 4 && DecodeGroup(group).Some? && group[3] != PAD && Decode(rest).Some?
    ensures Decode(group + rest) == Some(DecodeGroup(group).value + Decode(rest).value)
  {
    var t := group + rest;
    assert t[4..] == rest;
    if rest == [] {
      assert t == group;
      assert DecodeGroup(group).value + [] == DecodeGroup(group).value;
    } else {
      assert DecodeGroup(t) == DecodeGroup(group);
    }
  }

  /** The number of padding characters at the end. */
  function Pads(t: seq<byte>): nat {
    if t != [] && Last(t) == PAD then 1 + Pads(t[..|t| - 1]) else 0
  }

  /** `base64_decoded_len`: no decoding, only length and padding. */
  function DecodedLen(t: seq<byte>): nat {
    Max(|t| / 4 * 3 - Pads(t), 0)
  }

  lemma {:induction false} PadsOfTail(a: seq<byte>, b: seq<byte>)
    requires b != [] && b[0] != PAD
    ensures Pads(a + b) == Pads(b)
    decreases |b|
  {
    assert Last(a + b) == Last(b);
    if Last(b) == PAD {
      assert (a + b)[..|a + b| - 1] == a + b[..|b| - 1];
      PadsOfTail(a, b[..|b| - 1]);
    }
  }

  lemma PadsOfLast(t: seq<byte>)
    requires |t| == 4 && t[1] != PAD
    ensures Pads(t) == if t[3] != PAD then 0 else if t[2] != PAD then 1 else 2
  {
    assert t[..3][..2] == t[..2] && Last(t[..2]) == t[1];
    assert Pads(t[..2]) == 0;
    assert Last(t[..3]) == t[2];
  }

  lemma Quarters(n: nat)
    ensures (n + 4) / 4 * 3 == n / 4 * 3 + 3
  {
  }

  /** The shortcut is exact for every string the decoder accepts. */
  lemma {:induction false} DecodedLenIsExact(t: seq<byte>)
    requires Decode(t).Some?
    ensures DecodedLen(t) == |Decode(t).value|
    ensures t != [] ==> |t| / 4 * 3 - Pads(t) > 0 && t[0] != PAD
  {
    if |t| == 4 {
      PadsOfLast(t);
    } else if |t| > 4 {
      DecodedLenIsExact(t[4..]);
      assert t == t[..4] + t[4..];
      PadsOfTail(t[..4], t[4..]);
      Quarters(|t| - 4);
    }
  }

  // ---- whitespace around pasted keys ----

  predicate Space(c: byte) {
    9 <= c <= 13 || c == 32
  }

  function TrimStart(t: seq<byte>): seq<byte> {
    if t != [] && Space(t[0]) then TrimStart(t[1..]) else t
  }

  function TrimEnd(t: seq<byte>): seq<byte> {
    if t != [] && Space(Last(t)) then TrimEnd(t[..|t| - 1]) else t
  }

  function Trim(t: seq<byte>): seq<byte> {
    TrimEnd(TrimStart(t))
  }

  lemma {:induction false} EncodeHasNoSpace(s: seq<byte>)
    ensures forall c | c in Encode(s) :: !Space(c)
  {
    if |s| >= 3 {
      EncodeHasNoSpace(s[3..]);
    }
  }

  /** `decode_n`: trimmed, strict, and of the right length. */
  function DecodeN(t: seq<byte>, n: nat): Option<seq<byte>> {
    var d := Decode(Trim(t));
    if d.Some? && |d.value| == n then d else None
  }

  lemma DecodeNOfEncode(s: seq<byte>)
    ensures DecodeN(Encode(s), |s|) == Some(s) && Decode(Trim(Encode(s))) == Some(s)
  {
    EncodeHasNoSpace(s);
    RoundTrip(s);
    assert Trim(Encode(s)) == Encode(s);
  }

  // ---- decoding is strict, so texts are canonical ----

  lemma SplitOfJoin(d: (nat, nat, nat, nat))
    requires d.0 < 64 && d.1 < 64 && d.2 < 64 && d.3 < 64
    ensures var g := Join(d);
            Split(g[0], g[1], g[2]) == d
  {
    Mix4(d.0, d.1 / 16);
    Mix16(d.1 % 16, d.2 / 4);
    Mix64(d.2 % 4, d.3);
    assert d.1 / 16 * 16 + d.1 % 16 == d.1 && d.2 / 4 * 4 + d.2 % 4 == d.2;
  }

  lemma GroupIsCanonical(t: seq<byte>)
    requires |t| >= 4 && DecodeGroup(t).Some?
    ensures var g := DecodeGroup(t).value;
            |g| == 3 && EncodeGroup(g[0], g[1], g[2]) == t[..4]
  {
    SplitOfJoin((Value(t[0]).value, Value(t[1]).value, Value(t[2]).value, Value(t[3]).value));
  }

  lemma UnpaddedIsCanonical(t: seq<byte>)
    requires |t| == 4 && t[3] != PAD && DecodeLast(t).Some?
    ensures Encode(DecodeLast(t).value) == t && DecodeLast(t).value != []
  {
    GroupIsCanonical(t);
    var s := DecodeLast(t).value;
    assert EncodeGroups(s) == EncodeGroup(s[0], s[1], s[2]) + Encode(s[3..]) && Encode(s[3..]) == [];
    assert t[..4] == t;
  }

  lemma PaddedIsCanonical(t: seq<byte>)
    requires |t| == 4 && t[3] == PAD && t[2] != PAD && DecodeLast(t).Some?
    ensures Encode(DecodeLast(t).value) == t && DecodeLast(t).value != []
  {
    GroupIsCanonical(t[..3] + [Char(0)]);
  }

  lemma TwicePaddedIsCanonical(t: seq<byte>)
    requires |t| == 4 && t[3] == PAD && t[2] == PAD && DecodeLast(t).Some?
    ensures Encode(DecodeLast(t).value) == t && DecodeLast(t).value != []
  {
    GroupIsCanonical(t[..2] + [Char(0), Char(0)]);
  }

  lemma LastIsCanonical(t: seq<byte>)
    requires |t| == 4 && DecodeLast(t).Some?
    ensures Encode(DecodeLast(t).value) == t && DecodeLast(t).value != []
  {
    if t[3] != PAD {
      UnpaddedIsCanonical(t);
    } else if t[2] != PAD {
      PaddedIsCanonical(t);
    } else {
      TwicePaddedIsCanonical(t);
    }
  }

  /** No two texts decode to the same bytes: what decodes is what encoding gives. */
  lemma {:induction false} EncodeOfDecode(t: seq<byte>)
    requires Decode(t).Some?
    ensures Encode(Decode(t).value) == t
  {
    if |t| == 4 {
      LastIsCanonical(t);
    } else if t != [] {
      GroupIsCanonical(t);
      EncodeOfDecode(t[4..]);
      var s := Decode(t).value;
      assert s[3..] == Decode(t[4..]).value;
      assert t == t[..4] + t[4..];
    }
  }
}
