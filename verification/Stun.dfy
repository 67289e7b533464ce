/**
  Reading a STUN Binding success response (crates/rivetlink-sdk/src/p2p.rs) against the
  message format of sections 5, 14 and 14.2 of RFC 8489.
 */
module Stun {
  import opened Common
  import opened Bytes

  const STUN_MAGIC := 0x2112A442
  const PORT_MASK := 0x2112
  const XOR_MAPPED_ADDRESS := 0x0020
  const IPV4: byte := 1
  const HEADER_LEN := 20

  datatype Address = Address(ip: nat, port: nat)

  // ---- exclusive or of `bits` low bits ----

  function Xor(a: nat, b: nat, bits: nat): nat {
    if bits == 0 then 0 else (if a % 2 == b % 2 then 0 else 1) + 2 * Xor(a / 2, b / 2, bits - 1)
  }

  function Pow2(n: nat): nat {
    if n == 0 then 1 else 2 * Pow2(n - 1)
  }

  /** Masking twice gives the value back. */
  lemma {:induction false} XorUndoes(a: nat, b: nat, bits: nat)
    requires a < Pow2(bits)
    ensures Xor(Xor(a, b, bits), b, bits) == a && Xor(a, b, bits) < Pow2(bits)
  {
    if bits > 0 {
      XorUndoes(a / 2, b / 2, bits - 1);
    }
  }

  // ---- the parser ----

  function Word(a: byte, b: byte): nat {
    a * 256 + b
  }

  function Padded(n: nat): nat {
    (n + 3) / 4 * 4
  }

  predicate Mapped(kind: nat, value: seq<byte>) {
    kind == XOR_MAPPED_ADDRESS && |value| == 8 && value[1] == IPV4
  }

  function Unmask(value: seq<byte>): Address
    requires |value| == 8
  {
    Address(Xor(FromBigEndian(value[4..8]), STUN_MAGIC, 32), Xor(Word(value[2], value[3]), PORT_MASK, 16))
  }

  /** The walk over the attributes; a truncated one ends it without an address. */
  function ParseAttributes(attrs: seq<byte>): Option<Address>
    decreases |attrs|
  {
    if |attrs| < 4 then None
    else
      var kind, len := Word(attrs[0], attrs[1]), Word(attrs[2], attrs[3]);
      if 4 + len > |attrs| then None
      else if Mapped(kind, attrs[4..4 + len]) then Some(Unmask(attrs[4..4 + len]))
      else if Padded(4 + len) > |attrs| then None
      else ParseAttributes(attrs[Padded(4 + len)..])
  }

  predicate IsSuccess(msg: seq<byte>, txid: seq<byte>) {
    |msg| >= HEADER_LEN && msg[..2] == [1, 1] && msg[4..8] == BigEndian(STUN_MAGIC, 4) && msg[8..20] == txid
  }

  function Parse(msg: seq<byte>, txid: seq<byte>): Option<Address> {
    if !IsSuccess(msg, txid) then None
    else
      var len := Word(msg[2], msg[3]);
      if HEADER_LEN + len > |msg| then None else ParseAttributes(msg[HEADER_LEN..HEADER_LEN + len])
  }

  /** `parse_binding_response`, on any bytes whatever. */
  method ParseBindingResponse(msg: seq<byte>, txid: seq<byte>) returns (r: Option<Address>)
    ensures r == Parse(msg, txid)
  {
    if !IsSuccess(msg, txid) {
      return None;
    }
    var total := Word(msg[2], msg[3]);
    if HEADER_LEN + total > |msg| {
      return None;
    }
    var attrs := msg[HEADER_LEN..HEADER_LEN + total];
    while |attrs| >= 4
      invariant ParseAttributes(attrs) == Parse(msg, txid)
      decreases |attrs|
    {
      var kind, len := Word(attrs[0], attrs[1]), Word(attrs[2], attrs[3]);
      if 4 + len > |attrs| {
        return None;
      }
      var value := attrs[4..4 + len];
      if kind == XOR_MAPPED_ADDRESS && len == 8 && value[1] == IPV4 {
        return Some(Unmask(value));
      }
      if Padded(4 + len) > |attrs| {
        return None;
      }
      attrs := attrs[Padded(4 + len)..];
    }
    r := None;
  }

  // ---- what a server prints ----

  datatype Attribute = Attribute(kind: nat, value: seq<byte>, padding: seq<byte>)

  predicate WellFormed(a: Attribute) {
    a.kind < 65536 && |a.value| < 65536 && 4 + |a.value| + |a.padding| == Padded(4 + |a.value|)
  }

  function Print(a: Attribute): seq<byte> {
    BigEndian(a.kind, 2) + BigEndian(|a.value|, 2) + a.value + a.padding
  }

  function PrintAll(attributes: seq<Attribute>): seq<byte> {
    if attributes == [] then [] else Print(attributes[0]) + PrintAll(attributes[1..])
  }

  function Response(txid: seq<byte>, attributes: seq<Attribute>): seq<byte> {
    [1, 1] + BigEndian(|PrintAll(attributes)|, 2) + BigEndian(STUN_MAGIC, 4) + txid + PrintAll(attributes)
  }

  /** The first IPv4 XOR-MAPPED-ADDRESS of the list. */
  function FirstMapped(attributes: seq<Attribute>): Option<Address> {
    if attributes == [] then None
    else if Mapped(attributes[0].kind, attributes[0].value) then Some(Unmask(attributes[0].value))
    else FirstMapped(attributes[1..])
  }

  lemma WordOfBytes(n: nat)
    requires n < 65536
    ensures |BigEndian(n, 2)| == 2 && Word(BigEndian(n, 2)[0], BigEndian(n, 2)[1]) == n
  {
    var b := BigEndian(n, 2);
    assert b == BigEndian(n / 256, 1) + [n % 256];
    assert BigEndian(n / 256, 1) == BigEndian(n / 256 / 256, 0) + [n / 256 % 256];
  }

  lemma Slices(k: seq<byte>, l: seq<byte>, value: seq<byte>, padding: seq<byte>, rest: seq<byte>)
    requires |k| == 2 && |l| == 2
    ensures var t := k + l + value + padding + rest;
            && t[0] == k[0] && t[1] == k[1] && t[2] == l[0] && t[3] == l[1]
            && t[4..4 + |value|] == value && t[4 + |value| + |padding|..] == rest
  {
  }

  lemma PrintedFields(a: Attribute, rest: seq<byte>)
    requires WellFormed(a)
    ensures var t := Print(a) + rest;
            && |t| >= 4 + |a.value| && Word(t[0], t[1]) == a.kind && Word(t[2], t[3]) == |a.value|
            && t[4..4 + |a.value|] == a.value && Padded(4 + |a.value|) == |Print(a)| && t[|Print(a)|..] == rest
  {
    WordOfBytes(a.kind);
    WordOfBytes(|a.value|);
    Slices(BigEndian(a.kind, 2), BigEndian(|a.value|, 2), a.value, a.padding, rest);
  }

  lemma {:induction false} ParseOfPrint(attributes: seq<Attribute>)
    requires forall a | a in attributes :: WellFormed(a)
    ensures ParseAttributes(PrintAll(attributes)) == FirstMapped(attributes)
  {
    if attributes != [] {
      assert attributes[0] in attributes;
      PrintedFields(attributes[0], PrintAll(attributes[1..]));
      ParseOfPrint(attributes[1..]);
    }
  }

  /** On every printed response, with anything after it, the parser finds the first IPv4
      mapped address of the attribute list, and none if there is none. */
  lemma ResponseParses(txid: seq<byte>, attributes: seq<Attribute>, extra: seq<byte>)
    requires |txid| == 12 && (forall a | a in attributes :: WellFormed(a)) && |PrintAll(attributes)| < 65536
    ensures Parse(Response(txid, attributes) + extra, txid) == FirstMapped(attributes)
  {
    var body := PrintAll(attributes);
    WordOfBytes(|body|);
    HeaderSlices([1, 1], BigEndian(|body|, 2), BigEndian(STUN_MAGIC, 4), txid, body, extra);
    ParseOfPrint(attributes);
  }

  lemma HeaderSlices(kind: seq<byte>, len: seq<byte>, magic: seq<byte>, txid: seq<byte>, body: seq<byte>, extra: seq<byte>)
    requires |kind| == 2 && |len| == 2 && |magic| == 4 && |txid| == 12
    ensures var msg := kind + len + magic + txid + body + extra;
            && msg[..2] == kind && msg[2] == len[0] && msg[3] == len[1] && msg[4..8] == magic && msg[8..20] == txid
            && msg[HEADER_LEN..HEADER_LEN + |body|] == body
  {
  }

  /** How a server writes an address: section 14.2 of RFC 8489. */
  function MappedAddress(a: Address, reserved: byte): Attribute {
    Attribute(XOR_MAPPED_ADDRESS, [reserved, IPV4] + BigEndian(Xor(a.port, PORT_MASK, 16), 2) + BigEndian(Xor(a.ip, STUN_MAGIC, 32), 4), [])
  }

  /** Round trip: the address a server saw is the one read back. */
  lemma AddressComesBack(a: Address, reserved: byte)
    requires a.ip < 0x1_0000_0000 && a.port < 65536
    ensures WellFormed(MappedAddress(a, reserved)) && Mapped(XOR_MAPPED_ADDRESS, MappedAddress(a, reserved).value)
    ensures Unmask(MappedAddress(a, reserved).value) == a
  {
    assert Pow2(8) == 256 && Pow2(16) == 65536 by {
      assert Pow2(12) == 16 * Pow2(8);
    }
    assert Pow2(32) == 0x1_0000_0000 by {
      assert Pow2(24) == 256 * Pow2(16) by {
        assert Pow2(20) == 16 * Pow2(16);
      }
      assert Pow2(28) == 16 * Pow2(24);
    }
    XorUndoes(a.port, PORT_MASK, 16);
    XorUndoes(a.ip, STUN_MAGIC, 32);
    var port, ip := Xor(a.port, PORT_MASK, 16), Xor(a.ip, STUN_MAGIC, 32);
    WordOfBytes(port);
    BigEndianRoundTrip(ip, 4);
    var v := MappedAddress(a, reserved).value;
    assert v[2..4] == BigEndian(port, 2) && v[4..8] == BigEndian(ip, 4);
    assert v[2] == v[2..4][0] && v[3] == v[2..4][1];
  }

  // ---- what gives an address ----

  lemma BytesOfWord(a: byte, b: byte)
    ensures BigEndian(Word(a, b), 2) == [a, b]
  {
    var n := Word(a, b);
    assert BigEndian(n, 2) == BigEndian(n / 256, 1) + [n % 256];
    assert BigEndian(n / 256, 1) == BigEndian(n / 256 / 256, 0) + [n / 256 % 256];
  }

  predicate Unmapped(attributes: seq<Attribute>) {
    forall a | a in attributes :: WellFormed(a) && !Mapped(a.kind, a.value)
  }

  /** Attributes with an IPv4 mapped address after others without one, and then anything. */
  function Body(before: seq<Attribute>, value: seq<byte>, rest: seq<byte>): seq<byte> {
    PrintAll(before) + Print(Attribute(XOR_MAPPED_ADDRESS, value, [])) + rest
  }

  lemma {:induction false} BodyParses(before: seq<Attribute>, value: seq<byte>, rest: seq<byte>)
    requires Unmapped(before) && Mapped(XOR_MAPPED_ADDRESS, value)
    ensures ParseAttributes(Body(before, value, rest)) == Some(Unmask(value))
  {
    if before == [] {
      assert Body(before, value, rest) == Print(Attribute(XOR_MAPPED_ADDRESS, value, [])) + rest;
      PrintedFields(Attribute(XOR_MAPPED_ADDRESS, value, []), rest);
    } else {
      assert before[0] in before;
      assert Body(before, value, rest) == Print(before[0]) + Body(before[1..], value, rest);
      PrintedFields(before[0], Body(before[1..], value, rest));
      BodyParses(before[1..], value, rest);
    }
  }

  /** The attribute at the front of `attrs`. */
  function FirstAttribute(attrs: seq<byte>): Attribute
    requires |attrs| >= 4 && Padded(4 + Word(attrs[2], attrs[3])) <= |attrs|
  {
    var len := Word(attrs[2], attrs[3]);
    Attribute(Word(attrs[0], attrs[1]), attrs[4..4 + len], attrs[4 + len..Padded(4 + len)])
  }

  lemma Five(s: seq<byte>, a: nat, b: nat, c: nat, d: nat)
    requires a <= b <= c <= d <= |s|
    ensures s == s[..a] + s[a..b] + s[b..c] + s[c..d] + s[d..]
  {
  }

  lemma FirstIsPrinted(attrs: seq<byte>)
    requires |attrs| >= 4 && Padded(4 + Word(attrs[2], attrs[3])) <= |attrs|
    ensures WellFormed(FirstAttribute(attrs)) && attrs == Print(FirstAttribute(attrs)) + attrs[Padded(4 + Word(attrs[2], attrs[3]))..]
  {
    var len := Word(attrs[2], attrs[3]);
    BytesOfWord(attrs[0], attrs[1]);
    BytesOfWord(attrs[2], attrs[3]);
    assert attrs[..2] == [attrs[0], attrs[1]] && attrs[2..4] == [attrs[2], attrs[3]];
    Five(attrs, 2, 4, 4 + len, Padded(4 + len));
  }

  lemma BodyCons(first: Attribute, before: seq<Attribute>, value: seq<byte>, rest: seq<byte>)
    requires Unmapped(before) && WellFormed(first) && !Mapped(first.kind, first.value)
    ensures Unmapped([first] + before) && Body([first] + before, value, rest) == Print(first) + Body(before, value, rest)
  {
    assert ([first] + before)[1..] == before;
    var p, q := Print(first), PrintAll(before);
    var m := Print(Attribute(XOR_MAPPED_ADDRESS, value, []));
    assert p + q + m + rest == p + (q + m + rest);
  }

  /** How the walk goes on at a whole attribute. */
  lemma ParseStep(attrs: seq<byte>)
    requires ParseAttributes(attrs).Some?
    ensures |attrs| >= 4 && Padded(4 + Word(attrs[2], attrs[3])) <= |attrs|
    ensures var first, tail := FirstAttribute(attrs), attrs[Padded(4 + Word(attrs[2], attrs[3]))..];
            && |tail| < |attrs|
            && ParseAttributes(attrs) == if Mapped(first.kind, first.value) then Some(Unmask(first.value)) else ParseAttributes(tail)
  {
  }

  lemma {:induction false} ParsedIsBody(attrs: seq<byte>) returns (before: seq<Attribute>, value: seq<byte>, rest: seq<byte>)
    requires ParseAttributes(attrs).Some?
    ensures attrs == Body(before, value, rest) && Unmapped(before) && Mapped(XOR_MAPPED_ADDRESS, value)
    ensures ParseAttributes(attrs) == Some(Unmask(value))
    decreases |attrs|
  {
    ParseStep(attrs);
    FirstIsPrinted(attrs);
    var first, tail := FirstAttribute(attrs), attrs[Padded(4 + Word(attrs[2], attrs[3]))..];
    if Mapped(first.kind, first.value) {
      before, value, rest := [], first.value, tail;
      assert first == Attribute(XOR_MAPPED_ADDRESS, value, []);
      assert [] + Print(first) == Print(first);
    } else {
      before, value, rest := ParsedIsBody(tail);
      BodyCons(first, before, value, rest);
      before := [first] + before;
    }
  }

  /** `msg` is a success response to `txid` that says `a`. */
  predicate Says(msg: seq<byte>, txid: seq<byte>, a: Address, before: seq<Attribute>, value: seq<byte>, rest: seq<byte>, extra: seq<byte>) {
    var body := Body(before, value, rest);
    && Unmapped(before) && Mapped(XOR_MAPPED_ADDRESS, value) && Unmask(value) == a && |body| < 65536
    && msg == [1, 1] + BigEndian(|body|, 2) + BigEndian(STUN_MAGIC, 4) + txid + body + extra
  }

  lemma SaidIsFound(msg: seq<byte>, txid: seq<byte>, a: Address, before: seq<Attribute>, value: seq<byte>, rest: seq<byte>, extra: seq<byte>)
    requires |txid| == 12 && Says(msg, txid, a, before, value, rest, extra)
    ensures Parse(msg, txid) == Some(a)
  {
    var body := Body(before, value, rest);
    WordOfBytes(|body|);
    HeaderSlices([1, 1], BigEndian(|body|, 2), BigEndian(STUN_MAGIC, 4), txid, body, extra);
    BodyParses(before, value, rest);
  }

  lemma SplitsHeader(msg: seq<byte>, txid: seq<byte>, len: nat)
    requires |txid| == 12 && IsSuccess(msg, txid) && len == Word(msg[2], msg[3]) && HEADER_LEN + len <= |msg|
    ensures msg == [1, 1] + BigEndian(len, 2) + BigEndian(STUN_MAGIC, 4) + txid + msg[HEADER_LEN..HEADER_LEN + len] + msg[HEADER_LEN + len..]
  {
    BytesOfWord(msg[2], msg[3]);
    assert msg[2..4] == [msg[2], msg[3]];
    Five(msg, 2, 4, 8, HEADER_LEN);
    assert msg[HEADER_LEN..] == msg[HEADER_LEN..HEADER_LEN + len] + msg[HEADER_LEN + len..];
    var front := [1, 1] + BigEndian(len, 2) + BigEndian(STUN_MAGIC, 4) + txid;
    assert front + (msg[HEADER_LEN..HEADER_LEN + len] + msg[HEADER_LEN + len..]) == front + msg[HEADER_LEN..HEADER_LEN + len] + msg[HEADER_LEN + len..];
  }

  lemma FoundIsSaid(msg: seq<byte>, txid: seq<byte>, a: Address)
    requires |txid| == 12 && Parse(msg, txid) == Some(a)
    ensures exists before, value, rest, extra :: Says(msg, txid, a, before, value, rest, extra)
  {
    var len := Word(msg[2], msg[3]);
    SplitsHeader(msg, txid, len);
    var before, value, rest := ParsedIsBody(msg[HEADER_LEN..HEADER_LEN + len]);
    assert Says(msg, txid, a, before, value, rest, msg[HEADER_LEN + len..]);
  }

  /** For all bytes whatever: an address is found exactly in a success response to this request
      whose declared body begins with well-formed attributes, the first IPv4 mapped one of which
      says it. So another kind, magic or transaction id gives none, nor does a message that is
      cut short. */
  lemma AddressIsFoundExactly(msg: seq<byte>, txid: seq<byte>, a: Address)
    requires |txid| == 12
    ensures Parse(msg, txid) == Some(a) <==> exists before, value, rest, extra :: Says(msg, txid, a, before, value, rest, extra)
  {
    if Parse(msg, txid) == Some(a) {
      FoundIsSaid(msg, txid, a);
    }
    if before, value, rest, extra :| Says(msg, txid, a, before, value, rest, extra) {
      SaidIsFound(msg, txid, a, before, value, rest, extra);
    }
  }

  /** A response to another request, a message of another kind or one that is not STUN's gives
      no address. */
  lemma OthersGiveNothing(kind: seq<byte>, magic: seq<byte>, other: seq<byte>, attributes: seq<Attribute>, extra: seq<byte>, txid: seq<byte>)
    requires |kind| == 2 && |magic| == 4 && |other| == 12 && (kind != [1, 1] || magic != BigEndian(STUN_MAGIC, 4) || other != txid)
    ensures var body := PrintAll(attributes);
            Parse(kind + BigEndian(|body|, 2) + magic + other + body + extra, txid) == None
  {
    var body := PrintAll(attributes);
    HeaderSlices(kind, BigEndian(|body|, 2), magic, other, body, extra);
  }
}
