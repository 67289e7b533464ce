/**
  The text of a key exchange packet (crates/rivetlink-protocol/src/packets.rs), as it enters the
  relay transcript: JSON strings are escaped as in section 7 of RFC 8259, so the text of a
  packet shows where it ends and which packet it is.
 */
module RelayJson {
  import opened Common
  import opened Transcripts
  import opened HostSession

  const QUOTE: byte := 34
  const BACKSLASH: byte := 92

  function HexDigit(n: nat): byte
    requires n < 16
  {
    if n < 10 then 48 + n else 87 + n
  }

  /** The letter of a two-character escape. */
  function Letter(b: byte): Option<byte> {
    match b
    case 34 => Some(34)
    case 92 => Some(92)
    case 8 => Some(98)
    case 9 => Some(116)
    case 10 => Some(110)
    case 12 => Some(102)
    case 13 => Some(114)
    case _ => None
  }

  function Escaped(b: byte): (e: seq<byte>)
    ensures e != [] && e[0] != QUOTE
  {
    if Letter(b).Some? then [BACKSLASH, Letter(b).value]
    else if b < 32 then [BACKSLASH, 117, 48, 48, HexDigit(b / 16), HexDigit(b % 16)]
    else [b]
  }

  function Text(s: seq<byte>): seq<byte> {
    if s == [] then [] else Escaped(s[0]) + Text(s[1..])
  }

  /** An escaped byte is recognised at the front of whatever follows it. */
  lemma EscapedApart(a: byte, x: seq<byte>, b: byte, y: seq<byte>)
    requires Escaped(a) + x == Escaped(b) + y
    ensures a == b && x == y
  {
    var s, t := Escaped(a) + x, Escaped(b) + y;
    assert s[0] == Escaped(a)[0] && t[0] == Escaped(b)[0];
    if s[0] == BACKSLASH {
      assert s[1] == Escaped(a)[1] && t[1] == Escaped(b)[1];
      if s[1] == 117 {
        assert s[4] == Escaped(a)[4] && t[4] == Escaped(b)[4] && s[5] == Escaped(a)[5] && t[5] == Escaped(b)[5];
      }
    }
    assert |Escaped(a)| == |Escaped(b)|;
    assert s[|Escaped(a)|..] == x && t[|Escaped(b)|..] == y;
  }

  lemma TextStarts(a: seq<byte>, x: seq<byte>)
    ensures (Text(a) + [QUOTE] + x)[0] == QUOTE <==> a == []
    ensures a != [] ==> Text(a) + [QUOTE] + x == Escaped(a[0]) + (Text(a[1..]) + [QUOTE] + x)
  {
    if a != [] {
      assert (Text(a) + [QUOTE] + x)[0] == Escaped(a[0])[0];
    }
  }

  /** A string ends at its closing quote. */
  lemma {:induction false} TextEnds(a: seq<byte>, x: seq<byte>, b: seq<byte>, y: seq<byte>)
    requires Text(a) + [QUOTE] + x == Text(b) + [QUOTE] + y
    ensures a == b && x == y
  {
    TextStarts(a, x);
    TextStarts(b, y);
    if a == [] {
      assert (Text(a) + [QUOTE] + x)[1..] == x && (Text(b) + [QUOTE] + y)[1..] == y;
    } else {
      EscapedApart(a[0], Text(a[1..]) + [QUOTE] + x, b[0], Text(b[1..]) + [QUOTE] + y);
      TextEnds(a[1..], x, b[1..], y);
      assert a == [a[0]] + a[1..] && b == [b[0]] + b[1..];
    }
  }

  const OPENING: seq<byte> := Ascii("{\"type\":\"SESSION_KEY_EXCHANGE\",\"session_id\":\"")
  const EPHEMERAL: seq<byte> := Ascii(",\"ephemeral_public_key\":\"")
  const IDENTITY: seq<byte> := Ascii(",\"identity_public_key\":\"")
  const SIGNATURE: seq<byte> := Ascii(",\"signature\":\"")
  const CLOSING: seq<byte> := Ascii("}")

  /** One member: its name, its value and the closing quote. */
  function Member(name: seq<byte>, value: seq<byte>): seq<byte> {
    name + Text(value) + [QUOTE]
  }

  function Members(names: seq<seq<byte>>, values: seq<seq<byte>>): seq<byte>
    requires |names| == |values|
  {
    if names == [] then [] else Member(names[0], values[0]) + Members(names[1..], values[1..])
  }

  function KexText(p: KexPacket): seq<byte> {
    Members([OPENING, EPHEMERAL, IDENTITY, SIGNATURE], [p.sid, p.eph, p.identity, p.signature]) + CLOSING
  }

  lemma MemberEnds(name: seq<byte>, a: seq<byte>, x: seq<byte>, b: seq<byte>, y: seq<byte>)
    requires Member(name, a) + x == Member(name, b) + y
    ensures a == b && x == y
  {
    var s, t := Member(name, a) + x, Member(name, b) + y;
    assert s[|name|..] == Text(a) + [QUOTE] + x && t[|name|..] == Text(b) + [QUOTE] + y;
    TextEnds(a, x, b, y);
  }

  /** Texts that say where they end and which packet they are. */
  ghost predicate SelfDelimiting(json: KexPacket -> seq<byte>) {
    forall p, x, q, y :: json(p) + x == json(q) + y ==> p == q && x == y
  }

  lemma {:induction false} MembersEnd(names: seq<seq<byte>>, a: seq<seq<byte>>, x: seq<byte>, b: seq<seq<byte>>, y: seq<byte>)
    requires |names| == |a| == |b| && Members(names, a) + x == Members(names, b) + y
    ensures a == b && x == y
  {
    if names == [] {
      assert [] + x == x && [] + y == y;
    } else {
      var s, t := Members(names[1..], a[1..]), Members(names[1..], b[1..]);
      Associates(Member(names[0], a[0]), s, x);
      Associates(Member(names[0], b[0]), t, y);
      MemberEnds(names[0], a[0], s + x, b[0], t + y);
      MembersEnd(names[1..], a[1..], x, b[1..], y);
      assert a == [a[0]] + a[1..] && b == [b[0]] + b[1..];
    }
  }

  lemma KexTextEnds(p: KexPacket, x: seq<byte>, q: KexPacket, y: seq<byte>)
    requires KexText(p) + x == KexText(q) + y
    ensures p == q && x == y
  {
    var names, a, b := [OPENING, EPHEMERAL, IDENTITY, SIGNATURE], [p.sid, p.eph, p.identity, p.signature], [q.sid, q.eph, q.identity, q.signature];
    var s, t := Members(names, a), Members(names, b);
    assert s + CLOSING + x == s + (CLOSING + x) && t + CLOSING + y == t + (CLOSING + y);
    MembersEnd(names, a, CLOSING + x, b, CLOSING + y);
    assert a[0] == b[0] && a[1] == b[1] && a[2] == b[2] && a[3] == b[3];
    assert (CLOSING + x)[|CLOSING|..] == x && (CLOSING + y)[|CLOSING|..] == y;
  }

  /** The packet texts are such, for all bytes in any of the fields. */
  lemma KexTextIsSelfDelimiting()
    ensures SelfDelimiting(KexText)
  {
    forall p, x, q, y | KexText(p) + x == KexText(q) + y
      ensures p == q && x == y
    {
      KexTextEnds(p, x, q, y);
    }
  }
}
