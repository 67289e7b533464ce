/**
  The byte strings that both ends of a direct session sign and derive keys from
  (crates/rivetlink-sdk/src/direct.rs, crates/rivetlink-crypto/src/handshake.rs): what they
  determine and that no two kinds can be confused. Wire strings are their bytes.
 */
module Transcripts {
  import opened Common
  import opened Bytes

  const CLASSIC_VERSION := 2
  const HYBRID_VERSION := 3

  function Ascii(s: string): (b: seq<byte>)
    ensures |b| == |s|
  {
    seq(|s|, i requires 0 <= i < |s| => if s[i] as int < 256 then s[i] as int else 0)
  }

  const DIRECT_DOMAIN: seq<byte> := Ascii("rivetlink-direct-v2")
  const SIGNATURE_DOMAIN: seq<byte> := Ascii("rivetlink-authenticated-kex-v2")

  /** Version 2 comes without ML-KEM data, version 3 with it. */
  predicate RequireVersion(version: nat, pq: Option<seq<byte>>) {
    (version == CLASSIC_VERSION && pq.None?) || (version == HYBRID_VERSION && pq.Some?)
  }

  function Given(pq: Option<seq<byte>>): seq<seq<byte>> {
    if pq.Some? then [pq.value] else []
  }

  /** Domain, version, kind and length-prefixed fields: the shape of all four builders. */
  datatype Kind = Pake | Key | ClientKex | HostKex

  function Tag(k: Kind): seq<byte> {
    match k
    case Pake => Ascii("pake")
    case Key => Ascii("key")
    case ClientKex => Ascii("client-kex")
    case HostKex => Ascii("host-kex")
  }

  function Tagged(version: nat, kind: Kind, fields: seq<seq<byte>>): seq<byte> {
    DIRECT_DOMAIN + BigEndian(version, 2) + Tag(kind) + Fields(fields)
  }

  function PakeTranscript(version: nat, client: seq<byte>, host: seq<byte>,
                          clientPq: Option<seq<byte>>, hostPq: Option<seq<byte>>): seq<byte>
  {
    Tagged(version, Pake, [client, host] + Given(clientPq) + Given(hostPq))
  }

  /** `identity` is the decoded 32-byte key. */
  function ClientKexBinding(version: nat, identity: seq<byte>, clientPq: Option<seq<byte>>): seq<byte> {
    Tagged(version, ClientKex, [identity] + Given(clientPq))
  }

  function HostKexBinding(version: nat, identity: seq<byte>, clientHash: seq<byte>, hostPq: Option<seq<byte>>): seq<byte> {
    Tagged(version, HostKex, [identity, clientHash] + Given(hostPq))
  }

  /** What a client's hello and a host's answer carry, still encoded as text. */
  datatype KexFields = KexFields(eph: seq<byte>, id: seq<byte>, sig: seq<byte>, pq: Option<seq<byte>>)

  function KexTranscript(version: nat, client: KexFields, host: KexFields): seq<byte> {
    Tagged(version, Key, [client.eph, client.id, client.sig, host.eph, host.id, host.sig] + Given(client.pq) + Given(host.pq))
  }

  /** The preimage of `client_fields_hash`. */
  function ClientFields(client: KexFields): seq<byte> {
    DIRECT_DOMAIN + Fields([client.eph, client.id, client.sig] + Given(client.pq))
  }

  function SignatureMessage(binding: seq<byte>, ephemeral: seq<byte>): seq<byte> {
    SIGNATURE_DOMAIN + Field(binding) + ephemeral
  }

  predicate Addressable1(v: seq<byte>) {
    |v| < U64
  }

  predicate AddressableOption(pq: Option<seq<byte>>) {
    pq.Some? ==> Addressable1(pq.value)
  }

  predicate AddressableFields(k: KexFields) {
    Addressable1(k.eph) && Addressable1(k.id) && Addressable1(k.sig) && AddressableOption(k.pq)
  }

  // ---- what the builders determine ----

  lemma TagStartsDifferently(a: Kind, b: Kind)
    requires a != b
    ensures Tag(a)[0] != Tag(b)[0]
  {
    assert "pake"[0] == 'p' && "key"[0] == 'k' && "client-kex"[0] == 'c' && "host-kex"[0] == 'h';
  }

  lemma VersionBytes(v: nat, w: nat)
    requires v < 65536 && w < 65536 && BigEndian(v, 2) == BigEndian(w, 2)
    ensures v == w
  {
    assert Pow256(2) == 65536;
    BigEndianRoundTrip(v, 2);
    BigEndianRoundTrip(w, 2);
  }

  /** A built string determines its kind, version and list of fields; the four kinds never
      collide. */
  lemma TaggedInjective(v: nat, a: Kind, x: seq<seq<byte>>, w: nat, b: Kind, y: seq<seq<byte>>)
    requires v < 65536 && w < 65536 && Addressable(x) && Addressable(y)
    requires Tagged(v, a, x) == Tagged(w, b, y)
    ensures v == w && a == b && x == y
  {
    var n := |DIRECT_DOMAIN|;
    var s, t := Tagged(v, a, x), Tagged(w, b, y);
    assert s[n..n + 2] == BigEndian(v, 2) && t[n..n + 2] == BigEndian(w, 2);
    VersionBytes(v, w);
    assert s[n + 2] == Tag(a)[0] && t[n + 2] == Tag(b)[0];
    if a != b {
      TagStartsDifferently(a, b);
      assert false;
    }
    assert s[n + 2 + |Tag(a)|..] == Fields(x) && t[n + 2 + |Tag(b)|..] == Fields(y);
    FieldsInjective(x, y);
  }

  lemma GivenSplits(p: Option<seq<byte>>, q: Option<seq<byte>>, a: seq<seq<byte>>, b: seq<seq<byte>>, v: nat)
    requires RequireVersion(v, p) && RequireVersion(v, q) && |a| == |b|
    requires a + Given(p) == b + Given(q)
    ensures a == b && p == q
  {
    assert (a + Given(p))[..|a|] == a && (b + Given(q))[..|b|] == b;
    assert (a + Given(p))[|a|..] == Given(p) && (b + Given(q))[|b|..] == Given(q);
    if v == HYBRID_VERSION {
      assert Given(p)[0] == Given(q)[0];
    }
  }

  lemma TwoGivenSplit(p: Option<seq<byte>>, q: Option<seq<byte>>, p': Option<seq<byte>>, q': Option<seq<byte>>,
                      a: seq<seq<byte>>, b: seq<seq<byte>>, v: nat)
    requires RequireVersion(v, p) && RequireVersion(v, q) && RequireVersion(v, p') && RequireVersion(v, q')
    requires |a| == |b| && a + Given(p) + Given(q) == b + Given(p') + Given(q')
    ensures a == b && p == p' && q == q'
  {
    assert |a + Given(p)| == |b + Given(p')|;
    GivenSplits(q, q', a + Given(p), b + Given(p'), v);
    GivenSplits(p, p', a, b, v);
  }

  /** For inputs that pass the version check, a PAKE transcript determines everything in it. */
  lemma PakeTranscriptInjective(v: nat, c: seq<byte>, h: seq<byte>, cq: Option<seq<byte>>, hq: Option<seq<byte>>,
                                w: nat, d: seq<byte>, g: seq<byte>, dq: Option<seq<byte>>, gq: Option<seq<byte>>)
    requires RequireVersion(v, cq) && RequireVersion(v, hq) && RequireVersion(w, dq) && RequireVersion(w, gq)
    requires Addressable1(c) && Addressable1(h) && AddressableOption(cq) && AddressableOption(hq)
    requires Addressable1(d) && Addressable1(g) && AddressableOption(dq) && AddressableOption(gq)
    requires PakeTranscript(v, c, h, cq, hq) == PakeTranscript(w, d, g, dq, gq)
    ensures (v, c, h, cq, hq) == (w, d, g, dq, gq)
  {
    var x, y := [c, h] + Given(cq) + Given(hq), [d, g] + Given(dq) + Given(gq);
    TaggedInjective(v, Pake, x, w, Pake, y);
    TwoGivenSplit(cq, hq, dq, gq, [c, h], [d, g], v);
    assert [c, h][0] == [d, g][0] && [c, h][1] == [d, g][1];
  }

  lemma KexTranscriptInjective(v: nat, c: KexFields, h: KexFields, w: nat, d: KexFields, g: KexFields)
    requires RequireVersion(v, c.pq) && RequireVersion(v, h.pq) && RequireVersion(w, d.pq) && RequireVersion(w, g.pq)
    requires AddressableFields(c) && AddressableFields(h) && AddressableFields(d) && AddressableFields(g)
    requires KexTranscript(v, c, h) == KexTranscript(w, d, g)
    ensures (v, c, h) == (w, d, g)
  {
    var x, y := [c.eph, c.id, c.sig, h.eph, h.id, h.sig], [d.eph, d.id, d.sig, g.eph, g.id, g.sig];
    TaggedInjective(v, Key, x + Given(c.pq) + Given(h.pq), w, Key, y + Given(d.pq) + Given(g.pq));
    TwoGivenSplit(c.pq, h.pq, d.pq, g.pq, x, y, v);
    assert forall i | 0 <= i < 6 :: x[i] == y[i];
    assert x[0] == y[0] && x[1] == y[1] && x[2] == y[2] && x[3] == y[3] && x[4] == y[4] && x[5] == y[5];
  }

  lemma ClientKexBindingInjective(v: nat, a: seq<byte>, p: Option<seq<byte>>, w: nat, b: seq<byte>, q: Option<seq<byte>>)
    requires RequireVersion(v, p) && RequireVersion(w, q)
    requires Addressable1(a) && Addressable1(b) && AddressableOption(p) && AddressableOption(q)
    requires ClientKexBinding(v, a, p) == ClientKexBinding(w, b, q)
    ensures (v, a, p) == (w, b, q)
  {
    TaggedInjective(v, ClientKex, [a] + Given(p), w, ClientKex, [b] + Given(q));
    GivenSplits(p, q, [a], [b], v);
    assert [a][0] == [b][0];
  }

  lemma HostKexBindingInjective(v: nat, a: seq<byte>, x: seq<byte>, p: Option<seq<byte>>,
                                w: nat, b: seq<byte>, y: seq<byte>, q: Option<seq<byte>>)
    requires RequireVersion(v, p) && RequireVersion(w, q)
    requires Addressable1(a) && Addressable1(b) && Addressable1(x) && Addressable1(y)
    requires AddressableOption(p) && AddressableOption(q)
    requires HostKexBinding(v, a, x, p) == HostKexBinding(w, b, y, q)
    ensures (v, a, x, p) == (w, b, y, q)
  {
    TaggedInjective(v, HostKex, [a, x] + Given(p), w, HostKex, [b, y] + Given(q));
    GivenSplits(p, q, [a, x], [b, y], v);
    assert [a, x][0] == [b, y][0] && [a, x][1] == [b, y][1];
  }

  /** The hashed client fields determine the hello, version 2 or 3. */
  lemma ClientFieldsInjective(c: KexFields, d: KexFields)
    requires AddressableFields(c) && AddressableFields(d) && ClientFields(c) == ClientFields(d)
    ensures c == d
  {
    var n := |DIRECT_DOMAIN|;
    assert ClientFields(c)[n..] == ClientFields(d)[n..];
    var x, y := [c.eph, c.id, c.sig] + Given(c.pq), [d.eph, d.id, d.sig] + Given(d.pq);
    assert ClientFields(c)[n..] == Fields(x) && ClientFields(d)[n..] == Fields(y);
    FieldsInjective(x, y);
    assert x[0] == y[0] && x[1] == y[1] && x[2] == y[2];
    assert c.pq.Some? <==> |x| == 4;
    if c.pq.Some? {
      assert x[3] == y[3];
    }
  }

  /** The signed message determines the binding and the ephemeral key. */
  lemma SignatureMessageInjective(a: seq<byte>, e: seq<byte>, b: seq<byte>, f: seq<byte>)
    requires Addressable1(a) && Addressable1(b)
    requires SignatureMessage(a, e) == SignatureMessage(b, f)
    ensures a == b && e == f
  {
    var n := |SIGNATURE_DOMAIN|;
    assert SignatureMessage(a, e)[n..] == Field(a) + e && SignatureMessage(b, f)[n..] == Field(b) + f;
    FieldInjective(a, e, b, f);
  }

  // ---- why the version check is needed ----

  /** Without the check a transcript determines only the list of fields present: two inputs
      give one transcript exactly when version and that list agree. */
  lemma PakeTranscriptDetermines(v: nat, c: seq<byte>, h: seq<byte>, cq: Option<seq<byte>>, hq: Option<seq<byte>>,
                                 w: nat, d: seq<byte>, g: seq<byte>, dq: Option<seq<byte>>, gq: Option<seq<byte>>)
    requires v < 65536 && w < 65536
    requires Addressable1(c) && Addressable1(h) && AddressableOption(cq) && AddressableOption(hq)
    requires Addressable1(d) && Addressable1(g) && AddressableOption(dq) && AddressableOption(gq)
    ensures PakeTranscript(v, c, h, cq, hq) == PakeTranscript(w, d, g, dq, gq) <==>
              v == w && c == d && h == g && Given(cq) + Given(hq) == Given(dq) + Given(gq)
  {
    var x, y := [c, h] + Given(cq) + Given(hq), [d, g] + Given(dq) + Given(gq);
    assert x == [c, h] + (Given(cq) + Given(hq)) && y == [d, g] + (Given(dq) + Given(gq));
    if PakeTranscript(v, c, h, cq, hq) == PakeTranscript(w, d, g, dq, gq) {
      TaggedInjective(v, Pake, x, w, Pake, y);
      assert x[0] == y[0] && x[1] == y[1] && x[2..] == y[2..];
      assert x[2..] == Given(cq) + Given(hq) && y[2..] == Given(dq) + Given(gq);
    }
  }

  /** So a lone ML-KEM value could be read as either side's. */
  lemma UncheckedVersionsCollide(c: seq<byte>, h: seq<byte>, pq: seq<byte>)
    ensures PakeTranscript(HYBRID_VERSION, c, h, Some(pq), None) == PakeTranscript(HYBRID_VERSION, c, h, None, Some(pq))
  {
    assert [c, h] + Given(Some(pq)) + Given(None) == [c, h] + Given(None) + Given(Some(pq));
  }
}
