/**
  The directional sealed channel (crates/rivetlink-crypto/src/sealed.rs): sequence numbers
  claimed by concurrent threads, strict in-order opening, and what a network that drops,
  reorders, replays, reflects and injects can make an endpoint accept.
 */
module Sealed {
  import opened Common
  import opened Bytes
  import opened Crypto

  const HEADER_LEN := 9
  const TAG_LEN := 16
  const WIRE_VERSION: byte := 2
  const U64_MAX: nat := U64 - 1

  datatype Role = Initiator | Responder

  datatype Error = TooShort | UnsupportedWireVersion | ReplayOrOutOfOrder | DecryptionFailed | NonceExhausted

  datatype Channel = Channel(sendKey: Key, recvKey: Key, binding: Digest, nextSend: nat, nextRecv: nat)

  function FromHandshakeSecret(secret: Secret, transcript: seq<byte>, role: Role): Channel {
    var binding := Sha256(transcript);
    var c2h := Hkdf(secret, binding, ClientToHost);
    var h2c := Hkdf(secret, binding, HostToClient);
    match role
    case Initiator => Channel(c2h, h2c, binding, 0, 0)
    case Responder => Channel(h2c, c2h, binding, 0, 0)
  }

  function Header(sequence: nat): (h: seq<byte>)
    ensures |h| == HEADER_LEN
  {
    [WIRE_VERSION] + BigEndian(sequence, 8)
  }

  function Nonce(sequence: nat): (n: seq<byte>)
    ensures |n| == 12
  {
    [0, 0, 0, 0] + BigEndian(sequence, 8)
  }

  /** Distinct sequence numbers give distinct nonces. */
  lemma NonceInjective(a: nat, b: nat)
    requires a < U64 && b < U64 && Nonce(a) == Nonce(b)
    ensures a == b
  {
    assert Nonce(a)[4..] == BigEndian(a, 8) && Nonce(b)[4..] == BigEndian(b, 8);
    BigEndian64(a);
    BigEndian64(b);
  }

  function SealedRecord(c: Channel, sequence: nat, plaintext: seq<byte>, ciphertext: seq<byte>): Sealing {
    Sealing(c.sendKey, Nonce(sequence), Aad(c.binding, Header(sequence)), plaintext, ciphertext)
  }

  datatype Opened = Opened(c: Channel, r: Result<seq<byte>, Error>)

  function Open(c: Channel, packet: seq<byte>, log: seq<Sealing>): Opened {
    if |packet| < HEADER_LEN + TAG_LEN then Opened(c, Err(TooShort))
    else if packet[0] != WIRE_VERSION then Opened(c, Err(UnsupportedWireVersion))
    else
      var sequence := FromBigEndian(packet[1..HEADER_LEN]);
      if sequence != c.nextRecv then Opened(c, Err(ReplayOrOutOfOrder))
      else
        var plaintext := Decrypt(log, c.recvKey, Nonce(sequence), Aad(c.binding, packet[..HEADER_LEN]), packet[HEADER_LEN..]);
        if plaintext.None? then Opened(c, Err(DecryptionFailed))
        else if c.nextRecv == U64_MAX then Opened(c, Err(NonceExhausted))
        else Opened(c.(nextRecv := c.nextRecv + 1), Ok(plaintext.value))
  }

  /** A refused packet changes nothing; an accepted one moves the receive counter only. */
  lemma OpenChangesOnlyOnSuccess(c: Channel, packet: seq<byte>, log: seq<Sealing>)
    ensures var o := Open(c, packet, log);
            o.c == if o.r.Ok? then c.(nextRecv := c.nextRecv + 1) else c
  {
  }

  /** What the other end sealed with the expected sequence number is opened, whatever else
      was ever sealed. */
  lemma InOrderPacketOpens(a: Channel, b: Channel, plaintext: seq<byte>, ciphertext: seq<byte>, log: seq<Sealing>)
    requires a.sendKey == b.recvKey && a.binding == b.binding && b.nextRecv < U64_MAX
    requires |ciphertext| >= TAG_LEN
    requires SealedRecord(a, b.nextRecv, plaintext, ciphertext) in log
    requires forall s | s in log && s.key == a.sendKey && s.nonce == Nonce(b.nextRecv) :: s.plaintext == plaintext
    ensures Open(b, Header(b.nextRecv) + ciphertext, log) == Opened(b.(nextRecv := b.nextRecv + 1), Ok(plaintext))
  {
    var n := b.nextRecv;
    var packet := Header(n) + ciphertext;
    BigEndian64(n);
    assert packet[1..HEADER_LEN] == BigEndian(n, 8);
    assert packet[..HEADER_LEN] == Header(n) && packet[HEADER_LEN..] == ciphertext;
    assert Matches(SealedRecord(a, n, plaintext, ciphertext), b.recvKey, Nonce(n), Aad(b.binding, Header(n)), ciphertext);
  }

  /** `packet` is record number `c.nextRecv` and holds `plaintext`. */
  predicate Arrives(c: Channel, packet: seq<byte>, ciphertext: seq<byte>, plaintext: seq<byte>, log: seq<Sealing>) {
    && packet == Header(c.nextRecv) + ciphertext && |ciphertext| >= TAG_LEN && c.nextRecv < U64_MAX
    && Decrypt(log, c.recvKey, Nonce(c.nextRecv), Aad(c.binding, Header(c.nextRecv)), ciphertext) == Some(plaintext)
  }

  lemma HeaderIsNumber(packet: seq<byte>, n: nat)
    requires |packet| >= HEADER_LEN && n < U64
    ensures packet[..HEADER_LEN] == Header(n) <==> packet[0] == WIRE_VERSION && FromBigEndian(packet[1..HEADER_LEN]) == n
  {
    BigEndianOfFrom(packet[1..HEADER_LEN]);
    BigEndian64(n);
    assert packet[..HEADER_LEN] == [packet[0]] + packet[1..HEADER_LEN];
    if packet[..HEADER_LEN] == Header(n) {
      assert packet[1..HEADER_LEN] == Header(n)[1..] == BigEndian(n, 8);
    }
  }

  /** For all bytes: a packet is opened as `plaintext` exactly if it is the record with the
      number expected, and that was sealed under this channel's key and binding. */
  lemma OpensExactly(c: Channel, packet: seq<byte>, plaintext: seq<byte>, log: seq<Sealing>)
    ensures Open(c, packet, log).r == Ok(plaintext) <==> exists ciphertext :: Arrives(c, packet, ciphertext, plaintext, log)
  {
    if Open(c, packet, log).r == Ok(plaintext) {
      FromBigEndianBound(packet[1..HEADER_LEN]);
      HeaderIsNumber(packet, c.nextRecv);
      assert packet == packet[..HEADER_LEN] + packet[HEADER_LEN..];
      assert Arrives(c, packet, packet[HEADER_LEN..], plaintext, log);
    }
    if ciphertext :| Arrives(c, packet, ciphertext, plaintext, log) {
      assert packet[..HEADER_LEN] == Header(c.nextRecv) && packet[HEADER_LEN..] == ciphertext;
      HeaderIsNumber(packet, c.nextRecv);
    }
  }

  // ---- the system: any number of endpoints, each sealing from any number of threads ----

  /** A thread in the middle of `seal`. */
  datatype Thread =
    | Loaded(plaintext: seq<byte>, sequence: nat)
    | Claimed(plaintext: seq<byte>, sequence: nat)

  /** `sealed[n]` is the plaintext that claimed sequence number `n`. */
  datatype Endpoint = Endpoint(c: Channel, threads: map<nat, Thread>, sealed: seq<seq<byte>>, accepted: seq<seq<byte>>)

  /** `origin[k]` says which endpoint made `log[k]`, and with which sequence number. */
  datatype State = State(ends: seq<Endpoint>, log: seq<Sealing>, origin: seq<(nat, nat)>)

  const Init := State([], [], [])

  datatype Event =
    | Connect(secret: Secret, transcript: seq<byte>, role: Role)
    | Load(i: nat, t: nat, plaintext: seq<byte>)
    | CompareExchange(i: nat, t: nat, spurious: bool)
    | Encrypt(i: nat, t: nat, ciphertext: seq<byte>)
    | Receive(i: nat, packet: seq<byte>)

  /** A handshake gives each role of one secret and transcript to one endpoint. */
  function DoConnect(s: State, secret: Secret, transcript: seq<byte>, role: Role): State {
    var c := FromHandshakeSecret(secret, transcript, role);
    if exists e | e in s.ends :: e.c.sendKey == c.sendKey then s
    else s.(ends := s.ends + [Endpoint(c, map[], [], [])])
  }

  function DoLoad(e: Endpoint, t: nat, plaintext: seq<byte>): Endpoint {
    if t in e.threads then e else e.(threads := e.threads[t := Loaded(plaintext, e.c.nextSend)])
  }

  function DoCompareExchange(e: Endpoint, t: nat, spurious: bool): Endpoint {
    if t !in e.threads || !e.threads[t].Loaded? then e
    else
      var Loaded(plaintext, sequence) := e.threads[t];
      if sequence == U64_MAX then e.(threads := e.threads - {t})
      else if e.c.nextSend == sequence && !spurious then
        Endpoint(e.c.(nextSend := sequence + 1), e.threads[t := Claimed(plaintext, sequence)],
                 e.sealed + [plaintext], e.accepted)
      else e.(threads := e.threads[t := Loaded(plaintext, e.c.nextSend)])
  }

  function DoEncrypt(s: State, i: nat, t: nat, ciphertext: seq<byte>): State
    requires i < |s.ends|
  {
    var e := s.ends[i];
    if t !in e.threads || !e.threads[t].Claimed? then s
    else
      var Claimed(plaintext, sequence) := e.threads[t];
      State(s.ends[i := e.(threads := e.threads - {t})],
            s.log + [SealedRecord(e.c, sequence, plaintext, ciphertext)], s.origin + [(i, sequence)])
  }

  function DoReceive(e: Endpoint, packet: seq<byte>, log: seq<Sealing>): Endpoint {
    var o := Open(e.c, packet, log);
    Endpoint(o.c, e.threads, e.sealed, if o.r.Ok? then e.accepted + [o.r.value] else e.accepted)
  }

  function Apply(s: State, e: Event): State {
    match e
    case Connect(secret, transcript, role) => DoConnect(s, secret, transcript, role)
    case Load(i, t, plaintext) =>
      if i < |s.ends| then s.(ends := s.ends[i := DoLoad(s.ends[i], t, plaintext)]) else s
    case CompareExchange(i, t, spurious) =>
      if i < |s.ends| then s.(ends := s.ends[i := DoCompareExchange(s.ends[i], t, spurious)]) else s
    case Encrypt(i, t, ciphertext) => if i < |s.ends| then DoEncrypt(s, i, t, ciphertext) else s
    case Receive(i, packet) =>
      if i < |s.ends| then s.(ends := s.ends[i := DoReceive(s.ends[i], packet, s.log)]) else s
  }

  function Run(events: seq<Event>): State {
    if events == [] then Init else Apply(Run(events[..|events| - 1]), Last(events))
  }

  // ---- invariants ----

  /** The claimed numbers are exactly 0..nextSend, and each is held by one thread at most. */
  predicate Claims(e: Endpoint) {
    && e.c.nextSend == |e.sealed| <= U64_MAX
    && (forall t | t in e.threads && e.threads[t].Claimed? ::
          e.threads[t].sequence < |e.sealed| && e.sealed[e.threads[t].sequence] == e.threads[t].plaintext)
    && (forall t, u | t in e.threads && u in e.threads && t != u && e.threads[t].Claimed? && e.threads[u].Claimed? ::
          e.threads[t].sequence != e.threads[u].sequence)
  }

  /** Both keys come from one secret and one transcript, for opposite directions. */
  predicate Paired(c: Channel) {
    && c.sendKey.ikm == c.recvKey.ikm && c.sendKey.salt == c.recvKey.salt == c.binding
    && c.sendKey.info != c.recvKey.info
  }

  predicate Mirrors(a: Channel, b: Channel) {
    a.sendKey == b.recvKey && a.recvKey == b.sendKey && a.binding == b.binding
  }

  /** A sealing carries what its endpoint claimed the number for. */
  predicate Recorded(ends: seq<Endpoint>, r: Sealing, o: (nat, nat)) {
    && o.0 < |ends| && o.1 < |ends[o.0].sealed|
    && r == SealedRecord(ends[o.0].c, o.1, ends[o.0].sealed[o.1], r.ciphertext)
  }

  predicate LogInv(s: State) {
    && |s.origin| == |s.log|
    && (forall k | 0 <= k < |s.log| :: Recorded(s.ends, s.log[k], s.origin[k]))
    && (forall k, l | 0 <= k < l < |s.log| :: s.origin[k] != s.origin[l])
  }

  /** A number some thread still has to seal with was not used yet. */
  predicate Unspent(i: nat, e: Endpoint, origin: seq<(nat, nat)>) {
    forall t | t in e.threads && e.threads[t].Claimed? :: (i, e.threads[t].sequence) !in origin
  }

  predicate EndsInv(ends: seq<Endpoint>) {
    && (forall i | 0 <= i < |ends| :: Claims(ends[i]) && Paired(ends[i].c))
    && (forall i, j | 0 <= i < j < |ends| :: ends[i].c.sendKey != ends[j].c.sendKey)
  }

  /** Whatever `e` accepted so far is a prefix of what the endpoint on the other side sealed. */
  predicate InOrder(ends: seq<Endpoint>, e: Endpoint) {
    && e.c.nextRecv == |e.accepted|
    && (e.accepted != [] ==> exists j :: 0 <= j < |ends| && ends[j].c.sendKey == e.c.recvKey)
    && (forall j | 0 <= j < |ends| && ends[j].c.sendKey == e.c.recvKey :: e.accepted <= ends[j].sealed)
  }

  predicate Inv(s: State) {
    && EndsInv(s.ends)
    && LogInv(s)
    && (forall i | 0 <= i < |s.ends| :: InOrder(s.ends, s.ends[i]) && Unspent(i, s.ends[i], s.origin))
  }

  predicate SameKeys(a: Channel, b: Channel) {
    a.sendKey == b.sendKey && a.recvKey == b.recvKey && a.binding == b.binding
  }

  /** `e` continues `d`: same keys, and nothing sealed is taken back. */
  predicate Continues(d: Endpoint, e: Endpoint) {
    SameKeys(d.c, e.c) && d.sealed <= e.sealed
  }

  lemma LogKept(s: State, i: nat, e: Endpoint)
    requires LogInv(s) && i < |s.ends| && Continues(s.ends[i], e)
    ensures LogInv(s.(ends := s.ends[i := e]))
  {
    var ends' := s.ends[i := e];
    forall k | 0 <= k < |s.log| ensures Recorded(ends', s.log[k], s.origin[k]) {
      assert Recorded(s.ends, s.log[k], s.origin[k]);
    }
  }

  lemma OrderKept(ends: seq<Endpoint>, i: nat, e: Endpoint, d: Endpoint)
    requires i < |ends| && Continues(ends[i], e) && InOrder(ends, d)
    ensures InOrder(ends[i := e], d)
  {
    if d.accepted != [] {
      var j :| 0 <= j < |ends| && ends[j].c.sendKey == d.c.recvKey;
      assert ends[i := e][j].c.sendKey == d.c.recvKey;
    }
  }

  /** A step of one endpoint that keeps its keys and only adds to what it sealed. */
  lemma LocalKeeps(s: State, i: nat, e: Endpoint)
    requires Inv(s) && i < |s.ends|
    requires Claims(e) && Continues(s.ends[i], e) && InOrder(s.ends, e) && Unspent(i, e, s.origin)
    ensures Inv(s.(ends := s.ends[i := e]))
  {
    var s' := s.(ends := s.ends[i := e]);
    LogKept(s, i, e);
    forall j | 0 <= j < |s'.ends| ensures InOrder(s'.ends, s'.ends[j]) && Unspent(j, s'.ends[j], s'.origin) {
      OrderKept(s.ends, i, e, if j == i then e else s.ends[j]);
    }
    assert EndsInv(s'.ends);
  }

  lemma ConnectKeeps(s: State, secret: Secret, transcript: seq<byte>, role: Role)
    requires Inv(s)
    ensures Inv(DoConnect(s, secret, transcript, role))
  {
    var c := FromHandshakeSecret(secret, transcript, role);
    if forall e | e in s.ends :: e.c.sendKey != c.sendKey {
      var e := Endpoint(c, map[], [], []);
      ConnectLog(s, e);
      ConnectEnds(s.ends, e);
      forall i | 0 <= i < |s.ends + [e]| ensures InOrder(s.ends + [e], (s.ends + [e])[i]) && Unspent(i, (s.ends + [e])[i], s.origin) {
        if i < |s.ends| {
          ConnectOrder(s.ends, e, s.ends[i]);
        }
      }
    }
  }

  lemma ConnectLog(s: State, e: Endpoint)
    requires LogInv(s)
    ensures LogInv(s.(ends := s.ends + [e]))
  {
    var ends := s.ends + [e];
    forall k | 0 <= k < |s.log| ensures Recorded(ends, s.log[k], s.origin[k]) {
      assert Recorded(s.ends, s.log[k], s.origin[k]);
    }
  }

  lemma ConnectEnds(ends: seq<Endpoint>, e: Endpoint)
    requires EndsInv(ends) && Claims(e) && Paired(e.c) && forall x | x in ends :: x.c.sendKey != e.c.sendKey
    ensures EndsInv(ends + [e])
  {
    forall i | 0 <= i < |ends| ensures ends[i].c.sendKey != e.c.sendKey {
      assert ends[i] in ends;
    }
  }

  lemma ConnectOrder(ends: seq<Endpoint>, e: Endpoint, d: Endpoint)
    requires InOrder(ends, d)
    requires forall x | x in ends :: x.c.sendKey != e.c.sendKey
    ensures InOrder(ends + [e], d)
  {
    if d.accepted != [] {
      var j :| 0 <= j < |ends| && ends[j].c.sendKey == d.c.recvKey;
      assert ends[j] in ends && (ends + [e])[j].c.sendKey == d.c.recvKey;
    }
  }

  lemma CompareExchangeKeeps(s: State, i: nat, t: nat, spurious: bool)
    requires Inv(s) && i < |s.ends|
    ensures Inv(s.(ends := s.ends[i := DoCompareExchange(s.ends[i], t, spurious)]))
  {
    var e := DoCompareExchange(s.ends[i], t, spurious);
    assert Claims(s.ends[i]) && InOrder(s.ends, s.ends[i]) && Unspent(i, s.ends[i], s.origin);
    forall k | 0 <= k < |s.origin| ensures s.origin[k] != (i, |s.ends[i].sealed|) {
      assert Recorded(s.ends, s.log[k], s.origin[k]);
    }
    LocalKeeps(s, i, e);
  }

  lemma LogAppend(s: State, r: Sealing, o: (nat, nat))
    requires Inv(s) && Recorded(s.ends, r, o) && o !in s.origin
    requires forall i | 0 <= i < |s.ends| :: Unspent(i, s.ends[i], [o])
    ensures Inv(s.(log := s.log + [r], origin := s.origin + [o]))
  {
    var s' := s.(log := s.log + [r], origin := s.origin + [o]);
    forall k | 0 <= k < |s'.log| ensures Recorded(s'.ends, s'.log[k], s'.origin[k]) {
      assert k < |s.log| ==> Recorded(s.ends, s.log[k], s.origin[k]);
    }
    forall i | 0 <= i < |s'.ends| ensures Unspent(i, s'.ends[i], s'.origin) {
      assert Unspent(i, s.ends[i], s.origin) && Unspent(i, s.ends[i], [o]);
    }
  }

  lemma EncryptKeeps(s: State, i: nat, t: nat, ciphertext: seq<byte>)
    requires Inv(s) && i < |s.ends|
    ensures Inv(DoEncrypt(s, i, t, ciphertext))
  {
    var d := s.ends[i];
    assert Claims(d) && InOrder(s.ends, d) && Unspent(i, d, s.origin);
    if t in d.threads && d.threads[t].Claimed? {
      var e := d.(threads := d.threads - {t});
      LocalKeeps(s, i, e);
      var s1 := s.(ends := s.ends[i := e]);
      LogAppend(s1, SealedRecord(d.c, d.threads[t].sequence, d.threads[t].plaintext, ciphertext), (i, d.threads[t].sequence));
    }
  }

  /** The only way to make an endpoint accept something: hand it the next sealing of its peer. */
  lemma AcceptedWasSealed(s: State, i: nat, packet: seq<byte>) returns (j: nat)
    requires Inv(s) && i < |s.ends| && Open(s.ends[i].c, packet, s.log).r.Ok?
    ensures j < |s.ends| && s.ends[j].c.sendKey == s.ends[i].c.recvKey
    ensures s.ends[i].c.nextRecv < |s.ends[j].sealed|
    ensures Open(s.ends[i].c, packet, s.log).r.value == s.ends[j].sealed[s.ends[i].c.nextRecv]
  {
    var c := s.ends[i].c;
    var n := FromBigEndian(packet[1..HEADER_LEN]);
    var rec :| rec in s.log && Matches(rec, c.recvKey, Nonce(n), Aad(c.binding, packet[..HEADER_LEN]), packet[HEADER_LEN..])
                            && rec.plaintext == Open(c, packet, s.log).r.value;
    var k :| 0 <= k < |s.log| && s.log[k] == rec;
    j := s.origin[k].0;
    assert Recorded(s.ends, s.log[k], s.origin[k]);
    assert Claims(s.ends[j]) && InOrder(s.ends, s.ends[i]);
    ReceiveBound(s, i);
    NonceInjective(s.origin[k].1, n);
  }

  lemma ReceiveBound(s: State, i: nat)
    requires Inv(s) && i < |s.ends|
    ensures s.ends[i].c.nextRecv <= U64_MAX
  {
    var e := s.ends[i];
    assert InOrder(s.ends, e);
    if e.accepted != [] {
      var j :| 0 <= j < |s.ends| && s.ends[j].c.sendKey == e.c.recvKey;
      assert Claims(s.ends[j]);
    }
  }

  lemma ReceivedInOrder(s: State, i: nat, packet: seq<byte>)
    requires Inv(s) && i < |s.ends|
    ensures InOrder(s.ends, DoReceive(s.ends[i], packet, s.log))
  {
    var d, e := s.ends[i], DoReceive(s.ends[i], packet, s.log);
    OpenChangesOnlyOnSuccess(d.c, packet, s.log);
    assert InOrder(s.ends, d);
    if Open(d.c, packet, s.log).r.Ok? {
      var j := AcceptedWasSealed(s, i, packet);
      forall k | 0 <= k < |s.ends| && s.ends[k].c.sendKey == e.c.recvKey ensures e.accepted <= s.ends[k].sealed {
        assert k == j;
      }
    }
  }

  lemma ReceivedContinues(d: Endpoint, i: nat, packet: seq<byte>, log: seq<Sealing>, origin: seq<(nat, nat)>)
    requires Claims(d) && Unspent(i, d, origin)
    ensures var e := DoReceive(d, packet, log);
            Claims(e) && Continues(d, e) && Unspent(i, e, origin)
  {
    OpenChangesOnlyOnSuccess(d.c, packet, log);
  }

  lemma ReceiveKeeps(s: State, i: nat, packet: seq<byte>)
    requires Inv(s) && i < |s.ends|
    ensures Inv(s.(ends := s.ends[i := DoReceive(s.ends[i], packet, s.log)]))
  {
    assert Claims(s.ends[i]) && Unspent(i, s.ends[i], s.origin);
    ReceivedContinues(s.ends[i], i, packet, s.log, s.origin);
    ReceivedInOrder(s, i, packet);
    LocalKeeps(s, i, DoReceive(s.ends[i], packet, s.log));
  }

  lemma StepKeeps(s: State, e: Event)
    requires Inv(s)
    ensures Inv(Apply(s, e))
  {
    match e {
      case Connect(secret, transcript, role) => ConnectKeeps(s, secret, transcript, role);
      case Load(i, t, plaintext) =>
        if i < |s.ends| {
          assert Claims(s.ends[i]) && InOrder(s.ends, s.ends[i]) && Unspent(i, s.ends[i], s.origin);
          LocalKeeps(s, i, DoLoad(s.ends[i], t, plaintext));
        }
      case CompareExchange(i, t, spurious) => if i < |s.ends| { CompareExchangeKeeps(s, i, t, spurious); }
      case Encrypt(i, t, ciphertext) => if i < |s.ends| { EncryptKeeps(s, i, t, ciphertext); }
      case Receive(i, packet) => if i < |s.ends| { ReceiveKeeps(s, i, packet); }
    }
  }

  lemma {:induction false} RunKeeps(events: seq<Event>)
    ensures Inv(Run(events))
  {
    if events != [] {
      RunKeeps(events[..|events| - 1]);
      StepKeeps(Run(events[..|events| - 1]), Last(events));
    }
  }

  /** Whatever the network does, an endpoint has accepted nothing, or a prefix, in order and
      without repeats, of what exactly one other endpoint sealed: the one that holds the
      same secret and transcript in the opposite role. */
  lemma AcceptsOnlyAPrefix(events: seq<Event>, i: nat)
    requires i < |Run(events).ends| && Run(events).ends[i].accepted != []
    ensures var ends := Run(events).ends;
            exists j :: 0 <= j < |ends| && j != i && Mirrors(ends[j].c, ends[i].c)
                        && ends[i].accepted <= ends[j].sealed
  {
    RunKeeps(events);
    var ends := Run(events).ends;
    assert InOrder(ends, ends[i]);
    var j :| 0 <= j < |ends| && ends[j].c.sendKey == ends[i].c.recvKey;
    assert Paired(ends[i].c) && Paired(ends[j].c);
    assert Mirrors(ends[j].c, ends[i].c);
  }

  lemma DistinctNonces(s: State, k: nat, l: nat)
    requires Inv(s) && k < l < |s.log|
    ensures s.log[k].key == s.log[l].key ==> s.log[k].nonce != s.log[l].nonce
    ensures s.log[k].nonce != Nonce(U64_MAX)
  {
    var (i, m) := s.origin[k];
    var (j, n) := s.origin[l];
    assert Recorded(s.ends, s.log[k], s.origin[k]) && Recorded(s.ends, s.log[l], s.origin[l]);
    assert Claims(s.ends[i]) && Claims(s.ends[j]);
    if s.log[k].nonce == s.log[l].nonce {
      NonceInjective(m, n);
    }
    if s.log[k].nonce == Nonce(U64_MAX) {
      NonceInjective(m, U64_MAX);
    }
  }

  /** However the threads interleave, no key is ever used twice with one nonce, and the last
      sequence number is never used. */
  lemma NoncesAreUnique(events: seq<Event>, k: nat, l: nat)
    requires k < l < |Run(events).log|
    ensures var log := Run(events).log;
            && (log[k].key == log[l].key ==> log[k].nonce != log[l].nonce)
            && log[k].nonce != Nonce(U64_MAX)
  {
    RunKeeps(events);
    DistinctNonces(Run(events), k, l);
  }

  lemma OnePlaintextPerNonce(s: State, k: nat, r: Sealing)
    requires Inv(s) && k < |s.log| && r in s.log && r.key == s.log[k].key && r.nonce == s.log[k].nonce
    ensures r == s.log[k]
  {
    var l :| 0 <= l < |s.log| && s.log[l] == r;
    if l < k { DistinctNonces(s, l, k); } else if k < l { DistinctNonces(s, k, l); }
  }

  /** Who made sealing `k`, and that its number is the one the receiver expects. */
  lemma SealerOf(s: State, i: nat, k: nat) returns (j: nat)
    requires Inv(s) && i < |s.ends| && k < |s.log|
    requires s.log[k].key == s.ends[i].c.recvKey && s.log[k].nonce == Nonce(s.ends[i].c.nextRecv)
    ensures j < |s.ends| && s.ends[j].c.sendKey == s.ends[i].c.recvKey && s.ends[j].c.binding == s.ends[i].c.binding
    ensures s.ends[i].c.nextRecv < U64_MAX
    ensures s.log[k] == SealedRecord(s.ends[j].c, s.ends[i].c.nextRecv, s.log[k].plaintext, s.log[k].ciphertext)
  {
    var n := s.origin[k].1;
    j := s.origin[k].0;
    assert Recorded(s.ends, s.log[k], s.origin[k]) && Claims(s.ends[j]) && Paired(s.ends[i].c) && Paired(s.ends[j].c);
    ReceiveBound(s, i);
    NonceInjective(n, s.ends[i].c.nextRecv);
  }

  /** The partner of `AcceptsOnlyAPrefix`: the peer's sealing with the expected number is
      accepted, whatever was injected or replayed before. */
  lemma NextSealingOpens(events: seq<Event>, i: nat, k: nat)
    requires i < |Run(events).ends| && k < |Run(events).log|
    requires Run(events).log[k].key == Run(events).ends[i].c.recvKey
    requires Run(events).log[k].nonce == Nonce(Run(events).ends[i].c.nextRecv)
    requires |Run(events).log[k].ciphertext| >= TAG_LEN
    ensures var (s, c) := (Run(events), Run(events).ends[i].c);
            Open(c, Header(c.nextRecv) + s.log[k].ciphertext, s.log)
            == Opened(c.(nextRecv := c.nextRecv + 1), Ok(s.log[k].plaintext))
  {
    RunKeeps(events);
    var s := Run(events);
    var c, r := s.ends[i].c, s.log[k];
    var j := SealerOf(s, i, k);
    forall q | q in s.log && q.key == c.recvKey && q.nonce == Nonce(c.nextRecv) ensures q.plaintext == r.plaintext {
      OnePlaintextPerNonce(s, k, q);
    }
    InOrderPacketOpens(s.ends[j].c, c, r.plaintext, r.ciphertext, s.log);
  }

  // ---- the source's object ----

  class SealedChannel {
    const sendKey: Key
    const recvKey: Key
    const binding: Digest
    var nextSend: nat
    var nextRecv: nat

    constructor (secret: Secret, transcript: seq<byte>, role: Role)
      ensures View() == FromHandshakeSecret(secret, transcript, role)
    {
      binding := Sha256(transcript);
      var c2h := Hkdf(secret, Sha256(transcript), ClientToHost);
      var h2c := Hkdf(secret, Sha256(transcript), HostToClient);
      sendKey := if role.Initiator? then c2h else h2c;
      recvKey := if role.Initiator? then h2c else c2h;
      nextSend, nextRecv := 0, 0;
    }

    ghost function View(): Channel
      reads this
    {
      Channel(sendKey, recvKey, binding, nextSend, nextRecv)
    }

    /** The compare-exchange loop of `seal`; the first `spurious` exchanges fail for no reason. */
    method Claim(spurious: nat) returns (claimed: Option<nat>)
      modifies this
      ensures claimed == if old(nextSend) == U64_MAX then None else Some(old(nextSend))
      ensures View() == old(View()).(nextSend := old(nextSend) + if claimed.Some? then 1 else 0)
    {
      var sequence := nextSend;
      var failures := spurious;
      while true
        invariant nextSend == old(nextSend) && sequence == nextSend && nextRecv == old(nextRecv)
        decreases failures
      {
        if sequence == U64_MAX {
          return None;
        }
        if nextSend == sequence && failures == 0 {
          nextSend := sequence + 1;
          return Some(sequence);
        }
        failures := failures - 1;
        sequence := nextSend;
      }
    }

    /** `cipher` is what the AEAD turns the plaintext into; the sealing goes to its log. */
    method Seal(plaintext: seq<byte>, cipher: seq<byte>, spurious: nat)
      returns (packet: Result<seq<byte>, Error>, log: seq<Sealing>)
      modifies this
      ensures packet == if old(nextSend) == U64_MAX then Err(NonceExhausted) else Ok(Header(old(nextSend)) + cipher)
      ensures log == if packet.Ok? then [SealedRecord(View(), old(nextSend), plaintext, cipher)] else []
      ensures View() == old(View()).(nextSend := old(nextSend) + if packet.Ok? then 1 else 0)
    {
      var claimed := Claim(spurious);
      if claimed.None? {
        return Err(NonceExhausted), [];
      }
      var header := Header(claimed.value);
      log := [Sealing(sendKey, Nonce(claimed.value), Aad(binding, header), plaintext, cipher)];
      packet := Ok(header + cipher);
    }

    method OpenPacket(packet: seq<byte>, log: seq<Sealing>) returns (r: Result<seq<byte>, Error>)
      modifies this
      ensures Opened(View(), r) == Open(old(View()), packet, log)
    {
      if |packet| < HEADER_LEN + TAG_LEN {
        return Err(TooShort);
      }
      var header, cipher := packet[..HEADER_LEN], packet[HEADER_LEN..];
      if header[0] != WIRE_VERSION {
        return Err(UnsupportedWireVersion);
      }
      var sequence := FromBigEndian(header[1..]);
      assert header[1..] == packet[1..HEADER_LEN];
      if sequence != nextRecv {
        return Err(ReplayOrOutOfOrder);
      }
      var plaintext := Decrypt(log, recvKey, Nonce(sequence), Aad(binding, header), cipher);
      if plaintext.None? {
        return Err(DecryptionFailed);
      }
      if nextRecv == U64_MAX {
        return Err(NonceExhausted);
      }
      nextRecv := nextRecv + 1;
      return Ok(plaintext.value);
    }
  }
}
