/**
  What two ends of a direct session know about each other once keys are confirmed: channels
  mirror each other exactly when the two runs agree on everything they saw, and a token that
  opens was sealed by such a run. Covers password and key mode, hybrid and classical.
 */
module Agreement {
  import opened Common
  import opened Bytes
  import opened Crypto
  import opened Transcripts
  import opened Sealed
  import opened Direct
  import Base64

  /** One side's run of a handshake: its own values and what arrived. */
  datatype Session =
    | PasswordClient(password: seq<byte>, mine: seq<byte>, kem: Option<seq<byte>>, v: nat, msg: seq<byte>, pq: Option<seq<byte>>)
    | PasswordHost(password: seq<byte>, mine: seq<byte>, ciphertext: seq<byte>, v: nat, msg: seq<byte>, pq: Option<seq<byte>>)
    | KeyClient(client: Client, v: nat, answer: KexFields)
    | KeyHost(host: Host, v: nat, hello: KexFields)

  function ChannelOf(s: Session): Option<Channel> {
    match s
    case PasswordClient(password, mine, kem, v, msg, pq) => ClientPasswordChannel(password, mine, kem, v, msg, pq)
    case PasswordHost(password, mine, ciphertext, v, msg, pq) => HostPasswordChannel(password, mine, ciphertext, v, msg, pq)
    case KeyClient(client, v, answer) => ClientKeyChannel(client, v, answer)
    case KeyHost(host, v, hello) => HostKeyChannel(host, v, hello)
  }

  predicate IsClient(s: Session) {
    s.PasswordClient? || s.KeyClient?
  }

  /** Each side saw what the other sent, in one version; with a password, the same one. */
  predicate Agree(c: Session, h: Session) {
    || (&& c.PasswordClient? && h.PasswordHost?
        && c.password == h.password && VersionOf(c.kem) == h.v
        && Base64.Decode(Base64.Trim(h.msg)) == Some(c.mine) && Base64.Decode(Base64.Trim(c.msg)) == Some(h.mine)
        && h.pq == Encoded(c.kem) && c.pq == Answered(h.ciphertext, h.pq))
    || (&& c.KeyClient? && h.KeyHost?
        && c.client.Version() == h.v && h.hello == c.client.Hello() && c.answer == h.host.Answer(h.hello))
  }

  /** Lengths: keys and ciphertexts have theirs, everything else fits a 64-bit count. */
  predicate Sized(s: Session) {
    match s
    case PasswordClient(password, mine, kem, v, msg, pq) =>
      && Addressable1(mine) && SizedMessage(msg) && SizedKem(kem) && AddressableOption(pq)
    case PasswordHost(password, mine, ciphertext, v, msg, pq) =>
      && Addressable1(mine) && SizedMessage(msg) && SizedCiphertext(ciphertext) && AddressableOption(pq)
    case KeyClient(client, v, answer) =>
      && AddressableFields(client.Hello()) && AddressableFields(answer) && SizedKem(client.kem) && |client.eph| == 32
    case KeyHost(host, v, hello) =>
      && AddressableFields(hello) && AddressableFields(host.Answer(hello)) && SizedCiphertext(host.ciphertext) && |host.eph| == 32
  }

  predicate SizedMessage(msg: seq<byte>) {
    AddressableOption(Base64.Decode(Base64.Trim(msg)))
  }

  predicate SizedKem(kem: Option<seq<byte>>) {
    kem.Some? ==> |kem.value| == ENCAPSULATION_KEY_LEN && Addressable1(Base64.Encode(kem.value))
  }

  predicate SizedCiphertext(ciphertext: seq<byte>) {
    |ciphertext| == CIPHERTEXT_LEN && Addressable1(Base64.Encode(ciphertext))
  }

  // ---- equal keys mean agreement ----

  lemma FinishedVersion(kem: Option<seq<byte>>, v: nat, pq: Option<seq<byte>>)
    requires FinishPq(kem, v, pq).Some?
    ensures v == VersionOf(kem) && RequireVersion(v, Encoded(kem)) && RequireVersion(v, pq)
  {
  }

  lemma PasswordKeysAgree(c: Session, h: Session)
    requires c.PasswordClient? && h.PasswordHost? && Sized(c) && Sized(h)
    requires ChannelOf(c).Some? && ChannelOf(h).Some?
    requires ChannelOf(c).value.recvKey == ChannelOf(h).value.sendKey || ChannelOf(h).value.recvKey == ChannelOf(c).value.sendKey
    ensures Agree(c, h)
  {
    var theirs, yours := Base64.Decode(Base64.Trim(c.msg)).value, Base64.Decode(Base64.Trim(h.msg)).value;
    FinishedVersion(c.kem, c.v, c.pq);
    PakeTranscriptInjective(VersionOf(c.kem), c.mine, theirs, Encoded(c.kem), c.pq,
                            h.v, yours, h.mine, h.pq, Answered(h.ciphertext, h.pq));
  }

  lemma KeyKeysAgree(c: Session, h: Session)
    requires c.KeyClient? && h.KeyHost? && Sized(c) && Sized(h)
    requires ChannelOf(c).Some? && ChannelOf(h).Some?
    requires ChannelOf(c).value.recvKey == ChannelOf(h).value.sendKey || ChannelOf(h).value.recvKey == ChannelOf(c).value.sendKey
    ensures Agree(c, h)
  {
    FinishedVersion(c.client.kem, c.v, c.answer.pq);
    KexTranscriptInjective(c.client.Version(), c.client.Hello(), c.answer, h.v, h.hello, h.host.Answer(h.hello));
  }

  /** A key that one run opens with and another seals with belongs to a client and a host that
      agree. In particular no run shares a key with itself, with its own role or with the
      other mode. */
  lemma SharedKeyMeansAgreement(a: Session, b: Session)
    requires Sized(a) && Sized(b) && ChannelOf(a).Some? && ChannelOf(b).Some?
    requires ChannelOf(a).value.recvKey == ChannelOf(b).value.sendKey
    ensures IsClient(a) != IsClient(b)
    ensures if IsClient(a) then Agree(a, b) else Agree(b, a)
  {
    if a.PasswordClient? && b.PasswordHost? {
      PasswordKeysAgree(a, b);
    } else if a.PasswordHost? && b.PasswordClient? {
      PasswordKeysAgree(b, a);
    } else if a.KeyClient? && b.KeyHost? {
      KeyKeysAgree(a, b);
    } else if a.KeyHost? && b.KeyClient? {
      KeyKeysAgree(b, a);
    }
  }

  // ---- agreement means equal keys ----

  lemma KemAgrees(kem: Option<seq<byte>>, v: nat, ciphertext: seq<byte>)
    requires SizedKem(kem) && SizedCiphertext(ciphertext) && v == VersionOf(kem)
    ensures FinishPq(kem, v, Answered(ciphertext, Encoded(kem))).Some?
    ensures FinishPq(kem, v, Answered(ciphertext, Encoded(kem))) == Encapsulated(ciphertext, Encoded(kem))
  {
    if kem.Some? {
      Base64.DecodeNOfEncode(kem.value);
      Base64.DecodeNOfEncode(ciphertext);
    }
  }

  lemma AgreeingPasswordsMirror(c: Session, h: Session)
    requires c.PasswordClient? && Agree(c, h) && Sized(c) && Sized(h) && c.v == h.v
    ensures ChannelOf(c).Some? && ChannelOf(h).Some? && Mirrors(ChannelOf(c).value, ChannelOf(h).value)
  {
    KemAgrees(c.kem, c.v, h.ciphertext);
  }

  lemma AgreeingKeysMirror(c: Session, h: Session)
    requires c.KeyClient? && Agree(c, h) && Sized(c) && Sized(h) && c.v == h.v
    ensures ChannelOf(c).Some? && ChannelOf(h).Some? && Mirrors(ChannelOf(c).value, ChannelOf(h).value)
  {
    KemAgrees(c.client.kem, c.v, h.host.ciphertext);
    Base64.DecodeNOfEncode(c.client.eph);
    Base64.DecodeNOfEncode(h.host.eph);
    assert {c.client.eph, h.host.eph} == {h.host.eph, c.client.eph};
  }

  /** A client and a host get channels that mirror each other exactly when they agree. */
  lemma MirrorsIffAgree(c: Session, h: Session)
    requires IsClient(c) && !IsClient(h) && Sized(c) && Sized(h)
    requires ChannelOf(c).Some? && ChannelOf(h).Some?
    ensures Mirrors(ChannelOf(c).value, ChannelOf(h).value) <==> Agree(c, h)
  {
    if Mirrors(ChannelOf(c).value, ChannelOf(h).value) {
      SharedKeyMeansAgreement(c, h);
    } else if Agree(c, h) {
      if c.PasswordClient? {
        FinishedVersion(c.kem, c.v, c.pq);
        AgreeingPasswordsMirror(c, h);
      } else {
        FinishedVersion(c.client.kem, c.v, c.answer.pq);
        AgreeingKeysMirror(c, h);
      }
    }
  }

  // ---- confirmation ----

  /** Whoever seals, seals with the key of one of `sessions`. */
  predicate SealedBy(aead: seq<Sealing>, sessions: seq<Session>) {
    forall r | r in aead :: exists s | s in sessions :: ChannelOf(s).Some? && ChannelOf(s).value.sendKey == r.key
  }

  lemma OpenedWasSealed(c: Channel, packet: seq<byte>, aead: seq<Sealing>)
    requires Open(c, packet, aead).r.Ok?
    ensures exists r | r in aead :: r.key == c.recvKey && r.aad.binding == c.binding
  {
    var sequence := FromBigEndian(packet[1..HEADER_LEN]);
    var r :| r in aead && Matches(r, c.recvKey, Nonce(sequence), Aad(c.binding, packet[..HEADER_LEN]), packet[HEADER_LEN..]);
  }

  lemma TokenWasSealed(c: Channel, reading: Reading, aead: seq<Sealing>)
    requires OpenToken(c, reading, aead).Some?
    ensures exists r | r in aead :: r.key == c.recvKey && r.aad.binding == c.binding
  {
    OpenedWasSealed(c, Base64.Decode(Base64.Trim(reading.wire.sealed)).value, aead);
  }

  /** The run on the other side of `mine`. */
  predicate Peer(mine: Session, other: Session) {
    if IsClient(mine) then Agree(mine, other) else Agree(other, mine)
  }

  /** Key confirmation, for all four roles: if a token opens, some run of the other role agrees
      with this one on the password, the version and everything exchanged. */
  lemma ConfirmationMeansAgreement(mine: Session, c: Channel, reading: Reading, aead: seq<Sealing>, sessions: seq<Session>)
    requires Sized(mine) && (forall s | s in sessions :: Sized(s)) && SealedBy(aead, sessions)
    requires ChannelOf(mine).Some? && c.recvKey == ChannelOf(mine).value.recvKey
    requires OpenToken(c, reading, aead).Some?
    ensures exists s | s in sessions :: Peer(mine, s)
  {
    TokenWasSealed(c, reading, aead);
    var r :| r in aead && r.key == c.recvKey;
    var s :| s in sessions && ChannelOf(s).Some? && ChannelOf(s).value.sendKey == r.key;
    SharedKeyMeansAgreement(mine, s);
    assert Peer(mine, s);
  }

  lemma ConfirmedClientHasPeer(mine: Session, script: Script, aead: seq<Sealing>, sessions: seq<Session>)
    requires IsClient(mine) && Sized(mine) && (forall s | s in sessions :: Sized(s)) && SealedBy(aead, sessions)
    requires ClientConfirm(ChannelOf(mine), script, aead).Ok?
    ensures exists s | s in sessions :: Agree(mine, s)
  {
    ConfirmationMeansAgreement(mine, TokenSent(ChannelOf(mine).value), script.confirmation, aead, sessions);
    var s :| s in sessions && Peer(mine, s);
    assert Agree(mine, s);
  }

  lemma ConfirmedHostHasPeer(mine: Session, script: HostScript, aead: seq<Sealing>, sessions: seq<Session>)
    requires !IsClient(mine) && Sized(mine) && (forall s | s in sessions :: Sized(s)) && SealedBy(aead, sessions)
    requires HostConfirm(ChannelOf(mine), script, aead).Ok?
    ensures exists s | s in sessions :: Agree(s, mine)
  {
    ConfirmationMeansAgreement(mine, ChannelOf(mine).value, script.confirmation, aead, sessions);
    var s :| s in sessions && Peer(mine, s);
    assert Agree(s, mine);
  }

  /** A password session is established only with a host that typed the same password, saw the
      same messages and answered the same ML-KEM key. */
  lemma PasswordClientAgrees(aead: seq<Sealing>, password: seq<byte>, mine: seq<byte>, kem: Option<seq<byte>>, script: Script,
                             sessions: seq<Session>)
    requires (forall s | s in sessions :: Sized(s)) && SealedBy(aead, sessions)
    requires ClientConnectPassword(aead, password, mine, kem, script).Ok?
    ensures script.answer.Got? && script.answer.wire.Pake?
    ensures var w := script.answer.wire;
            var me := PasswordClient(password, mine, kem, w.v, w.msg, w.pq);
            Sized(me) ==> exists s | s in sessions :: s.PasswordHost? && Agree(me, s)
  {
    var w := script.answer.wire;
    var me := PasswordClient(password, mine, kem, w.v, w.msg, w.pq);
    if Sized(me) {
      ConfirmedClientHasPeer(me, script, aead, sessions);
    }
  }

  lemma PasswordHostAgrees(aead: seq<Sealing>, me: Session, script: HostScript, sessions: seq<Session>)
    requires (forall s | s in sessions :: Sized(s)) && SealedBy(aead, sessions) && Sized(me) && me.PasswordHost?
    requires HostAcceptPassword(aead, me.password, me.mine, me.ciphertext, me.v, me.msg, me.pq, script).Ok?
    ensures exists s | s in sessions :: s.PasswordClient? && Agree(s, me)
  {
    ConfirmedHostHasPeer(me, script, aead, sessions);
  }

  /** A host that accepts a key-mode client is talking to a run of that client which saw this
      host's answer: a replayed hello is not accepted. */
  lemma KeyHostAgrees(h: Hash, log: seq<Signed>, aead: seq<Sealing>, me: Session, trust: bool, script: HostScript, sessions: seq<Session>)
    requires (forall s | s in sessions :: Sized(s)) && SealedBy(aead, sessions) && Sized(me) && me.KeyHost?
    requires HostAcceptKey(h, log, aead, me.host, trust, me.v, me.hello, script).Ok?
    ensures trust && exists s | s in sessions :: s.KeyClient? && Agree(s, me)
  {
    assert HostDerive(h, log, me.host, trust, me.v, me.hello) == ChannelOf(me);
    ConfirmedHostHasPeer(me, script, aead, sessions);
  }

  /** Both directions of trust at the host: the accepted client's identity key signed this
      hello, and a run of that client saw this host's answer to it. */
  lemma KeyHostKnowsItsClient(h: Hash, log: seq<Signed>, aead: seq<Sealing>, me: Session, trust: bool, script: HostScript, sessions: seq<Session>)
    requires (forall s | s in sessions :: Sized(s)) && SealedBy(aead, sessions) && Sized(me) && me.KeyHost?
    requires HonestLog(h, log) && FitsFrame(me.hello)
    requires HostAcceptKey(h, log, aead, me.host, trust, me.v, me.hello, script).Ok?
    ensures trust && HelloSigned(log, me.v, me.hello) && exists s | s in sessions :: s.KeyClient? && Agree(s, me)
  {
    HostTakesOnlySignedHellos(h, log, me.host, trust, me.v, me.hello);
    KeyHostAgrees(h, log, aead, me, trust, script, sessions);
  }

  // ---- an undisturbed exchange connects ----

  lemma TokenOpensAtPeer(a: Channel, b: Channel, ciphertext: seq<byte>, aead: seq<Sealing>)
    requires a.sendKey == b.recvKey && a.binding == b.binding && b.nextRecv == 0 && |ciphertext| >= TAG_LEN
    requires SealedRecord(a, 0, CONFIRM_TOKEN, ciphertext) in aead
    requires forall s | s in aead && s.key == a.sendKey && s.nonce == Nonce(0) :: s.plaintext == CONFIRM_TOKEN
    ensures OpenToken(b, Got(Confirm(Base64.Encode(Header(0) + ciphertext))), aead) == Some(b.(nextRecv := 1))
  {
    InOrderPacketOpens(a, b, CONFIRM_TOKEN, ciphertext, aead);
    Base64.DecodeNOfEncode(Header(0) + ciphertext);
  }

  /** The token each side sealed, and nothing else under that key and nonce. */
  predicate OnlyToken(aead: seq<Sealing>, c: Channel, ciphertext: seq<byte>) {
    && |ciphertext| >= TAG_LEN && SealedRecord(c, 0, CONFIRM_TOKEN, ciphertext) in aead
    && forall s | s in aead && s.key == c.sendKey && s.nonce == Nonce(0) :: s.plaintext == CONFIRM_TOKEN
  }

  function Confirmation(ciphertext: seq<byte>): Reading {
    Got(Confirm(Base64.Encode(Header(0) + ciphertext)))
  }

  lemma MirroredChannelsConfirm(a: Channel, b: Channel, answer: Reading, x: seq<byte>, y: seq<byte>, aead: seq<Sealing>)
    requires Mirrors(a, b) && a.nextRecv == 0 && b.nextRecv == 0 && OnlyToken(aead, a, x) && OnlyToken(aead, b, y)
    ensures ClientConfirm(Some(a), Script(None, answer, None, Confirmation(y)), aead) == Ok(a.(nextSend := 1, nextRecv := 1))
    ensures HostConfirm(Some(b), HostScript(None, Confirmation(x), None), aead) == Ok(b.(nextSend := 1, nextRecv := 1))
  {
    TokenOpensAtPeer(a, b, x, aead);
    TokenOpensAtPeer(b, TokenSent(a), y, aead);
  }

  lemma NewChannel(s: Session)
    requires ChannelOf(s).Some?
    ensures ChannelOf(s).value.nextSend == 0 && ChannelOf(s).value.nextRecv == 0
  {
  }

  /** Two runs that agree both confirm; the established channels are theirs, one record in
      each direction later. */
  lemma AgreeingSessionsConfirm(c: Session, h: Session, answer: Reading, x: seq<byte>, y: seq<byte>, aead: seq<Sealing>)
    requires IsClient(c) && Agree(c, h) && Sized(c) && Sized(h)
    requires ChannelOf(c).Some? && ChannelOf(h).Some?
    requires OnlyToken(aead, ChannelOf(c).value, x) && OnlyToken(aead, ChannelOf(h).value, y)
    ensures ClientConfirm(ChannelOf(c), Script(None, answer, None, Confirmation(y)), aead)
            == Ok(ChannelOf(c).value.(nextSend := 1, nextRecv := 1))
    ensures HostConfirm(ChannelOf(h), HostScript(None, Confirmation(x), None), aead)
            == Ok(ChannelOf(h).value.(nextSend := 1, nextRecv := 1))
  {
    MirrorsIffAgree(c, h);
    NewChannel(c);
    NewChannel(h);
    MirroredChannelsConfirm(ChannelOf(c).value, ChannelOf(h).value, answer, x, y, aead);
  }

  /** The runs of a client and a host that receive each other's messages unchanged. */
  function ClientRun(client: Client, host: Host): Session {
    KeyClient(client, client.Version(), host.Answer(client.Hello()))
  }

  function HostRun(client: Client, host: Host): Session {
    KeyHost(host, client.Version(), client.Hello())
  }

  predicate Signs(log: seq<Signed>, client: Client, host: Host) {
    && |client.identity| == 32 && |host.identity| == 32 && |client.signature| == 64 && |host.signature| == 64
    && Signed(ClientHello(client.identity, client.Version(), Encoded(client.kem), client.eph), client.signature) in log
    && Signed(HostHello(host.identity, client.Version(), client.Hello(), Answered(host.ciphertext, Encoded(client.kem)), host.eph), host.signature) in log
  }

  lemma HelloVerifies(h: Hash, log: seq<Signed>, client: Client, host: Host)
    requires Signs(log, client, host)
    ensures AcceptsHello(h, log, client.Version(), Encoded(client.kem), Some(client.identity), Some(client.eph), Some(client.signature))
  {
    var s := Signed(ClientHello(client.identity, client.Version(), Encoded(client.kem), client.eph), client.signature);
    assert s in log && s.what.key == client.identity;
  }

  lemma HostDerives(h: Hash, log: seq<Signed>, me: Host, v: nat, hello: KexFields, id: seq<byte>, eph: seq<byte>, signature: seq<byte>)
    requires Base64.DecodeN(hello.id, 32) == Some(id) && Base64.DecodeN(hello.eph, 32) == Some(eph)
    requires Base64.DecodeN(hello.sig, 64) == Some(signature)
    requires AcceptsHello(h, log, v, hello.pq, Some(id), Some(eph), Some(signature))
    ensures HostDerive(h, log, me, true, v, hello) == HostKeyChannel(me, v, hello)
  {
  }

  lemma HostAcceptsHello(h: Hash, log: seq<Signed>, client: Client, host: Host)
    requires Signs(log, client, host) && |client.eph| == 32
    ensures HostDerive(h, log, host, true, client.Version(), client.Hello()) == ChannelOf(HostRun(client, host))
  {
    HelloVerifies(h, log, client, host);
    Base64.DecodeNOfEncode(client.identity);
    Base64.DecodeNOfEncode(client.eph);
    Base64.DecodeNOfEncode(client.signature);
    HostDerives(h, log, host, client.Version(), client.Hello(), client.identity, client.eph, client.signature);
  }

  lemma AnswerVerifies(h: Hash, log: seq<Signed>, client: Client, host: Host)
    requires Signs(log, client, host)
    ensures AcceptsAnswer(h, log, host.identity, client.Version(), client.Hello(), host.Answer(client.Hello()).pq,
                          Some(host.identity), Some(host.eph), Some(host.signature))
  {
    var pq := Answered(host.ciphertext, Encoded(client.kem));
    var s := Signed(HostHello(host.identity, client.Version(), client.Hello(), pq, host.eph), host.signature);
    assert s in log && s.what.key == host.identity;
  }

  lemma ClientAcceptsAnswer(h: Hash, log: seq<Signed>, client: Client, host: Host)
    requires Signs(log, client, host) && |host.eph| == 32
    ensures ClientDerive(h, log, client, host.identity, client.Version(), host.Answer(client.Hello())) == ChannelOf(ClientRun(client, host))
  {
    AnswerVerifies(h, log, client, host);
    Base64.DecodeNOfEncode(host.identity);
    Base64.DecodeNOfEncode(host.eph);
    Base64.DecodeNOfEncode(host.signature);
  }

  lemma RunsMirror(client: Client, host: Host)
    requires Sized(ClientRun(client, host)) && Sized(HostRun(client, host))
    ensures ChannelOf(ClientRun(client, host)).Some? && ChannelOf(HostRun(client, host)).Some?
    ensures Mirrors(ChannelOf(ClientRun(client, host)).value, ChannelOf(HostRun(client, host)).value)
  {
    AgreeingKeysMirror(ClientRun(client, host), HostRun(client, host));
  }

  lemma ConnectsWith(h: Hash, log: seq<Signed>, aead: seq<Sealing>, me: Client, pinned: seq<byte>, v: nat, host: KexFields,
                     confirmation: Reading)
    ensures var script := Script(None, Got(Kex(v, host)), None, confirmation);
            ClientConnectKey(h, log, aead, me, Some(pinned), script) == ClientConfirm(ClientDerive(h, log, me, pinned, v, host), script, aead)
  {
  }

  /** Key mode on an undisturbed stream, hybrid or classical: both sides connect, over
      channels that mirror each other. */
  lemma UndisturbedKeyExchangeConnects(h: Hash, log: seq<Signed>, aead: seq<Sealing>, client: Client, host: Host,
                                       c: Channel, d: Channel, x: seq<byte>, y: seq<byte>)
    requires Signs(log, client, host) && Sized(ClientRun(client, host)) && Sized(HostRun(client, host))
    requires ChannelOf(ClientRun(client, host)) == Some(c) && ChannelOf(HostRun(client, host)) == Some(d)
    requires OnlyToken(aead, c, x) && OnlyToken(aead, d, y)
    ensures Mirrors(c, d)
    ensures UndisturbedClient(h, log, aead, client, host, y) == Ok(c.(nextSend := 1, nextRecv := 1))
    ensures UndisturbedHost(h, log, aead, client, host, x) == Ok(d.(nextSend := 1, nextRecv := 1))
  {
    UndisturbedDerivation(h, log, client, host, c, d);
    var v, answer := client.Version(), host.Answer(client.Hello());
    MirroredChannelsConfirm(c, d, Got(Kex(v, answer)), x, y, aead);
    ConnectsWith(h, log, aead, client, host.identity, v, answer, Confirmation(y));
  }

  lemma UndisturbedDerivation(h: Hash, log: seq<Signed>, client: Client, host: Host, c: Channel, d: Channel)
    requires Signs(log, client, host) && Sized(ClientRun(client, host)) && Sized(HostRun(client, host))
    requires ChannelOf(ClientRun(client, host)) == Some(c) && ChannelOf(HostRun(client, host)) == Some(d)
    ensures Mirrors(c, d) && c.nextRecv == 0 && d.nextRecv == 0
    ensures ClientDerive(h, log, client, host.identity, client.Version(), host.Answer(client.Hello())) == Some(c)
    ensures HostDerive(h, log, host, true, client.Version(), client.Hello()) == Some(d)
  {
    RunsMirror(client, host);
    NewChannel(ClientRun(client, host));
    NewChannel(HostRun(client, host));
    HostAcceptsHello(h, log, client, host);
    ClientAcceptsAnswer(h, log, client, host);
  }

  function UndisturbedClient(h: Hash, log: seq<Signed>, aead: seq<Sealing>, client: Client, host: Host, y: seq<byte>): Result<Channel, SdkError> {
    ClientConnectKey(h, log, aead, client, Some(host.identity),
                     Script(None, Got(Kex(client.Version(), host.Answer(client.Hello()))), None, Confirmation(y)))
  }

  function UndisturbedHost(h: Hash, log: seq<Signed>, aead: seq<Sealing>, client: Client, host: Host, x: seq<byte>): Result<Channel, SdkError> {
    HostAcceptKey(h, log, aead, host, true, client.Version(), client.Hello(), HostScript(None, Confirmation(x), None))
  }

  // ---- password mode on an undisturbed stream ----

  /** The runs of a client and a host that type `a` and `b` and receive each other's messages
      unchanged. */
  function PasswordClientRun(a: seq<byte>, mine: seq<byte>, kem: Option<seq<byte>>, theirs: seq<byte>, ciphertext: seq<byte>): Session {
    PasswordClient(a, mine, kem, VersionOf(kem), Base64.Encode(theirs), Answered(ciphertext, Encoded(kem)))
  }

  function PasswordHostRun(b: seq<byte>, mine: seq<byte>, kem: Option<seq<byte>>, theirs: seq<byte>, ciphertext: seq<byte>): Session {
    PasswordHost(b, theirs, ciphertext, VersionOf(kem), Base64.Encode(mine), Encoded(kem))
  }

  lemma PasswordRunsAgree(a: seq<byte>, b: seq<byte>, mine: seq<byte>, kem: Option<seq<byte>>, theirs: seq<byte>, ciphertext: seq<byte>)
    ensures Agree(PasswordClientRun(a, mine, kem, theirs, ciphertext), PasswordHostRun(b, mine, kem, theirs, ciphertext)) <==> a == b
  {
    Base64.DecodeNOfEncode(mine);
    Base64.DecodeNOfEncode(theirs);
  }

  lemma PasswordClientConfirms(c: Session, confirmation: Reading, aead: seq<Sealing>)
    requires c.PasswordClient?
    ensures var script := Script(None, Got(Wire.Pake(c.v, c.msg, c.pq)), None, confirmation);
            ClientConnectPassword(aead, c.password, c.mine, c.kem, script) == ClientConfirm(ChannelOf(c), script, aead)
  {
  }

  /** Password mode on an undisturbed stream, hybrid or classical, with the same password: both
      sides connect, over channels that mirror each other. */
  lemma UndisturbedPasswordExchangeConnects(aead: seq<Sealing>, c: Session, h: Session, password: seq<byte>, mine: seq<byte>, kem: Option<seq<byte>>,
                                            theirs: seq<byte>, ciphertext: seq<byte>, x: seq<byte>, y: seq<byte>)
    requires c == PasswordClientRun(password, mine, kem, theirs, ciphertext) && h == PasswordHostRun(password, mine, kem, theirs, ciphertext)
    requires Sized(c) && Sized(h) && ChannelOf(c).Some? && ChannelOf(h).Some?
    requires OnlyToken(aead, ChannelOf(c).value, x) && OnlyToken(aead, ChannelOf(h).value, y)
    ensures Mirrors(ChannelOf(c).value, ChannelOf(h).value)
    ensures ClientConnectPassword(aead, password, mine, kem, Script(None, Got(Wire.Pake(c.v, c.msg, c.pq)), None, Confirmation(y)))
            == Ok(ChannelOf(c).value.(nextSend := 1, nextRecv := 1))
    ensures HostAcceptPassword(aead, password, theirs, ciphertext, h.v, h.msg, h.pq, HostScript(None, Confirmation(x), None))
            == Ok(ChannelOf(h).value.(nextSend := 1, nextRecv := 1))
  {
    PasswordRunsAgree(password, password, mine, kem, theirs, ciphertext);
    AgreeingPasswordsMirror(c, h);
    AgreeingSessionsConfirm(c, h, Got(Wire.Pake(c.v, c.msg, c.pq)), x, y, aead);
    PasswordClientConfirms(c, Confirmation(y), aead);
  }

  /** There is a channel on both sides. */
  lemma PasswordRunsDerive(password: seq<byte>, mine: seq<byte>, kem: Option<seq<byte>>, theirs: seq<byte>, ciphertext: seq<byte>)
    requires Sized(PasswordClientRun(password, mine, kem, theirs, ciphertext)) && Sized(PasswordHostRun(password, mine, kem, theirs, ciphertext))
    ensures ChannelOf(PasswordClientRun(password, mine, kem, theirs, ciphertext)).Some?
    ensures ChannelOf(PasswordHostRun(password, mine, kem, theirs, ciphertext)).Some?
  {
    PasswordRunsAgree(password, password, mine, kem, theirs, ciphertext);
    AgreeingPasswordsMirror(PasswordClientRun(password, mine, kem, theirs, ciphertext), PasswordHostRun(password, mine, kem, theirs, ciphertext));
  }
}
