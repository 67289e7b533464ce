/**
  Relay sessions end to end (session.rs of rivetlink-sdk, session/host.rs of rivetlink-agent):
  input that a host injects comes from a client run which saw this host's answer, and an
  undisturbed exchange connects both ends, carries the client's input and brings the screenshot
  back.
 */
module RelayRun {
  import opened Common
  import Bytes
  import opened Crypto
  import opened Transcripts
  import Sealed
  import opened Direct
  import opened HostSession
  import opened Admission
  import opened RelayJson
  import opened RelaySession
  import SessionLife
  import ControlRun
  import Base64

  // ---- whoever is obeyed agrees ----

  /** Sealing in the client's direction is done by the client runs `runs`. */
  predicate SealedByRuns(env: Env, runs: seq<ClientRun>) {
    forall r | r in env.aead && r.key.info.ClientToHost? ::
      exists c | c in runs :: ClientOk(c) && ClientChannel(env, c).sendKey == r.key
  }

  predicate Sized(e: Event) {
    && (e.SessionRequest? ==> |e.kex.eph| == 32)
    && (e.KeyExchange? ==> |e.p.sid| == SESSION_ID_LEN)
  }

  /** The host's side of the session of request `i`, keyed by packet `x`. */
  function RunOf(key: seq<byte>, request: Event, exchange: Event): HostRun
    requires request.SessionRequest? && exchange.KeyExchange?
  {
    HostRun(Base64.Encode(key), request.kex, exchange.p)
  }

  lemma SealerAgrees(env: Env, m: Machine, key: seq<byte>, runs: seq<ClientRun>, h: HostRun, client: seq<byte>, r: Sealing) returns (c: ClientRun)
    requires SelfDelimiting(env.json) && SealedByRuns(env, runs) && HostOk(h, key) && m.identity == h.identity
    requires Base64.DecodeN(h.hello.identity, 32) == Some(client)
    requires r in env.aead && r.key == RelayChannel(env, m, h.hello, h.kex).recvKey
    ensures c in runs && Agree(c, h) && c.host == key && c.identity == client
  {
    HostChannelIsRelays(env, m, h);
    c :| c in runs && ClientOk(c) && ClientChannel(env, c).sendKey == r.key;
    SharedRelayKeyMeansAgreement(env, c, h, key);
    Base64.DecodeNOfEncode(c.identity);
  }

  /** What `Lawful` says of the packet that keyed the channel. */
  lemma LawfulPacket(env: Env, policy: Policy, trust: Trust, i: Injection)
    requires Lawful(env, policy, trust, i)
    ensures Base64.DecodeN(i.packet.identity, 32) == Some(i.client)
    ensures exists r | r in env.aead :: r.key == i.key
  {
    var r :| r in env.aead && OpenedFrom(env, i, r);
  }

  /** Over every packet sequence that a relay delivers to the host: if only client runs seal in
      their direction, input that reached the sink was sealed by a run of that very client
      which pinned this host, got this host's answer unchanged and sent the key exchange that
      the host took; and it arrived while that session was open. */
  lemma InputComesFromAgreeingClients(env: Env, policy: Policy, key: seq<byte>, trust: Trust, sink: bool, events: seq<Event>, k: nat, runs: seq<ClientRun>)
    returns (i: nat, x: nat, j: nat, c: ClientRun)
    requires SelfDelimiting(env.json) && SealedByRuns(env, runs) && |key| == 32 && forall e | e in events :: Sized(e)
    requires k < |Run(env, NewMachine(policy, Base64.Encode(key), trust, sink), events).injected|
    ensures var m := NewMachine(policy, Base64.Encode(key), trust, sink);
            && SessionLife.Keyed(SessionLife.MeaningOf(env), SessionLife.States(env, m, events), events, i, x, j)
            && SessionLife.Brought(env, m, events, i, x, j, Run(env, m, events).injected[k])
            && c in runs && Agree(c, RunOf(key, events[i], events[x])) && c.host == key && c.identity == Run(env, m, events).injected[k].client
  {
    var m := NewMachine(policy, Base64.Encode(key), trust, sink);
    i, x, j := SessionLife.InputComesFromOpenSessions(env, policy, Base64.Encode(key), trust, sink, events, k);
    c := BringerAgrees(env, m, key, policy, trust, events, i, x, j, Run(env, m, events).injected[k], runs);
  }

  lemma BringerAgrees(env: Env, m: Machine, key: seq<byte>, policy: Policy, trust: Trust, events: seq<Event>, i: nat, x: nat, j: nat,
                      injection: Injection, runs: seq<ClientRun>) returns (c: ClientRun)
    requires SelfDelimiting(env.json) && SealedByRuns(env, runs) && |key| == 32 && m.identity == Base64.Encode(key)
    requires SessionLife.Brought(env, m, events, i, x, j, injection) && Lawful(env, policy, trust, injection)
    requires forall e | e in events :: Sized(e)
    ensures c in runs && Agree(c, RunOf(key, events[i], events[x])) && c.host == key && c.identity == injection.client
  {
    assert events[i] in events && events[x] in events;
    LawfulPacket(env, policy, trust, injection);
    var r :| r in env.aead && r.key == injection.key;
    c := SealerAgrees(env, m, key, runs, RunOf(key, events[i], events[x]), injection.client, r);
  }

  // ---- whom a connected client talks to ----

  predicate SizedPacket(m: Incoming) {
    && (m.Accepted? ==> |m.kex.eph| == 32)
    && (m.HostExchange? ==> |m.p.sid| == SESSION_ID_LEN && |RelayBinding(m.p.sid, HOST_ROLE, m.p.identity)| < Bytes.U64)
  }

  /** What the client's checks give. */
  lemma DerivedIsOk(env: Env, c: Viewer, kex: LocalKex, p: KexPacket, d: Sealed.Channel)
    requires Derived(env, c, kex, p, d) && |c.identity| == 32 && |kex.eph| == 32 && |p.sid| == SESSION_ID_LEN
    requires Base64.DecodeN(c.text, 32) == Some(c.host)
    ensures ClientOk(ClientRun(c.identity, c.host, kex, p))
  {
    CanonicalKey(c.text, c.host);
  }

  /** Over every packet sequence that a relay delivers to a client: one that has a channel got
      an answer in the session last accepted whose ephemeral key the pinned host signed as the
      host of that session; and a host that shares a key of the channel is the pinned one, and
      agrees with the client on the whole exchange. */
  lemma ConnectedRelayClientAgrees(env: Env, identity: seq<byte>, host: seq<byte>, text: seq<byte>, packets: seq<Incoming>, h: HostRun, key: seq<byte>)
    returns (i: nat, x: nat, d: Sealed.Channel)
    requires HonestLog(env.h, env.signed) && HonestRelay(env.signed) && SelfDelimiting(env.json) && HostOk(h, key)
    requires |identity| == 32 && Base64.DecodeN(text, 32) == Some(host) && forall m | m in packets :: SizedPacket(m)
    requires var c := Drive(env, NewViewer(identity, host, text), packets);
             c.Some? && c.value.channel.Some?
    ensures d == Drive(env, NewViewer(identity, host, text), packets).value.channel.value && Answers(packets, i, x, |packets|)
    ensures Base64.DecodeN(packets[x].p.eph, 32).Some?
    ensures SignedByHost(env.signed, host, packets[i].sid, Base64.DecodeN(packets[x].p.eph, 32).value)
    ensures d.recvKey == HostChannel(env, h).sendKey || d.sendKey == HostChannel(env, h).recvKey ==>
              Agree(ClientRun(identity, host, packets[i].kex, packets[x].p), h) && host == key
  {
    var c := NewViewer(identity, host, text);
    d := Drive(env, c, packets).value.channel.value;
    i, x := ChannelIsAnswered(env, c, packets);
    assert packets[i] in packets && packets[x] in packets;
    DerivedAgrees(env, c, packets[i].kex, packets[x].p, d, h, key);
  }

  lemma DerivedAgrees(env: Env, c: Viewer, kex: LocalKex, p: KexPacket, d: Sealed.Channel, h: HostRun, key: seq<byte>)
    requires HonestLog(env.h, env.signed) && HonestRelay(env.signed) && SelfDelimiting(env.json) && HostOk(h, key)
    requires Derived(env, c, kex, p, d) && |c.identity| == 32 && Base64.DecodeN(c.text, 32) == Some(c.host)
    requires |kex.eph| == 32 && SizedPacket(HostExchange(p))
    ensures Base64.DecodeN(p.eph, 32).Some? && SignedByHost(env.signed, c.host, p.sid, Base64.DecodeN(p.eph, 32).value)
    ensures d.recvKey == HostChannel(env, h).sendKey || d.sendKey == HostChannel(env, h).recvKey ==>
              Agree(ClientRun(c.identity, c.host, kex, p), h) && c.host == key
  {
    RelayAnswerWasSigned(env, c.host, c.text, p);
    DerivedIsOk(env, c, kex, p, d);
    if d.recvKey == HostChannel(env, h).sendKey || d.sendKey == HostChannel(env, h).recvKey {
      SharedRelayKeyMeansAgreement(env, ClientRun(c.identity, c.host, kex, p), h, key);
    }
  }

  // ---- an undisturbed session ----

  /** Both ends signed their ephemeral keys, in their roles and for this session. */
  predicate BothSigned(signed: seq<Signed>, c: ClientRun, h: HostRun) {
    && |c.kex.signature| == 64 && |h.kex.signature| == 64
    && Signed(RelayKex(c.identity, c.answer.sid, CLIENT_ROLE, Base64.Encode(c.identity), c.kex.eph), c.kex.signature) in signed
    && Signed(RelayKex(c.host, h.hello.sid, HOST_ROLE, Base64.Encode(c.host), h.kex.eph), h.kex.signature) in signed
  }

  lemma SignedVerifies(env: Env, key: seq<byte>, sid: seq<byte>, role: seq<byte>, id: seq<byte>, eph: seq<byte>, signature: seq<byte>)
    requires Signed(RelayKex(key, sid, role, id, eph), signature) in env.signed
    ensures Verifies(env.h, env.signed, key, SignatureMessage(RELAY_DOMAIN + sid + role + id, eph), signature)
  {
    var s := Signed(RelayKex(key, sid, role, id, eph), signature);
    assert Message(env.h, s.what) == SignatureMessage(RELAY_DOMAIN + sid + role + id, eph);
  }

  lemma AnswerDecodes(c: ClientRun, h: HostRun)
    requires Agree(c, h) && |h.kex.eph| == 32 && |h.kex.signature| == 64
    ensures c.answer.sid == h.hello.sid && Base64.DecodeN(c.answer.eph, 32) == Some(h.kex.eph)
    ensures Base64.DecodeN(c.answer.signature, 64) == Some(h.kex.signature)
  {
    Base64.DecodeNOfEncode(h.kex.eph);
    Base64.DecodeNOfEncode(h.kex.signature);
  }

  lemma AnswerVerifies(env: Env, c: ClientRun, h: HostRun, text: seq<byte>)
    requires ClientOk(c) && |h.kex.eph| == 32 && Agree(c, h) && BothSigned(env.signed, c, h) && Base64.Trim(text) == Base64.Encode(c.host)
    ensures HostVerified(env, c.host, text, c.answer)
  {
    AnswerDecodes(c, h);
    SignedVerifies(env, c.host, h.hello.sid, HOST_ROLE, Base64.Encode(c.host), h.kex.eph, h.kex.signature);
  }

  lemma DriveTwo(env: Env, v: Viewer, sid: seq<byte>, kex: LocalKex, p: KexPacket)
    ensures Drive(env, v, [Incoming.Accepted(sid, kex), HostExchange(p)]) == TakeExchange(env, v.(sid := Some(sid), kex := Some(kex)), p)
  {
    var a, b := Incoming.Accepted(sid, kex), HostExchange(p);
    assert [a, b][..1] == [a] && [a][..0] == [];
    assert Drive(env, v, []) == Some(v);
    assert Drive(env, v, [a]) == Some(v.(sid := Some(sid), kex := Some(kex)));
  }

  lemma ExchangeIsTaken(env: Env, v: Viewer, kex: LocalKex, p: KexPacket)
    requires v.sid == Some(p.sid) && v.kex == Some(kex) && HostVerified(env, v.host, v.text, p) && Base64.DecodeN(p.eph, 32).Some?
    ensures TakeExchange(env, v, p) == Some(v.(kex := None, channel := Some(ClientChannel(env, ClientRun(v.identity, v.host, kex, p)))))
  {
  }

  /** The client's two packets lead to its channel. */
  lemma ClientConnects(env: Env, v: Viewer, kex: LocalKex, p: KexPacket)
    requires HostVerified(env, v.host, v.text, p) && Base64.DecodeN(p.eph, 32).Some?
    ensures Drive(env, v, [Incoming.Accepted(p.sid, kex), HostExchange(p)])
            == Some(v.(sid := Some(p.sid), kex := None, channel := Some(ClientChannel(env, ClientRun(v.identity, v.host, kex, p)))))
  {
    DriveTwo(env, v, p.sid, kex, p);
    ExchangeIsTaken(env, v.(sid := Some(p.sid), kex := Some(kex)), kex, p);
  }

  lemma HelloIsSigned(signed: seq<Signed>, c: ClientRun, h: HostRun)
    requires ClientOk(c) && Agree(c, h) && BothSigned(signed, c, h)
    ensures SignedPacket(signed, c.identity, h.hello)
  {
    Base64.DecodeNOfEncode(c.identity);
    Base64.DecodeNOfEncode(c.kex.eph);
    Base64.DecodeNOfEncode(c.kex.signature);
    TrimmedText(c.identity);
  }

  /** The host accepts request `e` of this client, which is for the session of `c` and `h`. */
  predicate Opening(env: Env, s: State, e: Event, c: ClientRun, h: HostRun) {
    && Admits(env, s.m, e, c.identity) && e.kex.eph !in s.seen && e.kex == h.kex && e.sid == Some(h.hello.sid) && s.m.identity == h.identity
    && |RelayBinding(h.hello.sid, CLIENT_ROLE, h.hello.identity)| < Bytes.U64
  }

  lemma HostConnects(env: Env, s: State, e: Event, c: ClientRun, h: HostRun, key: seq<byte>)
    requires HonestLog(env.h, env.signed) && HonestRelay(env.signed) && Opening(env, s, e, c, h)
    requires ClientOk(c) && HostOk(h, key) && Agree(c, h) && BothSigned(env.signed, c, h)
    ensures DoExchange(env, DoSessionRequest(env, s, e), h.hello).m.channel == Some(HostChannel(env, h))
  {
    HelloIsSigned(env.signed, c, h);
    ControlRun.RequestIsTaken(env, s, e, c.identity);
    var s' := DoSessionRequest(env, s, e);
    ControlRun.ExchangeIsTaken(env, s', h.hello, c.identity, e.kex);
    HostChannelIsRelays(env, s'.m, h);
  }

  /** On an undisturbed relay: a client that the host admits, and that pins this host, ends with
      a channel, and so does the host, and the two mirror each other. */
  lemma UndisturbedRelayConnects(env: Env, s: State, e: Event, c: ClientRun, h: HostRun, key: seq<byte>, text: seq<byte>)
    requires HonestLog(env.h, env.signed) && HonestRelay(env.signed) && Opening(env, s, e, c, h)
    requires ClientOk(c) && HostOk(h, key) && Agree(c, h) && BothSigned(env.signed, c, h) && Base64.Trim(text) == Base64.Encode(c.host)
    ensures Drive(env, NewViewer(c.identity, c.host, text), [Incoming.Accepted(c.answer.sid, c.kex), HostExchange(c.answer)])
            == Some(Viewer(c.identity, c.host, text, Some(c.answer.sid), None, Some(ClientChannel(env, c))))
    ensures DoExchange(env, DoSessionRequest(env, s, e), h.hello).m.channel == Some(HostChannel(env, h))
    ensures Sealed.Mirrors(ClientChannel(env, c), HostChannel(env, h))
  {
    AnswerVerifies(env, c, h, text);
    ClientConnects(env, NewViewer(c.identity, c.host, text), c.kex, c.answer);
    HostConnects(env, s, e, c, h, key);
    AgreeingRunsMirror(env, c, h, key);
  }

  /** The client sealed `r` as its record `n`, and nothing else under that number. */
  predicate Seals(env: Env, peer: Sealed.Channel, n: nat, r: ControlRun.Record) {
    && n < Sealed.U64_MAX && |r.ciphertext| >= Sealed.TAG_LEN && |Base64.Encode(ControlRun.Packet(n, r))| <= MAX_INPUT_BYTES
    && Sealed.SealedRecord(peer, n, r.plaintext, r.ciphertext) in env.aead
    && forall x | x in env.aead && x.key == peer.sendKey && x.nonce == Sealed.Nonce(n) :: x.plaintext == r.plaintext
  }

  lemma MirroredSealing(env: Env, peer: Sealed.Channel, c: Sealed.Channel, records: seq<ControlRun.Record>)
    requires Sealed.Mirrors(peer, c) && forall n | 0 <= n < |records| :: Seals(env, peer, n, records[n])
    ensures ControlRun.SealedInOrder(env, c, peer, records)
  {
    forall n | 0 <= n < |records|
      ensures ControlRun.SealedAt(env, c, peer, n, records[n])
    {
      assert Seals(env, peer, n, records[n]);
    }
  }

  lemma OpeningEntitles(env: Env, s: State, e: Event, c: ClientRun, h: HostRun, key: seq<byte>)
    requires Opening(env, s, e, c, h) && ClientOk(c) && HostOk(h, key) && Agree(c, h) && BothSigned(env.signed, c, h)
    requires e.capability.ConsoleControl? && s.m.sink
    ensures ControlRun.Entitled(env, s, e, c.identity, h.hello)
  {
    HelloIsSigned(env.signed, c, h);
  }

  /** And what such a client seals with the channel it has, as a controller: every valid event
      is injected, in order and once, and nothing else is. */
  lemma ClientInputIsInjected(env: Env, s: State, e: Event, c: ClientRun, h: HostRun, key: seq<byte>, records: seq<ControlRun.Record>)
    requires HonestLog(env.h, env.signed) && HonestRelay(env.signed) && Opening(env, s, e, c, h)
    requires ClientOk(c) && HostOk(h, key) && Agree(c, h) && BothSigned(env.signed, c, h) && e.capability.ConsoleControl? && s.m.sink
    requires forall n | 0 <= n < |records| :: Seals(env, ClientChannel(env, c), n, records[n])
    ensures var connected := DoExchange(env, DoSessionRequest(env, s, e), h.hello);
            ControlRun.AfterInput(env, connected, h.hello.sid, ControlRun.Texts(records)).injected
            == s.injected + ControlRun.Expected(env, h.hello.sid, c.identity, h.hello, HostChannel(env, h).recvKey, records)
  {
    HostChannelIsRelays(env, s.m, h);
    AgreeingRunsMirror(env, c, h, key);
    MirroredSealing(env, ClientChannel(env, c), HostChannel(env, h), records);
    OpeningEntitles(env, s, e, c, h, key);
    ControlRun.ControllerIsObeyed(env, s, e, c.identity, h.hello, ClientChannel(env, c), records);
  }

  /** The screenshot that the host sealed next is what the client opens. */
  lemma ScreenshotComesBack(env: Env, c: ClientRun, h: HostRun, key: seq<byte>, n: nat, image: seq<byte>, ciphertext: seq<byte>)
    requires ClientOk(c) && HostOk(h, key) && Agree(c, h) && n < Sealed.U64_MAX && |ciphertext| >= Sealed.TAG_LEN
    requires Sealed.SealedRecord(HostChannel(env, h), n, image, ciphertext) in env.aead
    requires forall r | r in env.aead && r.key == HostChannel(env, h).sendKey && r.nonce == Sealed.Nonce(n) :: r.plaintext == image
    ensures var d := ClientChannel(env, c).(nextRecv := n);
            Sealed.Open(d, Sealed.Header(n) + ciphertext, env.aead) == Sealed.Opened(d.(nextRecv := n + 1), Ok(image))
  {
    AgreeingRunsMirror(env, c, h, key);
    Sealed.InOrderPacketOpens(HostChannel(env, h), ClientChannel(env, c).(nextRecv := n), image, ciphertext, env.aead);
  }
}
