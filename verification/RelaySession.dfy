/**
  Both ends of a relay session: the client's side of the signed key exchange
  (crates/rivetlink-sdk/src/session.rs) over every sequence of packets a relay can deliver to it,
  and what client and host (crates/rivetlink-agent/src/session/host.rs) know about each other
  once they share a key.
 */
module RelaySession {
  import opened Common
  import opened Bytes
  import opened Crypto
  import opened Transcripts
  import Sealed
  import opened Direct
  import opened HostSession
  import opened RelayJson
  import Base64

  // ---- the client ----

  /** `host` is the key that the client pins; `text` is how it was given. */
  datatype Viewer = Viewer(identity: seq<byte>, host: seq<byte>, text: seq<byte>,
                           sid: Option<seq<byte>>, kex: Option<LocalKex>, channel: Option<Sealed.Channel>)

  function NewViewer(identity: seq<byte>, host: seq<byte>, text: seq<byte>): Viewer {
    Viewer(identity, host, text, None, None, None)
  }

  function MyPacket(identity: seq<byte>, sid: seq<byte>, kex: LocalKex): KexPacket {
    KexPacket(sid, Base64.Encode(kex.eph), Base64.Encode(identity), Base64.Encode(kex.signature))
  }

  /** The answer names the pinned identity, which signed it as the host of this session. */
  predicate HostVerified(env: Env, host: seq<byte>, text: seq<byte>, p: KexPacket) {
    var eph, signature := Base64.DecodeN(p.eph, 32), Base64.DecodeN(p.signature, 64);
    && Base64.Trim(p.identity) == Base64.Trim(text) && eph.Some? && signature.Some?
    && Verifies(env.h, env.signed, host, SignatureMessage(RelayBinding(p.sid, HOST_ROLE, p.identity), eph.value), signature.value)
  }

  /** What one end of an exchange brought and what arrived there. */
  datatype ClientRun = ClientRun(identity: seq<byte>, host: seq<byte>, kex: LocalKex, answer: KexPacket)

  datatype HostRun = HostRun(identity: seq<byte>, kex: LocalKex, hello: KexPacket)

  function Hello(c: ClientRun): KexPacket {
    MyPacket(c.identity, c.answer.sid, c.kex)
  }

  function ClientTranscript(json: KexPacket -> seq<byte>, c: ClientRun): seq<byte> {
    RELAY_DOMAIN + c.answer.sid + Base64.Trim(Base64.Encode(c.identity)) + Base64.Trim(Base64.Encode(c.host)) + json(Hello(c)) + json(c.answer)
  }

  function ClientChannel(env: Env, c: ClientRun): Sealed.Channel
    requires Base64.DecodeN(c.answer.eph, 32).Some?
  {
    Sealed.FromHandshakeSecret(X25519({c.kex.eph, Base64.DecodeN(c.answer.eph, 32).value}), ClientTranscript(env.json, c), Sealed.Initiator)
  }

  /** What the relay delivers. A new ephemeral key is made for every acceptance. */
  datatype Incoming = Accepted(sid: seq<byte>, kex: LocalKex) | HostExchange(p: KexPacket) | Rejected | Closed | Other

  function TakeExchange(env: Env, c: Viewer, p: KexPacket): Option<Viewer> {
    if c.sid != Some(p.sid) || !HostVerified(env, c.host, c.text, p) || c.kex.None? then None
    else Some(c.(kex := None, channel := Some(ClientChannel(env, ClientRun(c.identity, c.host, c.kex.value, p)))))
  }

  /** One turn of the client's loop; `None` is a failed capture. */
  function Take(env: Env, c: Viewer, m: Incoming): Option<Viewer> {
    match m
    case Accepted(sid, kex) => Some(c.(sid := Some(sid), kex := Some(kex)))
    case HostExchange(p) => TakeExchange(env, c, p)
    case Rejected => None
    case Closed => None
    case Other => Some(c)
  }

  function Drive(env: Env, c: Viewer, packets: seq<Incoming>): Option<Viewer> {
    if packets == [] then Some(c)
    else
      var before := Drive(env, c, packets[..|packets| - 1]);
      if before.None? then None else Take(env, before.value, Last(packets))
  }

  lemma {:induction false} FailedStaysFailed(env: Env, c: Viewer, packets: seq<Incoming>, n: nat)
    requires n <= |packets| && Drive(env, c, packets[..n]).None?
    ensures Drive(env, c, packets).None?
    decreases |packets|
  {
    if n == |packets| {
      assert packets[..n] == packets;
    } else {
      assert packets[..|packets| - 1][..n] == packets[..n];
      FailedStaysFailed(env, c, packets[..|packets| - 1], n);
    }
  }

  /** The key exchange part of `capture_screenshot`. */
  method Exchange(env: Env, identity: seq<byte>, host: seq<byte>, text: seq<byte>, packets: seq<Incoming>)
    returns (ok: bool, sid: Option<seq<byte>>, kex: Option<LocalKex>, channel: Option<Sealed.Channel>)
    ensures ok <==> Drive(env, NewViewer(identity, host, text), packets).Some?
    ensures ok ==> Drive(env, NewViewer(identity, host, text), packets) == Some(Viewer(identity, host, text, sid, kex, channel))
  {
    ghost var c := NewViewer(identity, host, text);
    sid, kex, channel := None, None, None;
    for n := 0 to |packets|
      invariant Drive(env, c, packets[..n]) == Some(Viewer(identity, host, text, sid, kex, channel))
    {
      assert packets[..n + 1][..n] == packets[..n];
      match packets[n] {
        case Accepted(s, k) =>
          sid, kex := Some(s), Some(k);
        case HostExchange(p) =>
          if sid != Some(p.sid) || !HostVerified(env, host, text, p) || kex.None? {
            FailedStaysFailed(env, c, packets, n + 1);
            return false, sid, kex, channel;
          }
          channel := Some(ClientChannel(env, ClientRun(identity, host, kex.value, p)));
          kex := None;
        case Other =>
        case _ =>
          FailedStaysFailed(env, c, packets, n + 1);
          return false, sid, kex, channel;
      }
    }
    assert packets[..|packets|] == packets;
    ok := true;
  }

  // ---- what a connected client knows ----

  /** `d` is the channel of ephemeral key `kex` and answer `p`, which the pinned identity signed. */
  predicate Derived(env: Env, c: Viewer, kex: LocalKex, p: KexPacket, d: Sealed.Channel) {
    && HostVerified(env, c.host, c.text, p) && Base64.DecodeN(p.eph, 32).Some?
    && d == ClientChannel(env, ClientRun(c.identity, c.host, kex, p))
  }

  /** One turn that does not fail, given which channels an answer may lead to. */
  predicate Turns(derived: (LocalKex, KexPacket, Sealed.Channel) -> bool, a: Viewer, m: Incoming, b: Viewer) {
    match m
    case Accepted(sid, kex) => b == a.(sid := Some(sid), kex := Some(kex))
    case HostExchange(p) =>
      && a.sid == Some(p.sid) && a.kex.Some? && b.channel.Some? && derived(a.kex.value, p, b.channel.value)
      && b == a.(kex := None, channel := b.channel)
    case Other => b == a
    case _ => false
  }

  function Derivation(env: Env, c: Viewer): (LocalKex, KexPacket, Sealed.Channel) -> bool {
    (kex, p, d) => Derived(env, c, kex, p, d)
  }

  predicate SameClient(c: Viewer, a: Viewer) {
    a.identity == c.identity && a.host == c.host && a.text == c.text
  }

  lemma ExchangeTurns(env: Env, c: Viewer, a: Viewer, p: KexPacket)
    requires SameClient(c, a) && TakeExchange(env, a, p).Some?
    ensures var b := TakeExchange(env, a, p).value;
            && a.sid == Some(p.sid) && a.kex.Some? && b.channel.Some? && Derived(env, c, a.kex.value, p, b.channel.value)
            && b == a.(kex := None, channel := b.channel)
  {
  }

  lemma TakeTurns(env: Env, c: Viewer, a: Viewer, m: Incoming)
    requires SameClient(c, a) && Take(env, a, m).Some?
    ensures Turns(Derivation(env, c), a, m, Take(env, a, m).value) && SameClient(c, Take(env, a, m).value)
  {
    if m.HostExchange? {
      ExchangeTurns(env, c, a, m.p);
    }
  }

  predicate Path(derived: (LocalKex, KexPacket, Sealed.Channel) -> bool, states: seq<Viewer>, packets: seq<Incoming>) {
    |states| == |packets| + 1 && forall j | 0 <= j < |packets| :: Turns(derived, states[j], packets[j], states[j + 1])
  }

  lemma PathOn(derived: (LocalKex, KexPacket, Sealed.Channel) -> bool, states: seq<Viewer>, packets: seq<Incoming>, b: Viewer)
    requires packets != [] && Path(derived, states, packets[..|packets| - 1]) && Turns(derived, Last(states), Last(packets), b)
    ensures Path(derived, states + [b], packets)
  {
  }

  lemma {:induction false} DriveIsPath(env: Env, c: Viewer, packets: seq<Incoming>) returns (states: seq<Viewer>)
    requires Drive(env, c, packets).Some?
    ensures Path(Derivation(env, c), states, packets) && states[0] == c && Last(states) == Drive(env, c, packets).value && SameClient(c, Last(states))
    decreases |packets|
  {
    if packets == [] {
      states := [c];
    } else {
      var front := packets[..|packets| - 1];
      states := DriveIsPath(env, c, front);
      TakeTurns(env, c, Last(states), Last(packets));
      PathOn(Derivation(env, c), states, packets, Drive(env, c, packets).value);
      states := states + [Drive(env, c, packets).value];
    }
  }

  /** A client with an ephemeral key has it from its last acceptance. */
  lemma {:induction false} KexIsAccepted(derived: (LocalKex, KexPacket, Sealed.Channel) -> bool, states: seq<Viewer>, packets: seq<Incoming>, n: nat)
    returns (i: nat)
    requires Path(derived, states, packets) && n < |states| && states[0].kex.None? && states[n].kex.Some?
    ensures i < n && packets[i].Accepted? && forall j | i < j < n :: !packets[j].Accepted?
    ensures states[n].kex == Some(packets[i].kex) && states[n].sid == Some(packets[i].sid)
    decreases n
  {
    assert Turns(derived, states[n - 1], packets[n - 1], states[n]);
    i := n - 1;
    if !packets[n - 1].Accepted? {
      i := KexIsAccepted(derived, states, packets, n - 1);
    }
  }

  /** Packet `i` was the last acceptance before packet `x`, the last answer before packet `n`. */
  predicate Answers(packets: seq<Incoming>, i: nat, x: nat, n: nat) {
    && i < x < n <= |packets| && packets[i].Accepted? && packets[x].HostExchange? && packets[x].p.sid == packets[i].sid
    && (forall j | i < j < x :: !packets[j].Accepted?) && (forall j | x < j < n :: !packets[j].HostExchange?)
  }

  lemma {:induction false} PathIsAnswered(derived: (LocalKex, KexPacket, Sealed.Channel) -> bool, states: seq<Viewer>, packets: seq<Incoming>, n: nat)
    returns (i: nat, x: nat)
    requires Path(derived, states, packets) && n < |states| && states[0].kex.None? && states[0].channel.None? && states[n].channel.Some?
    ensures Answers(packets, i, x, n) && derived(packets[i].kex, packets[x].p, states[n].channel.value)
    decreases n
  {
    assert Turns(derived, states[n - 1], packets[n - 1], states[n]);
    if packets[n - 1].HostExchange? {
      i := KexIsAccepted(derived, states, packets, n - 1);
      x := n - 1;
    } else {
      i, x := PathIsAnswered(derived, states, packets, n - 1);
    }
  }

  /** Over every packet sequence: a client that has a channel has it from an answer in the
      session that it was last told was accepted, with the ephemeral key it made for that
      acceptance, and the pinned identity signed the answer. */
  lemma ChannelIsAnswered(env: Env, c: Viewer, packets: seq<Incoming>) returns (i: nat, x: nat)
    requires c.kex.None? && c.channel.None? && Drive(env, c, packets).Some? && Drive(env, c, packets).value.channel.Some?
    ensures Answers(packets, i, x, |packets|)
    ensures Derived(env, c, packets[i].kex, packets[x].p, Drive(env, c, packets).value.channel.value)
  {
    var states := DriveIsPath(env, c, packets);
    i, x := PathIsAnswered(Derivation(env, c), states, packets, |packets|);
  }

  predicate SignedByHost(signed: seq<Signed>, host: seq<byte>, sid: seq<byte>, eph: seq<byte>) {
    exists s | s in signed ::
      s.what.RelayKex? && s.what.key == host && s.what.session == sid && s.what.role == HOST_ROLE && s.what.eph == eph
  }

  /** The pinned host itself signed this ephemeral key, as the host of this very session. */
  lemma RelayAnswerWasSigned(env: Env, host: seq<byte>, text: seq<byte>, p: KexPacket)
    requires HonestLog(env.h, env.signed) && HonestRelay(env.signed) && HostVerified(env, host, text, p)
    requires |p.sid| == SESSION_ID_LEN && |RelayBinding(p.sid, HOST_ROLE, p.identity)| < U64
    ensures SignedByHost(env.signed, host, p.sid, Base64.DecodeN(p.eph, 32).value)
  {
    var eph := Base64.DecodeN(p.eph, 32).value;
    var s :| s in env.signed && s.what.key == host && Message(env.h, s.what) == SignatureMessage(RelayBinding(p.sid, HOST_ROLE, p.identity), eph);
    RelaySigning(env.h, s.what, p.sid, HOST_ROLE, Base64.Trim(p.identity), eph);
  }

  // ---- agreement ----

  function Answer(h: HostRun): KexPacket {
    KexPacket(h.hello.sid, Base64.Encode(h.kex.eph), h.identity, Base64.Encode(h.kex.signature))
  }

  /** Each end got exactly the packet that the other sent. */
  predicate Agree(c: ClientRun, h: HostRun) {
    h.hello == Hello(c) && c.answer == Answer(h)
  }

  function HostTranscript(json: KexPacket -> seq<byte>, h: HostRun): seq<byte> {
    RELAY_DOMAIN + h.hello.sid + Base64.Trim(h.hello.identity) + Base64.Trim(h.identity) + json(h.hello) + json(Answer(h))
  }

  function HostChannel(env: Env, h: HostRun): Sealed.Channel
    requires Base64.DecodeN(h.hello.eph, 32).Some?
  {
    Sealed.FromHandshakeSecret(X25519({h.kex.eph, Base64.DecodeN(h.hello.eph, 32).value}), HostTranscript(env.json, h), Sealed.Responder)
  }

  /** It is the channel of the host's machine. */
  lemma HostChannelIsRelays(env: Env, m: Machine, h: HostRun)
    requires Base64.DecodeN(h.hello.eph, 32).Some? && m.identity == h.identity
    ensures RelayChannel(env, m, h.hello, h.kex) == HostChannel(env, h)
  {
  }

  /** Lengths, and what either end has checked. */
  predicate ClientOk(c: ClientRun) {
    && |c.identity| == 32 && |c.host| == 32 && |c.kex.eph| == 32 && |c.answer.sid| == SESSION_ID_LEN
    && Base64.Trim(c.answer.identity) == Base64.Encode(c.host) && Base64.DecodeN(c.answer.eph, 32).Some?
  }

  predicate HostOk(h: HostRun, key: seq<byte>) {
    && h.identity == Base64.Encode(key) && |key| == 32 && |h.kex.eph| == 32 && |h.hello.sid| == SESSION_ID_LEN
    && Base64.DecodeN(h.hello.identity, 32).Some? && Base64.DecodeN(h.hello.eph, 32).Some?
  }

  lemma {:induction false} EncodedLength(s: seq<byte>, t: seq<byte>)
    requires |s| == |t|
    ensures |Base64.Encode(s)| == |Base64.Encode(t)|
  {
    if |s| >= 3 {
      EncodedLength(s[3..], t[3..]);
    }
  }

  lemma TrimmedText(key: seq<byte>)
    ensures Base64.Trim(Base64.Encode(key)) == Base64.Encode(key)
  {
    Base64.EncodeHasNoSpace(key);
  }

  /** All four identities in the two transcripts are texts of the same length. */
  lemma SameLengths(c: ClientRun, h: HostRun, key: seq<byte>)
    requires ClientOk(c) && HostOk(h, key)
    ensures |Base64.Trim(Base64.Encode(c.identity))| == |Base64.Trim(h.hello.identity)|
    ensures |Base64.Trim(Base64.Encode(c.host))| == |Base64.Trim(h.identity)|
  {
    var sender := Base64.DecodeN(h.hello.identity, 32).value;
    CanonicalKey(h.hello.identity, sender);
    TrimmedText(c.identity);
    TrimmedText(c.host);
    TrimmedText(key);
    EncodedLength(c.identity, sender);
    EncodedLength(c.host, key);
  }

  lemma PartsDetermined(d: seq<byte>, s: seq<byte>, a: seq<byte>, b: seq<byte>, j: seq<byte>, k: seq<byte>,
                        s': seq<byte>, a': seq<byte>, b': seq<byte>, j': seq<byte>, k': seq<byte>)
    requires |s| == |s'| && |a| == |a'| && |b| == |b'| && d + s + a + b + j + k == d + s' + a' + b' + j' + k'
    ensures s == s' && a == a' && b == b' && j + k == j' + k'
  {
    var x, y := d + s + a + b + j + k, d + s' + a' + b' + j' + k';
    var n := |d|;
    assert x[n..n + |s|] == s && y[n..n + |s|] == s';
    n := n + |s|;
    assert x[n..n + |a|] == a && y[n..n + |a|] == a';
    n := n + |a|;
    assert x[n..n + |b|] == b && y[n..n + |b|] == b';
    n := n + |b|;
    assert x[n..] == j + k && y[n..] == j' + k';
  }

  lemma TextsDetermined(json: KexPacket -> seq<byte>, p: KexPacket, q: KexPacket, p': KexPacket, q': KexPacket)
    requires SelfDelimiting(json) && json(p) + json(q) == json(p') + json(q')
    ensures p == p' && q == q'
  {
    assert json(q) == json(q');
    assert json(q) + [] == json(q') + [];
  }

  lemma SameTranscriptAgrees(json: KexPacket -> seq<byte>, c: ClientRun, h: HostRun, key: seq<byte>)
    requires SelfDelimiting(json) && ClientOk(c) && HostOk(h, key) && ClientTranscript(json, c) == HostTranscript(json, h)
    ensures Agree(c, h)
  {
    SameLengths(c, h, key);
    PartsDetermined(RELAY_DOMAIN, c.answer.sid, Base64.Trim(Base64.Encode(c.identity)), Base64.Trim(Base64.Encode(c.host)), json(Hello(c)), json(c.answer),
                    h.hello.sid, Base64.Trim(h.hello.identity), Base64.Trim(h.identity), json(h.hello), json(Answer(h)));
    TextsDetermined(json, Hello(c), c.answer, h.hello, Answer(h));
  }

  lemma AgreeingTranscripts(json: KexPacket -> seq<byte>, c: ClientRun, h: HostRun, key: seq<byte>)
    requires ClientOk(c) && HostOk(h, key) && Agree(c, h)
    ensures ClientTranscript(json, c) == HostTranscript(json, h)
  {
    TrimmedText(c.host);
  }

  lemma KeysHaveTranscripts(env: Env, c: ClientRun, h: HostRun)
    requires Base64.DecodeN(c.answer.eph, 32).Some? && Base64.DecodeN(h.hello.eph, 32).Some?
    ensures var a, b := ClientChannel(env, c), HostChannel(env, h);
            && (a.recvKey == b.sendKey || a.sendKey == b.recvKey ==> ClientTranscript(env.json, c) == HostTranscript(env.json, h))
            && a.binding == Sha256(ClientTranscript(env.json, c)) && b.binding == Sha256(HostTranscript(env.json, h))
  {
  }

  /** A key that one end seals with and the other opens with belongs to runs that agree on the
      session, both identities, both ephemeral keys and both signatures. */
  lemma SharedRelayKeyMeansAgreement(env: Env, c: ClientRun, h: HostRun, key: seq<byte>)
    requires SelfDelimiting(env.json) && ClientOk(c) && HostOk(h, key)
    requires ClientChannel(env, c).recvKey == HostChannel(env, h).sendKey || ClientChannel(env, c).sendKey == HostChannel(env, h).recvKey
    ensures Agree(c, h) && c.host == key
  {
    KeysHaveTranscripts(env, c, h);
    SameTranscriptAgrees(env.json, c, h, key);
    TrimmedText(key);
    Base64.RoundTrip(key);
    Base64.RoundTrip(c.host);
  }

  lemma AgreeingSecrets(c: ClientRun, h: HostRun)
    requires Agree(c, h) && |c.kex.eph| == 32 && |h.kex.eph| == 32
    ensures Base64.DecodeN(c.answer.eph, 32) == Some(h.kex.eph) && Base64.DecodeN(h.hello.eph, 32) == Some(c.kex.eph)
    ensures {c.kex.eph, h.kex.eph} == {h.kex.eph, c.kex.eph}
  {
    Base64.DecodeNOfEncode(c.kex.eph);
    Base64.DecodeNOfEncode(h.kex.eph);
  }

  lemma AgreeingRunsMirror(env: Env, c: ClientRun, h: HostRun, key: seq<byte>)
    requires ClientOk(c) && HostOk(h, key) && Agree(c, h)
    ensures Sealed.Mirrors(ClientChannel(env, c), HostChannel(env, h))
  {
    AgreeingTranscripts(env.json, c, h, key);
    AgreeingSecrets(c, h);
  }

  /** Client and host get channels that mirror each other exactly when they agree. */
  lemma RelayMirrorsIffAgree(env: Env, c: ClientRun, h: HostRun, key: seq<byte>)
    requires SelfDelimiting(env.json) && ClientOk(c) && HostOk(h, key)
    ensures Sealed.Mirrors(ClientChannel(env, c), HostChannel(env, h)) <==> Agree(c, h)
  {
    if Sealed.Mirrors(ClientChannel(env, c), HostChannel(env, h)) {
      SharedRelayKeyMeansAgreement(env, c, h, key);
    } else if Agree(c, h) {
      AgreeingRunsMirror(env, c, h, key);
    }
  }
}
