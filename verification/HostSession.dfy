/**
  The relay host's session machine (crates/rivetlink-agent/src/session/host.rs): consent, the
  signed key exchange, screenshots and console input, over every sequence of packets a relay
  can deliver.
 */
module HostSession {
  import opened Common
  import opened Bytes
  import opened Crypto
  import opened Transcripts
  import opened Sealed
  import opened Direct
  import Base64

  const RELAY_PROTOCOL_VERSION := 2
  const MAX_INPUT_BYTES := 8 * 1024
  const MAX_KEY_CODE := 64
  const SESSION_ID_LEN := 36
  const CLIENT_ROLE: seq<byte> := Ascii("client")
  const HOST_ROLE: seq<byte> := Ascii("host")

  datatype Policy = Prompt | HeadlessTrustedOnly | UnattendedConsole

  datatype Capability = Screenshot | ConsoleControl

  datatype Entry = Entry(canView: bool, canControl: bool, canUnattendedConsole: bool)

  type Trust = map<seq<byte>, Entry>

  function Get(trust: Trust, key: seq<byte>): Option<Entry> {
    var k := Base64.Trim(key);
    if k in trust then Some(trust[k]) else None
  }

  predicate MayControl(trust: Trust, key: seq<byte>) {
    var e := Get(trust, key);
    e.Some? && e.value.canView && e.value.canControl && e.value.canUnattendedConsole
  }

  predicate MayView(trust: Trust, key: seq<byte>) {
    var e := Get(trust, key);
    e.Some? && e.value.canView && e.value.canUnattendedConsole
  }

  datatype Input =
    | PointerMove(x: nat, y: nat)
    | PointerButton(button: nat, down: bool)
    | Scroll(dx: int, dy: int)
    | Key(code: seq<byte>, down: bool)

  predicate CodeByte(c: byte) {
    48 <= c <= 57 || 65 <= c <= 90 || 97 <= c <= 122 || c == 45
  }

  predicate ValidInput(e: Input) {
    e.Key? ==> e.code != [] && |e.code| <= MAX_KEY_CODE && forall c | c in e.code :: CodeByte(c)
  }

  /** A key exchange packet, as text. */
  datatype KexPacket = KexPacket(sid: seq<byte>, eph: seq<byte>, identity: seq<byte>, signature: seq<byte>)

  datatype LocalKex = LocalKex(eph: seq<byte>, signature: seq<byte>)

  /** What lies outside the machine: everything ever signed and sealed by anyone, the JSON form
      of packets and inputs, and which 32 bytes are a point of the curve. */
  datatype Env = Env(h: Hash, signed: seq<Signed>, aead: seq<Sealing>, json: KexPacket -> seq<byte>,
                     parse: seq<byte> -> Option<Input>, point: seq<byte> -> bool)

  datatype Machine = Machine(policy: Policy, identity: seq<byte>, trust: Trust, sink: bool,
                       sessionId: Option<seq<byte>>, capability: Option<Capability>, client: Option<seq<byte>>,
                       localKex: Option<LocalKex>, channel: Option<Channel>)

  function NewMachine(policy: Policy, identity: seq<byte>, trust: Trust, sink: bool): Machine {
    Machine(policy, identity, trust, sink, None, None, None, None, None)
  }

  function Reset(s: Machine): Machine {
    s.(sessionId := None, capability := None, client := None, localKex := None, channel := None)
  }

  // ---- session requests ----

  datatype Consent = Consent(trust: Trust, given: bool)

  /** A known key is judged by its entry; an unknown one only by an operator at a prompt. */
  function AskConsent(s: Machine, text: seq<byte>, operator: bool): Consent {
    var e := Get(s.trust, text);
    if e.Some? then Consent(s.trust, if s.policy.UnattendedConsole? then MayView(s.trust, text) else e.value.canView)
    else if !s.policy.Prompt? then Consent(s.trust, false)
    else if operator then Consent(s.trust[Base64.Trim(text) := Entry(true, false, false)], true)
    else Consent(s.trust, false)
  }

  /** An identity is the base64 of 32 bytes that are a curve point. */
  function ParseIdentity(env: Env, text: seq<byte>): Option<seq<byte>> {
    var key := Base64.DecodeN(text, 32);
    if key.Some? && env.point(key.value) then key else None
  }

  datatype Reply = Silence | SessionRejected | SessionAccepted | Failed

  datatype Outcome = Outcome(s: Machine, reply: Reply)

  function DoRequest(env: Env, s: Machine, text: seq<byte>, version: nat, capability: Capability, sid: Option<seq<byte>>, operator: bool, kex: LocalKex): Outcome {
    var key := ParseIdentity(env, text);
    if sid.None? then Outcome(s, Silence)
    else if version != RELAY_PROTOCOL_VERSION then Outcome(s, SessionRejected)
    else if capability.ConsoleControl? && !s.policy.UnattendedConsole? then Outcome(s, SessionRejected)
    else if key.None? then Outcome(s, SessionRejected)
    else if capability.ConsoleControl? && !MayControl(s.trust, text) then Outcome(s, SessionRejected)
    else
      var consent := AskConsent(s, text, operator);
      if !consent.given then Outcome(s.(trust := consent.trust), SessionRejected)
      else Outcome(Machine(s.policy, s.identity, consent.trust, s.sink, sid, Some(capability), key, Some(kex), None), SessionAccepted)
  }

  // ---- key exchange ----

  function RelayBinding(sid: seq<byte>, role: seq<byte>, identity: seq<byte>): seq<byte> {
    RELAY_DOMAIN + sid + role + Base64.Trim(identity)
  }

  function RelayTranscript(env: Env, s: Machine, client: KexPacket, kex: LocalKex): seq<byte> {
    var mine := KexPacket(client.sid, Base64.Encode(kex.eph), s.identity, Base64.Encode(kex.signature));
    RELAY_DOMAIN + client.sid + Base64.Trim(client.identity) + Base64.Trim(s.identity) + env.json(client) + env.json(mine)
  }

  predicate ClientVerified(env: Env, client: seq<byte>, p: KexPacket) {
    var eph := Base64.DecodeN(p.eph, 32);
    var signature := Base64.DecodeN(p.signature, 64);
    && Base64.DecodeN(p.identity, 32) == Some(client) && eph.Some? && signature.Some?
    && Verifies(env.h, env.signed, client, SignatureMessage(RelayBinding(p.sid, CLIENT_ROLE, p.identity), eph.value), signature.value)
  }

  function RelayChannel(env: Env, s: Machine, p: KexPacket, kex: LocalKex): Channel
    requires Base64.DecodeN(p.eph, 32).Some?
  {
    FromHandshakeSecret(X25519({kex.eph, Base64.DecodeN(p.eph, 32).value}), RelayTranscript(env, s, p, kex), Responder)
  }

  function DoKeyExchange(env: Env, s: Machine, p: KexPacket): Outcome {
    if s.sessionId != Some(p.sid) || s.client.None? then Outcome(s, Failed)
    else if !ClientVerified(env, s.client.value, p) || s.localKex.None? then Outcome(s, Failed)
    else Outcome(s.(localKex := None, channel := Some(RelayChannel(env, s, p, s.localKex.value))), Silence)
  }

  // ---- screenshots and input ----

  /** `captured` is whether the capture succeeded within its limits. */
  function DoScreenshot(s: Machine, sid: seq<byte>, captured: bool): Outcome {
    if s.sessionId != Some(sid) || s.channel.None? || !captured || s.channel.value.nextSend >= U64_MAX then Outcome(Reset(s), SessionRejected)
    else Outcome(s.(channel := Some(s.channel.value.(nextSend := s.channel.value.nextSend + 1))), Silence)
  }

  /** `event` is what reached the sink. A decrypted record is spent whatever it holds. */
  datatype InputOutcome = InputOutcome(s: Machine, event: Option<Input>)

  function DoInput(env: Env, s: Machine, sid: seq<byte>, payload: seq<byte>): InputOutcome {
    if s.sessionId != Some(sid) || s.capability != Some(ConsoleControl) || !s.policy.UnattendedConsole? then InputOutcome(s, None)
    else if |payload| > MAX_INPUT_BYTES || s.channel.None? || Base64.Decode(payload).None? then InputOutcome(s, None)
    else TakeInput(env, s, Open(s.channel.value, Base64.Decode(payload).value, env.aead))
  }

  /** What becomes of a record that was opened, or could not be. */
  function TakeInput(env: Env, s: Machine, o: Opened): InputOutcome {
    var next := s.(channel := Some(o.c));
    if o.r.Err? then InputOutcome(next, None)
    else
      var event := env.parse(o.r.value);
      if event.None? || !ValidInput(event.value) || !s.sink then InputOutcome(next, None) else InputOutcome(next, event)
  }

  /** A refused or ignored request leaves the running session as it was. */
  lemma RejectedRequestChangesNothing(env: Env, s: Machine, text: seq<byte>, version: nat, capability: Capability, sid: Option<seq<byte>>,
                                      operator: bool, kex: LocalKex)
    ensures var out := DoRequest(env, s, text, version, capability, sid, operator, kex);
            out.reply != SessionAccepted ==> out.s == s
  {
  }

  /** Control is granted exactly to a well-formed request, under the console policy, by a key
      with all three permissions; nothing an operator answers can grant it. */
  lemma ControlIsGrantedExactly(env: Env, s: Machine, text: seq<byte>, version: nat, sid: Option<seq<byte>>, operator: bool, kex: LocalKex)
    ensures DoRequest(env, s, text, version, ConsoleControl, sid, operator, kex).reply == SessionAccepted <==>
              && sid.Some? && version == RELAY_PROTOCOL_VERSION && s.policy.UnattendedConsole?
              && ParseIdentity(env, text).Some? && MayControl(s.trust, text)
  {
  }

  // ---- every sequence of packets ----

  /** What reached the sink: the session and client it came from, the packet that keyed the
      channel, the key and number it was opened with, and the sealed bytes that arrived. */
  datatype Injection = Injection(event: Input, sid: seq<byte>, client: seq<byte>, packet: KexPacket, key: Key, sequence: nat, sealed: seq<byte>)

  /** `packet` keyed the current channel; `seen` are all ephemeral keys so far. */
  datatype State = State(m: Machine, packet: Option<KexPacket>, seen: set<seq<byte>>, injected: seq<Injection>)

  datatype Event =
    | SessionRequest(text: seq<byte>, version: nat, capability: Capability, sid: Option<seq<byte>>, operator: bool, kex: LocalKex)
    | KeyExchange(p: KexPacket)
    | ScreenshotRequest(id: seq<byte>, captured: bool)
    | ConsoleInput(id: seq<byte>, payload: seq<byte>)
    | SessionClosed

  /** Ephemeral keys are random: one never seen before. */
  function DoSessionRequest(env: Env, s: State, e: Event): State
    requires e.SessionRequest?
  {
    if e.kex.eph in s.seen then s
    else
      var out := DoRequest(env, s.m, e.text, e.version, e.capability, e.sid, e.operator, e.kex);
      if out.reply.SessionAccepted? then s.(m := out.s, packet := None, seen := s.seen + {e.kex.eph}) else s.(m := out.s)
  }

  function Ephemeral(p: KexPacket): set<seq<byte>> {
    var eph := Base64.DecodeN(p.eph, 32);
    if eph.Some? then {eph.value} else {}
  }

  function DoExchange(env: Env, s: State, p: KexPacket): State {
    var out := DoKeyExchange(env, s.m, p);
    State.State(out.s, if out.reply.Silence? then Some(p) else s.packet, s.seen + Ephemeral(p), s.injected)
  }

  /** The state after input, with what reached the sink on record. */
  function Recorded(s: State, sid: seq<byte>, out: InputOutcome, sealed: Option<seq<byte>>): State {
    if out.event.None? || s.m.client.None? || s.m.channel.None? || s.packet.None? || sealed.None? then s.(m := out.s)
    else s.(m := out.s, injected := s.injected + [Injected(s, out.event.value, sid, sealed.value)])
  }

  function DoConsoleInput(env: Env, s: State, sid: seq<byte>, payload: seq<byte>): State {
    Recorded(s, sid, DoInput(env, s.m, sid, payload), Base64.Decode(payload))
  }

  function Apply(env: Env, s: State, e: Event): State {
    match e
    case SessionRequest(_, _, _, _, _, _) => DoSessionRequest(env, s, e)
    case KeyExchange(p) => DoExchange(env, s, p)
    case ScreenshotRequest(id, captured) => s.(m := DoScreenshot(s.m, id, captured).s)
    case ConsoleInput(id, payload) => DoConsoleInput(env, s, id, payload)
    case SessionClosed => s.(m := Reset(s.m))
  }

  function Run(env: Env, m: Machine, events: seq<Event>): State
    decreases |events|
  {
    if events == [] then State.State(m, None, {}, []) else Apply(env, Run(env, m, events[..|events| - 1]), Last(events))
  }

  // ---- invariants ----

  /** Only a client that may control has a control session. */
  predicate Authorised(m: Machine) {
    m.capability == Some(ConsoleControl) ==>
      m.sessionId.Some? && m.client.Some? && m.policy.UnattendedConsole? && MayControl(m.trust, Base64.Encode(m.client.value))
  }

  /** The channel was keyed by a packet that the client of this session signed. */
  predicate Keyed(env: Env, m: Machine, p: KexPacket, c: Channel) {
    && m.sessionId == Some(p.sid) && m.client.Some? && ClientVerified(env, m.client.value, p)
    && c.recvKey.ikm.X25519? && Base64.DecodeN(p.eph, 32).value in c.recvKey.ikm.ends && c.recvKey.info == ClientToHost
  }

  predicate ChannelOk(env: Env, s: State) {
    s.m.channel.Some? ==>
      s.m.localKex.None? && s.packet.Some? && Keyed(env, s.m, s.packet.value, s.m.channel.value)
      && s.m.channel.value.recvKey.ikm.ends <= s.seen
  }

  /** `r` is the sealed record that `i` was opened from: same key, nonce, header and
      ciphertext, and its plaintext is the event. */
  predicate OpenedFrom(env: Env, i: Injection, r: Sealing) {
    && |i.sealed| >= HEADER_LEN && r.key == i.key && r.nonce == Nonce(i.sequence)
    && r.aad.header == i.sealed[..HEADER_LEN] && r.ciphertext == i.sealed[HEADER_LEN..] && env.parse(r.plaintext) == Some(i.event)
  }

  predicate WasSealed(env: Env, i: Injection) {
    i.sequence < U64_MAX && exists r | r in env.aead :: OpenedFrom(env, i, r)
  }

  /** Where an injected event came from. */
  predicate Lawful(env: Env, policy: Policy, trust: Trust, i: Injection) {
    && WasSealed(env, i)
    && ValidInput(i.event) && policy.UnattendedConsole? && MayControl(trust, Base64.Encode(i.client))
    && i.packet.sid == i.sid && ClientVerified(env, i.client, i.packet)
    && i.key.ikm.X25519? && Base64.DecodeN(i.packet.eph, 32).value in i.key.ikm.ends && i.key.info == ClientToHost
  }

  /** Its record is spent: it is behind the current channel, which no old key comes back for. */
  predicate Spent(s: State, i: Injection) {
    && i.key.ikm.X25519? && i.key.ikm.ends <= s.seen
    && (s.m.channel.Some? && s.m.channel.value.recvKey == i.key ==> i.sequence < s.m.channel.value.nextRecv)
    && (s.m.localKex.Some? ==> s.m.localKex.value.eph !in i.key.ikm.ends)
  }

  predicate AllSpent(s: State) {
    forall k | 0 <= k < |s.injected| :: Spent(s, s.injected[k])
  }

  /** Injections of one key come in increasing sequence order. */
  predicate InOrder(injected: seq<Injection>) {
    forall i, j | 0 <= i < j < |injected| && injected[i].key == injected[j].key :: injected[i].sequence < injected[j].sequence
  }

  /** What a run is judged by: the host's policy and trust as it was started, and any `law`
      that lawful injections obey. */
  datatype Terms = Terms(env: Env, policy: Policy, trust: Trust, law: Injection -> bool)

  ghost predicate Lawgiver(terms: Terms) {
    forall i :: Lawful(terms.env, terms.policy, terms.trust, i) ==> terms.law(i)
  }

  predicate Kept(terms: Terms, s: State) {
    && s.m.policy == terms.policy && (terms.policy.UnattendedConsole? ==> s.m.trust == terms.trust)
    && forall k | 0 <= k < |s.injected| :: terms.law(s.injected[k])
  }

  predicate Inv(terms: Terms, s: State) {
    && Kept(terms, s) && Authorised(s.m) && ChannelOk(terms.env, s) && InOrder(s.injected)
    && (s.m.localKex.Some? ==> s.m.localKex.value.eph in s.seen)
    && AllSpent(s)
  }

  lemma CanonicalKey(text: seq<byte>, key: seq<byte>)
    requires Base64.DecodeN(text, 32) == Some(key)
    ensures Base64.Trim(text) == Base64.Encode(key) == Base64.Trim(Base64.Encode(key))
  {
    Base64.EncodeOfDecode(Base64.Trim(text));
    Base64.EncodeHasNoSpace(key);
  }

  lemma GrantedIsAuthorised(m: Machine, text: seq<byte>, key: seq<byte>)
    requires m.capability == Some(ConsoleControl) && m.client == Some(key) && m.sessionId.Some? && m.policy.UnattendedConsole?
    requires Base64.DecodeN(text, 32) == Some(key) && MayControl(m.trust, text)
    ensures Authorised(m)
  {
    CanonicalKey(text, key);
  }

  lemma RequestAuthorised(env: Env, s: Machine, text: seq<byte>, version: nat, capability: Capability, sid: Option<seq<byte>>,
                          operator: bool, kex: LocalKex)
    requires Authorised(s)
    ensures Authorised(DoRequest(env, s, text, version, capability, sid, operator, kex).s)
  {
    var out := DoRequest(env, s, text, version, capability, sid, operator, kex);
    RequestEffect(env, s, text, version, capability, sid, operator, kex);
    if out.reply.SessionAccepted? && capability.ConsoleControl? {
      GrantedIsAuthorised(out.s, text, ParseIdentity(env, text).value);
    }
  }

  /** Asking consent changes the trust store only where an operator can answer. */
  lemma ConsentTrust(s: Machine, text: seq<byte>, operator: bool)
    ensures var consent := AskConsent(s, text, operator);
            (!consent.given || !s.policy.Prompt? ==> consent.trust == s.trust)
  {
  }

  /** Under the console policy no request changes the trust store. */
  lemma RequestEffect(env: Env, s: Machine, text: seq<byte>, version: nat, capability: Capability, sid: Option<seq<byte>>,
                      operator: bool, kex: LocalKex)
    ensures var out := DoRequest(env, s, text, version, capability, sid, operator, kex);
            && out.s.policy == s.policy && (s.policy.UnattendedConsole? ==> out.s.trust == s.trust)
            && (if out.reply.SessionAccepted? then out.s.channel.None? && out.s.localKex == Some(kex) else out.s == s)
  {
    ConsentTrust(s, text, operator);
  }

  lemma SessionRequestKeeps(terms: Terms, s: State, e: Event)
    requires Inv(terms, s) && e.SessionRequest?
    ensures Inv(terms, DoSessionRequest(terms.env, s, e))
  {
    if e.kex.eph !in s.seen {
      RequestAuthorised(terms.env, s.m, e.text, e.version, e.capability, e.sid, e.operator, e.kex);
      RequestEffect(terms.env, s.m, e.text, e.version, e.capability, e.sid, e.operator, e.kex);
      BegunKeeps(terms, s, DoRequest(terms.env, s.m, e.text, e.version, e.capability, e.sid, e.operator, e.kex), e.kex);
    }
  }

  lemma BegunKeeps(terms: Terms, s: State, out: Outcome, kex: LocalKex)
    requires Inv(terms, s) && kex.eph !in s.seen && Authorised(out.s)
    requires out.s.policy == s.m.policy && (s.m.policy.UnattendedConsole? ==> out.s.trust == s.m.trust)
    requires if out.reply.SessionAccepted? then out.s.channel.None? && out.s.localKex == Some(kex) else out.s == s.m
    ensures Inv(terms, if out.reply.SessionAccepted? then s.(m := out.s, packet := None, seen := s.seen + {kex.eph}) else s.(m := out.s))
  {
    if out.reply.SessionAccepted? {
      }
  }

  /** A new channel's key is none of those used before: this side's half is new. */
  lemma ExchangeSpent(s: State, c: Channel, seen: set<seq<byte>>, i: Injection)
    requires Spent(s, i) && s.m.localKex.Some? && s.seen <= seen
    requires c.recvKey.ikm.X25519? && s.m.localKex.value.eph in c.recvKey.ikm.ends
    ensures Spent(s.(m := s.m.(localKex := None, channel := Some(c)), seen := seen), i)
  {
  }

  /** The channel depends on the machine only through its identity. */
  lemma SameTranscript(env: Env, m: Machine, m': Machine, p: KexPacket, kex: LocalKex)
    requires m.identity == m'.identity && Base64.DecodeN(p.eph, 32).Some?
    ensures RelayChannel(env, m, p, kex) == RelayChannel(env, m', p, kex)
  {
  }

  lemma RelayChannelKeys(env: Env, s: Machine, p: KexPacket, kex: LocalKex)
    requires Base64.DecodeN(p.eph, 32).Some?
    ensures var c := RelayChannel(env, s, p, kex);
            c.recvKey.info == ClientToHost && c.recvKey.ikm == X25519({kex.eph} + Ephemeral(p)) && Base64.DecodeN(p.eph, 32).value in Ephemeral(p)
  {
    var peer := Base64.DecodeN(p.eph, 32).value;
    assert {kex.eph, peer} == {kex.eph} + Ephemeral(p);
  }

  lemma ExchangeKeyed(env: Env, m: Machine, p: KexPacket)
    requires DoKeyExchange(env, m, p).reply.Silence?
    ensures m.localKex.Some? && DoKeyExchange(env, m, p).s.channel.Some?
    ensures var c := DoKeyExchange(env, m, p).s.channel.value;
            && DoKeyExchange(env, m, p).s == m.(localKex := None, channel := Some(c))
            && Keyed(env, m, p, c) && c.recvKey.ikm == X25519({m.localKex.value.eph} + Ephemeral(p))
  {
    RelayChannelKeys(env, m, p, m.localKex.value);
  }

  lemma KeyedStays(env: Env, m: Machine, m': Machine, p: KexPacket, c: Channel)
    requires Keyed(env, m, p, c) && m'.sessionId == m.sessionId && m'.client == m.client
    ensures Keyed(env, m', p, c)
  {
  }

  lemma ExchangeKeeps(terms: Terms, s: State, p: KexPacket)
    requires Inv(terms, s)
    ensures Inv(terms, DoExchange(terms.env, s, p))
  {
    if DoKeyExchange(terms.env, s.m, p).reply.Silence? {
      ExchangeKeyed(terms.env, s.m, p);
      NewChannelKeeps(terms, s, p, DoKeyExchange(terms.env, s.m, p).s.channel.value, s.seen + Ephemeral(p));
    } else {
      assert DoKeyExchange(terms.env, s.m, p).s == s.m;
      SeenKeeps(terms, s, s.seen + Ephemeral(p));
    }
  }

  lemma SeenKeeps(terms: Terms, s: State, seen: set<seq<byte>>)
    requires Inv(terms, s) && s.seen <= seen
    ensures Inv(terms, s.(seen := seen))
  {
  }

  lemma NewChannelKeeps(terms: Terms, s: State, p: KexPacket, c: Channel, seen: set<seq<byte>>)
    requires Inv(terms, s) && s.seen <= seen && s.m.localKex.Some? && Keyed(terms.env, s.m, p, c)
    requires c.recvKey.ikm.X25519? && s.m.localKex.value.eph in c.recvKey.ikm.ends && c.recvKey.ikm.ends <= seen
    ensures Inv(terms, s.(m := s.m.(localKex := None, channel := Some(c)), packet := Some(p), seen := seen))
  {
    var s' := s.(m := s.m.(localKex := None, channel := Some(c)), packet := Some(p), seen := seen);
    KeyedStays(terms.env, s.m, s'.m, p, c);
    forall k | 0 <= k < |s.injected|
      ensures Spent(s', s.injected[k])
    {
      assert Spent(s, s.injected[k]);
      ExchangeSpent(s, c, seen, s.injected[k]);
    }
  }

  lemma CountersKeep(terms: Terms, s: State, c: Channel)
    requires Inv(terms, s) && s.m.channel.Some?
    requires c.recvKey == s.m.channel.value.recvKey && c.nextRecv >= s.m.channel.value.nextRecv
    ensures Inv(terms, s.(m := s.m.(channel := Some(c))))
  {
    var s' := s.(m := s.m.(channel := Some(c)));
    assert Keyed(terms.env, s.m, s.packet.value, s.m.channel.value);
  }

  lemma ResetKeeps(terms: Terms, s: State)
    requires Inv(terms, s)
    ensures Inv(terms, s.(m := Reset(s.m)))
  {
  }

  lemma ScreenshotKeeps(terms: Terms, s: State, id: seq<byte>, captured: bool)
    requires Inv(terms, s)
    ensures Inv(terms, s.(m := DoScreenshot(s.m, id, captured).s))
  {
    ResetKeeps(terms, s);
    if s.m.channel.Some? {
      CountersKeep(terms, s, s.m.channel.value.(nextSend := s.m.channel.value.nextSend + 1));
    }
  }

  lemma OpenedRecord(c: Channel, packet: seq<byte>, aead: seq<Sealing>)
    requires Open(c, packet, aead).r.Ok?
    ensures |packet| >= HEADER_LEN && c.nextRecv < U64_MAX
    ensures exists r | r in aead :: && r.key == c.recvKey && r.nonce == Nonce(c.nextRecv) && r.aad.header == packet[..HEADER_LEN]
                                    && r.ciphertext == packet[HEADER_LEN..] && r.plaintext == Open(c, packet, aead).r.value
  {
    var sequence := FromBigEndian(packet[1..HEADER_LEN]);
    FromBigEndianBound(packet[1..HEADER_LEN]);
    var r :| r in aead && Matches(r, c.recvKey, Nonce(sequence), Aad(c.binding, packet[..HEADER_LEN]), packet[HEADER_LEN..])
             && r.plaintext == Open(c, packet, aead).r.value;
  }

  /** What reaches the sink is the plaintext of a record with the channel's key and the
      expected number. */
  lemma InputWasSealed(env: Env, s: State, sid: seq<byte>, payload: seq<byte>)
    requires DoInput(env, s.m, sid, payload).event.Some? && s.m.client.Some? && s.packet.Some?
    ensures s.m.channel.Some? && Base64.Decode(payload).Some?
    ensures WasSealed(env, Injected(s, DoInput(env, s.m, sid, payload).event.value, sid, Base64.Decode(payload).value))
  {
    var sealed := Base64.Decode(payload).value;
    OpenedRecord(s.m.channel.value, sealed, env.aead);
    var i := Injected(s, DoInput(env, s.m, sid, payload).event.value, sid, sealed);
    var r :| r in env.aead && r.key == i.key && r.nonce == Nonce(i.sequence) && r.aad.header == sealed[..HEADER_LEN]
             && r.ciphertext == sealed[HEADER_LEN..] && r.plaintext == Open(s.m.channel.value, sealed, env.aead).r.value;
    assert OpenedFrom(env, i, r);
  }

  /** Handling input moves the receive counter, and by one whenever the sink gets an event. */
  lemma InputEffect(env: Env, m: Machine, sid: seq<byte>, payload: seq<byte>)
    ensures var out := DoInput(env, m, sid, payload);
            && (out.s == m || (m.channel.Some? && out.s == m.(channel := Some(m.channel.value.(nextRecv := m.channel.value.nextRecv + 1)))))
            && (out.event.Some? ==> && out.s != m && ValidInput(out.event.value) && m.sessionId == Some(sid)
                                    && m.capability == Some(ConsoleControl) && m.channel.Some?)
  {
    if m.channel.Some? && Base64.Decode(payload).Some? {
      OpenChangesOnlyOnSuccess(m.channel.value, Base64.Decode(payload).value, env.aead);
    }
  }

  lemma RecordedKeeps(terms: Terms, s: State, sid: seq<byte>, out: InputOutcome, sealed: Option<seq<byte>>)
    requires Inv(terms, s)
    requires out.s == s.m || (s.m.channel.Some? && out.s == s.m.(channel := Some(s.m.channel.value.(nextRecv := s.m.channel.value.nextRecv + 1))))
    requires out.event.Some? ==> && out.s != s.m && s.m.client.Some? && s.packet.Some? && sealed.Some?
                                 && terms.law(Injected(s, out.event.value, sid, sealed.value))
    ensures Inv(terms, Recorded(s, sid, out, sealed))
  {
    if out.s != s.m {
      CountersKeep(terms, s, s.m.channel.value.(nextRecv := s.m.channel.value.nextRecv + 1));
      if out.event.Some? {
        InjectKeeps(terms, s, out.event.value, sid, sealed.value);
      }
    }
  }

  lemma ConsoleInputKeeps(terms: Terms, s: State, sid: seq<byte>, payload: seq<byte>)
    requires Inv(terms, s) && Lawgiver(terms)
    ensures Inv(terms, DoConsoleInput(terms.env, s, sid, payload))
  {
    InputEffect(terms.env, s.m, sid, payload);
    if DoInput(terms.env, s.m, sid, payload).event.Some? {
      LawApplies(terms, s, sid, payload);
    }
    RecordedKeeps(terms, s, sid, DoInput(terms.env, s.m, sid, payload), Base64.Decode(payload));
  }

  function Injected(s: State, event: Input, sid: seq<byte>, sealed: seq<byte>): Injection
    requires s.m.client.Some? && s.packet.Some? && s.m.channel.Some?
  {
    Injection(event, sid, s.m.client.value, s.packet.value, s.m.channel.value.recvKey, s.m.channel.value.nextRecv, sealed)
  }

  lemma InjectedIsLawful(env: Env, s: State, event: Input, sid: seq<byte>, sealed: seq<byte>)
    requires Authorised(s.m) && ChannelOk(env, s) && s.m.channel.Some? && ValidInput(event)
    requires s.m.sessionId == Some(sid) && s.m.capability == Some(ConsoleControl)
    requires s.m.client.Some? && s.packet.Some? && WasSealed(env, Injected(s, event, sid, sealed))
    ensures Lawful(env, s.m.policy, s.m.trust, Injected(s, event, sid, sealed))
  {
  }

  lemma LawApplies(terms: Terms, s: State, sid: seq<byte>, payload: seq<byte>)
    requires Kept(terms, s) && Authorised(s.m) && ChannelOk(terms.env, s) && Lawgiver(terms)
    requires DoInput(terms.env, s.m, sid, payload).event.Some?
    ensures s.m.channel.Some? && s.m.client.Some? && s.packet.Some? && Base64.Decode(payload).Some?
    ensures terms.law(Injected(s, DoInput(terms.env, s.m, sid, payload).event.value, sid, Base64.Decode(payload).value))
  {
    InputEffect(terms.env, s.m, sid, payload);
    InputWasSealed(terms.env, s, sid, payload);
    InjectedIsLawful(terms.env, s, DoInput(terms.env, s.m, sid, payload).event.value, sid, Base64.Decode(payload).value);
  }

  lemma InjectKeeps(terms: Terms, s: State, event: Input, sid: seq<byte>, sealed: seq<byte>)
    requires Inv(terms, s) && s.m.channel.Some? && s.m.client.Some? && s.packet.Some? && terms.law(Injected(s, event, sid, sealed))
    ensures Inv(terms, s.(m := s.m.(channel := Some(s.m.channel.value.(nextRecv := s.m.channel.value.nextRecv + 1))),
                        injected := s.injected + [Injected(s, event, sid, sealed)]))
  {
    var i := Injected(s, event, sid, sealed);
    CountersKeep(terms, s, s.m.channel.value.(nextRecv := s.m.channel.value.nextRecv + 1));
    forall k | 0 <= k < |s.injected| && s.injected[k].key == i.key
      ensures s.injected[k].sequence < i.sequence
    {
      assert Spent(s, s.injected[k]);
    }
    AppendKeeps(terms, s.(m := s.m.(channel := Some(s.m.channel.value.(nextRecv := s.m.channel.value.nextRecv + 1)))), i);
  }

  lemma InOrderAppend(injected: seq<Injection>, i: Injection)
    requires InOrder(injected) && forall k | 0 <= k < |injected| && injected[k].key == i.key :: injected[k].sequence < i.sequence
    ensures InOrder(injected + [i])
  {
  }

  lemma AppendKeeps(terms: Terms, s: State, i: Injection)
    requires Inv(terms, s) && Spent(s, i) && terms.law(i)
    requires forall k | 0 <= k < |s.injected| && s.injected[k].key == i.key :: s.injected[k].sequence < i.sequence
    ensures Inv(terms, s.(injected := s.injected + [i]))
  {
    var s' := s.(injected := s.injected + [i]);
    InOrderAppend(s.injected, i);
    forall k | 0 <= k < |s'.injected|
      ensures Spent(s', s'.injected[k]) && terms.law(s'.injected[k])
    {
      assert s'.injected[k] == if k < |s.injected| then s.injected[k] else i;
      assert Spent(s, s'.injected[k]);
    }
  }

  lemma StepKeeps(terms: Terms, s: State, e: Event)
    requires Inv(terms, s) && Lawgiver(terms)
    ensures Inv(terms, Apply(terms.env, s, e))
  {
    match e
    case SessionRequest(_, _, _, _, _, _) => SessionRequestKeeps(terms, s, e);
    case KeyExchange(p) => ExchangeKeeps(terms, s, p);
    case ScreenshotRequest(id, captured) => ScreenshotKeeps(terms, s, id, captured);
    case ConsoleInput(id, payload) => ConsoleInputKeeps(terms, s, id, payload);
    case SessionClosed => ResetKeeps(terms, s);
  }

  lemma {:induction false} RunKeeps(terms: Terms, identity: seq<byte>, sink: bool, events: seq<Event>)
    requires Lawgiver(terms)
    ensures Inv(terms, Run(terms.env, NewMachine(terms.policy, identity, terms.trust, sink), events))
    decreases |events|
  {
    if events != [] {
      RunKeeps(terms, identity, sink, events[..|events| - 1]);
      StepKeeps(terms, Run(terms.env, NewMachine(terms.policy, identity, terms.trust, sink), events[..|events| - 1]), Last(events));
    }
  }

  // ---- who signed the client's ephemeral key ----

  /** Both sides of the relay protocol sign with a session id of fixed length and one of two
      roles. */
  predicate HonestRelay(log: seq<Signed>) {
    forall s | s in log && s.what.RelayKex? :: |s.what.session| == SESSION_ID_LEN && s.what.role in [CLIENT_ROLE, HOST_ROLE]
  }

  lemma RelayBindingDetermines(sid: seq<byte>, role: seq<byte>, id: seq<byte>, sid': seq<byte>, role': seq<byte>, id': seq<byte>)
    requires |sid| == |sid'| == SESSION_ID_LEN && role in [CLIENT_ROLE, HOST_ROLE] && role' in [CLIENT_ROLE, HOST_ROLE]
    requires RELAY_DOMAIN + sid + role + id == RELAY_DOMAIN + sid' + role' + id'
    ensures sid == sid' && role == role' && id == id'
  {
    var n := |RELAY_DOMAIN|;
    var a, b := RELAY_DOMAIN + sid + role + id, RELAY_DOMAIN + sid' + role' + id';
    assert a[n..n + SESSION_ID_LEN] == sid && b[n..n + SESSION_ID_LEN] == sid';
    var k := n + SESSION_ID_LEN;
    assert "client"[0] == 'c' && "host"[0] == 'h';
    assert a[k] == role[0] && b[k] == role'[0];
    assert a[k + |role|..] == id && b[k + |role'|..] == id';
  }

  lemma RelaySigning(h: Hash, s: Signing, sid: seq<byte>, role: seq<byte>, id: seq<byte>, eph: seq<byte>)
    requires Honest(h, s) && (s.RelayKex? ==> |s.session| == SESSION_ID_LEN && s.role in [CLIENT_ROLE, HOST_ROLE])
    requires |sid| == SESSION_ID_LEN && role in [CLIENT_ROLE, HOST_ROLE] && |RELAY_DOMAIN + sid + role + id| < U64
    requires Message(h, s) == SignatureMessage(RELAY_DOMAIN + sid + role + id, eph)
    ensures s.RelayKex? && s.session == sid && s.role == role && s.identity == id && s.eph == eph
  {
    var binding := RELAY_DOMAIN + sid + role + id;
    match s {
      case RelayKex(_, session, signer, identity, e) =>
        BindingIsShorter(RELAY_DOMAIN + session + signer + identity, e);
        SignatureMessageInjective(RELAY_DOMAIN + session + signer + identity, e, binding, eph);
        RelayBindingDetermines(session, signer, identity, sid, role, id);
      case HostHello(key, version, client, pq, e) =>
        TaggedIsNoRelay(h, version, HostKex, [key, h(ClientFields(client))] + Given(pq), e, sid, role, id, eph);
      case ClientHello(key, version, pq, e) =>
        TaggedIsNoRelay(h, version, ClientKex, [key] + Given(pq), e, sid, role, id, eph);
      case DeviceAuth(_, device, nonce) =>
        DeviceAuthIsNoKex(device, nonce, binding, eph);
    }
  }

  lemma TaggedIsNoRelay(h: Hash, version: nat, kind: Kind, fields: seq<seq<byte>>, e: seq<byte>,
                        sid: seq<byte>, role: seq<byte>, id: seq<byte>, eph: seq<byte>)
    requires |SignatureMessage(Tagged(version, kind, fields), e)| < U64 && |RELAY_DOMAIN + sid + role + id| < U64
    ensures SignatureMessage(Tagged(version, kind, fields), e) != SignatureMessage(RELAY_DOMAIN + sid + role + id, eph)
  {
    BindingIsShorter(Tagged(version, kind, fields), e);
    RelayIsNotDirect(sid, role, id, version, kind, fields);
    if SignatureMessage(Tagged(version, kind, fields), e) == SignatureMessage(RELAY_DOMAIN + sid + role + id, eph) {
      SignatureMessageInjective(Tagged(version, kind, fields), e, RELAY_DOMAIN + sid + role + id, eph);
      assert false;
    }
  }

  /** The client itself signed this ephemeral key, as the client of this very session. */
  predicate SignedByClient(signed: seq<Signed>, client: seq<byte>, sid: seq<byte>, eph: seq<byte>) {
    exists s | s in signed ::
      s.what.RelayKex? && s.what.key == client && s.what.session == sid && s.what.role == CLIENT_ROLE && s.what.eph == eph
  }

  lemma VerifiedMeansSigned(env: Env, client: seq<byte>, p: KexPacket)
    requires HonestLog(env.h, env.signed) && HonestRelay(env.signed) && ClientVerified(env, client, p)
    requires |p.sid| == SESSION_ID_LEN && |RelayBinding(p.sid, CLIENT_ROLE, p.identity)| < U64
    ensures SignedByClient(env.signed, client, p.sid, Base64.DecodeN(p.eph, 32).value)
  {
    var eph := Base64.DecodeN(p.eph, 32).value;
    var s :| s in env.signed && s.what.key == client && Message(env.h, s.what) == SignatureMessage(RelayBinding(p.sid, CLIENT_ROLE, p.identity), eph);
    RelaySigning(env.h, s.what, p.sid, CLIENT_ROLE, Base64.Trim(p.identity), eph);
  }

  // ---- the theorems ----

  /** Over every packet sequence: an event reaches the sink only under the console policy, is
      well formed and the plaintext of a record sealed under the channel's key with the number
      expected, and comes from a client that the trust store lets control, over a channel
      keyed by an ephemeral key which that client's identity signed for that session. */
  lemma InputComesFromControllers(env: Env, policy: Policy, identity: seq<byte>, trust: Trust, sink: bool, events: seq<Event>, k: nat)
    requires k < |Run(env, NewMachine(policy, identity, trust, sink), events).injected|
    ensures Lawful(env, policy, trust, Run(env, NewMachine(policy, identity, trust, sink), events).injected[k])
  {
    var terms := Terms(env, policy, trust, i => Lawful(env, policy, trust, i));
    RunKeeps(terms, identity, sink, events);
    assert terms.law(Run(env, NewMachine(policy, identity, trust, sink), events).injected[k]);
  }

  /** What the input handler hands to the sink, packet by packet. */
  function SinkGets(env: Env, m: Machine, events: seq<Event>): seq<Input>
    decreases |events|
  {
    if events == [] then []
    else
      var e, front := Last(events), events[..|events| - 1];
      SinkGets(env, m, front) + if e.ConsoleInput? then Handed(DoInput(env, Run(env, m, front).m, e.id, e.payload)) else []
  }

  function Handed(out: InputOutcome): seq<Input> {
    if out.event.Some? then [out.event.value] else []
  }

  function Inputs(injected: seq<Injection>): (events: seq<Input>)
    ensures |events| == |injected| && forall k | 0 <= k < |events| :: events[k] == injected[k].event
  {
    seq(|injected|, k requires 0 <= k < |injected| => injected[k].event)
  }

  lemma OnlyInputIsRecorded(env: Env, s: State, e: Event)
    requires !e.ConsoleInput?
    ensures Apply(env, s, e).injected == s.injected
  {
  }

  lemma RecordedAppends(s: State, sid: seq<byte>, out: InputOutcome, sealed: Option<seq<byte>>)
    requires out.event.Some? ==> s.m.client.Some? && s.m.channel.Some? && s.packet.Some? && sealed.Some?
    ensures Inputs(Recorded(s, sid, out, sealed).injected) == Inputs(s.injected) + Handed(out)
  {
  }

  lemma InputIsRecorded(terms: Terms, s: State, sid: seq<byte>, payload: seq<byte>)
    requires Inv(terms, s) && Lawgiver(terms)
    ensures Inputs(DoConsoleInput(terms.env, s, sid, payload).injected) == Inputs(s.injected) + Handed(DoInput(terms.env, s.m, sid, payload))
  {
    if DoInput(terms.env, s.m, sid, payload).event.Some? {
      LawApplies(terms, s, sid, payload);
    }
    RecordedAppends(s, sid, DoInput(terms.env, s.m, sid, payload), Base64.Decode(payload));
  }

  /** The record is complete: over every packet sequence it holds what the sink got, event by
      event and in order. */
  lemma {:induction false} RecordIsComplete(env: Env, policy: Policy, identity: seq<byte>, trust: Trust, sink: bool, events: seq<Event>)
    ensures var m := NewMachine(policy, identity, trust, sink);
            Inputs(Run(env, m, events).injected) == SinkGets(env, m, events)
    decreases |events|
  {
    if events != [] {
      var front, e, terms := events[..|events| - 1], Last(events), Terms(env, policy, trust, i => true);
      var s := Run(env, NewMachine(policy, identity, trust, sink), front);
      RecordIsComplete(env, policy, identity, trust, sink, front);
      if e.ConsoleInput? {
        RunKeeps(terms, identity, sink, front);
        InputIsRecorded(terms, s, e.id, e.payload);
      } else {
        OnlyInputIsRecorded(env, s, e);
      }
    }
  }

  lemma InjectedKeyWasSigned(env: Env, policy: Policy, trust: Trust, i: Injection)
    requires Lawful(env, policy, trust, i) && HonestLog(env.h, env.signed) && HonestRelay(env.signed)
    requires |i.sid| == SESSION_ID_LEN && |RelayBinding(i.sid, CLIENT_ROLE, i.packet.identity)| < U64
    ensures exists eph | eph in i.key.ikm.ends :: SignedByClient(env.signed, i.client, i.sid, eph)
  {
    VerifiedMeansSigned(env, i.client, i.packet);
    assert Base64.DecodeN(i.packet.eph, 32).value in i.key.ikm.ends;
  }

  /** No sealed record is opened into two injections, in one session or in different ones, and
      the injections of one key follow the order in which its records were numbered. */
  lemma InputIsNeverReplayed(env: Env, policy: Policy, identity: seq<byte>, trust: Trust, sink: bool, events: seq<Event>,
                             i: nat, j: nat, r: Sealing)
    requires i < j < |Run(env, NewMachine(policy, identity, trust, sink), events).injected|
    ensures var injected := Run(env, NewMachine(policy, identity, trust, sink), events).injected;
            && !(OpenedFrom(env, injected[i], r) && OpenedFrom(env, injected[j], r))
            && (injected[i].key == injected[j].key ==> injected[i].sequence < injected[j].sequence)
  {
    var terms := Terms(env, policy, trust, x => WasSealed(env, x));
    RunKeeps(terms, identity, sink, events);
    var injected := Run(env, NewMachine(policy, identity, trust, sink), events).injected;
    assert terms.law(injected[i]) && terms.law(injected[j]);
    if Nonce(injected[i].sequence) == Nonce(injected[j].sequence) {
      NonceInjective(injected[i].sequence, injected[j].sequence);
    }
  }

  // ---- the handler ----

  class ScreenshotHost {
    const policy: Policy
    const identity: seq<byte>
    const sink: bool
    var trust: Trust
    var sessionId: Option<seq<byte>>
    var capability: Option<Capability>
    var client: Option<seq<byte>>
    var localKex: Option<LocalKex>
    var channel: Option<Channel>

    ghost function View(): Machine
      reads this
    {
      Machine(policy, identity, trust, sink, sessionId, capability, client, localKex, channel)
    }

    constructor (policy: Policy, identity: seq<byte>, trust: Trust, sink: bool)
      ensures View() == NewMachine(policy, identity, trust, sink)
    {
      this.policy, this.identity, this.trust, this.sink := policy, identity, trust, sink;
      sessionId, capability, client, localKex, channel := None, None, None, None, None;
    }

    method ResetSession()
      modifies this
      ensures View() == Reset(old(View()))
    {
      sessionId, capability, client, localKex, channel := None, None, None, None, None;
    }

    method HasConsent(text: seq<byte>, operator: bool) returns (given: bool)
      modifies this
      ensures Consent(trust, given) == AskConsent(old(View()), text, operator)
      ensures View() == old(View()).(trust := trust)
    {
      var entry := Get(trust, text);
      if entry.Some? {
        if policy.UnattendedConsole? {
          return MayView(trust, text);
        }
        return entry.value.canView;
      }
      if !policy.Prompt? {
        return false;
      }
      if operator {
        trust := trust[Base64.Trim(text) := Entry(true, false, false)];
      }
      given := operator;
    }

    method OnSessionRequest(env: Env, text: seq<byte>, version: nat, requested: Capability, sid: Option<seq<byte>>, operator: bool, kex: LocalKex)
      returns (reply: Reply)
      modifies this
      ensures Outcome(View(), reply) == DoRequest(env, old(View()), text, version, requested, sid, operator, kex)
    {
      if sid.None? {
        return Silence;
      }
      if version != RELAY_PROTOCOL_VERSION {
        return SessionRejected;
      }
      if requested.ConsoleControl? && !policy.UnattendedConsole? {
        return SessionRejected;
      }
      var key := ParseIdentity(env, text);
      if key.None? {
        return SessionRejected;
      }
      if requested.ConsoleControl? && !MayControl(trust, text) {
        return SessionRejected;
      }
      var given := HasConsent(text, operator);
      if !given {
        return SessionRejected;
      }
      ResetSession();
      sessionId, capability, client, localKex := sid, Some(requested), key, Some(kex);
      reply := SessionAccepted;
    }

    method OnKeyExchange(env: Env, p: KexPacket) returns (ok: bool)
      modifies this
      ensures View() == DoKeyExchange(env, old(View()), p).s && ok == DoKeyExchange(env, old(View()), p).reply.Silence?
    {
      if sessionId != Some(p.sid) || client.None? || !ClientVerified(env, client.value, p) || localKex.None? {
        return false;
      }
      var kex := localKex.value;
      channel := Some(RelayChannel(env, Machine(policy, identity, trust, sink, sessionId, capability, client, localKex, channel), p, kex));
      localKex := None;
      ok := true;
    }

    method OnConsoleInput(env: Env, sid: seq<byte>, payload: seq<byte>) returns (event: Option<Input>)
      modifies this
      ensures InputOutcome(View(), event) == DoInput(env, old(View()), sid, payload)
    {
      if sessionId != Some(sid) || capability != Some(ConsoleControl) {
        return None;
      }
      if !policy.UnattendedConsole? || |payload| > MAX_INPUT_BYTES || channel.None? {
        return None;
      }
      var sealed := Base64.Decode(payload);
      if sealed.None? {
        return None;
      }
      var o := Open(channel.value, sealed.value, env.aead);
      channel := Some(o.c);
      if o.r.Err? {
        return None;
      }
      event := env.parse(o.r.value);
      if event.None? || !ValidInput(event.value) || !sink {
        event := None;
      }
    }
  }
}
