/**
  A whole control session on the relay host (crates/rivetlink-agent/src/session/host.rs): a
  client that may control, that signs its key exchange and seals its events, has every valid
  event injected, once and in order.
 */
module ControlRun {
  import opened Common
  import Bytes
  import opened Crypto
  import Sealed
  import opened Direct
  import opened HostSession
  import opened Admission
  import Base64

  predicate NameChar(c: char) {
    '0' <= c <= '9' || 'A' <= c <= 'Z' || 'a' <= c <= 'z' || c == '-'
  }

  /** A key event is valid exactly if its name has 1 to 64 characters, each an ASCII digit or
      letter or `-`; every other event is valid. */
  lemma KeyNamesExactly(e: Input)
    ensures ValidInput(e) <==> (e.Key? ==> 1 <= |e.code| <= 64 && forall c | c in e.code :: NameChar(c as char))
  {
    assert forall c: byte :: CodeByte(c) <==> NameChar(c as char);
  }

  /** What a client sealed into one record. */
  datatype Record = Record(plaintext: seq<byte>, ciphertext: seq<byte>)

  function Packet(n: nat, r: Record): seq<byte> {
    Sealed.Header(n) + r.ciphertext
  }

  /** The packets of `records` as text, numbered from 0. */
  function Texts(records: seq<Record>): seq<seq<byte>> {
    seq(|records|, i requires 0 <= i < |records| => Base64.Encode(Packet(i, records[i])))
  }

  predicate SealedAt(env: Env, c: Sealed.Channel, peer: Sealed.Channel, n: nat, r: Record) {
    NextRecord(env, c.(nextRecv := n), peer, r.plaintext, r.ciphertext) && |Base64.Encode(Packet(n, r))| <= MAX_INPUT_BYTES
  }

  /** The client's end of the channel sealed these records first, and small enough to be taken. */
  predicate SealedInOrder(env: Env, c: Sealed.Channel, peer: Sealed.Channel, records: seq<Record>) {
    forall k | 0 <= k < |records| :: SealedAt(env, c, peer, k, records[k])
  }

  /** The valid events among `records`, as they should be injected. */
  function Expected(env: Env, sid: seq<byte>, client: seq<byte>, p: KexPacket, key: Key, records: seq<Record>): seq<Injection> {
    if records == [] then []
    else
      var n, event := |records| - 1, Valid(env.parse(Last(records).plaintext));
      Expected(env, sid, client, p, key, records[..n])
      + Injects(event, sid, client, p, key, n, Packet(n, Last(records)))
  }

  /** A control session whose channel `c` was keyed by `p`. */
  predicate Controls(s: State, sid: seq<byte>, client: seq<byte>, p: KexPacket, c: Sealed.Channel) {
    && s.m.sessionId == Some(sid) && s.m.capability == Some(ConsoleControl) && s.m.policy.UnattendedConsole? && s.m.sink
    && s.m.client == Some(client) && s.packet == Some(p) && s.m.channel == Some(c)
  }

  lemma RecordIsKept(s: State, sid: seq<byte>, client: seq<byte>, p: KexPacket, c: Sealed.Channel, out: InputOutcome, sealed: seq<byte>)
    requires Controls(s, sid, client, p, c) && out.s == s.m.(channel := Some(c.(nextRecv := c.nextRecv + 1)))
    ensures var s' := Recorded(s, sid, out, Some(sealed));
            && Controls(s', sid, client, p, c.(nextRecv := c.nextRecv + 1))
            && s'.injected == s.injected + if out.event.Some? then [Injection(out.event.value, sid, client, p, c.recvKey, c.nextRecv, sealed)] else []
  {
  }

  /** This text is opened as record `n`. */
  predicate Opens(env: Env, c: Sealed.Channel, n: nat, r: Record, text: seq<byte>) {
    && |text| <= MAX_INPUT_BYTES && Base64.Decode(text) == Some(Packet(n, r))
    && Sealed.Open(c.(nextRecv := n), Packet(n, r), env.aead) == Sealed.Opened(c.(nextRecv := n + 1), Ok(r.plaintext))
  }

  lemma SealedOpens(env: Env, c: Sealed.Channel, peer: Sealed.Channel, n: nat, r: Record)
    requires SealedAt(env, c, peer, n, r)
    ensures Opens(env, c, n, r, Base64.Encode(Packet(n, r)))
  {
    Base64.RoundTrip(Packet(n, r));
    Sealed.InOrderPacketOpens(peer, c.(nextRecv := n), r.plaintext, r.ciphertext, env.aead);
  }

  lemma OpenedIsTaken(env: Env, m: Machine, sid: seq<byte>, c: Sealed.Channel, n: nat, r: Record, text: seq<byte>)
    requires Taking(m, sid, c.(nextRecv := n)) && Opens(env, c, n, r, text)
    ensures DoInput(env, m, sid, text) == InputOutcome(m.(channel := Some(c.(nextRecv := n + 1))), Valid(env.parse(r.plaintext)))
  {
    OpenedInput(env, m, sid, text, Packet(n, r));
  }

  /** Injection of what record `n` holds. */
  function Injects(event: Option<Input>, sid: seq<byte>, client: seq<byte>, p: KexPacket, key: Key, n: nat, sealed: seq<byte>): seq<Injection> {
    if event.Some? then [Injection(event.value, sid, client, p, key, n, sealed)] else []
  }

  lemma InputIsInjected(env: Env, s: State, sid: seq<byte>, client: seq<byte>, p: KexPacket, c: Sealed.Channel, text: seq<byte>, event: Option<Input>, sealed: seq<byte>)
    requires Controls(s, sid, client, p, c) && Base64.Decode(text) == Some(sealed)
    requires DoInput(env, s.m, sid, text) == InputOutcome(s.m.(channel := Some(c.(nextRecv := c.nextRecv + 1))), event)
    ensures var s' := DoConsoleInput(env, s, sid, text);
            Controls(s', sid, client, p, c.(nextRecv := c.nextRecv + 1)) && s'.injected == s.injected + Injects(event, sid, client, p, c.recvKey, c.nextRecv, sealed)
  {
    RecordIsKept(s, sid, client, p, c, DoInput(env, s.m, sid, text), sealed);
  }

  predicate Taking(m: Machine, sid: seq<byte>, c: Sealed.Channel) {
    m.sessionId == Some(sid) && m.capability == Some(ConsoleControl) && m.policy.UnattendedConsole? && m.sink && m.channel == Some(c)
  }

  /** The state after input packets. */
  function AfterInput(env: Env, s: State, sid: seq<byte>, texts: seq<seq<byte>>): State {
    if texts == [] then s else DoConsoleInput(env, AfterInput(env, s, sid, texts[..|texts| - 1]), sid, Last(texts))
  }

  /** One more packet. */
  lemma InputStep(env: Env, s: State, sid: seq<byte>, client: seq<byte>, p: KexPacket, c: Sealed.Channel, n: nat, r: Record, text: seq<byte>)
    requires Controls(s, sid, client, p, c.(nextRecv := n)) && Opens(env, c, n, r, text)
    ensures var s' := DoConsoleInput(env, s, sid, text);
            && Controls(s', sid, client, p, c.(nextRecv := n + 1))
            && s'.injected == s.injected + Injects(Valid(env.parse(r.plaintext)), sid, client, p, c.recvKey, n, Packet(n, r))
  {
    OpenedIsTaken(env, s.m, sid, c, n, r, text);
    InputIsInjected(env, s, sid, client, p, c.(nextRecv := n), text, Valid(env.parse(r.plaintext)), Packet(n, r));
  }

  /** From `s` to `s'`, record `n` was injected if it holds a valid event. */
  predicate Stepped(env: Env, s: State, s': State, sid: seq<byte>, client: seq<byte>, p: KexPacket, c: Sealed.Channel, n: nat, r: Record) {
    Controls(s, sid, client, p, c.(nextRecv := n)) ==>
      && Controls(s', sid, client, p, c.(nextRecv := n + 1))
      && s'.injected == s.injected + Injects(Valid(env.parse(r.plaintext)), sid, client, p, c.recvKey, n, Packet(n, r))
  }

  lemma {:induction false} StepsInject(env: Env, states: seq<State>, sid: seq<byte>, client: seq<byte>, p: KexPacket, c: Sealed.Channel, records: seq<Record>)
    requires |states| == |records| + 1 && Controls(states[0], sid, client, p, c.(nextRecv := 0))
    requires forall k | 0 <= k < |records| :: Stepped(env, states[k], states[k + 1], sid, client, p, c, k, records[k])
    ensures Controls(states[|records|], sid, client, p, c.(nextRecv := |records|))
    ensures states[|records|].injected == states[0].injected + Expected(env, sid, client, p, c.recvKey, records)
    decreases |records|
  {
    if records != [] {
      var n := |records| - 1;
      StepsInject(env, states[..n + 1], sid, client, p, c, records[..n]);
      assert Stepped(env, states[n], states[n + 1], sid, client, p, c, n, records[n]);
    }
  }

  /** The states that input packets lead through. */
  function InputStates(env: Env, s: State, sid: seq<byte>, texts: seq<seq<byte>>): seq<State> {
    seq(|texts| + 1, i requires 0 <= i <= |texts| => AfterInput(env, s, sid, texts[..i]))
  }

  lemma NextInputState(env: Env, s: State, sid: seq<byte>, texts: seq<seq<byte>>, k: nat)
    requires k < |texts|
    ensures var states := InputStates(env, s, sid, texts);
            states[k + 1] == DoConsoleInput(env, states[k], sid, texts[k])
  {
    assert texts[..k + 1][..k] == texts[..k];
  }

  lemma InputsAreInjected(env: Env, s: State, sid: seq<byte>, client: seq<byte>, p: KexPacket, c: Sealed.Channel, records: seq<Record>, texts: seq<seq<byte>>)
    requires Controls(s, sid, client, p, c.(nextRecv := 0)) && |texts| == |records|
    requires forall k | 0 <= k < |records| :: Opens(env, c, k, records[k], texts[k])
    ensures AfterInput(env, s, sid, texts).injected == s.injected + Expected(env, sid, client, p, c.recvKey, records)
  {
    var states := InputStates(env, s, sid, texts);
    forall k | 0 <= k < |records|
      ensures Stepped(env, states[k], states[k + 1], sid, client, p, c, k, records[k])
    {
      NextInputState(env, s, sid, texts, k);
      if Controls(states[k], sid, client, p, c.(nextRecv := k)) {
        InputStep(env, states[k], sid, client, p, c, k, records[k], texts[k]);
      }
    }
    StepsInject(env, states, sid, client, p, c, records);
    assert texts[..|texts|] == texts && texts[..0] == [];
  }

  /** The channel that the host derives in the session of request `e`. */
  function HostChannel(env: Env, m: Machine, e: Event, p: KexPacket): Sealed.Channel
    requires e.SessionRequest? && Base64.DecodeN(p.eph, 32).Some?
  {
    RelayChannel(env, m, p, e.kex)
  }

  /** `e` is a request that the host must grant for control, with a new ephemeral key, and `p`
      the key exchange that its client signed. */
  predicate Entitled(env: Env, s: State, e: Event, client: seq<byte>, p: KexPacket) {
    && Admits(env, s.m, e, client) && e.capability.ConsoleControl? && e.kex.eph !in s.seen && s.m.sink
    && e.sid == Some(p.sid) && |p.sid| == SESSION_ID_LEN && |RelayBinding(p.sid, CLIENT_ROLE, p.identity)| < Bytes.U64
    && SignedPacket(env.signed, client, p)
  }

  lemma RequestIsTaken(env: Env, s: State, e: Event, client: seq<byte>)
    requires Admits(env, s.m, e, client) && e.kex.eph !in s.seen
    ensures var s' := DoSessionRequest(env, s, e);
            && Serves(s'.m, e, client) && s'.m.localKex == Some(e.kex) && s'.m.channel.None? && s'.injected == s.injected
            && s'.m.identity == s.m.identity && s'.m.policy == s.m.policy && s'.m.sink == s.m.sink
  {
    AcceptedExactly(env, s.m, e);
  }

  lemma ExchangeIsTaken(env: Env, s: State, p: KexPacket, client: seq<byte>, kex: LocalKex)
    requires HonestLog(env.h, env.signed) && HonestRelay(env.signed)
    requires s.m.sessionId == Some(p.sid) && s.m.client == Some(client) && s.m.localKex == Some(kex)
    requires |p.sid| == SESSION_ID_LEN && |RelayBinding(p.sid, CLIENT_ROLE, p.identity)| < Bytes.U64 && SignedPacket(env.signed, client, p)
    ensures var s' := DoExchange(env, s, p);
            && s'.m == s.m.(localKex := None, channel := Some(RelayChannel(env, s.m, p, kex)))
            && s'.packet == Some(p) && s'.injected == s.injected
  {
    ExchangeConnectsExactly(env, s.m, p);
  }

  lemma EntitledConnects(env: Env, s: State, e: Event, client: seq<byte>, p: KexPacket)
    requires HonestLog(env.h, env.signed) && HonestRelay(env.signed) && Entitled(env, s, e, client, p)
    ensures var s' := DoExchange(env, DoSessionRequest(env, s, e), p);
            Controls(s', p.sid, client, p, HostChannel(env, s.m, e, p)) && s'.injected == s.injected
  {
    RequestIsTaken(env, s, e, client);
    ExchangeIsTaken(env, DoSessionRequest(env, s, e), p, client, e.kex);
    SameTranscript(env, s.m, DoSessionRequest(env, s, e).m, p, e.kex);
  }

  /** Whatever session is active: a client that the trust store lets control asks, exchanges
      keys and types. Every valid event it sealed is injected, in order and once, and nothing
      else is. */
  lemma ControllerIsObeyed(env: Env, s: State, e: Event, client: seq<byte>, p: KexPacket, peer: Sealed.Channel, records: seq<Record>)
    requires HonestLog(env.h, env.signed) && HonestRelay(env.signed) && Entitled(env, s, e, client, p)
    requires SealedInOrder(env, HostChannel(env, s.m, e, p), peer, records)
    ensures var connected := DoExchange(env, DoSessionRequest(env, s, e), p);
            AfterInput(env, connected, p.sid, Texts(records)).injected
            == s.injected + Expected(env, p.sid, client, p, HostChannel(env, s.m, e, p).recvKey, records)
  {
    var c := HostChannel(env, s.m, e, p);
    forall k | 0 <= k < |records|
      ensures Opens(env, c, k, records[k], Texts(records)[k])
    {
      assert SealedAt(env, c, peer, k, records[k]);
      SealedOpens(env, c, peer, k, records[k]);
    }
    EntitledConnects(env, s, e, client, p);
    assert c.(nextRecv := 0) == c;
    InputsAreInjected(env, DoExchange(env, DoSessionRequest(env, s, e), p), p.sid, client, p, c, records, Texts(records));
  }
}
