/**
  Whom the relay host serves (crates/rivetlink-agent/src/session/host.rs): exactly which requests
  are accepted, that only such clients ever have a session, and that one which was accepted has
  the key exchange that it signed taken and its input injected.
 */
module Admission {
  import opened Common
  import Bytes
  import opened Crypto
  import opened Transcripts
  import Sealed
  import opened Direct
  import opened HostSession
  import Base64

  // ---- who may view ----

  /** A known key needs its permissions; an unknown one needs an operator at a prompt. */
  predicate MayBeShown(policy: Policy, trust: Trust, text: seq<byte>, operator: bool) {
    match Get(trust, text)
    case Some(e) => e.canView && (policy.UnattendedConsole? ==> e.canUnattendedConsole)
    case None => policy.Prompt? && operator
  }

  lemma ConsentIsGivenExactly(s: Machine, text: seq<byte>, operator: bool)
    ensures var consent := AskConsent(s, text, operator);
            && (consent.given <==> MayBeShown(s.policy, s.trust, text, operator))
            && consent.trust == (if consent.given && Get(s.trust, text).None?
                                 then s.trust[Base64.Trim(text) := Entry(true, false, false)] else s.trust)
  {
  }

  /** A request to view is accepted exactly then, and remembers an unknown key as one that may
      view and nothing else. */
  lemma ViewIsGrantedExactly(env: Env, s: Machine, text: seq<byte>, version: nat, sid: Option<seq<byte>>, operator: bool, kex: LocalKex)
    ensures var out := DoRequest(env, s, text, version, Screenshot, sid, operator, kex);
            && (out.reply == SessionAccepted <==>
                  && sid.Some? && version == RELAY_PROTOCOL_VERSION && ParseIdentity(env, text).Some?
                  && MayBeShown(s.policy, s.trust, text, operator))
            && out.s.trust == (if out.reply == SessionAccepted && Get(s.trust, text).None?
                               then s.trust[Base64.Trim(text) := Entry(true, false, false)] else s.trust)
  {
    ConsentIsGivenExactly(s, text, operator);
    RequestIsAnswered(env, s, text, version, sid, operator, kex, AskConsent(s, text, operator));
  }

  /** What is left of a request to view once consent was asked. */
  lemma RequestIsAnswered(env: Env, s: Machine, text: seq<byte>, version: nat, sid: Option<seq<byte>>, operator: bool, kex: LocalKex, consent: Consent)
    requires consent == AskConsent(s, text, operator) && (!consent.given ==> consent.trust == s.trust)
    ensures var out, key := DoRequest(env, s, text, version, Screenshot, sid, operator, kex), ParseIdentity(env, text);
            && (out.reply == SessionAccepted <==> sid.Some? && version == RELAY_PROTOCOL_VERSION && key.Some? && consent.given)
            && out.s.trust == (if out.reply == SessionAccepted then consent.trust else s.trust)
  {
    var key := ParseIdentity(env, text);
    if sid.Some? && version == RELAY_PROTOCOL_VERSION && key.Some? {
      assert DoRequest(env, s, text, version, Screenshot, sid, operator, kex).reply == if consent.given then SessionAccepted else SessionRejected;
    }
  }

  /** `e` is a request that the host must accept as it stands, for the client with this key. */
  predicate Admits(env: Env, m: Machine, e: Event, client: seq<byte>) {
    && e.SessionRequest? && e.sid.Some? && e.version == RELAY_PROTOCOL_VERSION && ParseIdentity(env, e.text) == Some(client)
    && match e.capability
       case Screenshot => MayBeShown(m.policy, m.trust, e.text, e.operator)
       case ConsoleControl => m.policy.UnattendedConsole? && MayControl(m.trust, e.text)
  }

  /** The machine serves `client` in the session of request `e`. */
  predicate Serves(m: Machine, e: Event, client: seq<byte>) {
    e.SessionRequest? && m.sessionId == e.sid && m.client == Some(client) && m.capability == Some(e.capability)
  }

  lemma AcceptedExactly(env: Env, m: Machine, e: Event)
    requires e.SessionRequest?
    ensures var out := DoRequest(env, m, e.text, e.version, e.capability, e.sid, e.operator, e.kex);
            && (out.reply == SessionAccepted <==> exists client :: Admits(env, m, e, client))
            && (out.reply == SessionAccepted ==>
                  && Admits(env, m, e, ParseIdentity(env, e.text).value) && Serves(out.s, e, ParseIdentity(env, e.text).value)
                  && out.s.localKex == Some(e.kex) && out.s.channel.None?)
            && (out.reply != SessionAccepted ==> out.s == m)
  {
    RequestEffect(env, m, e.text, e.version, e.capability, e.sid, e.operator, e.kex);
    if ParseIdentity(env, e.text).Some? {
      var client := ParseIdentity(env, e.text).value;
      if e.capability.Screenshot? {
        ViewIsGrantedExactly(env, m, e.text, e.version, e.sid, e.operator, e.kex);
      } else {
        ControlIsGrantedExactly(env, m, e.text, e.version, e.sid, e.operator, e.kex);
      }
      assert Admits(env, m, e, client) <==> DoRequest(env, m, e.text, e.version, e.capability, e.sid, e.operator, e.kex).reply == SessionAccepted;
    }
  }

  predicate SameSession(m: Machine, m': Machine) {
    m'.sessionId == m.sessionId && m'.client == m.client && m'.capability == m.capability
  }

  lemma ExchangeSession(env: Env, s: State, p: KexPacket)
    ensures SameSession(s.m, DoExchange(env, s, p).m)
  {
  }

  lemma InputSession(env: Env, s: State, sid: seq<byte>, payload: seq<byte>)
    ensures SameSession(s.m, DoConsoleInput(env, s, sid, payload).m)
  {
    InputEffect(env, s.m, sid, payload);
  }

  lemma OtherEvents(env: Env, s: State, e: Event)
    requires !e.SessionRequest?
    ensures var m' := Apply(env, s, e).m;
            SameSession(s.m, m') || m'.client.None?
  {
    if e.KeyExchange? {
      ExchangeSession(env, s, e.p);
    } else if e.ConsoleInput? {
      InputSession(env, s, e.id, e.payload);
    }
  }

  lemma RequestStep(env: Env, s: State, e: Event)
    requires e.SessionRequest?
    ensures var m' := Apply(env, s, e).m;
            || m' == s.m
            || (ParseIdentity(env, e.text).Some? && Admits(env, s.m, e, ParseIdentity(env, e.text).value) && Serves(m', e, ParseIdentity(env, e.text).value))
  {
    AcceptedExactly(env, s.m, e);
  }

  /** From machine `a` to `b` by event `e`: a session goes on, or its client was admitted. */
  predicate Admitting(env: Env, a: Machine, e: Event, b: Machine) {
    b.client.Some? ==> SameSession(a, b) || (Admits(env, a, e, b.client.value) && Serves(b, e, b.client.value))
  }

  lemma EventAdmits(env: Env, s: State, e: Event)
    ensures Admitting(env, s.m, e, Apply(env, s, e).m)
  {
    if e.SessionRequest? {
      RequestStep(env, s, e);
    } else {
      OtherEvents(env, s, e);
    }
  }

  /** The machines that a run goes through. */
  function Machines(env: Env, m: Machine, events: seq<Event>): (machines: seq<Machine>)
    ensures |machines| == |events| + 1
    decreases |events|
  {
    if events == [] then [m] else Machines(env, m, events[..|events| - 1]) + [Run(env, m, events).m]
  }

  lemma {:induction false} MachinesAreRuns(env: Env, m: Machine, events: seq<Event>, i: nat)
    requires i <= |events|
    ensures Machines(env, m, events)[i] == Run(env, m, events[..i]).m
    decreases |events|
  {
    if i == |events| {
      assert events[..i] == events;
    } else {
      MachinesAreRuns(env, m, events[..|events| - 1], i);
      assert events[..|events| - 1][..i] == events[..i];
    }
  }

  predicate Steps(env: Env, machines: seq<Machine>, events: seq<Event>) {
    |machines| == |events| + 1 && forall i | 0 <= i < |events| :: Admitting(env, machines[i], events[i], machines[i + 1])
  }

  lemma LastStep(env: Env, m: Machine, events: seq<Event>)
    requires events != []
    ensures Admitting(env, Run(env, m, events[..|events| - 1]).m, Last(events), Run(env, m, events).m)
  {
    EventAdmits(env, Run(env, m, events[..|events| - 1]), Last(events));
  }

  lemma {:induction false} RunSteps(env: Env, m: Machine, events: seq<Event>)
    ensures Steps(env, Machines(env, m, events), events)
    decreases |events|
  {
    if events != [] {
      var front := events[..|events| - 1];
      RunSteps(env, m, front);
      LastStep(env, m, events);
      MachinesAreRuns(env, m, front, |front|);
      assert front[..|front|] == front;
      AppendStep(env, Machines(env, m, front), events, Run(env, m, events).m);
    }
  }

  lemma AppendStep(env: Env, machines: seq<Machine>, events: seq<Event>, b: Machine)
    requires events != [] && Steps(env, machines, events[..|events| - 1]) && Admitting(env, Last(machines), Last(events), b)
    ensures Steps(env, machines + [b], events)
  {
  }

  predicate AdmittedAt(env: Env, machines: seq<Machine>, events: seq<Event>, i: nat, now: Machine) {
    i < |events| && i < |machines| && now.client.Some? && Admits(env, machines[i], events[i], now.client.value) && Serves(now, events[i], now.client.value)
  }

  lemma {:induction false} SomeEventAdmitted(env: Env, machines: seq<Machine>, events: seq<Event>, n: nat) returns (i: nat)
    requires Steps(env, machines, events) && n <= |events| && machines[0].client.None? && machines[n].client.Some?
    ensures i < n && AdmittedAt(env, machines, events, i, machines[n])
  {
    assert Admitting(env, machines[n - 1], events[n - 1], machines[n]);
    if SameSession(machines[n - 1], machines[n]) {
      i := SomeEventAdmitted(env, machines, events, n - 1);
    } else {
      i := n - 1;
    }
  }

  /** Over every packet sequence: the client of a session was, when its request was accepted, a
      known key with the permissions asked for, or approved by an operator at a prompt. */
  lemma ActiveClientWasAdmitted(env: Env, m: Machine, events: seq<Event>) returns (i: nat, at: Machine)
    requires m.client.None? && Run(env, m, events).m.client.Some?
    ensures var now := Run(env, m, events).m;
            && i < |events| && at == Run(env, m, events[..i]).m
            && Admits(env, at, events[i], now.client.value) && Serves(now, events[i], now.client.value)
  {
    var machines := Machines(env, m, events);
    RunSteps(env, m, events);
    MachinesAreRuns(env, m, events, 0);
    MachinesAreRuns(env, m, events, |events|);
    assert events[..|events|] == events && events[..0] == [];
    i := SomeEventAdmitted(env, machines, events, |events|);
    MachinesAreRuns(env, m, events, i);
    at := machines[i];
  }

  // ---- whose key exchange is taken ----

  /** The client signed this ephemeral key as the client of this session. */
  predicate SignedPacket(signed: seq<Signed>, client: seq<byte>, p: KexPacket) {
    var eph, signature := Base64.DecodeN(p.eph, 32), Base64.DecodeN(p.signature, 64);
    && Base64.DecodeN(p.identity, 32) == Some(client) && eph.Some? && signature.Some?
    && Signed(RelayKex(client, p.sid, CLIENT_ROLE, Base64.Trim(p.identity), eph.value), signature.value) in signed
  }

  lemma SignatureVerifiesExactly(env: Env, client: seq<byte>, sid: seq<byte>, id: seq<byte>, eph: seq<byte>, signature: seq<byte>)
    requires HonestLog(env.h, env.signed) && HonestRelay(env.signed)
    requires |sid| == SESSION_ID_LEN && |RELAY_DOMAIN + sid + CLIENT_ROLE + id| < Bytes.U64
    ensures Verifies(env.h, env.signed, client, SignatureMessage(RELAY_DOMAIN + sid + CLIENT_ROLE + id, eph), signature)
            <==> Signed(RelayKex(client, sid, CLIENT_ROLE, id, eph), signature) in env.signed
  {
    var message := SignatureMessage(RELAY_DOMAIN + sid + CLIENT_ROLE + id, eph);
    if Verifies(env.h, env.signed, client, message, signature) {
      var s :| s in env.signed && s.what.key == client && s.signature == signature && Message(env.h, s.what) == message;
      RelaySigning(env.h, s.what, sid, CLIENT_ROLE, id, eph);
    }
  }

  /** A key exchange is taken exactly in the session it names, from the client that was
      accepted, once, and if that client signed it; otherwise nothing changes. */
  lemma ExchangeConnectsExactly(env: Env, s: Machine, p: KexPacket)
    requires HonestLog(env.h, env.signed) && HonestRelay(env.signed)
    requires |p.sid| == SESSION_ID_LEN && |RelayBinding(p.sid, CLIENT_ROLE, p.identity)| < Bytes.U64
    ensures var out := DoKeyExchange(env, s, p);
            && (out.reply.Silence? <==> s.sessionId == Some(p.sid) && s.client.Some? && s.localKex.Some? && SignedPacket(env.signed, s.client.value, p))
            && (!out.reply.Silence? ==> out.s == s)
  {
    var eph, signature := Base64.DecodeN(p.eph, 32), Base64.DecodeN(p.signature, 64);
    if s.client.Some? && eph.Some? && signature.Some? {
      SignatureVerifiesExactly(env, s.client.value, p.sid, Base64.Trim(p.identity), eph.value, signature.value);
    }
  }

  // ---- what an accepted client gets ----

  /** A record that the client's end of the channel sealed next. */
  predicate NextRecord(env: Env, c: Sealed.Channel, peer: Sealed.Channel, plaintext: seq<byte>, ciphertext: seq<byte>) {
    && peer.sendKey == c.recvKey && peer.binding == c.binding && c.nextRecv < Sealed.U64_MAX && |ciphertext| >= Sealed.TAG_LEN
    && Sealed.SealedRecord(peer, c.nextRecv, plaintext, ciphertext) in env.aead
    && forall r | r in env.aead && r.key == peer.sendKey && r.nonce == Sealed.Nonce(c.nextRecv) :: r.plaintext == plaintext
  }

  /** In a control session, the next record that the client sealed reaches the sink exactly if
      it holds a valid event, and is spent in any case. */
  lemma SealedInputReachesTheSink(env: Env, s: Machine, sid: seq<byte>, peer: Sealed.Channel, plaintext: seq<byte>, ciphertext: seq<byte>)
    requires s.sessionId == Some(sid) && s.capability == Some(ConsoleControl) && s.policy.UnattendedConsole? && s.sink && s.channel.Some?
    requires NextRecord(env, s.channel.value, peer, plaintext, ciphertext)
    requires |Base64.Encode(Sealed.Header(s.channel.value.nextRecv) + ciphertext)| <= MAX_INPUT_BYTES
    ensures var c := s.channel.value;
            var out := DoInput(env, s, sid, Base64.Encode(Sealed.Header(c.nextRecv) + ciphertext));
            && out.event == Valid(env.parse(plaintext))
            && out.s == s.(channel := Some(c.(nextRecv := c.nextRecv + 1)))
  {
    var raw := Sealed.Header(s.channel.value.nextRecv) + ciphertext;
    Base64.RoundTrip(raw);
    Sealed.InOrderPacketOpens(peer, s.channel.value, plaintext, ciphertext, env.aead);
    OpenedInput(env, s, sid, Base64.Encode(raw), raw);
  }

  lemma OpenedInput(env: Env, s: Machine, sid: seq<byte>, payload: seq<byte>, raw: seq<byte>)
    requires s.sessionId == Some(sid) && s.capability == Some(ConsoleControl) && s.policy.UnattendedConsole? && s.channel.Some?
    requires |payload| <= MAX_INPUT_BYTES && Base64.Decode(payload) == Some(raw)
    ensures DoInput(env, s, sid, payload) == TakeInput(env, s, Sealed.Open(s.channel.value, raw, env.aead))
  {
  }

  function Valid(event: Option<Input>): Option<Input> {
    if event.Some? && ValidInput(event.value) then event else None
  }

  // ---- identities and their entries ----

  /** An identity text is accepted exactly if, but for white space around it, it is the base64
      text of a 32-byte curve point; the key is then that point. */
  lemma IdentityIsParsedExactly(env: Env, text: seq<byte>, key: seq<byte>)
    ensures ParseIdentity(env, text) == Some(key) <==> Base64.Trim(text) == Base64.Encode(key) && |key| == 32 && env.point(key)
  {
    if ParseIdentity(env, text) == Some(key) {
      CanonicalKey(text, key);
    }
    if Base64.Trim(text) == Base64.Encode(key) {
      Base64.RoundTrip(key);
    }
  }

  /** All accepted spellings of one identity find the same entry, the one under its base64
      text, or none if there is none. */
  lemma EntryIsFoundExactly(env: Env, trust: Trust, text: seq<byte>, key: seq<byte>)
    requires ParseIdentity(env, text) == Some(key)
    ensures Get(trust, text) == (if Base64.Encode(key) in trust then Some(trust[Base64.Encode(key)]) else None)
  {
    CanonicalKey(text, key);
  }
}
