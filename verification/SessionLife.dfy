/**
  The life of a relay host's session (crates/rivetlink-agent/src/session/host.rs), over every
  packet sequence: from which packet to which a session is open, when it has a channel, and
  that screenshots and input belong to the session that is open when they arrive.
 */
module SessionLife {
  import opened Common
  import opened Crypto
  import Sealed
  import opened HostSession
  import opened Admission
  import Base64

  // ---- what opens and ends a session ----

  /** The key that a session request names. */
  function Asker(env: Env, e: Event): Option<seq<byte>> {
    if e.SessionRequest? then ParseIdentity(env, e.text) else None
  }

  /** `e` is a request that the host accepts; its ephemeral key is a new one. */
  predicate Begins(env: Env, s: State, e: Event) {
    e.SessionRequest? && e.kex.eph !in s.seen && Asker(env, e).Some? && Admits(env, s.m, e, Asker(env, e).value)
  }

  /** A screenshot is asked for and refused. */
  predicate Refuses(s: State, e: Event) {
    e.ScreenshotRequest? && DoScreenshot(s.m, e.id, e.captured).reply.SessionRejected?
  }

  predicate Ends(env: Env, s: State, e: Event) {
    e.SessionClosed? || Refuses(s, e) || Begins(env, s, e)
  }

  /** `e` is a key exchange for session `sid` that `client` signed. */
  predicate Takes(env: Env, sid: seq<byte>, client: seq<byte>, e: Event) {
    e.KeyExchange? && e.p.sid == sid && ClientVerified(env, client, e.p)
  }

  /** What packets mean to sessions, apart from how the host finds it out. */
  datatype Meaning = Meaning(asker: Event -> Option<seq<byte>>, begins: (State, Event) -> bool, ends: (State, Event) -> bool,
                             takes: (seq<byte>, seq<byte>, Event) -> bool)

  function MeaningOf(env: Env): Meaning {
    Meaning(e => Asker(env, e), (s, e) => Begins(env, s, e), (s, e) => Ends(env, s, e), (sid, client, e) => Takes(env, sid, client, e))
  }

  // ---- one packet ----

  /** `i` is input for session `sid`, which `s` has open. */
  predicate Belongs(s: State, sid: seq<byte>, i: Injection) {
    && s.m.sessionId == Some(sid) && s.m.capability == Some(ConsoleControl) && s.m.channel.Some?
    && i.sid == sid && s.m.client == Some(i.client) && s.packet == Some(i.packet) && s.m.channel.value.recvKey == i.key
  }

  /** `b` has at most one injection more than `a`, made of `e` in the session of `a`. */
  predicate Adds(a: State, e: Event, b: State) {
    || b.injected == a.injected
    || (e.ConsoleInput? && b.injected != [] && b.injected == a.injected + [Last(b.injected)] && Belongs(a, e.id, Last(b.injected)))
  }

  predicate Exchanges(r: Meaning, m: Machine, e: Event) {
    e.KeyExchange? && m.localKex.Some? && m.sessionId.Some? && m.client.Some? && r.takes(m.sessionId.value, m.client.value, e)
  }

  function One(e: Event): nat {
    if e.ScreenshotRequest? then 1 else 0
  }

  /** The same channel, having sealed one screenshot more if `e` asks for one. */
  predicate SameChannel(a: Option<Sealed.Channel>, e: Event, b: Option<Sealed.Channel>) {
    (a.None? && b.None?) || (a.Some? && b.Some? && Sealed.SameKeys(a.value, b.value) && b.value.nextSend == a.value.nextSend + One(e))
  }

  predicate GoesOn(r: Meaning, a: State, e: Event, b: State) {
    && SameSession(a.m, b.m)
    && if Exchanges(r, a.m, e)
       then b.m.localKex.None? && b.m.channel.Some? && b.m.channel.value.nextSend == 0 && b.packet == Some(e.p) && b.injected == a.injected
       else b.m.localKex == a.m.localKex && b.packet == a.packet && SameChannel(a.m.channel, e, b.m.channel) && Adds(a, e, b)
  }

  /** A session was begun by `e`. */
  predicate Begun(r: Meaning, e: Event, m: Machine) {
    && e.SessionRequest? && e.sid.Some? && r.asker(e).Some? && Serves(m, e, r.asker(e).value) && m.localKex == Some(e.kex) && m.channel.None?
  }

  /** A machine without a session has nothing of one. */
  predicate Idle(m: Machine) {
    Reset(m) == m
  }

  /** What one packet makes of a session. */
  predicate Follows(r: Meaning, a: State, e: Event, b: State) {
    if r.begins(a, e) then r.ends(a, e) && Begun(r, e, b.m) && b.injected == a.injected
    else if r.ends(a, e) then Idle(b.m) && b.injected == a.injected
    else GoesOn(r, a, e, b)
  }

  lemma BeginsExactly(env: Env, s: State, e: Event)
    requires e.SessionRequest?
    ensures var out := DoRequest(env, s.m, e.text, e.version, e.capability, e.sid, e.operator, e.kex);
            && (Begins(env, s, e) <==> e.kex.eph !in s.seen && out.reply.SessionAccepted?)
            && (out.reply.SessionAccepted? ==> e.sid.Some? && Asker(env, e).Some? && Serves(out.s, e, Asker(env, e).value)
                                               && out.s.localKex == Some(e.kex) && out.s.channel.None?)
            && (!out.reply.SessionAccepted? ==> out.s == s.m)
  {
    AcceptedExactly(env, s.m, e);
  }

  lemma RequestMeaning(env: Env, s: State, e: Event)
    requires e.SessionRequest?
    ensures MeaningOf(env).begins(s, e) == Begins(env, s, e) && MeaningOf(env).ends(s, e) == Begins(env, s, e)
    ensures MeaningOf(env).asker(e) == Asker(env, e)
  {
  }

  lemma RequestFollows(env: Env, s: State, e: Event)
    requires e.SessionRequest?
    ensures Follows(MeaningOf(env), s, e, DoSessionRequest(env, s, e))
  {
    BeginsExactly(env, s, e);
    RequestMeaning(env, s, e);
    RequestGoes(MeaningOf(env), s, e, DoRequest(env, s.m, e.text, e.version, e.capability, e.sid, e.operator, e.kex));
  }

  lemma RequestGoes(r: Meaning, s: State, e: Event, out: Outcome)
    requires e.SessionRequest? && (r.begins(s, e) <==> r.ends(s, e)) && (r.begins(s, e) <==> e.kex.eph !in s.seen && out.reply.SessionAccepted?)
    requires (out.reply.SessionAccepted? ==> Begun(r, e, out.s)) && (!out.reply.SessionAccepted? ==> out.s == s.m)
    ensures var s' := if e.kex.eph in s.seen then s
                      else if out.reply.SessionAccepted? then s.(m := out.s, packet := None, seen := s.seen + {e.kex.eph}) else s.(m := out.s);
            Follows(r, s, e, s')
  {
  }

  lemma ExchangeFails(env: Env, m: Machine, p: KexPacket)
    requires m.localKex.None? || m.sessionId != Some(p.sid) || m.client.None? || !ClientVerified(env, m.client.value, p)
    ensures DoKeyExchange(env, m, p) == Outcome(m, Failed)
  {
  }

  lemma ExchangeConnects(env: Env, m: Machine, p: KexPacket)
    requires m.localKex.Some? && m.sessionId == Some(p.sid) && m.client.Some? && ClientVerified(env, m.client.value, p)
    ensures DoKeyExchange(env, m, p) == Outcome(m.(localKex := None, channel := Some(RelayChannel(env, m, p, m.localKex.value))), Silence)
  {
  }

  /** A key exchange connects, or changes nothing. */
  lemma ExchangeCases(env: Env, m: Machine, p: KexPacket)
    ensures var out := DoKeyExchange(env, m, p);
            if Exchanges(MeaningOf(env), m, KeyExchange(p))
            then Base64.DecodeN(p.eph, 32).Some? && out == Outcome(m.(localKex := None, channel := Some(RelayChannel(env, m, p, m.localKex.value))), Silence)
            else out == Outcome(m, Failed)
  {
    if m.localKex.Some? && m.sessionId == Some(p.sid) && m.client.Some? && ClientVerified(env, m.client.value, p) {
      ExchangeConnects(env, m, p);
    } else {
      ExchangeFails(env, m, p);
    }
  }

  lemma ExchangeFollows(env: Env, s: State, p: KexPacket)
    ensures GoesOn(MeaningOf(env), s, KeyExchange(p), DoExchange(env, s, p))
  {
    ExchangeCases(env, s.m, p);
    ExchangeGoesOn(MeaningOf(env), s, p, DoKeyExchange(env, s.m, p), s.seen + Ephemeral(p));
  }

  lemma ExchangeGoesOn(r: Meaning, s: State, p: KexPacket, out: Outcome, seen: set<seq<byte>>)
    requires if Exchanges(r, s.m, KeyExchange(p))
             then out.reply.Silence? && out.s.channel.Some? && out.s.channel.value.nextSend == 0 && out.s == s.m.(localKex := None, channel := out.s.channel)
             else out == Outcome(s.m, Failed)
    ensures GoesOn(r, s, KeyExchange(p), State.State(out.s, if out.reply.Silence? then Some(p) else s.packet, seen, s.injected))
  {
  }

  lemma ScreenshotFollows(env: Env, s: State, id: seq<byte>, captured: bool)
    ensures Follows(MeaningOf(env), s, ScreenshotRequest(id, captured), s.(m := DoScreenshot(s.m, id, captured).s))
  {
  }

  lemma InputFollows(env: Env, s: State, sid: seq<byte>, payload: seq<byte>)
    ensures GoesOn(MeaningOf(env), s, ConsoleInput(sid, payload), DoConsoleInput(env, s, sid, payload))
  {
    InputEffect(env, s.m, sid, payload);
    InputGoesOn(MeaningOf(env), s, sid, payload, DoInput(env, s.m, sid, payload), Base64.Decode(payload));
  }

  lemma InputGoesOn(r: Meaning, s: State, sid: seq<byte>, payload: seq<byte>, out: InputOutcome, sealed: Option<seq<byte>>)
    requires out.s == s.m || (s.m.channel.Some? && out.s == s.m.(channel := Some(s.m.channel.value.(nextRecv := s.m.channel.value.nextRecv + 1))))
    requires out.event.Some? ==> s.m.sessionId == Some(sid) && s.m.capability == Some(ConsoleControl) && s.m.channel.Some?
    ensures GoesOn(r, s, ConsoleInput(sid, payload), Recorded(s, sid, out, sealed))
  {
  }

  lemma OthersGoOn(env: Env, s: State, e: Event, s': State)
    requires (e.KeyExchange? || e.ConsoleInput?) && GoesOn(MeaningOf(env), s, e, s')
    ensures Follows(MeaningOf(env), s, e, s')
  {
  }

  lemma EventFollows(env: Env, s: State, e: Event)
    ensures Follows(MeaningOf(env), s, e, Apply(env, s, e))
  {
    match e
    case SessionRequest(_, _, _, _, _, _) => RequestFollows(env, s, e);
    case KeyExchange(p) =>
      ExchangeFollows(env, s, p);
      OthersGoOn(env, s, e, DoExchange(env, s, p));
    case ScreenshotRequest(id, captured) => ScreenshotFollows(env, s, id, captured);
    case ConsoleInput(id, payload) =>
      InputFollows(env, s, id, payload);
      OthersGoOn(env, s, e, DoConsoleInput(env, s, id, payload));
    case SessionClosed =>
  }

  // ---- runs ----

  /** The states that a run goes through: `States(..)[j]` is the one that packet `j` meets. */
  function States(env: Env, m: Machine, events: seq<Event>): (states: seq<State>)
    ensures |states| == |events| + 1
  {
    seq(|events| + 1, j requires 0 <= j <= |events| => Run(env, m, events[..j]))
  }

  predicate Chain(r: Meaning, states: seq<State>, events: seq<Event>) {
    |states| == |events| + 1 && forall j | 0 <= j < |events| :: Follows(r, states[j], events[j], states[j + 1])
  }

  lemma RunStep(env: Env, m: Machine, events: seq<Event>, j: nat)
    requires j < |events|
    ensures Run(env, m, events[..j + 1]) == Apply(env, Run(env, m, events[..j]), events[j])
  {
    assert events[..j + 1][..j] == events[..j];
  }

  lemma StatesChain(env: Env, m: Machine, events: seq<Event>)
    ensures Chain(MeaningOf(env), States(env, m, events), events)
    ensures States(env, m, events)[0] == State.State(m, None, {}, []) && Last(States(env, m, events)) == Run(env, m, events)
  {
    var states, r := States(env, m, events), MeaningOf(env);
    forall j | 0 <= j < |events|
      ensures Follows(r, states[j], events[j], states[j + 1])
    {
      RunStep(env, m, events, j);
      EventFollows(env, states[j], events[j]);
    }
    assert events[..|events|] == events;
  }

  /** Request `i` was accepted and its session is still open before packet `n`. */
  predicate Open(r: Meaning, states: seq<State>, events: seq<Event>, i: nat, n: nat) {
    i < n <= |events| < |states| && r.begins(states[i], events[i]) && forall j | i < j < n :: !r.ends(states[j], events[j])
  }

  /** Packet `j` is a key exchange for the session of request `i`, signed by its client. */
  predicate Signs(r: Meaning, events: seq<Event>, i: nat, j: nat) {
    && i < |events| && j < |events| && events[j].KeyExchange? && events[i].SessionRequest? && events[i].sid.Some? && r.asker(events[i]).Some?
    && r.takes(events[i].sid.value, r.asker(events[i]).value, events[j])
  }

  /** Packet `x` is the first key exchange of that session. */
  predicate First(r: Meaning, events: seq<Event>, i: nat, x: nat) {
    i < x && Signs(r, events, i, x) && forall j | i < j < x :: !Signs(r, events, i, j)
  }

  /** The session of request `i` is open before packet `n` and was keyed by packet `x`. */
  predicate Keyed(r: Meaning, states: seq<State>, events: seq<Event>, i: nat, x: nat, n: nat) {
    Open(r, states, events, i, n) && x < n && First(r, events, i, x)
  }

  /** How many screenshots were asked for by the packets from `x` and before `n`. */
  function Shots(events: seq<Event>, x: nat, n: nat): nat
    requires n <= |events|
  {
    if n <= x then 0 else Shots(events, x, n - 1) + One(events[n - 1])
  }

  lemma {:induction false} OpenServes(r: Meaning, states: seq<State>, events: seq<Event>, i: nat, n: nat)
    requires Chain(r, states, events) && Open(r, states, events, i, n)
    ensures events[i].SessionRequest? && events[i].sid.Some? && r.asker(events[i]).Some?
    ensures Serves(states[n].m, events[i], r.asker(events[i]).value)
    decreases n
  {
    assert Follows(r, states[n - 1], events[n - 1], states[n]);
    if i < n - 1 {
      OpenServes(r, states, events, i, n - 1);
    }
  }

  lemma {:induction false} OpenUnkeyed(r: Meaning, states: seq<State>, events: seq<Event>, i: nat, n: nat)
    requires Chain(r, states, events) && Open(r, states, events, i, n) && forall j | i < j < n :: !Signs(r, events, i, j)
    ensures events[i].SessionRequest? && states[n].m.localKex == Some(events[i].kex) && states[n].m.channel.None?
    decreases n
  {
    assert Follows(r, states[n - 1], events[n - 1], states[n]);
    if i < n - 1 {
      OpenServes(r, states, events, i, n - 1);
      OpenUnkeyed(r, states, events, i, n - 1);
      assert !Signs(r, events, i, n - 1);
    }
  }

  /** The channel of this session, from which `shots` screenshots went out. */
  predicate Holds(s: State, p: KexPacket, c: Sealed.Channel, shots: nat) {
    && s.m.localKex.None? && s.packet == Some(p) && s.m.channel.Some?
    && Sealed.SameKeys(s.m.channel.value, c) && s.m.channel.value.nextSend == shots
  }

  lemma KeyedAtOnce(r: Meaning, states: seq<State>, events: seq<Event>, i: nat, x: nat)
    requires Chain(r, states, events) && Keyed(r, states, events, i, x, x + 1)
    ensures events[i].SessionRequest? && states[x].m.localKex == Some(events[i].kex) && Exchanges(r, states[x].m, events[x])
    ensures states[x + 1].m.channel.Some? && Holds(states[x + 1], events[x].p, states[x + 1].m.channel.value, 0)
  {
    assert Open(r, states, events, i, x);
    OpenServes(r, states, events, i, x);
    OpenUnkeyed(r, states, events, i, x);
    assert Follows(r, states[x], events[x], states[x + 1]);
  }

  lemma {:induction false} KeyedHolds(r: Meaning, states: seq<State>, events: seq<Event>, i: nat, x: nat, n: nat)
    requires Chain(r, states, events) && Keyed(r, states, events, i, x, n)
    ensures states[x + 1].m.channel.Some? && Holds(states[n], events[x].p, states[x + 1].m.channel.value, Shots(events, x, n))
    decreases n
  {
    if n == x + 1 {
      KeyedAtOnce(r, states, events, i, x);
      assert Shots(events, x, x) == 0;
    } else {
      KeyedHolds(r, states, events, i, x, n - 1);
      assert Follows(r, states[n - 1], events[n - 1], states[n]);
    }
  }

  lemma OpenLonger(r: Meaning, states: seq<State>, events: seq<Event>, i: nat, n: nat)
    requires Open(r, states, events, i, n) && n < |events| && !r.ends(states[n], events[n])
    ensures Open(r, states, events, i, n + 1)
  {
  }

  lemma {:induction false} IdleOrOpen(r: Meaning, states: seq<State>, events: seq<Event>, n: nat)
    requires Chain(r, states, events) && n < |states| && Idle(states[0].m)
    ensures Idle(states[n].m) || exists i: nat :: Open(r, states, events, i, n)
    decreases n
  {
    if n > 0 {
      IdleOrOpen(r, states, events, n - 1);
      assert Follows(r, states[n - 1], events[n - 1], states[n]);
      if r.begins(states[n - 1], events[n - 1]) {
        assert Open(r, states, events, n - 1, n);
      } else if !r.ends(states[n - 1], events[n - 1]) && !Idle(states[n - 1].m) {
        var i: nat :| Open(r, states, events, i, n - 1);
        OpenLonger(r, states, events, i, n - 1);
      }
    }
  }

  lemma {:induction false} FirstIn(r: Meaning, events: seq<Event>, i: nat, j: nat) returns (x: nat)
    requires i < j && Signs(r, events, i, j)
    ensures x <= j && First(r, events, i, x)
    decreases j
  {
    if y: nat :| i < y < j && Signs(r, events, i, y) {
      x := FirstIn(r, events, i, y);
    } else {
      x := j;
    }
  }

  lemma KeyedSince(r: Meaning, states: seq<State>, events: seq<Event>, n: nat) returns (i: nat, x: nat)
    requires Chain(r, states, events) && n < |states| && Idle(states[0].m) && states[n].m.channel.Some?
    ensures Keyed(r, states, events, i, x, n)
  {
    IdleOrOpen(r, states, events, n);
    i :| Open(r, states, events, i, n);
    if forall j | i < j < n :: !Signs(r, events, i, j) {
      OpenUnkeyed(r, states, events, i, n);
    }
    var j :| i < j < n && Signs(r, events, i, j);
    x := FirstIn(r, events, i, j);
  }

  /** These are the states of a run of the host `m`. */
  predicate Traces(env: Env, m: Machine, states: seq<State>, events: seq<Event>) {
    && |states| == |events| + 1
    && forall j | 0 <= j < |events| :: events[j].KeyExchange? ==> states[j].m.identity == m.identity && states[j + 1] == DoExchange(env, states[j], events[j].p)
  }

  lemma StatesTrace(env: Env, m: Machine, events: seq<Event>)
    ensures Traces(env, m, States(env, m, events), events)
  {
    forall j | 0 <= j < |events|
      ensures Run(env, m, events[..j]).m.identity == m.identity
      ensures Run(env, m, events[..j + 1]) == Apply(env, Run(env, m, events[..j]), events[j])
    {
      RunStep(env, m, events, j);
      RunIdentity(env, m, events[..j]);
    }
  }

  /** The first key exchange gives the keys of both ephemeral keys and of the whole exchange. */
  lemma KeyedChannel(env: Env, m: Machine, r: Meaning, states: seq<State>, events: seq<Event>, i: nat, x: nat)
    requires r.takes == MeaningOf(env).takes && Chain(r, states, events) && Traces(env, m, states, events)
    requires Keyed(r, states, events, i, x, x + 1)
    ensures events[i].SessionRequest? && events[x].KeyExchange? && Base64.DecodeN(events[x].p.eph, 32).Some?
    ensures states[x + 1].m.channel == Some(RelayChannel(env, m, events[x].p, events[i].kex))
  {
    KeyedAtOnce(r, states, events, i, x);
    ExchangeGives(env, m, r, states[x], events[x].p, events[i].kex);
  }

  lemma ExchangeGives(env: Env, m: Machine, r: Meaning, s: State, p: KexPacket, kex: LocalKex)
    requires r.takes == MeaningOf(env).takes && Exchanges(r, s.m, KeyExchange(p)) && s.m.localKex == Some(kex) && s.m.identity == m.identity
    ensures Base64.DecodeN(p.eph, 32).Some? && DoExchange(env, s, p).m.channel == Some(RelayChannel(env, m, p, kex))
  {
    ExchangeCases(env, s.m, p);
    SameTranscript(env, s.m, m, p, kex);
  }

  lemma {:induction false} RunIdentity(env: Env, m: Machine, events: seq<Event>)
    ensures Run(env, m, events).m.identity == m.identity
    decreases |events|
  {
    if events != [] {
      RunIdentity(env, m, events[..|events| - 1]);
      EventIdentity(env, Run(env, m, events[..|events| - 1]), Last(events));
    }
  }

  lemma EventIdentity(env: Env, s: State, e: Event)
    ensures Apply(env, s, e).m.identity == s.m.identity
  {
    match e
    case SessionRequest(_, _, _, _, _, _) => RequestIdentity(env, s.m, e);
    case KeyExchange(p) => ExchangeIdentity(env, s, p);
    case ConsoleInput(id, payload) => InputIdentity(env, s, id, payload);
    case _ =>
  }

  lemma ExchangeIdentity(env: Env, s: State, p: KexPacket)
    ensures DoExchange(env, s, p).m.identity == s.m.identity
  {
  }

  lemma InputIdentity(env: Env, s: State, sid: seq<byte>, payload: seq<byte>)
    ensures DoConsoleInput(env, s, sid, payload).m.identity == s.m.identity
  {
    InputEffect(env, s.m, sid, payload);
  }

  lemma RequestIdentity(env: Env, m: Machine, e: Event)
    requires e.SessionRequest?
    ensures DoRequest(env, m, e.text, e.version, e.capability, e.sid, e.operator, e.kex).s.identity == m.identity
  {
  }

  // ---- when a session and its channel exist ----

  /** Before packet `n` the session of request `i` is open, and it is the host's. */
  predicate IsHosts(r: Meaning, events: seq<Event>, i: nat, m: Machine) {
    i < |events| && events[i].SessionRequest? && events[i].sid.Some? && r.asker(events[i]).Some? && Serves(m, events[i], r.asker(events[i]).value)
  }

  lemma OpenExactly(r: Meaning, states: seq<State>, events: seq<Event>, n: nat)
    requires Chain(r, states, events) && n < |states| && Idle(states[0].m)
    ensures states[n].m.client.Some? <==> exists i: nat :: Open(r, states, events, i, n)
    ensures states[n].m.client.None? ==> Idle(states[n].m)
    ensures forall i: nat | Open(r, states, events, i, n) :: IsHosts(r, events, i, states[n].m)
  {
    IdleOrOpen(r, states, events, n);
    forall i: nat | Open(r, states, events, i, n)
      ensures IsHosts(r, events, i, states[n].m)
    {
      OpenServes(r, states, events, i, n);
    }
  }

  /** Over every packet sequence: the host has a session exactly if some request was accepted
      and since then none was accepted, none was closed and no screenshot was refused; and the
      session is that request's. Otherwise nothing of any session is left. */
  lemma SessionIsOpenExactly(env: Env, m: Machine, events: seq<Event>)
    requires Idle(m)
    ensures var r, states, now := MeaningOf(env), States(env, m, events), Run(env, m, events).m;
            && (now.client.Some? <==> exists i: nat :: Open(r, states, events, i, |events|))
            && (now.client.None? ==> Idle(now))
            && (forall i: nat | Open(r, states, events, i, |events|) :: IsHosts(r, events, i, now))
  {
    StatesChain(env, m, events);
    OpenExactly(MeaningOf(env), States(env, m, events), events, |events|);
  }

  /** Before packet `n` the host holds the channel that request `i` and packet `x` keyed, and
      sealed one record with it for each screenshot asked for since. */
  predicate HoldsKeys(env: Env, m: Machine, events: seq<Event>, i: nat, x: nat, n: nat, s: State) {
    && i < |events| && x < |events| && n <= |events| && events[i].SessionRequest? && events[x].KeyExchange?
    && Base64.DecodeN(events[x].p.eph, 32).Some?
    && Holds(s, events[x].p, RelayChannel(env, m, events[x].p, events[i].kex), Shots(events, x, n))
  }

  lemma KeyedExactly(env: Env, m: Machine, r: Meaning, states: seq<State>, events: seq<Event>, n: nat)
    requires r.takes == MeaningOf(env).takes && Chain(r, states, events) && Traces(env, m, states, events)
    requires n < |states| && Idle(states[0].m)
    ensures states[n].m.channel.Some? <==> exists i: nat, x: nat :: Keyed(r, states, events, i, x, n)
    ensures forall i: nat, x: nat | Keyed(r, states, events, i, x, n) :: HoldsKeys(env, m, events, i, x, n, states[n])
  {
    forall i: nat, x: nat | Keyed(r, states, events, i, x, n)
      ensures HoldsKeys(env, m, events, i, x, n, states[n])
    {
      KeyedHolds(r, states, events, i, x, n);
      assert Keyed(r, states, events, i, x, x + 1);
      KeyedChannel(env, m, r, states, events, i, x);
    }
    if states[n].m.channel.Some? {
      var i, x := KeyedSince(r, states, events, n);
    }
  }

  /** It has a channel exactly if its client also signed a key exchange for it; the first one
      counts. The keys come from both ephemeral keys and the whole exchange, and the channel
      has sealed one record for each screenshot asked for since. */
  lemma ChannelIsOpenExactly(env: Env, m: Machine, events: seq<Event>)
    requires Idle(m)
    ensures var r, states, n, now := MeaningOf(env), States(env, m, events), |events|, Run(env, m, events);
            && (now.m.channel.Some? <==> exists i: nat, x: nat :: Keyed(r, states, events, i, x, n))
            && (forall i: nat, x: nat | Keyed(r, states, events, i, x, n) :: HoldsKeys(env, m, events, i, x, n, now))
  {
    StatesChain(env, m, events);
    StatesTrace(env, m, events);
    KeyedExactly(env, m, MeaningOf(env), States(env, m, events), events, |events|);
  }

  // ---- screenshots ----

  /** The session `id` is open and keyed before packet `j`, and its channel has a number left. */
  predicate Ready(r: Meaning, states: seq<State>, events: seq<Event>, id: seq<byte>, i: nat, x: nat, j: nat) {
    Keyed(r, states, events, i, x, j) && IsFor(events[i], id) && Shots(events, x, j) < Sealed.U64_MAX
  }

  predicate IsFor(e: Event, id: seq<byte>) {
    e.SessionRequest? && e.sid == Some(id)
  }

  lemma RefusedExactly(r: Meaning, states: seq<State>, events: seq<Event>, j: nat)
    requires Chain(r, states, events) && j < |events| && Idle(states[0].m) && events[j].ScreenshotRequest?
    ensures !Refuses(states[j], events[j]) <==> events[j].captured && exists i: nat, x: nat :: Ready(r, states, events, events[j].id, i, x, j)
  {
    var s := states[j].m;
    forall i: nat, x: nat | Keyed(r, states, events, i, x, j)
      ensures s.channel.Some? && s.channel.value.nextSend == Shots(events, x, j) && (s.sessionId == Some(events[j].id) <==> IsFor(events[i], events[j].id))
    {
      KeyedHolds(r, states, events, i, x, j);
      OpenServes(r, states, events, i, j);
    }
    if s.channel.Some? {
      var i, x := KeyedSince(r, states, events, j);
      assert Ready(r, states, events, events[j].id, i, x, j) <==> IsFor(events[i], events[j].id) && s.channel.value.nextSend < Sealed.U64_MAX;
    }
  }

  /** What the host answers to packet `j`, a screenshot request: a screenshot exactly if the
      session it names is open and keyed, the capture succeeded and a number is left; it is
      sealed for that session's client, with the number of screenshots before it. */
  lemma ScreenshotGoesToItsClient(env: Env, m: Machine, events: seq<Event>, j: nat)
    requires Idle(m) && j < |events| && events[j].ScreenshotRequest?
    ensures var r, states := MeaningOf(env), States(env, m, events);
            && (!Refuses(states[j], events[j]) <==>
                  events[j].captured && exists i: nat, x: nat :: Ready(r, states, events, events[j].id, i, x, j))
            && (forall i: nat, x: nat | Keyed(r, states, events, i, x, j) :: HoldsKeys(env, m, events, i, x, j, states[j]))
  {
    StatesChain(env, m, events);
    StatesTrace(env, m, events);
    RefusedExactly(MeaningOf(env), States(env, m, events), events, j);
    KeyedExactly(env, m, MeaningOf(env), States(env, m, events), events, j);
  }

  // ---- input ----

  /** The packet that brought injection `k`. */
  lemma {:induction false} AddedAt(r: Meaning, states: seq<State>, events: seq<Event>, k: nat, n: nat) returns (j: nat)
    requires Chain(r, states, events) && states[0].injected == [] && n < |states| && k < |states[n].injected|
    ensures j < n && |states[j].injected| == k < |states[j + 1].injected| && states[j + 1].injected[k] == states[n].injected[k]
    ensures events[j].ConsoleInput? && Belongs(states[j], events[j].id, states[n].injected[k])
    decreases n
  {
    assert Follows(r, states[n - 1], events[n - 1], states[n]);
    if k < |states[n - 1].injected| {
      j := AddedAt(r, states, events, k, n - 1);
    } else {
      j := n - 1;
    }
  }

  /** `injection` is what packet `j` brought to the session of request `i`, keyed by packet `x`. */
  predicate Brought(env: Env, m: Machine, events: seq<Event>, i: nat, x: nat, j: nat, injection: Injection) {
    && i < |events| && x < |events| && j < |events| && events[i].SessionRequest? && events[x].KeyExchange? && events[j].ConsoleInput?
    && events[i].capability.ConsoleControl? && events[i].sid == Some(events[j].id) && injection.sid == events[j].id
    && Asker(env, events[i]) == Some(injection.client) && injection.packet == events[x].p
    && Base64.DecodeN(events[x].p.eph, 32).Some? && injection.key == RelayChannel(env, m, events[x].p, events[i].kex).recvKey
    && Base64.Decode(events[j].payload) == Some(injection.sealed)
  }

  /** What was opened is what its packet carried. */
  predicate Carried(a: State, e: Event, b: State) {
    e.ConsoleInput? && |b.injected| > |a.injected| ==> |b.injected| == |a.injected| + 1 && Base64.Decode(e.payload) == Some(Last(b.injected).sealed)
  }

  lemma InputIsCarried(env: Env, s: State, sid: seq<byte>, payload: seq<byte>)
    ensures Carried(s, ConsoleInput(sid, payload), DoConsoleInput(env, s, sid, payload))
  {
  }

  predicate AllCarried(states: seq<State>, events: seq<Event>) {
    |states| == |events| + 1 && forall j | 0 <= j < |events| :: Carried(states[j], events[j], states[j + 1])
  }

  lemma StatesCarry(env: Env, m: Machine, events: seq<Event>)
    ensures AllCarried(States(env, m, events), events)
  {
    forall j | 0 <= j < |events|
      ensures Carried(Run(env, m, events[..j]), events[j], Run(env, m, events[..j + 1]))
    {
      RunStep(env, m, events, j);
      if events[j].ConsoleInput? {
        InputIsCarried(env, Run(env, m, events[..j]), events[j].id, events[j].payload);
      }
    }
  }

  lemma BelongsMeansBrought(env: Env, m: Machine, r: Meaning, states: seq<State>, events: seq<Event>, i: nat, x: nat, j: nat, injection: Injection)
    requires r.takes == MeaningOf(env).takes && r.asker == MeaningOf(env).asker && Chain(r, states, events) && Traces(env, m, states, events)
    requires j < |events| && Keyed(r, states, events, i, x, j) && AllCarried(states, events)
    requires events[j].ConsoleInput? && Belongs(states[j], events[j].id, injection)
    requires |states[j].injected| < |states[j + 1].injected| && states[j + 1].injected[|states[j].injected|] == injection
    ensures Brought(env, m, events, i, x, j, injection)
  {
    assert Carried(states[j], events[j], states[j + 1]);
    OpenServes(r, states, events, i, j);
    KeyedHolds(r, states, events, i, x, j);
    assert Keyed(r, states, events, i, x, x + 1);
    KeyedChannel(env, m, r, states, events, i, x);
  }

  lemma BroughtBy(env: Env, m: Machine, r: Meaning, states: seq<State>, events: seq<Event>, k: nat) returns (i: nat, x: nat, j: nat)
    requires r.takes == MeaningOf(env).takes && r.asker == MeaningOf(env).asker && Chain(r, states, events) && Traces(env, m, states, events)
    requires Idle(states[0].m) && states[0].injected == [] && k < |Last(states).injected|
    requires AllCarried(states, events)
    ensures j < |events| && Keyed(r, states, events, i, x, j) && |states[j].injected| == k
    ensures Brought(env, m, events, i, x, j, Last(states).injected[k])
  {
    j := AddedAt(r, states, events, k, |events|);
    i, x := KeyedSince(r, states, events, j);
    BelongsMeansBrought(env, m, r, states, events, i, x, j, Last(states).injected[k]);
  }

  /** Over every packet sequence: input that reached the sink came in a packet for the control
      session that was open just then. Its request was accepted at `i`, its client signed the
      key exchange at `x`, and between `i` and `j` no session was closed, no screenshot refused
      and no other request accepted. */
  lemma InputComesFromOpenSessions(env: Env, policy: Policy, identity: seq<byte>, trust: Trust, sink: bool, events: seq<Event>, k: nat)
    returns (i: nat, x: nat, j: nat)
    requires k < |Run(env, NewMachine(policy, identity, trust, sink), events).injected|
    ensures var m := NewMachine(policy, identity, trust, sink);
            && j < |events| && Keyed(MeaningOf(env), States(env, m, events), events, i, x, j) && |States(env, m, events)[j].injected| == k
            && Brought(env, m, events, i, x, j, Run(env, m, events).injected[k])
            && Lawful(env, policy, trust, Run(env, m, events).injected[k])
  {
    var m := NewMachine(policy, identity, trust, sink);
    InputComesFromControllers(env, policy, identity, trust, sink, events, k);
    i, x, j := InputIsBrought(env, m, events, k);
  }

  lemma InputIsBrought(env: Env, m: Machine, events: seq<Event>, k: nat) returns (i: nat, x: nat, j: nat)
    requires Idle(m) && k < |Run(env, m, events).injected|
    ensures j < |events| && Keyed(MeaningOf(env), States(env, m, events), events, i, x, j) && |States(env, m, events)[j].injected| == k
    ensures Brought(env, m, events, i, x, j, Run(env, m, events).injected[k])
  {
    StatesChain(env, m, events);
    StatesTrace(env, m, events);
    StatesCarry(env, m, events);
    i, x, j := BroughtBy(env, m, MeaningOf(env), States(env, m, events), events, k);
  }

  // ---- after the end ----

  lemma {:induction false} SilentFrom(r: Meaning, states: seq<State>, events: seq<Event>, close: nat, n: nat)
    requires Chain(r, states, events) && close < n <= |events| && r.ends(states[close], events[close])
    requires forall j | close <= j < n :: !r.begins(states[j], events[j])
    ensures Idle(states[n].m) && states[n].injected == states[close].injected
    decreases n
  {
    assert Follows(r, states[n - 1], events[n - 1], states[n]);
    if close < n - 1 {
      SilentFrom(r, states, events, close, n - 1);
    }
  }

  lemma ClosingEnds(env: Env, s: State, e: Event)
    requires e.SessionClosed? || Refuses(s, e)
    ensures MeaningOf(env).ends(s, e) && !MeaningOf(env).begins(s, e)
  {
  }

  /** Once a session is closed, or a screenshot refused, nothing reaches the sink and no
      session, key or channel exists until a request is accepted. */
  lemma ClosedSessionIsSilent(env: Env, m: Machine, events: seq<Event>, close: nat, n: nat)
    requires close < n <= |events| && (events[close].SessionClosed? || Refuses(States(env, m, events)[close], events[close]))
    requires forall j | close < j < n :: !MeaningOf(env).begins(States(env, m, events)[j], events[j])
    ensures var states := States(env, m, events);
            Idle(states[n].m) && states[n].injected == states[close].injected
  {
    var states := States(env, m, events);
    StatesChain(env, m, events);
    ClosingEnds(env, states[close], events[close]);
    SilentFrom(MeaningOf(env), states, events, close, n);
  }
}
