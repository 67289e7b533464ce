/**
  Key-mode connections over a whole process run (crates/rivetlink-sdk/src/lan.rs): any number
  of concurrent `connect_key` and `connect_key_over` calls against one pin store, on any
  network. A host that showed it speaks the hybrid handshake never gets a classical one.
 */
module Downgrade {
  import opened Common
  import opened Crypto
  import opened Direct
  import opened Sealed
  import PinStore
  import Base64

  /** Everything one handshake attempt draws from outside. */
  datatype World = World(h: Hash, log: seq<Signed>, aead: seq<Sealing>, identity: seq<byte>, eph: seq<byte>,
                         signature: seq<byte>, kem: seq<byte>, script: Script, timeout: bool)

  /** `key_handshake`. */
  function KeyHandshake(w: World, pinned: Option<seq<byte>>, hybrid: bool): Result<Channel, SdkError> {
    if w.timeout then Err(Refused)
    else ClientConnectKey(w.h, w.log, w.aead, Client(w.identity, w.eph, w.signature, if hybrid then Some(w.kem) else None), pinned, w.script)
  }

  predicate IsOldHostClose(e: SdkError) {
    e.Io? && e.kind != OtherIo
  }

  /** `script` is what the stream did to the hybrid hello that was closed on. */
  datatype Phase =
    | Trying
    | Remembering(c: Channel)
    | Shut(script: Script)
    | Retrying(script: Script)
    | Done(r: Result<Channel, SdkError>, retried: Option<Script>)

  /** `guarded` records whether a downgrade was to be refused when the call began. */
  datatype Attempt = Attempt(pinned: Option<seq<byte>>, over: bool, guarded: bool, phase: Phase)

  datatype State = State(store: PinStore.Store, attempts: map<nat, Attempt>)

  datatype Event =
    | Background(e: PinStore.Event)
    | Begin(a: nat, pinned: Option<seq<byte>>, over: bool)
    | ConnectFails(a: nat)
    | TryHybrid(a: nat, w: World)
    | RememberHost(a: nat)
    | AskPins(a: nat)
    | TryClassical(a: nat, w: World)

  function Guarded(s: PinStore.Store, pinned: Option<seq<byte>>): bool {
    pinned.Some? && PinStore.Refuses(s, Base64.Encode(pinned.value))
  }

  function Moved(s: State, a: nat, phase: Phase): State
    requires a in s.attempts
  {
    s.(attempts := s.attempts[a := s.attempts[a].(phase := phase)])
  }

  /** After the hybrid handshake of `connect_key` and `connect_key_over` ended with `r`. */
  function DoTryHybrid(s: State, a: nat, script: Script, r: Result<Channel, SdkError>): State
    requires a in s.attempts
  {
    var t := s.attempts[a];
    if !t.phase.Trying? then s
    else if r.Ok? then Moved(s, a, Remembering(r.value))
    else if !t.over && IsOldHostClose(r.error) then Moved(s, a, Shut(script))
    else Moved(s, a, Done(r, None))
  }

  function DoRememberHost(s: State, a: nat): State
    requires a in s.attempts
  {
    var t := s.attempts[a];
    if !t.phase.Remembering? then s
    else
      var next := Moved(s, a, Done(Ok(t.phase.c), None));
      if t.pinned.None? then next
      else next.(store := PinStore.DoRemember(s.store, Base64.Encode(t.pinned.value)))
  }

  function DoAskPins(s: State, a: nat): State
    requires a in s.attempts
  {
    var t := s.attempts[a];
    if !t.phase.Shut? then s
    else if Guarded(s.store, t.pinned) then Moved(s, a, Done(Err(Refused), None))
    else Moved(s, a, Retrying(t.phase.script))
  }

  function DoTryClassical(s: State, a: nat, r: Result<Channel, SdkError>): State
    requires a in s.attempts
  {
    var t := s.attempts[a];
    if !t.phase.Retrying? then s else Moved(s, a, Done(r, Some(t.phase.script)))
  }

  /** The TCP connect before either handshake can fail, which ends the call. */
  function DoConnectFails(s: State, a: nat): State
    requires a in s.attempts
  {
    var t := s.attempts[a];
    if (t.phase.Trying? || t.phase.Retrying?) && !t.over then Moved(s, a, Done(Err(Io(OtherIo)), None)) else s
  }

  function DoBegin(s: State, a: nat, pinned: Option<seq<byte>>, over: bool): State {
    if a in s.attempts then s else s.(attempts := s.attempts[a := Attempt(pinned, over, Guarded(s.store, pinned), Trying)])
  }

  function Apply(s: State, e: Event): State {
    match e
    case Background(b) => if b.Remember? then s else s.(store := PinStore.Apply(s.store, b))
    case Begin(a, pinned, over) => DoBegin(s, a, pinned, over)
    case ConnectFails(a) => if a in s.attempts then DoConnectFails(s, a) else s
    case TryHybrid(a, w) => if a in s.attempts then DoTryHybrid(s, a, w.script, KeyHandshake(w, s.attempts[a].pinned, true)) else s
    case RememberHost(a) => if a in s.attempts then DoRememberHost(s, a) else s
    case AskPins(a) => if a in s.attempts then DoAskPins(s, a) else s
    case TryClassical(a, w) => if a in s.attempts then DoTryClassical(s, a, KeyHandshake(w, s.attempts[a].pinned, false)) else s
  }

  function Run(s: State, events: seq<Event>): State
    decreases |events|
  {
    if events == [] then s else Apply(Run(s, events[..|events| - 1]), Last(events))
  }

  function Start(file: seq<byte>): State {
    State.State(PinStore.New(file), map[])
  }

  // ---- invariants ----

  predicate IsHybrid(c: Channel) {
    c.sendKey.ikm.Hybrid?
  }

  /** The connection broke before the host's answer was read. */
  predicate ClosedBeforeAnswer(script: Script) {
    || (script.hello.Some? && script.hello.value != OtherIo)
    || (script.hello.None? && script.answer.Fails? && script.answer.kind != OtherIo)
  }

  predicate AttemptInv(s: PinStore.Store, t: Attempt) {
    && (t.guarded ==> Guarded(s, t.pinned))
    && match t.phase
       case Trying => true
       case Remembering(c) => IsHybrid(c) && t.pinned.Some?
       case Shut(script) => !t.over && ClosedBeforeAnswer(script)
       case Retrying(script) => !t.over && !t.guarded && ClosedBeforeAnswer(script)
       case Done(r, retried) =>
         && (retried.Some? ==> !t.over && !t.guarded && ClosedBeforeAnswer(retried.value))
         && (r.Ok? && retried.None? ==> IsHybrid(r.value) && t.pinned.Some? && Base64.Encode(t.pinned.value) in s.hosts)
         && (r.Ok? && retried.Some? ==> !IsHybrid(r.value))
  }

  predicate Inv(s: State) {
    forall a | a in s.attempts :: AttemptInv(s.store, s.attempts[a])
  }

  lemma HandshakeKind(w: World, pinned: Option<seq<byte>>, hybrid: bool)
    requires KeyHandshake(w, pinned, hybrid).Ok?
    ensures pinned.Some? && IsHybrid(KeyHandshake(w, pinned, hybrid).value) == hybrid
  {
    var me := Client(w.identity, w.eph, w.signature, if hybrid then Some(w.kem) else None);
    ConnectedClientIsBound(w.h, w.log, w.aead, me, pinned, w.script, KeyHandshake(w, pinned, hybrid).value);
  }

  /** Attempts only depend on the store through what it refuses, and that only grows. */
  predicate StoreGrows(s: PinStore.Store, t: PinStore.Store) {
    s.hosts <= t.hosts && (s.unreadable ==> t.unreadable)
  }

  lemma GrownStoreKeeps(s: PinStore.Store, t: PinStore.Store, x: Attempt)
    requires StoreGrows(s, t) && AttemptInv(s, x)
    ensures AttemptInv(t, x)
  {
  }

  lemma GrownStateKeeps(s: State, store: PinStore.Store)
    requires Inv(s) && StoreGrows(s.store, store)
    ensures Inv(s.(store := store))
  {
    forall a | a in s.attempts
      ensures AttemptInv(store, s.attempts[a])
    {
      GrownStoreKeeps(s.store, store, s.attempts[a]);
    }
  }

  predicate SameCall(x: Attempt, y: Attempt) {
    x.pinned == y.pinned && x.over == y.over && x.guarded == y.guarded
  }

  /** No step forgets a host, and calls keep what they were started with. */
  predicate Continues(s: State, t: State) {
    && StoreGrows(s.store, t.store)
    && forall a | a in s.attempts :: a in t.attempts && SameCall(s.attempts[a], t.attempts[a])
  }

  lemma MovedKeeps(s: State, a: nat, phase: Phase)
    requires Inv(s) && a in s.attempts && AttemptInv(s.store, s.attempts[a].(phase := phase))
    ensures Inv(Moved(s, a, phase)) && Continues(s, Moved(s, a, phase))
  {
  }

  lemma TryHybridKeeps(s: State, a: nat, script: Script, r: Result<Channel, SdkError>)
    requires Inv(s) && a in s.attempts
    requires r.Ok? ==> IsHybrid(r.value) && s.attempts[a].pinned.Some?
    requires r.Err? && IsOldHostClose(r.error) ==> ClosedBeforeAnswer(script)
    ensures Inv(DoTryHybrid(s, a, script, r)) && Continues(s, DoTryHybrid(s, a, script, r))
  {
    var t := s.attempts[a];
    if t.phase.Trying? {
      if r.Ok? {
        MovedKeeps(s, a, Remembering(r.value));
      } else if !t.over && IsOldHostClose(r.error) {
        MovedKeeps(s, a, Shut(script));
      }
    }
  }

  lemma RememberHostKeeps(s: State, a: nat)
    requires Inv(s) && a in s.attempts
    ensures Inv(DoRememberHost(s, a)) && Continues(s, DoRememberHost(s, a))
  {
    var t := s.attempts[a];
    if t.phase.Remembering? {
      var store := PinStore.DoRemember(s.store, Base64.Encode(t.pinned.value));
      GrownStateKeeps(s, store);
      MovedKeeps(s.(store := store), a, Done(Ok(t.phase.c), None));
    }
  }

  lemma TryClassicalKeeps(s: State, a: nat, r: Result<Channel, SdkError>)
    requires Inv(s) && a in s.attempts && (r.Ok? ==> !IsHybrid(r.value))
    ensures Inv(DoTryClassical(s, a, r)) && Continues(s, DoTryClassical(s, a, r))
  {
    var t := s.attempts[a];
    if t.phase.Retrying? {
      MovedKeeps(s, a, Done(r, Some(t.phase.script)));
    }
  }

  lemma BeginKeeps(s: State, a: nat, pinned: Option<seq<byte>>, over: bool)
    requires Inv(s)
    ensures Inv(DoBegin(s, a, pinned, over)) && Continues(s, DoBegin(s, a, pinned, over))
  {
  }

  lemma ConnectFailsKeeps(s: State, a: nat)
    requires Inv(s) && a in s.attempts
    ensures Inv(DoConnectFails(s, a)) && Continues(s, DoConnectFails(s, a))
  {
    var t := s.attempts[a];
    if (t.phase.Trying? || t.phase.Retrying?) && !t.over {
      MovedKeeps(s, a, Done(Err(Io(OtherIo)), None));
    }
  }

  lemma AskPinsKeeps(s: State, a: nat)
    requires Inv(s) && a in s.attempts
    ensures Inv(DoAskPins(s, a)) && Continues(s, DoAskPins(s, a))
  {
    var t := s.attempts[a];
    if t.phase.Shut? {
      if Guarded(s.store, t.pinned) {
        MovedKeeps(s, a, Done(Err(Refused), None));
      } else {
        MovedKeeps(s, a, Retrying(t.phase.script));
      }
    }
  }

  lemma HybridOutcome(w: World, pinned: Option<seq<byte>>, r: Result<Channel, SdkError>)
    requires r == KeyHandshake(w, pinned, true)
    ensures r.Ok? ==> IsHybrid(r.value) && pinned.Some?
    ensures r.Err? && IsOldHostClose(r.error) ==> ClosedBeforeAnswer(w.script)
  {
    if r.Ok? {
      HandshakeKind(w, pinned, true);
    }
  }

  lemma ClassicalOutcome(w: World, pinned: Option<seq<byte>>, r: Result<Channel, SdkError>)
    requires r == KeyHandshake(w, pinned, false)
    ensures r.Ok? ==> !IsHybrid(r.value)
  {
    if r.Ok? {
      HandshakeKind(w, pinned, false);
    }
  }

  lemma HybridKeeps(s: State, a: nat, w: World)
    requires Inv(s) && a in s.attempts
    ensures var s' := Apply(s, TryHybrid(a, w));
            Inv(s') && Continues(s, s')
  {
    var r := KeyHandshake(w, s.attempts[a].pinned, true);
    HybridOutcome(w, s.attempts[a].pinned, r);
    TryHybridKeeps(s, a, w.script, r);
  }

  lemma ClassicalKeeps(s: State, a: nat, w: World)
    requires Inv(s) && a in s.attempts
    ensures var s' := Apply(s, TryClassical(a, w));
            Inv(s') && Continues(s, s')
  {
    var r := KeyHandshake(w, s.attempts[a].pinned, false);
    ClassicalOutcome(w, s.attempts[a].pinned, r);
    TryClassicalKeeps(s, a, r);
  }

  lemma StepKeeps(s: State, e: Event)
    requires Inv(s)
    ensures Inv(Apply(s, e)) && Continues(s, Apply(s, e))
  {
    match e
    case Background(b) =>
      if !b.Remember? {
        GrownStateKeeps(s, PinStore.Apply(s.store, b));
      }
    case Begin(a, pinned, over) => BeginKeeps(s, a, pinned, over);
    case ConnectFails(a) =>
      if a in s.attempts {
        ConnectFailsKeeps(s, a);
      }
    case TryHybrid(a, w) =>
      if a in s.attempts {
        HybridKeeps(s, a, w);
      }
    case RememberHost(a) =>
      if a in s.attempts {
        RememberHostKeeps(s, a);
      }
    case AskPins(a) =>
      if a in s.attempts {
        AskPinsKeeps(s, a);
      }
    case TryClassical(a, w) =>
      if a in s.attempts {
        ClassicalKeeps(s, a, w);
      }
  }

  lemma {:induction false} RunKeeps(s: State, events: seq<Event>)
    requires Inv(s)
    ensures Inv(Run(s, events)) && Continues(s, Run(s, events))
    decreases |events|
  {
    if events != [] {
      var t := Run(s, events[..|events| - 1]);
      RunKeeps(s, events[..|events| - 1]);
      StepKeeps(t, Last(events));
    }
  }

  // ---- the theorems ----

  /** Some call already got a hybrid channel from this host. */
  predicate Proved(s: State, key: seq<byte>) {
    exists b | b in s.attempts ::
      s.attempts[b].pinned == Some(key) && s.attempts[b].phase.Done? && s.attempts[b].phase.r.Ok? && IsHybrid(s.attempts[b].phase.r.value)
  }

  /** No downgrade. Take any run, and then any call pinned to a host that is remembered, or
      whose store could not be read, or that an earlier call completed a hybrid handshake with:
      whatever happens next, that call returns a hybrid channel or none. */
  lemma NoDowngrade(file: seq<byte>, before: seq<Event>, a: nat, key: seq<byte>, over: bool, after: seq<Event>)
    requires a !in Run(Start(file), before).attempts
    requires PinStore.Refuses(Run(Start(file), before).store, Base64.Encode(key)) || Proved(Run(Start(file), before), key)
    ensures var t := Run(DoBegin(Run(Start(file), before), a, Some(key), over), after).attempts;
            && a in t && t[a].pinned == Some(key)
            && (t[a].phase.Done? && t[a].phase.r.Ok? ==> IsHybrid(t[a].phase.r.value))
  {
    RunKeeps(Start(file), before);
    var s := Run(Start(file), before);
    var begun := DoBegin(s, a, Some(key), over);
    if Proved(s, key) {
      ProvedIsRemembered(s, key);
    }
    BeginKeeps(s, a, Some(key), over);
    RunKeeps(begun, after);
    assert begun.attempts[a].guarded;
    var t := Run(begun, after);
    assert AttemptInv(t.store, t.attempts[a]);
  }

  lemma ProvedIsRemembered(s: State, key: seq<byte>)
    requires Inv(s) && Proved(s, key)
    ensures PinStore.Refuses(s.store, Base64.Encode(key))
  {
    var b :| b in s.attempts && s.attempts[b].pinned == Some(key) && s.attempts[b].phase.Done? && s.attempts[b].phase.r.Ok?
             && IsHybrid(s.attempts[b].phase.r.value);
    assert AttemptInv(s.store, s.attempts[b]);
  }

  /** In any run, a classical channel comes only from `connect_key`, on a host that was not
      guarded when the call began, after a stream that broke before the host answered. */
  lemma ClassicalOnlyAfterClose(file: seq<byte>, events: seq<Event>, a: nat)
    ensures var t := Run(Start(file), events).attempts;
            a in t && t[a].phase.Done? && t[a].phase.r.Ok? && !IsHybrid(t[a].phase.r.value) ==>
              !t[a].over && !t[a].guarded && t[a].phase.retried.Some? && ClosedBeforeAnswer(t[a].phase.retried.value)
  {
    RunKeeps(Start(file), events);
    var s := Run(Start(file), events);
    if a in s.attempts {
      assert AttemptInv(s.store, s.attempts[a]);
    }
  }

  // ---- what a call must do ----

  /** The hybrid handshake looks closed by an old host exactly when the stream broke before the
      host's answer was read. */
  lemma CloseIsSeenExactly(w: World, pinned: Option<seq<byte>>)
    ensures var r := KeyHandshake(w, pinned, true);
            r.Err? && IsOldHostClose(r.error) <==> !w.timeout && pinned.Some? && ClosedBeforeAnswer(w.script)
  {
    IoErrorMeansNoAnswer(w.h, w.log, w.aead, Client(w.identity, w.eph, w.signature, Some(w.kem)), pinned, w.script);
  }

  predicate NotOf(a: nat, events: seq<Event>) {
    forall i | 0 <= i < |events| && !events[i].Background? :: events[i].a != a
  }

  lemma OthersLeave(s: State, a: nat, e: Event)
    requires a in s.attempts && (e.Background? || e.a != a)
    ensures a in Apply(s, e).attempts && Apply(s, e).attempts[a] == s.attempts[a]
  {
  }

  lemma {:induction false} OthersLeaveRun(s: State, a: nat, events: seq<Event>)
    requires a in s.attempts && NotOf(a, events)
    ensures a in Run(s, events).attempts && Run(s, events).attempts[a] == s.attempts[a]
    decreases |events|
  {
    if events != [] {
      assert NotOf(a, events[..|events| - 1]);
      OthersLeaveRun(s, a, events[..|events| - 1]);
      OthersLeave(Run(s, events[..|events| - 1]), a, Last(events));
    }
  }

  /** A hybrid handshake that succeeds is what its call returns, and its host is remembered. */
  lemma HybridIsReturned(s: State, a: nat, w: World, between: seq<Event>)
    requires a in s.attempts && s.attempts[a].phase.Trying? && NotOf(a, between) && KeyHandshake(w, s.attempts[a].pinned, true).Ok?
    ensures var r, pinned := KeyHandshake(w, s.attempts[a].pinned, true), s.attempts[a].pinned;
            var t := Apply(Run(Apply(s, TryHybrid(a, w)), between), RememberHost(a));
            && a in t.attempts && t.attempts[a].phase == Done(r, None)
            && pinned.Some? && Base64.Encode(pinned.value) in t.store.hosts
  {
    HandshakeKind(w, s.attempts[a].pinned, true);
    HybridReturns(s, Apply(s, TryHybrid(a, w)), a, w.script, KeyHandshake(w, s.attempts[a].pinned, true), between);
  }

  lemma HybridReturns(s: State, tried: State, a: nat, script: Script, r: Result<Channel, SdkError>, between: seq<Event>)
    requires a in s.attempts && s.attempts[a].phase.Trying? && NotOf(a, between) && r.Ok? && s.attempts[a].pinned.Some?
    requires tried == DoTryHybrid(s, a, script, r)
    ensures var t := Apply(Run(tried, between), RememberHost(a));
            && a in t.attempts && t.attempts[a].phase == Done(r, None)
            && Base64.Encode(s.attempts[a].pinned.value) in t.store.hosts
  {
    HybridSucceeds(s, a, script, r);
    OthersLeaveRun(tried, a, between);
    RememberReturns(Run(tried, between), a);
  }

  lemma HybridSucceeds(s: State, a: nat, script: Script, r: Result<Channel, SdkError>)
    requires a in s.attempts && s.attempts[a].phase.Trying? && r.Ok?
    ensures var t := DoTryHybrid(s, a, script, r);
            a in t.attempts && t.attempts[a] == s.attempts[a].(phase := Remembering(r.value))
  {
  }

  lemma RememberReturns(s: State, a: nat)
    requires a in s.attempts && s.attempts[a].phase.Remembering? && s.attempts[a].pinned.Some?
    ensures var t := DoRememberHost(s, a);
            && a in t.attempts && t.attempts[a].phase == Done(Ok(s.attempts[a].phase.c), None)
            && Base64.Encode(s.attempts[a].pinned.value) in t.store.hosts
  {
  }

  lemma ClosedIsShut(s: State, a: nat, script: Script, r: Result<Channel, SdkError>)
    requires a in s.attempts && s.attempts[a].phase.Trying? && r.Err?
    ensures var t := DoTryHybrid(s, a, script, r);
            && a in t.attempts
            && t.attempts[a] == s.attempts[a].(phase := if !s.attempts[a].over && IsOldHostClose(r.error) then Shut(script) else Done(r, None))
  {
  }

  /** A connect that fails ends its call with an I/O error, which is not taken for the close of
      an old host; a call over a stream that is open already makes none. */
  lemma FailedConnectIsReturned(s: State, a: nat, between: seq<Event>)
    requires a in s.attempts && NotOf(a, between)
    ensures var call, t := s.attempts[a], Run(Apply(s, ConnectFails(a)), between);
            && a in t.attempts && !IsOldHostClose(Io(OtherIo))
            && t.attempts[a] == if !call.over && (call.phase.Trying? || call.phase.Retrying?) then call.(phase := Done(Err(Io(OtherIo)), None)) else call
  {
    OthersLeaveRun(Apply(s, ConnectFails(a)), a, between);
  }

  /** What a failed hybrid handshake leaves of its call. */
  function AfterFailure(call: Attempt, w: World, r: Result<Channel, SdkError>): Phase {
    if call.over || w.timeout || call.pinned.None? || !ClosedBeforeAnswer(w.script) then Done(r, None) else Shut(w.script)
  }

  /** A hybrid handshake that fails ends its call with that error, unless it was a call of
      `connect_key` on a stream that broke before the host answered: exactly that call asks the
      pins next, and no other call changes it meanwhile. */
  lemma FailureIsSeen(s: State, a: nat, w: World, between: seq<Event>)
    requires a in s.attempts && s.attempts[a].phase.Trying? && KeyHandshake(w, s.attempts[a].pinned, true).Err? && NotOf(a, between)
    ensures var call, t := s.attempts[a], Run(Apply(s, TryHybrid(a, w)), between);
            a in t.attempts && t.attempts[a] == call.(phase := AfterFailure(call, w, KeyHandshake(w, call.pinned, true)))
  {
    var call, r := s.attempts[a], KeyHandshake(w, s.attempts[a].pinned, true);
    CloseIsSeenExactly(w, call.pinned);
    ClosedIsShut(s, a, w.script, r);
    OthersLeaveRun(Apply(s, TryHybrid(a, w)), a, between);
  }

  /** What a call that was closed on ends with. */
  function AfterPins(phase: Phase, guarded: bool, retry: Result<Channel, SdkError>): Phase {
    if !phase.Shut? then phase else if guarded then Done(Err(Refused), None) else Done(retry, Some(phase.script))
  }

  /** A call that was closed on is retried classically, and returns what comes of it, exactly
      if its host is not guarded when the pins are asked; whatever other calls do in between. */
  lemma RetryIsMade(s: State, a: nat, more: seq<Event>, w2: World)
    requires a in s.attempts && (s.attempts[a].phase.Shut? || s.attempts[a].phase.Done?) && NotOf(a, more)
    ensures var call, t := s.attempts[a], Apply(Run(Apply(s, AskPins(a)), more), TryClassical(a, w2));
            a in t.attempts && t.attempts[a].phase == AfterPins(call.phase, Guarded(s.store, call.pinned), KeyHandshake(w2, call.pinned, false))
  {
    PinsAreAsked(s, a);
    OthersLeaveRun(Apply(s, AskPins(a)), a, more);
    ClassicalReturns(Run(Apply(s, AskPins(a)), more), a, KeyHandshake(w2, s.attempts[a].pinned, false));
  }

  lemma PinsAreAsked(s: State, a: nat)
    requires a in s.attempts
    ensures var call, t := s.attempts[a], DoAskPins(s, a);
            && a in t.attempts
            && t.attempts[a] == if !call.phase.Shut? then call
                                else if Guarded(s.store, call.pinned) then call.(phase := Done(Err(Refused), None))
                                else call.(phase := Retrying(call.phase.script))
  {
  }

  lemma ClassicalReturns(s: State, a: nat, r: Result<Channel, SdkError>)
    requires a in s.attempts
    ensures var call, t := s.attempts[a], DoTryClassical(s, a, r);
            a in t.attempts && t.attempts[a] == if call.phase.Retrying? then call.(phase := Done(r, Some(call.phase.script))) else call
  {
  }
}
