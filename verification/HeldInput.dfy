/**
  Keys and buttons a viewer holds down (`HeldInput` in crates/rivetlink-agent/src/lan.rs, the
  key map in crates/rivetlink-agent/src/input/mutter.rs): what is released when the viewer
  ends, although several names may stand for one key.
 */
module HeldInput {
  import opened Common

  datatype Button = Left | Right | Middle

  datatype Input =
    | PointerMove(x: nat, y: nat)
    | Scroll(dx: int, dy: int)
    | PointerButton(button: Button, down: bool)
    | Key(code: string, down: bool)

  const KEY_LEFTCTRL := 29

  /** The key code of a name; names without one are ignored. */
  function KeyCode(table: string -> Option<nat>, code: string): Option<nat> {
    if code == "CommandMod" then Some(KEY_LEFTCTRL) else table(code)
  }

  function Index(b: Button): nat {
    match b
    case Left => 0
    case Right => 1
    case Middle => 2
  }

  // ---- what the desktop has pressed ----

  datatype Desktop = Desktop(keys: set<nat>, buttons: set<Button>)

  function Inject(table: string -> Option<nat>, d: Desktop, input: Input): Desktop {
    match input
    case PointerMove(_, _) => d
    case Scroll(_, _) => d
    case PointerButton(b, down) => d.(buttons := if down then d.buttons + {b} else d.buttons - {b})
    case Key(code, down) =>
      var k := KeyCode(table, code);
      if k.None? then d else d.(keys := if down then d.keys + {k.value} else d.keys - {k.value})
  }

  function InjectAll(table: string -> Option<nat>, d: Desktop, inputs: seq<Input>): Desktop
    decreases |inputs|
  {
    if inputs == [] then d else Inject(table, InjectAll(table, d, inputs[..|inputs| - 1]), Last(inputs))
  }

  // ---- what the viewer is known to hold ----

  datatype Held = Held(keys: set<string>, buttons: set<Button>)

  const Nothing := Held({}, {})

  function Track(h: Held, input: Input): Held {
    match input
    case PointerMove(_, _) => h
    case Scroll(_, _) => h
    case PointerButton(b, down) => h.(buttons := if down then h.buttons + {b} else h.buttons - {b})
    case Key(code, down) => h.(keys := if down then h.keys + {code} else h.keys - {code})
  }

  /** A list of releases for exactly what is held: keys, in some order, then buttons. */
  predicate ReleasesOf(h: Held, inputs: seq<Input>) {
    && (forall i | i in inputs :: (i.Key? && !i.down && i.code in h.keys) || (i.PointerButton? && !i.down && i.button in h.buttons))
    && (forall code | code in h.keys :: Key(code, false) in inputs)
    && (forall b | b in h.buttons :: PointerButton(b, false) in inputs)
  }

  class HeldKeys {
    var keys: set<string>
    const buttons: array<bool>

    ghost predicate Valid()
      reads this, buttons
    {
      buttons.Length == 3
    }

    ghost function View(): Held
      requires Valid()
      reads this, buttons
    {
      Held(keys, set b: Button | buttons[Index(b)])
    }

    constructor ()
      ensures Valid() && fresh(buttons) && View() == Nothing
    {
      keys, buttons := {}, new bool[3](_ => false);
    }

    method TrackInput(input: Input)
      requires Valid()
      modifies this, buttons
      ensures Valid() && View() == Track(old(View()), input)
    {
      match input {
        case Key(code, down) =>
          keys := if down then keys + {code} else keys - {code};
        case PointerButton(b, down) =>
          buttons[Index(b)] := down;
        case PointerMove(_, _) =>
        case Scroll(_, _) =>
      }
    }

    method Releases() returns (inputs: seq<Input>)
      requires Valid()
      ensures ReleasesOf(View(), inputs)
    {
      inputs := [];
      var rest := keys;
      while rest != {}
        invariant rest <= keys
        invariant forall i | i in inputs :: i.Key? && !i.down && i.code in keys
        invariant forall code | code in keys && code !in rest :: Key(code, false) in inputs
        decreases |rest|
      {
        var code :| code in rest;
        inputs := inputs + [Key(code, false)];
        rest := rest - {code};
      }
      ghost var sofar := inputs;
      inputs := inputs + if buttons[0] then [PointerButton(Left, false)] else [];
      inputs := inputs + if buttons[1] then [PointerButton(Right, false)] else [];
      inputs := inputs + if buttons[2] then [PointerButton(Middle, false)] else [];
      assert forall i | i in sofar :: i in inputs;
      forall b: Button | buttons[Index(b)]
        ensures PointerButton(b, false) in inputs
      {
        match b
        case Left =>
        case Right =>
        case Middle =>
      }
    }
  }

  // ---- runs ----

  /** `before` is what was down when the viewer came. A switch of display releases in the
      middle of a session; the end of the session releases for the last time. */
  datatype State = State(d: Desktop, h: Held)

  datatype Event = Forward(input: Input) | Release(order: seq<Input>)

  function Apply(table: string -> Option<nat>, s: State, e: Event): State {
    match e
    case Forward(input) => State(Inject(table, s.d, input), Track(s.h, input))
    case Release(order) => if ReleasesOf(s.h, order) then State(InjectAll(table, s.d, order), Nothing) else s
  }

  function Run(table: string -> Option<nat>, before: Desktop, events: seq<Event>): State
    decreases |events|
  {
    if events == [] then State(before, Nothing) else Apply(table, Run(table, before, events[..|events| - 1]), Last(events))
  }

  predicate HeldKey(table: string -> Option<nat>, h: Held, k: nat) {
    exists code | code in h.keys :: KeyCode(table, code) == Some(k)
  }

  /** What is down was down before or is held under some name. Equality would be wrong: two
      names of one key. */
  predicate Covered(table: string -> Option<nat>, before: Desktop, s: State) {
    && (forall k | k in s.d.keys :: k in before.keys || HeldKey(table, s.h, k))
    && s.d.buttons <= before.buttons + s.h.buttons
  }

  lemma ForwardCovers(table: string -> Option<nat>, before: Desktop, s: State, input: Input)
    requires Covered(table, before, s)
    ensures Covered(table, before, Apply(table, s, Forward(input)))
  {
    var s' := Apply(table, s, Forward(input));
    forall k | k in s'.d.keys
      ensures k in before.keys || HeldKey(table, s'.h, k)
    {
      if input.Key? && input.down && KeyCode(table, input.code) == Some(k) {
        assert input.code in s'.h.keys;
      } else if k !in before.keys {
        var code :| code in s.h.keys && KeyCode(table, code) == Some(k);
        assert code in s'.h.keys;
      }
    }
  }

  /** Releases only ever lift, and each lifts its own key or button. */
  lemma {:induction false} ReleasesLift(table: string -> Option<nat>, d: Desktop, inputs: seq<Input>)
    requires forall i | i in inputs :: (i.Key? || i.PointerButton?) && !i.down
    ensures var e := InjectAll(table, d, inputs);
            && e.keys <= d.keys && e.buttons <= d.buttons
            && (forall i | i in inputs && i.Key? && KeyCode(table, i.code).Some? :: KeyCode(table, i.code).value !in e.keys)
            && (forall i | i in inputs && i.PointerButton? :: i.button !in e.buttons)
    decreases |inputs|
  {
    if inputs != [] {
      var front := inputs[..|inputs| - 1];
      assert inputs == front + [Last(inputs)];
      ReleasesLift(table, d, front);
    }
  }

  lemma ReleaseCovers(table: string -> Option<nat>, before: Desktop, s: State, order: seq<Input>)
    requires Covered(table, before, s) && ReleasesOf(s.h, order)
    ensures Covered(table, before, Apply(table, s, Release(order)))
    ensures var d := Apply(table, s, Release(order)).d;
            d.keys <= before.keys && d.buttons <= before.buttons
  {
    var d := Apply(table, s, Release(order)).d;
    ReleasesLift(table, s.d, order);
    forall code | code in s.h.keys && KeyCode(table, code).Some?
      ensures KeyCode(table, code).value !in d.keys
    {
      assert Key(code, false) in order && Key(code, false).code == code;
    }
    forall b | b in s.h.buttons
      ensures b !in d.buttons
    {
      assert PointerButton(b, false) in order && PointerButton(b, false).button == b;
    }
  }

  lemma {:induction false} RunCovers(table: string -> Option<nat>, before: Desktop, events: seq<Event>)
    ensures Covered(table, before, Run(table, before, events))
    decreases |events|
  {
    if events != [] {
      var s := Run(table, before, events[..|events| - 1]);
      RunCovers(table, before, events[..|events| - 1]);
      match Last(events)
      case Forward(input) => ForwardCovers(table, before, s, input);
      case Release(order) =>
        if ReleasesOf(s.h, order) {
          ReleaseCovers(table, before, s, order);
        }
    }
  }

  /** Whatever a viewer did, after its releases nothing is down that was not down before it
      came, for every key map. */
  lemma NothingStaysDown(table: string -> Option<nat>, before: Desktop, events: seq<Event>, order: seq<Input>)
    requires ReleasesOf(Run(table, before, events).h, order)
    ensures var d := InjectAll(table, Run(table, before, events).d, order);
            d.keys <= before.keys && d.buttons <= before.buttons
  {
    RunCovers(table, before, events);
    ReleaseCovers(table, before, Run(table, before, events), order);
  }

  // ---- when what is down is exactly what is held ----

  ghost predicate Exact(table: string -> Option<nat>, s: State) {
    s.d.buttons == s.h.buttons && forall k: nat :: k in s.d.keys <==> HeldKey(table, s.h, k)
  }

  /** The release of a name while another held name stands for the same key. */
  predicate Lifts(table: string -> Option<nat>, h: Held, e: Event) {
    && e.Forward? && e.input.Key? && !e.input.down && KeyCode(table, e.input.code).Some?
    && exists code | code in h.keys :: code != e.input.code && KeyCode(table, code) == KeyCode(table, e.input.code)
  }

  lemma PressIsExact(table: string -> Option<nat>, s: State, code: string)
    requires Exact(table, s)
    ensures Exact(table, Apply(table, s, Forward(Key(code, true))))
  {
    var s' := Apply(table, s, Forward(Key(code, true)));
    assert code in s'.h.keys;
    forall k: nat
      ensures k in s'.d.keys <==> HeldKey(table, s'.h, k)
    {
      if HeldKey(table, s.h, k) {
        var c :| c in s.h.keys && KeyCode(table, c) == Some(k);
        assert c in s'.h.keys;
      }
    }
  }

  lemma LiftIsExactly(table: string -> Option<nat>, s: State, code: string)
    requires Exact(table, s)
    ensures Exact(table, Apply(table, s, Forward(Key(code, false)))) <==> !Lifts(table, s.h, Forward(Key(code, false)))
  {
    var s' := Apply(table, s, Forward(Key(code, false)));
    if Lifts(table, s.h, Forward(Key(code, false))) {
      var c :| c in s.h.keys && c != code && KeyCode(table, c) == KeyCode(table, code);
      assert c in s'.h.keys;
      assert HeldKey(table, s'.h, KeyCode(table, code).value);
    } else {
      forall k: nat
        ensures k in s'.d.keys <==> HeldKey(table, s'.h, k)
      {
        if k in s'.d.keys {
          var c :| c in s.h.keys && KeyCode(table, c) == Some(k);
          assert c in s'.h.keys;
        }
      }
    }
  }

  lemma ReleaseIsExact(table: string -> Option<nat>, s: State, order: seq<Input>)
    requires Exact(table, s) && ReleasesOf(s.h, order)
    ensures Exact(table, Apply(table, s, Release(order)))
  {
    ReleaseCovers(table, Desktop({}, {}), s, order);
  }

  /** From a state in which exactly the held names' keys are down, a step keeps that unless
      and only unless it lifts a key that another held name stands for. */
  lemma StaysExactUnlessLifted(table: string -> Option<nat>, s: State, e: Event)
    requires Exact(table, s)
    ensures Exact(table, Apply(table, s, e)) <==> !Lifts(table, s.h, e)
  {
    match e
    case Release(order) =>
      if ReleasesOf(s.h, order) {
        ReleaseIsExact(table, s, order);
      }
    case Forward(input) =>
      if input.Key? {
        if input.down {
          PressIsExact(table, s, input.code);
        } else {
          LiftIsExactly(table, s, input.code);
        }
      }
  }

  ghost predicate ExactAt(table: string -> Option<nat>, events: seq<Event>, n: nat)
    requires n <= |events|
  {
    Exact(table, Run(table, Desktop({}, {}), events[..n]))
  }

  ghost predicate ExactThroughout(table: string -> Option<nat>, events: seq<Event>) {
    forall n | 0 <= n <= |events| :: ExactAt(table, events, n)
  }

  predicate NeverLifts(table: string -> Option<nat>, events: seq<Event>) {
    forall n | 0 <= n < |events| :: !Lifts(table, Run(table, Desktop({}, {}), events[..n]).h, events[n])
  }

  lemma ThroughoutFront(table: string -> Option<nat>, events: seq<Event>)
    requires events != []
    ensures ExactThroughout(table, events)
            <==> ExactThroughout(table, events[..|events| - 1]) && ExactAt(table, events, |events|)
  {
    var front := events[..|events| - 1];
    forall n | 0 <= n <= |front|
      ensures ExactAt(table, front, n) == ExactAt(table, events, n)
    {
      assert front[..n] == events[..n];
    }
  }

  lemma NeverFront(table: string -> Option<nat>, events: seq<Event>)
    requires events != []
    ensures NeverLifts(table, events)
            <==> NeverLifts(table, events[..|events| - 1]) && !Lifts(table, Run(table, Desktop({}, {}), events[..|events| - 1]).h, Last(events))
  {
    var front := events[..|events| - 1];
    assert forall n | 0 <= n < |front| :: front[..n] == events[..n];
    assert events[..|front|] == front && events[|front|] == Last(events);
  }

  lemma ExactAtEnd(table: string -> Option<nat>, events: seq<Event>)
    ensures ExactAt(table, events, |events|) <==> Exact(table, Run(table, Desktop({}, {}), events))
  {
    assert events[..|events|] == events;
  }

  /** Over runs from an empty desktop: what is down is what is held all the way exactly when no
      step lifts a key that another held name stands for. */
  lemma {:induction false} PressedIsHeldIffNeverLifted(table: string -> Option<nat>, events: seq<Event>)
    ensures ExactThroughout(table, events) <==> NeverLifts(table, events)
    decreases |events|
  {
    if events == [] {
      assert forall n | 0 <= n <= |events| :: events[..n] == [];
    } else {
      var front, e := events[..|events| - 1], Last(events);
      PressedIsHeldIffNeverLifted(table, front);
      ThroughoutFront(table, events);
      NeverFront(table, events);
      ExactAtEnd(table, events);
      ExactAtEnd(table, front);
      if ExactThroughout(table, front) {
        assert ExactAt(table, front, |front|);
        StaysExactUnlessLifted(table, Run(table, Desktop({}, {}), front), e);
      }
    }
  }

  /** Two names, one key: after one of them is let go the key is up while the other name is
      still held, so what is down is in general less than what is held. The third step of this
      run lifts. */
  lemma HeldMayBeUp(table: string -> Option<nat>)
    requires table("ControlLeft") == Some(KEY_LEFTCTRL)
    ensures var events := [Forward(Key("CommandMod", true)), Forward(Key("ControlLeft", true)), Forward(Key("CommandMod", false))];
            var s := Run(table, Desktop({}, {}), events);
            && s.h.keys == {"ControlLeft"} && s.d.keys == {} && !Exact(table, s)
            && Lifts(table, Run(table, Desktop({}, {}), events[..2]).h, events[2])
  {
    var a, b, c := Forward(Key("CommandMod", true)), Forward(Key("ControlLeft", true)), Forward(Key("CommandMod", false));
    var before := Desktop({}, {});
    assert [a, b, c][..2] == [a, b] && [a, b][..1] == [a] && [a][..0] == [];
    assert "CommandMod"[1] != "ControlLeft"[1] || |"CommandMod"| != |"ControlLeft"|;
    assert Run(table, before, [a]) == State(Desktop({KEY_LEFTCTRL}, {}), Held({"CommandMod"}, {}));
    assert Run(table, before, [a, b]) == State(Desktop({KEY_LEFTCTRL}, {}), Held({"CommandMod", "ControlLeft"}, {}));
  }
}
