/**
  What the path from capture to viewers must do (h264.rs, worker.rs and broker.rs of
  rivetlink-agent): the capture thread's accesses of shared state add up to one call of the
  encoder, whatever is on its way arrives, a stream can be replaced by another, and a viewer's
  gate asks for keyframes exactly when it has to.
 */
module CaptureFlow {
  import opened Common
  import opened H264
  import opened VideoPipeline

  // ---- the capture thread's steps are one `send` ----

  function Call(data: seq<byte>, captured: bool, o: Oracle): seq<Event> {
    [Check(data, captured), Rate(o), Force(o), EncodeOne(o), TryOffer(o.now)]
  }

  lemma RunOfCall(s: State, data: seq<byte>, captured: bool, o: Oracle)
    ensures RunFrom(s, Call(data, captured, o)) == DoOffer(DoEncode(DoForce(DoRate(DoCheck(s, data, captured), o), o), o), o.now)
  {
    var c := Call(data, captured, o);
    RunCons(s, c);
    RunCons(DoCheck(s, data, captured), c[1..]);
    RunCons(DoRate(DoCheck(s, data, captured), o), c[2..]);
    RunCons(DoForce(DoRate(DoCheck(s, data, captured), o), o), c[3..]);
    RunCons(DoEncode(DoForce(DoRate(DoCheck(s, data, captured), o), o), o), c[4..]);
    assert c[1..][1..] == c[2..] && c[2..][1..] == c[3..] && c[3..][1..] == c[4..] && c[4..][1..] == [];
  }

  lemma RunCons(s: State, events: seq<Event>)
    requires events != []
    ensures RunFrom(s, events) == RunFrom(Apply(s, events[0]), events[1..])
  {
  }

  lemma NothingToDo(s: State, o: Oracle)
    requires s.stream.VideoStream? && s.stream.phase.Waiting?
    ensures DoOffer(DoEncode(DoForce(DoRate(s, o), o), o), o.now) == s
  {
    assert DoRate(s, o) == s && DoForce(s, o) == s && DoEncode(s, o) == s && DoOffer(s, o.now) == s;
  }

  lemma AdaptSteps(s: State, data: seq<byte>, captured: bool, o: Oracle)
    requires s.stream.VideoStream? && s.stream.phase.Waiting? && |data| == I420Len(s.stream.enc.w, s.stream.enc.h) && |s.queue| < QUEUE_SLOTS
    ensures var (e1, c1) := AdaptRate(s.stream.enc, s.stream.control, captured, o);
            var (e2, c2) := AdaptKeyframe(e1, c1, o);
            DoForce(DoRate(DoCheck(s, data, captured), o), o) == s.(stream := VideoStream(e2, c2, Ready(data)))
  {
    var (e, c) := (s.stream.enc, s.stream.control);
    assert DoCheck(s, data, captured) == s.(stream := VideoStream(e, c, Checked(data, captured)));
    var (e1, c1) := AdaptRate(e, c, captured, o);
    assert DoRate(DoCheck(s, data, captured), o) == s.(stream := VideoStream(e1, c1, Rated(data)));
  }

  lemma EncodeSteps(s: State, e: Encoder, c: Control, data: seq<byte>, o: Oracle)
    requires s.stream == VideoStream(e, c, Ready(data)) && o.took == 0 && !o.leaves && o.id == s.nextId
    ensures var (e3, c3, f) := Encode(e, c, data, o);
            var q := Consume(Queue(s.queue, QUEUE_SLOTS, false), o);
            var r := if f.None? then SendResult(e3, c3, q, true) else Offer(e3, c3, q, f.value, o.now);
            DoOffer(DoEncode(s, o), o.now)
            == s.(stream := VideoStream(r.e, r.c, Waiting), queue := r.q.frames, nextId := s.nextId + if f.Some? then 1 else 0)
  {
    assert o.(id := s.nextId) == o;
    assert s.queue[0..] == s.queue;
    assert Consume(Queue(s.queue, QUEUE_SLOTS, false), o) == Queue(s.queue, QUEUE_SLOTS, false);
  }

  /** Taken one at a time and with nothing in between, the accesses do what one call of `send`
      does: on malformed data, on a full queue, and with each outcome of the codec. */
  lemma CallIsSend(s: State, data: seq<byte>, captured: bool, o: Oracle)
    requires s.stream.VideoStream? && s.stream.phase.Waiting? && o.took == 0 && !o.leaves && o.id == s.nextId
    ensures var r := Send(s.stream.enc, s.stream.control, Queue(s.queue, QUEUE_SLOTS, false), data, captured, o);
            var s' := RunFrom(s, Call(data, captured, o));
            s' == s.(stream := VideoStream(r.e, r.c, Waiting), queue := r.q.frames, nextId := s'.nextId)
  {
    RunOfCall(s, data, captured, o);
    if |data| != I420Len(s.stream.enc.w, s.stream.enc.h) || |s.queue| >= QUEUE_SLOTS {
      NothingToDo(DoCheck(s, data, captured), o);
    } else {
      AdaptSteps(s, data, captured, o);
      var (e1, c1) := AdaptRate(s.stream.enc, s.stream.control, captured, o);
      var (e2, c2) := AdaptKeyframe(e1, c1, o);
      EncodeSteps(s.(stream := VideoStream(e2, c2, Ready(data))), e2, c2, data, o);
    }
  }

  // ---- what is on its way arrives ----

  /** The frames past the capture thread, oldest first. */
  function Sent(s: State): seq<StreamFrame> {
    s.log + s.wire + (if s.held.Some? then [s.held.value] else []) + s.queue
  }

  function Distance(s: State): nat {
    3 * |s.queue| + (if s.held.Some? then 2 else 0) + |s.wire|
  }

  function Nearer(s: State): Event {
    if s.wire != [] then Publish else if s.held.Some? then Write else Take
  }

  lemma NearerMoves(s: State)
    requires Distance(s) > 0
    ensures var s' := Apply(s, Nearer(s));
            && Sent(s') == Sent(s) && Distance(s') < Distance(s)
            && s'.viewers == s.viewers && s'.stream == s.stream && s.log <= s'.log
  {
    if s.wire != [] {
      PublishMoves(s);
    } else if s.held.Some? {
      WriteMoves(s);
    } else {
      TakeMoves(s);
    }
  }

  lemma PublishMoves(s: State)
    requires s.wire != []
    ensures var s' := DoPublish(s);
            && Sent(s') == Sent(s) && Distance(s') < Distance(s)
            && s'.viewers == s.viewers && s'.stream == s.stream && s.log <= s'.log
  {
    assert s.wire == [s.wire[0]] + s.wire[1..];
  }

  lemma WriteMoves(s: State)
    requires s.wire == [] && s.held.Some?
    ensures var s' := DoWrite(s);
            && Sent(s') == Sent(s) && Distance(s') < Distance(s)
            && s'.viewers == s.viewers && s'.stream == s.stream && s.log == s'.log
  {
  }

  lemma TakeMoves(s: State)
    requires s.wire == [] && s.held.None? && s.queue != []
    ensures var s' := DoTake(s);
            && Sent(s') == Sent(s) && Distance(s') < Distance(s)
            && s'.viewers == s.viewers && s'.stream == s.stream && s.log == s'.log
  {
    assert s.queue == [s.queue[0]] + s.queue[1..];
  }

  /** From every state, forwarder, socket and reader can publish all that was queued, in the
      order it was queued, whatever the capture thread is doing. */
  lemma {:induction false} PathCanDrain(s: State) returns (events: seq<Event>)
    ensures var s' := RunFrom(s, events);
            && s'.log == Sent(s) && s'.wire == [] && s'.held.None? && s'.queue == []
            && s'.viewers == s.viewers && s'.stream == s.stream
    decreases Distance(s)
  {
    if Distance(s) == 0 {
      events := [];
      assert Sent(s) == s.log;
    } else {
      NearerMoves(s);
      var rest := PathCanDrain(Apply(s, Nearer(s)));
      events := [Nearer(s)] + rest;
      assert events[1..] == rest;
    }
  }

  /** A tile frame offered while the queue has room is published after all that was queued
      before it; without room it is dropped, and nothing else is. */
  lemma TilesGetThrough(s: State) returns (events: seq<Event>)
    requires s.stream.TileStream?
    ensures RunFrom(DoOfferTiles(s), events).log == Sent(s) + if |s.queue| < QUEUE_SLOTS then [Tiles] else []
  {
    events := PathCanDrain(DoOfferTiles(s));
    assert Sent(DoOfferTiles(s)) == Sent(s) + if |s.queue| < QUEUE_SLOTS then [Tiles] else [];
  }

  /** From every state with a stream, the running stream can be stopped and the next one
      started: video if it was asked for and the size allows it, tiles otherwise. What was
      published or already in the socket is kept, what was queued is not. */
  lemma StreamCanBeReplaced(s: State, h264: bool, w: nat, h: nat, now: int)
    ensures var s' := RunFrom(s, [Write, Stop, Start(h264, w, h, now)]);
            && (s'.stream.VideoStream? <==> h264 && w > 0 && h > 0 && w % 2 == 0 && h % 2 == 0)
            && (s'.stream.VideoStream? ==> StartsIntra(s'.stream.enc.codec) && s'.stream.enc.w == w && s'.stream.enc.h == h && s'.stream.phase.Waiting?)
            && (!s'.stream.VideoStream? ==> s'.stream.TileStream?)
            && s'.queue == [] && s'.held.None? && s'.log == s.log
            && s'.wire == s.wire + if s.held.Some? then [s.held.value] else []
  {
    var c := [Write, Stop, Start(h264, w, h, now)];
    RunCons(s, c);
    RunCons(DoWrite(s), c[1..]);
    RunCons(DoStop(DoWrite(s)), c[2..]);
    assert c[1..][1..] == c[2..] && c[2..][1..] == [];
  }

  // ---- how many keyframe requests are under way ----

  function Subscriptions(events: seq<Event>): nat {
    if events == [] then 0
    else (if events[0].Subscribe? || events[0].Resubscribe? then 1 else 0) + Subscriptions(events[1..])
  }

  predicate Few(s: State, subscriptions: nat) {
    && s.unwritten + s.written <= subscriptions + (if s.inFlight then 1 else 0)
    && (s.inFlight ==> s.unwritten + s.written > 0)
  }

  lemma StepFew(s: State, n: nat, e: Event)
    requires Few(s, n)
    ensures Few(Apply(s, e), n + if e.Subscribe? || e.Resubscribe? then 1 else 0)
  {
  }

  lemma {:induction false} RunFew(s: State, n: nat, events: seq<Event>)
    requires Few(s, n)
    ensures Few(RunFrom(s, events), n + Subscriptions(events))
    decreases |events|
  {
    if events != [] {
      StepFew(s, n, events[0]);
      RunFew(Apply(s, events[0]), n + (if events[0].Subscribe? || events[0].Resubscribe? then 1 else 0), events[1..]);
    }
  }

  /** In every run, however many viewers ask and however often: apart from one request for each
      subscription, at most one is under way, and the way can always be cleared for the next. */
  lemma RequestsAreFew(events: seq<Event>, congested: bool)
    ensures var s := RunFrom(Init, events);
            && s.unwritten + s.written <= 1 + Subscriptions(events)
            && !RunFrom(s, [WriteRequest(congested), ClearInFlight]).inFlight
  {
    var s := RunFrom(Init, events);
    RunFew(Init, 0, events);
    var c := [WriteRequest(congested), ClearInFlight];
    RunCons(s, c);
    RunCons(DoWriteRequest(s, congested), c[1..]);
    assert c[1..][1..] == [];
  }

  /** No one asks for a keyframe. */
  predicate NoneAsks(s: State, events: seq<Event>)
    decreases |events|
  {
    events != [] ==> !Asking(s, events[0]) && NoneAsks(Apply(s, events[0]), events[1..])
  }

  predicate Asking(s: State, e: Event) {
    || (e.Complain? && e.v < |s.viewers| && s.viewers[e.v].gate.video)
    || (e.Recv? && e.v < |s.viewers| && var r := NextReceived(s.log, s.viewers[e.v].pos).0;
                                      r.Some? && Receive(s.viewers[e.v].gate, r.value).ask.Some?)
  }

  lemma {:induction false} FlagStaysDown(s: State, events: seq<Event>)
    requires !s.inFlight && NoneAsks(s, events)
    ensures !RunFrom(s, events).inFlight
    decreases |events|
  {
    if events != [] {
      FlagStaysDown(Apply(s, events[0]), events[1..]);
    }
  }

  /** After a subscription or a display switch, the first request of anyone is written to the
      worker in its own right; it is not merged into one from before. */
  lemma FirstRequestIsWritten(s: State, e: Event, between: seq<Event>, ask: Event)
    requires e.Subscribe? || (e.Resubscribe? && e.v < |s.viewers|)
    requires NoneAsks(Apply(s, e), between) && Asking(RunFrom(Apply(s, e), between), ask)
    ensures var t := RunFrom(Apply(s, e), between);
            !Swallows(t) && Apply(t, ask).unwritten == t.unwritten + 1 && Apply(t, ask).inFlight
  {
    FlagStaysDown(Apply(s, e), between);
  }

  // ---- when a viewer's gate asks for a keyframe ----

  function GateAfter(script: seq<Received>): Gate {
    if script == [] then FreshGate else Receive(GateAfter(script[..|script| - 1]), Last(script)).gate
  }

  predicate VideoAt(script: seq<Received>, i: nat)
    requires i < |script|
  {
    script[i].Frame? && script[i].frame.Video?
  }

  predicate SawVideo(script: seq<Received>) {
    exists i :: 0 <= i < |script| && VideoAt(script, i)
  }

  predicate SawLag(script: seq<Received>) {
    exists i :: 0 <= i < |script| && script[i].Lagged?
  }

  /** A keyframe came since the last lag. */
  predicate Current(script: seq<Received>) {
    script != [] && !Last(script).Lagged?
    && ((VideoAt(script, |script| - 1) && Last(script).frame.frame.Keyframe()) || Current(script[..|script| - 1]))
  }

  /** What the gate knows is what it received. */
  lemma {:induction false} GateKnows(script: seq<Received>)
    ensures var g := GateAfter(script);
            && (g.video <==> SawVideo(script)) && (g.awaiting <==> !Current(script))
            && (g.requested ==> g.video) && (g.video && g.awaiting ==> g.requested)
            && (!g.video ==> (g.lagged <==> SawLag(script)))
  {
    if script != [] {
      var init, n := script[..|script| - 1], |script| - 1;
      GateKnows(init);
      assert script[n] == Last(script);
      assert SawVideo(script) <==> SawVideo(init) || VideoAt(script, n) by {
        if i :| 0 <= i < |script| && VideoAt(script, i) {
          assert i < n ==> VideoAt(init, i);
        }
        if i :| 0 <= i < |init| && VideoAt(init, i) {
          assert VideoAt(script, i);
        }
      }
      assert SawLag(script) <==> SawLag(init) || Last(script).Lagged? by {
        if i :| 0 <= i < |init| && init[i].Lagged? {
          assert script[i].Lagged?;
        }
      }
    }
  }

  /** Over everything a viewer ever received: it asks for a keyframe exactly at a lag once it
      has seen video, and at its first video frame if that is a delta. The request reports
      congestion exactly when the viewer has lagged. It is given exactly the tile frames, the
      keyframes, and the deltas with a keyframe before them since the last lag. */
  lemma GateTurnsExactly(script: seq<Received>, r: Received)
    ensures var t := Receive(GateAfter(script), r);
            var asks := if r.Lagged? then SawVideo(script) else r.frame.Delta() && !SawVideo(script);
            && t.ask == (if asks then Some(SawLag(script + [r])) else None)
            && t.out == (if r.Frame? && (r.frame.Delta() ==> Current(script)) then Some(r.frame) else None)
  {
    GateKnows(script);
    var all := script + [r];
    if r.Lagged? {
      assert all[|script|].Lagged?;
    } else if i :| 0 <= i < |script| && script[i].Lagged? {
      assert all[i].Lagged?;
    }
    if !SawVideo(script) {
      NoVideoNotCurrent(script);
    }
  }

  lemma {:induction false} NoVideoNotCurrent(script: seq<Received>)
    requires !SawVideo(script)
    ensures !Current(script)
  {
    if script != [] {
      var init := script[..|script| - 1];
      assert !VideoAt(script, |script| - 1);
      if i :| 0 <= i < |init| && VideoAt(init, i) {
        assert VideoAt(script, i);
      }
      NoVideoNotCurrent(init);
    }
  }

  /** The requests of the turns over `script`, from gate `g`. */
  function Asked(g: Gate, script: seq<Received>): seq<bool>
    decreases |script|
  {
    if script == [] then []
    else
      var t := Receive(g, script[0]);
      (if t.ask.Some? then [t.ask.value] else []) + Asked(t.gate, script[1..])
  }

  /** `next` makes the requests of its turns, all of them and in order. */
  lemma {:induction false} NextAsksAll(g: Gate, script: seq<Received>)
    ensures var r := Next(g, script);
            r.used <= |script| && r.asks == Asked(g, script[..r.used])
    decreases |script|
  {
    if script != [] {
      var t, r := Receive(g, script[0]), Next(g, script);
      if t.out.None? {
        NextAsksAll(t.gate, script[1..]);
      }
      assert Asked(t.gate, []) == [];
      assert r.used >= 1 && script[..r.used][1..] == script[1..][..r.used - 1];
    }
  }
}
