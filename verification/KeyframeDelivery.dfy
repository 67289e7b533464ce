/**
  Whether a waiting viewer is woken (h264.rs, worker.rs and broker.rs of rivetlink-agent): a
  keyframe that is coming can be delivered without anything new being asked for, and where none
  is coming nothing is delivered until something new happens.
 */
module KeyframeDelivery {
  import opened Common
  import opened H264
  import opened VideoPipeline

  /** What makes the encoder produce a keyframe that was not on its way: a new stream, a new
      request, a failed or spontaneously intra output, or a rebuilt codec. */
  predicate Prompts(s: State, e: Event) {
    || e.Start? || e.Complain?
    || (e.Recv? && Asks(s, e.v))
    || (e.EncodeOne? && (e.o.outcome.Failed? || e.o.outcome == Coded(true)))
    || (e.Rate? && s.stream.VideoStream? && DoRate(s, e.o).stream.enc.codec != s.stream.enc.codec)
  }

  predicate Unprompted(s: State, events: seq<Event>)
    decreases |events|
  {
    events == [] || (!Prompts(s, events[0]) && Unprompted(Apply(s, events[0]), events[1..]))
  }

  /** The viewer got one more frame, a keyframe. */
  predicate Delivers(s: State, s': State, v: nat) {
    && v < |s.viewers| && v < |s'.viewers| && s'.viewers[v].delivered != []
    && s'.viewers[v].delivered == s.viewers[v].delivered + [Last(s'.viewers[v].delivered)]
    && Last(s'.viewers[v].delivered).Keyframe()
  }

  ghost predicate Wakes(s: State, v: nat) {
    exists events :: Unprompted(s, events) && Delivers(s, RunFrom(s, events), v)
  }

  /** A waiting viewer that has not lagged. */
  predicate KeepsUp(s: State, v: nat) {
    v < |s.viewers| && Waits(s.viewers[v]) && |s.log| <= s.viewers[v].pos + BROADCAST_SLOTS
  }

  // ---- no keyframe coming ----

  /** Nothing on the path or behind it will open the viewer's gate. */
  predicate Stuck(s: State, v: nat) {
    && v < |s.viewers| && s.viewers[v].gate.awaiting && s.unwritten == 0 && s.requests == []
    && (s.stream.VideoStream? ==> !s.stream.control.keyframe && !StartsIntra(s.stream.enc.codec))
    && forall k | s.viewers[v].pos <= k < |Pipe(s)| :: !KeyframeAt(Pipe(s), k)
  }

  lemma StuckThrough(s: State, s': State, v: nat)
    requires Stuck(s, v) && s'.unwritten == 0 && s'.requests == []
    requires v < |s'.viewers| && s'.viewers[v].gate.awaiting && s.viewers[v].pos <= s'.viewers[v].pos
    requires s'.stream.VideoStream? ==> !s'.stream.control.keyframe && !StartsIntra(s'.stream.enc.codec)
    requires Pipe(s') <= Pipe(s) || (|Pipe(s')| == |Pipe(s)| + 1 && Pipe(s) <= Pipe(s') && !KeyframeAt(Pipe(s'), |Pipe(s)|))
    ensures Stuck(s', v)
  {
    forall k | s'.viewers[v].pos <= k < |Pipe(s')|
      ensures !KeyframeAt(Pipe(s'), k)
    {
      if k < |Pipe(s)| {
        assert !KeyframeAt(Pipe(s), k);
      }
    }
  }

  predicate SameViewer(s: State, s': State, v: nat) {
    v < |s.viewers| && v < |s'.viewers| && s'.viewers[v].delivered == s.viewers[v].delivered
  }

  lemma AdaptStuck(s: State, v: nat, e: Event)
    requires Inv(s) && Stuck(s, v) && !Prompts(s, e) && (e.Check? || e.Rate? || e.Force?)
    ensures Stuck(Apply(s, e), v) && SameViewer(s, Apply(s, e), v)
  {
    assert Pipe(Apply(s, e)) == Pipe(s);
    StuckThrough(s, Apply(s, e), v);
  }

  lemma EncodeStuck(s: State, v: nat, o: Oracle)
    requires Inv(s) && Stuck(s, v) && !Prompts(s, EncodeOne(o))
    ensures Stuck(DoEncode(s, o), v) && SameViewer(s, DoEncode(s, o), v)
  {
    var s' := DoEncode(s, o);
    if s'.nextId > s.nextId {
      assert Pipe(s') == Pipe(s) + [Video(s'.stream.phase.frame)];
    } else {
      assert Pipe(s') == Pipe(s);
    }
    StuckThrough(s, s', v);
  }

  lemma OfferStuck(s: State, v: nat, now: int)
    requires Inv(s) && Stuck(s, v)
    ensures Stuck(DoOffer(s, now), v) && SameViewer(s, DoOffer(s, now), v)
  {
    OfferKeeps(s, now);
    StuckThrough(s, DoOffer(s, now), v);
  }

  lemma TransitStuck(s: State, v: nat, e: Event)
    requires Stuck(s, v) && (e.Take? || e.Write? || e.Publish?)
    ensures Stuck(Apply(s, e), v) && SameViewer(s, Apply(s, e), v)
  {
    TransitPipe(s, e);
    StuckThrough(s, Apply(s, e), v);
  }

  lemma EndsStuck(s: State, v: nat, e: Event)
    requires Stuck(s, v) && (e.OfferTiles? || e.Stop?)
    ensures Stuck(Apply(s, e), v) && SameViewer(s, Apply(s, e), v)
  {
    if e.OfferTiles? {
      assert DoOfferTiles(s) != s ==> Pipe(DoOfferTiles(s)) == Pipe(s) + [Tiles];
    } else {
      assert Pipe(DoStop(s)) <= Pipe(s);
    }
    StuckThrough(s, Apply(s, e), v);
  }

  lemma BrokerStuck(s: State, v: nat, e: Event)
    requires Inv(s) && Stuck(s, v) && (e.TakeRequest? || e.WriteRequest? || e.ClearInFlight? || e.Subscribe? || e.Resubscribe?)
    ensures Stuck(Apply(s, e), v) && SameViewer(s, Apply(s, e), v)
  {
    var s' := Apply(s, e);
    assert Pipe(s') == Pipe(s);
    assert ViewerInv(Pipe(s), |s.log|, s.nextId, s.viewers[v]);
    StuckThrough(s, s', v);
  }

  lemma RecvStuck(s: State, v: nat, u: nat)
    requires Inv(s) && Stuck(s, v) && !Prompts(s, Recv(u))
    ensures Stuck(DoRecv(s, u), v) && SameViewer(s, DoRecv(s, u), v)
  {
    var s' := DoRecv(s, u);
    assert Pipe(s') == Pipe(s);
    if u == v && s' != s {
      var pos := s.viewers[v].pos;
      assert s.log <= Pipe(s);
      if pos < |s.log| {
        assert Pipe(s)[pos] == s.log[pos] && !KeyframeAt(Pipe(s), pos);
      }
    }
    StuckThrough(s, s', v);
  }

  lemma StepStuck(s: State, v: nat, e: Event)
    requires Inv(s) && Stuck(s, v) && !Prompts(s, e)
    ensures Stuck(Apply(s, e), v) && SameViewer(s, Apply(s, e), v)
  {
    match e {
      case Check(_, _) | Rate(_) | Force(_) => AdaptStuck(s, v, e);
      case EncodeOne(o) => EncodeStuck(s, v, o);
      case TryOffer(now) => OfferStuck(s, v, now);
      case Take | Write | Publish => TransitStuck(s, v, e);
      case OfferTiles | Stop => EndsStuck(s, v, e);
      case TakeRequest | WriteRequest(_) | ClearInFlight | Subscribe | Resubscribe(_) => BrokerStuck(s, v, e);
      case Recv(u) => RecvStuck(s, v, u);
      case Start(_, _, _, _) | Complain(_) =>
    }
  }

  /** Nothing that happens without a prompt gives the viewer a frame. */
  lemma {:induction false} StuckViewerGetsNothing(s: State, v: nat, events: seq<Event>)
    requires Inv(s) && Stuck(s, v) && Unprompted(s, events)
    ensures SameViewer(s, RunFrom(s, events), v)
    decreases |events|
  {
    if events != [] {
      StepStuck(s, v, events[0]);
      StepKeeps(s, events[0]);
      StuckViewerGetsNothing(Apply(s, events[0]), v, events[1..]);
    }
  }

  lemma NotComingIsStuck(s: State, v: nat)
    requires v < |s.viewers| && Waits(s.viewers[v]) && !Coming(s, s.viewers[v])
    ensures Stuck(s, v)
  {
  }

  // ---- a keyframe coming ----

  lemma WakesAfter(s: State, e: Event, v: nat)
    requires !Prompts(s, e) && SameViewer(s, Apply(s, e), v) && Wakes(Apply(s, e), v)
    ensures Wakes(s, v)
  {
    var rest :| Unprompted(Apply(s, e), rest) && Delivers(Apply(s, e), RunFrom(Apply(s, e), rest), v);
    var events := [e] + rest;
    assert events[1..] == rest;
    assert Unprompted(s, events) && RunFrom(s, events) == RunFrom(Apply(s, e), rest);
  }

  lemma WakesAtOnce(s: State, e: Event, v: nat)
    requires !Prompts(s, e) && Delivers(s, Apply(s, e), v)
    ensures Wakes(s, v)
  {
    var events := [e];
    assert events[1..] == [] && RunFrom(Apply(s, e), []) == Apply(s, e);
    assert Unprompted(Apply(s, e), []);
    assert Unprompted(s, events) && Delivers(s, RunFrom(s, events), v);
  }

  /** How far the path's frames are from a viewer at `pos`. */
  function Load(s: State, pos: nat): nat
    requires pos <= |s.log|
  {
    (|s.log| - pos) + 2 * |s.wire| + (if s.held.Some? then 3 else 0) + 4 * |s.queue| + 5 * |InHand(s.stream)|
  }

  /** The step that brings the oldest frame nearer, without letting the viewer lag. */
  function Move(s: State, v: nat): Event
    requires v < |s.viewers|
  {
    if s.viewers[v].pos < |s.log| then Recv(v)
    else if s.wire != [] then Publish
    else if s.held.Some? then Write
    else if s.queue != [] then Take
    else TryOffer(0)
  }

  /** The encoder is as it was, but for the frame it held. */
  predicate SameEncoder(s: State, s': State) {
    && s.stream.VideoStream? && s'.stream.VideoStream? && s'.stream.enc.codec == s.stream.enc.codec && s'.stream.control == s.stream.control
    && (s'.stream.phase == s.stream.phase || (s.stream.phase.Holding? && s'.stream.phase.Waiting?))
    && s'.unwritten == s.unwritten && s'.requests == s.requests
  }

  lemma ReadMoves(s: State, v: nat)
    requires Inv(s) && KeepsUp(s, v) && s.viewers[v].pos < |s.log|
    ensures !Prompts(s, Recv(v))
    ensures var s', pos := DoRecv(s, v), s.viewers[v].pos;
            && v < |s'.viewers| && s'.viewers[v].pos == pos + 1 && s' == s.(viewers := s'.viewers)
            && (if KeyframeAt(s.log, pos) then Delivers(s, s', v) else SameViewer(s, s', v) && KeepsUp(s', v))
  {
    assert ViewerInv(Pipe(s), |s.log|, s.nextId, s.viewers[v]);
  }

  /** One frame is one place nearer. */
  predicate Nearer(s: State, s': State) {
    && s'.viewers == s.viewers && Pipe(s') == Pipe(s) && SameEncoder(s, s') && |s.log| <= |s'.log| <= |s.log| + 1
    && Load(s', |s.log|) < Load(s, |s.log|)
  }

  lemma OfferMoves(s: State)
    requires Inv(s) && s.stream.VideoStream? && s.stream.phase.Holding?
    ensures Nearer(s, DoOffer(s, 0))
  {
    OfferKeeps(s, 0);
  }

  lemma TakeMoves(s: State)
    requires s.stream.VideoStream? && s.held.None? && s.queue != []
    ensures Nearer(s, DoTake(s))
  {
    TakePipe(s);
  }

  lemma WriteMoves(s: State)
    requires s.stream.VideoStream? && s.held.Some?
    ensures Nearer(s, DoWrite(s))
  {
    TransitPipe(s, Write);
  }

  lemma PublishMoves(s: State)
    requires s.stream.VideoStream? && s.wire != []
    ensures Nearer(s, DoPublish(s))
  {
    PublishPipe(s);
  }

  lemma TransportMoves(s: State, v: nat)
    requires Inv(s) && KeepsUp(s, v) && s.viewers[v].pos == |s.log| && Load(s, |s.log|) > 0 && s.stream.VideoStream?
    ensures !Prompts(s, Move(s, v)) && Nearer(s, Apply(s, Move(s, v)))
  {
    if s.wire != [] {
      PublishMoves(s);
    } else if s.held.Some? {
      WriteMoves(s);
    } else if s.queue != [] {
      TakeMoves(s);
    } else {
      OfferMoves(s);
    }
  }

  /** Either the viewer gets a keyframe, or all is as before with less in front of it. */
  predicate Moved(s: State, s': State, v: nat) {
    || Delivers(s, s', v)
    || (&& KeepsUp(s, v) && KeepsUp(s', v) && SameViewer(s, s', v) && SameEncoder(s, s') && Pipe(s') == Pipe(s)
        && s.viewers[v].pos <= s'.viewers[v].pos <= |s'.log| && s.viewers[v].pos <= |s.log|
        && Load(s', s'.viewers[v].pos) < Load(s, s.viewers[v].pos)
        && forall k | s.viewers[v].pos <= k < s'.viewers[v].pos :: !KeyframeAt(Pipe(s), k))
  }

  lemma ReadMoved(s: State, v: nat)
    requires Inv(s) && KeepsUp(s, v) && s.stream.VideoStream? && s.viewers[v].pos < |s.log|
    ensures !Prompts(s, Recv(v)) && Moved(s, DoRecv(s, v), v)
  {
    var pos := s.viewers[v].pos;
    ReadMoves(s, v);
    assert s.log[pos] == Pipe(s)[pos];
    assert Pipe(DoRecv(s, v)) == Pipe(s);
  }

  lemma NearerMoved(s: State, s': State, v: nat)
    requires KeepsUp(s, v) && s.viewers[v].pos == |s.log| && Nearer(s, s')
    ensures Moved(s, s', v)
  {
  }

  lemma MoveMoves(s: State, v: nat)
    requires Inv(s) && KeepsUp(s, v) && s.stream.VideoStream? && s.viewers[v].pos <= |s.log| && Load(s, s.viewers[v].pos) > 0
    ensures !Prompts(s, Move(s, v)) && Moved(s, Apply(s, Move(s, v)), v)
  {
    if s.viewers[v].pos < |s.log| {
      ReadMoved(s, v);
    } else {
      TransportMoves(s, v);
      NearerMoved(s, Apply(s, Move(s, v)), v);
    }
  }

  lemma SomethingToMove(s: State, pos: nat, k: nat)
    requires pos <= |s.log| && pos <= k && KeyframeAt(Pipe(s), k)
    ensures Load(s, pos) > 0
  {
  }

  lemma PosIsPublished(s: State, v: nat)
    requires Inv(s) && v < |s.viewers|
    ensures s.viewers[v].pos <= |s.log|
  {
    assert ViewerInv(Pipe(s), |s.log|, s.nextId, s.viewers[v]);
  }

  /** A keyframe ahead of the viewer on the path can be brought to it. */
  lemma {:induction false} PathWakes(s: State, v: nat, k: nat)
    requires Inv(s) && KeepsUp(s, v) && s.stream.VideoStream? && s.viewers[v].pos <= |s.log|
    requires s.viewers[v].pos <= k && KeyframeAt(Pipe(s), k)
    ensures Wakes(s, v)
    decreases Load(s, s.viewers[v].pos)
  {
    var e := Move(s, v);
    var s' := Apply(s, e);
    SomethingToMove(s, s.viewers[v].pos, k);
    MoveMoves(s, v);
    if Delivers(s, s', v) {
      WakesAtOnce(s, e, v);
    } else {
      StepKeeps(s, e);
      PathWakes(s', v, k);
      WakesAfter(s, e, v);
    }
  }

  // ---- a keyframe owed ----

  /** Captures until the encoder puts out the keyframe it owes. */
  function Rank(stream: Stream): nat
    requires stream.VideoStream?
  {
    match stream.phase
    case Waiting => 4
    case Checked(_, _) => 3
    case Rated(_) => 2
    case Ready(_) => if StartsIntra(stream.enc.codec) then 1 else 6
    case Holding(_) => 5
  }

  function Dark(n: nat): seq<byte> {
    seq(n, _ => 0)
  }

  function Ordinary(enc: Encoder): Oracle {
    Oracle(if enc.lastForced.Some? then enc.lastForced.value + MIN_KEYFRAME_GAP else 0, false, Coded(false), 0, 0, false)
  }

  /** The capture thread's next step, with an ordinary output. */
  function NextCapture(stream: Stream): Event
    requires stream.VideoStream?
  {
    match stream.phase
    case Waiting => Check(Dark(I420Len(stream.enc.w, stream.enc.h)), false)
    case Checked(_, _) => Rate(Ordinary(stream.enc))
    case Rated(_) => Force(Ordinary(stream.enc))
    case Ready(_) => EncodeOne(Ordinary(stream.enc))
    case Holding(_) => TryOffer(0)
  }

  /** The keyframe is out, or one step nearer. */
  predicate Captures(s: State, s': State) {
    && s.stream.VideoStream? && s'.stream.VideoStream? && s'.viewers == s.viewers && s'.log == s.log
    && (KeyframeAt(Pipe(s'), |Pipe(s)|)
        || (StreamOwesKeyframe(s'.stream) && Rank(s'.stream) < Rank(s.stream)))
  }

  lemma CheckGoesOn(s: State)
    requires s.stream.VideoStream? && StreamOwesKeyframe(s.stream) && s.stream.phase.Waiting? && |s.queue| < QUEUE_SLOTS
    ensures Captures(s, Apply(s, NextCapture(s.stream)))
  {
  }

  lemma RateGoesOn(s: State)
    requires s.stream.VideoStream? && StreamOwesKeyframe(s.stream) && s.stream.phase.Checked?
    ensures !Prompts(s, NextCapture(s.stream)) && Captures(s, Apply(s, NextCapture(s.stream)))
  {
  }

  lemma ForceGoesOn(s: State)
    requires s.stream.VideoStream? && StreamOwesKeyframe(s.stream) && s.stream.phase.Rated?
    ensures Captures(s, Apply(s, NextCapture(s.stream)))
  {
  }

  lemma EncodeGoesOn(s: State)
    requires s.stream.VideoStream? && StreamOwesKeyframe(s.stream) && s.stream.phase.Ready?
    ensures Captures(s, Apply(s, NextCapture(s.stream)))
  {
    var s' := Apply(s, NextCapture(s.stream));
    assert Pipe(s') == Pipe(s) + [Video(s'.stream.phase.frame)];
  }

  lemma CaptureGoesOn(s: State)
    requires Inv(s) && s.stream.VideoStream? && StreamOwesKeyframe(s.stream) && (s.stream.phase.Waiting? ==> |s.queue| < QUEUE_SLOTS)
    ensures !Prompts(s, NextCapture(s.stream)) && Captures(s, Apply(s, NextCapture(s.stream)))
  {
    match s.stream.phase
    case Waiting => CheckGoesOn(s);
    case Checked(_, _) => RateGoesOn(s);
    case Rated(_) => ForceGoesOn(s);
    case Ready(_) => EncodeGoesOn(s);
    case Holding(_) => OfferKeeps(s, 0);
  }

  /** A keyframe that the encoder owes can be captured and brought to the viewer. */
  lemma {:induction false} OwedWakes(s: State, v: nat)
    requires Inv(s) && KeepsUp(s, v) && s.stream.VideoStream? && StreamOwesKeyframe(s.stream) && s.viewers[v].pos <= |s.log|
    ensures Wakes(s, v)
    decreases Rank(s.stream), Load(s, s.viewers[v].pos)
  {
    if s.stream.phase.Waiting? && |s.queue| >= QUEUE_SLOTS {
      var e := Move(s, v);
      var s' := Apply(s, e);
      MoveMoves(s, v);
      if Delivers(s, s', v) {
        WakesAtOnce(s, e, v);
      } else {
        StepKeeps(s, e);
        OwedWakes(s', v);
        WakesAfter(s, e, v);
      }
    } else {
      var e := NextCapture(s.stream);
      var s' := Apply(s, e);
      CaptureGoesOn(s);
      StepKeeps(s, e);
      if KeyframeAt(Pipe(s'), |Pipe(s)|) {
        PathWakes(s', v, |Pipe(s)|);
      } else {
        OwedWakes(s', v);
      }
      WakesAfter(s, e, v);
    }
  }

  lemma RequestedWakes(s: State, v: nat)
    requires Inv(s) && KeepsUp(s, v) && s.stream.VideoStream? && s.requests != []
    ensures Wakes(s, v)
  {
    PosIsPublished(s, v);
    StepKeeps(s, TakeRequest);
    OwedWakes(DoTakeRequest(s), v);
    WakesAfter(s, TakeRequest, v);
  }

  lemma UnwrittenWakes(s: State, v: nat)
    requires Inv(s) && KeepsUp(s, v) && s.stream.VideoStream? && s.unwritten > 0
    ensures Wakes(s, v)
  {
    StepKeeps(s, WriteRequest(false));
    RequestedWakes(DoWriteRequest(s, false), v);
    WakesAfter(s, WriteRequest(false), v);
  }

  lemma ComingWakes(s: State, v: nat)
    requires Inv(s) && KeepsUp(s, v) && s.stream.VideoStream? && Coming(s, s.viewers[v])
    ensures Wakes(s, v)
  {
    PosIsPublished(s, v);
    if k :| s.viewers[v].pos <= k && KeyframeAt(Pipe(s), k) {
      PathWakes(s, v, k);
    } else if StreamOwesKeyframe(s.stream) {
      OwedWakes(s, v);
    } else if s.unwritten > 0 {
      UnwrittenWakes(s, v);
    } else {
      RequestedWakes(s, v);
    }
  }

  lemma WakesExactly(s: State, v: nat)
    requires Inv(s) && KeepsUp(s, v) && s.stream.VideoStream?
    ensures Wakes(s, v) <==> Coming(s, s.viewers[v])
  {
    if Coming(s, s.viewers[v]) {
      ComingWakes(s, v);
    } else {
      NotComingIsStuck(s, v);
      forall events | Unprompted(s, events)
        ensures !Delivers(s, RunFrom(s, events), v)
      {
        StuckViewerGetsNothing(s, v, events);
      }
    }
  }

  /** In every run of a video stream: a waiting viewer that keeps up can get a keyframe with
      nothing new asked for or going wrong exactly when one is coming. */
  lemma ViewerIsWokenExactly(events: seq<Event>, v: nat)
    requires KeepsUp(RunFrom(Init, events), v) && RunFrom(Init, events).stream.VideoStream?
    ensures Wakes(RunFrom(Init, events), v) <==> Coming(RunFrom(Init, events), RunFrom(Init, events).viewers[v])
  {
    RunKeeps(Init, events);
    WakesExactly(RunFrom(Init, events), v);
  }

  lemma AskerKeepsUp(s: State, v: nat)
    requires Inv(s) && Asks(s, v)
    ensures KeepsUp(DoRecv(s, v), v) && DoRecv(s, v).stream == s.stream
  {
    AskedExactly(s, v);
  }

  lemma AskWakesExactly(s: State, v: nat)
    requires Inv(s) && Asks(s, v) && s.stream.VideoStream?
    ensures Wakes(DoRecv(s, v), v) <==> !Swallows(s) || Hopeful(s, NextReceived(s.log, s.viewers[v].pos).1)
  {
    AskerKeepsUp(s, v);
    AskedExactly(s, v);
    RecvKeeps(s, v);
    WakesExactly(DoRecv(s, v), v);
  }

  /** In every run of a video stream, a viewer whose turn makes a keyframe request can then be
      woken exactly when the request is not merged into one already written, or a keyframe
      would have come without it. */
  lemma RequestWakesExactly(events: seq<Event>, v: nat)
    requires Asks(RunFrom(Init, events), v) && RunFrom(Init, events).stream.VideoStream?
    ensures var s := RunFrom(Init, events);
            Wakes(DoRecv(s, v), v) <==> !Swallows(s) || Hopeful(s, NextReceived(s.log, s.viewers[v].pos).1)
  {
    RunKeeps(Init, events);
    AskWakesExactly(RunFrom(Init, events), v);
  }

  /** The negative instance: a reachable viewer that waits for good. */
  lemma StrandedViewerIsNotWoken()
    ensures exists events ::
              var s := RunFrom(Init, events);
              Asks(s, 0) && s.stream.VideoStream? && Waits(DoRecv(s, 0).viewers[0]) && !Wakes(DoRecv(s, 0), 0)
  {
    var s := AnswerIsOverwritten();
    var events :| RunFrom(Init, events) == s;
    RunKeeps(Init, events);
    AskedExactly(s, 0);
    RequestWakesExactly(events, 0);
  }

  lemma ComplaintComesExactly(s: State, v: nat)
    requires v < |s.viewers| && s.viewers[v].gate.video
    ensures Coming(DoComplain(s, v), s.viewers[v]) <==> Coming(s, s.viewers[v]) || !Swallows(s)
    ensures DoComplain(s, v).viewers == s.viewers && DoComplain(s, v).stream == s.stream && DoComplain(s, v).log == s.log
  {
    assert Pipe(DoComplain(s, v)) == Pipe(s);
  }

  /** In every run of a video stream, a waiting viewer that keeps up and reports that it could
      not decode a frame can then be woken exactly when it could be before, or the request is
      not merged into one already written. */
  lemma ComplaintWakesExactly(events: seq<Event>, v: nat)
    requires KeepsUp(RunFrom(Init, events), v) && RunFrom(Init, events).stream.VideoStream? && RunFrom(Init, events).viewers[v].gate.video
    ensures var s := RunFrom(Init, events);
            Wakes(DoComplain(s, v), v) <==> Wakes(s, v) || !Swallows(s)
  {
    var s := RunFrom(Init, events);
    RunKeeps(Init, events);
    StepKeeps(s, Complain(v));
    ComplaintComesExactly(s, v);
    WakesExactly(s, v);
    WakesExactly(DoComplain(s, v), v);
  }
}
