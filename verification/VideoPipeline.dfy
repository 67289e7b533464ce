/**
  From encoder output to viewer: the capture thread, its two-slot queue, the worker's
  forwarder, the local socket, the broker's lossy four-slot broadcast and the keyframe
  gate of each viewer (h264.rs, worker.rs, broker.rs of rivetlink-agent).

  Every atomic action of every task is an `Event`; a run is any sequence of events, so
  every interleaving is covered. An event that cannot happen in a state changes nothing.
 */
module VideoPipeline {
  import opened Common
  import opened H264

  const QUEUE_SLOTS := 2
  const BROADCAST_SLOTS := 4

  // ---- the keyframe gate of one `ConsoleDesktopStream` ----

  datatype Gate = Gate(video: bool, awaiting: bool, requested: bool, lagged: bool)

  const FreshGate := Gate(false, true, false, false)

  datatype Received = Frame(frame: StreamFrame) | Lagged

  /** What one turn of the loop in `next` does: the frame it returns, if any, and the
      keyframe request it makes, if any, with its congestion mark. */
  datatype Turn = Turn(gate: Gate, out: Option<StreamFrame>, ask: Option<bool>)

  function Receive(g: Gate, r: Received): Turn {
    match r
    case Frame(Tiles) => Turn(g, Some(Tiles), None)
    case Frame(Video(f)) =>
      if f.Keyframe() then Turn(g.(video := true, awaiting := false, requested := false), Some(r.frame), None)
      else if g.awaiting then
        if g.requested then Turn(g.(video := true), None, None)
        else Turn(g.(video := true, requested := true, lagged := false), None, Some(g.lagged))
      else Turn(g.(video := true), Some(r.frame), None)
    case Lagged =>
      if g.video then Turn(g.(awaiting := true, requested := true), None, Some(true))
      else Turn(g.(awaiting := true, requested := false, lagged := true), None, None)
  }

  /** A viewer known to get video that waits for a keyframe has asked for one, and one not
      known to get video has never asked (an old worker would drop the connection). */
  predicate GateSound(g: Gate) {
    && (g.video && g.awaiting ==> g.requested)
    && (g.requested ==> g.video)
  }

  /** `next` over the receptions `script`: turns until one returns a frame. `out` is empty
      when it would still be waiting. */
  datatype NextResult = NextResult(gate: Gate, out: Option<StreamFrame>, asks: seq<bool>, used: nat)

  function Next(g: Gate, script: seq<Received>): NextResult
    decreases |script|
  {
    if script == [] then NextResult(g, None, [], 0)
    else
      var t := Receive(g, script[0]);
      var ask := if t.ask.Some? then [t.ask.value] else [];
      if t.out.Some? then NextResult(t.gate, t.out, ask, 1)
      else
        var rest := Next(t.gate, script[1..]);
        NextResult(rest.gate, rest.out, ask + rest.asks, 1 + rest.used)
  }

  /** `next` returns the first frame it may: everything it passed over was a delta without
      its reference or a lag, and a delta is returned only when it was not waiting. */
  lemma {:induction false} NextSkipsOnlyDeltas(g: Gate, script: seq<Received>)
    requires GateSound(g)
    ensures var r := Next(g, script);
            && GateSound(r.gate) && r.used <= |script|
            && (r.out.Some? ==> r.used > 0 && script[r.used - 1] == Frame(r.out.value))
            && (r.out.None? ==> r.used == |script|)
            && (forall i | 0 <= i < r.used && (r.out.Some? ==> i < r.used - 1) ::
                  script[i].Frame? ==> script[i].frame.Delta())
            && (r.out.Some? && r.out.value.Delta() ==> !g.awaiting && r.used == 1)
    decreases |script|
  {
    if script != [] && Receive(g, script[0]).out.None? {
      NextSkipsOnlyDeltas(Receive(g, script[0]).gate, script[1..]);
    }
  }

  /** `next` owes its caller the reception at place `i`: a frame that needs no reference, or
      whatever frame comes first when it was not waiting. */
  predicate Due(g: Gate, script: seq<Received>, i: nat) {
    i < |script| && script[i].Frame? && (!script[i].frame.Delta() || (i == 0 && !g.awaiting))
  }

  /** `next` withholds nothing else: it returns the first frame that is due, if there is one,
      and when the very first one is, it asks for nothing. */
  lemma {:induction false} NextReturnsFirstDue(g: Gate, script: seq<Received>)
    ensures var r := Next(g, script);
            && r.used <= |script|
            && (r.out.Some? ==> r.used > 0 && Due(g, script, r.used - 1) && script[r.used - 1] == Frame(r.out.value))
            && (forall i | 0 <= i < (if r.out.Some? then r.used - 1 else |script|) :: !Due(g, script, i))
            && (Due(g, script, 0) ==> r.used == 1 && r.out == Some(script[0].frame) && r.asks == [])
    decreases |script|
  {
    if script != [] && Receive(g, script[0]).out.None? {
      var next, rest := Receive(g, script[0]).gate, script[1..];
      NextReturnsFirstDue(next, rest);
      assert next.awaiting;
      forall i | 0 < i < |script|
        ensures Due(g, script, i) == Due(next, rest, i - 1)
      {
        assert script[i] == rest[i - 1];
      }
    }
  }

  /** A result of `next` with earlier turns put in front. */
  function After(asks: seq<bool>, used: nat, rest: NextResult): NextResult {
    NextResult(rest.gate, rest.out, asks + rest.asks, used + rest.used)
  }

  class ConsoleDesktopStream {
    var video: bool
    var awaitingKeyframe: bool
    var keyframeRequested: bool
    var lagged: bool

    constructor ()
      ensures View() == FreshGate
    {
      video, awaitingKeyframe, keyframeRequested, lagged := false, true, false, false;
    }

    ghost function View(): Gate
      reads this
    {
      Gate(video, awaitingKeyframe, keyframeRequested, lagged)
    }

    /** One turn of the loop in `next`. */
    method OnReceived(received: Received) returns (out: Option<StreamFrame>, ask: Option<bool>)
      modifies this
      ensures Turn(View(), out, ask) == Receive(old(View()), received)
    {
      out, ask := None, None;
      match received {
        case Frame(Tiles) =>
          out := Some(Tiles);
        case Frame(Video(frame)) =>
          video := true;
          if frame.Keyframe() {
            awaitingKeyframe, keyframeRequested := false, false;
          } else if awaitingKeyframe {
            if !keyframeRequested {
              ask := Some(lagged);
              lagged, keyframeRequested := false, true;
            }
            return;
          }
          out := Some(Video(frame));
        case Lagged =>
          awaitingKeyframe := true;
          if video {
            ask := Some(true);
            keyframeRequested := true;
          } else {
            keyframeRequested, lagged := false, true;
          }
      }
    }

    method NextFrame(script: seq<Received>) returns (out: Option<StreamFrame>, asks: seq<bool>, used: nat)
      modifies this
      ensures NextResult(View(), out, asks, used) == Next(old(View()), script)
    {
      out, asks, used := None, [], 0;
      while used < |script| && out.None?
        invariant used <= |script|
        invariant out.None? ==> Next(old(View()), script) == After(asks, used, Next(View(), script[used..]))
        invariant out.Some? ==> Next(old(View()), script) == NextResult(View(), out, asks, used)
      {
        var ask;
        assert script[used..][0] == script[used] && script[used..][1..] == script[used + 1..];
        out, ask := OnReceived(script[used]);
        used := used + 1;
        if ask.Some? {
          asks := asks + [ask.value];
        }
      }
    }
  }

  // ---- the whole path ----

  /** The capture thread, one atomic access of shared state at a time. */
  datatype Phase =
    | Waiting
    | Checked(data: seq<byte>, captured: bool)
    | Rated(data: seq<byte>)
    | Ready(data: seq<byte>)
    | Holding(frame: VideoFrame)

  datatype Stream =
    | NoStream
    | TileStream
    | VideoStream(enc: Encoder, control: Control, phase: Phase)

  /** One viewer. `swallowed` records that its open keyframe request was merged into one
      that had already been written to the worker. */
  datatype Viewer = Viewer(pos: nat, gate: Gate, delivered: seq<VideoFrame>, swallowed: bool)

  datatype State = State(
    stream: Stream,
    queue: seq<StreamFrame>,
    held: Option<StreamFrame>,
    wire: seq<StreamFrame>,
    log: seq<StreamFrame>,
    viewers: seq<Viewer>,
    nextId: nat,
    inFlight: bool,
    unwritten: nat,
    written: nat,
    requests: seq<bool>)

  const Init := State(NoStream, [], None, [], [], [], 0, false, 0, 0, [])

  datatype Event =
    // worker and capture thread
    | Start(h264: bool, w: nat, h: nat, now: int)
    | Check(data: seq<byte>, captured: bool)
    | Rate(o: Oracle)
    | Force(o: Oracle)
    | EncodeOne(o: Oracle)
    | TryOffer(now: int)
    | OfferTiles
    | Take
    | Write
    | Stop
    | TakeRequest
    // broker
    | Publish
    | Subscribe
    | Resubscribe(v: nat)
    | Recv(v: nat)
    | Complain(v: nat)
    | WriteRequest(congested: bool)
    | ClearInFlight

  // Each step is its own function, so that each proof sees one step.

  /** The worker runs one stream at a time. A size the video encoder refuses is streamed
      as tiles. */
  function DoStart(s: State, h264: bool, w: nat, h: nat, now: int): State {
    if !s.stream.NoStream? then s
    else
      var encoder := NewEncoder(w, h, now);
      s.(stream := if h264 && encoder.Some?
                   then VideoStream(encoder.value, Control(false, false), Waiting)
                   else TileStream)
  }

  function DoCheck(s: State, data: seq<byte>, captured: bool): State {
    match s.stream
    case VideoStream(e, c, Waiting) =>
      if |data| != I420Len(e.w, e.h) then s
      else if |s.queue| >= QUEUE_SLOTS then
        s.(stream := VideoStream(HoldBack(e, data), c.(congested := true), Waiting))
      else s.(stream := VideoStream(e, c, Checked(data, captured)))
    case _ => s
  }

  function DoRate(s: State, o: Oracle): State {
    match s.stream
    case VideoStream(e, c, Checked(data, captured)) =>
      var (e', c') := AdaptRate(e, c, captured, o);
      s.(stream := VideoStream(e', c', Rated(data)))
    case _ => s
  }

  function DoForce(s: State, o: Oracle): State {
    match s.stream
    case VideoStream(e, c, Rated(data)) =>
      var (e', c') := AdaptKeyframe(e, c, o);
      s.(stream := VideoStream(e', c', Ready(data)))
    case _ => s
  }

  function DoEncode(s: State, o: Oracle): State {
    match s.stream
    case VideoStream(e, c, Ready(data)) =>
      var (e', c', f) := Encode(e, c, data, o.(id := s.nextId));
      if f.None? then s.(stream := VideoStream(e', c', Waiting))
      else s.(stream := VideoStream(e', c', Holding(f.value)), nextId := s.nextId + 1)
    case _ => s
  }

  function DoOffer(s: State, now: int): State {
    match s.stream
    case VideoStream(e, c, Holding(f)) =>
      var r := Offer(e, c, Queue(s.queue, QUEUE_SLOTS, false), f, now);
      s.(stream := VideoStream(r.e, r.c, Waiting), queue := r.q.frames)
    case _ => s
  }

  function DoOfferTiles(s: State): State {
    if s.stream.TileStream? && |s.queue| < QUEUE_SLOTS then s.(queue := s.queue + [Tiles]) else s
  }

  function DoTake(s: State): State {
    if s.held.None? && s.queue != [] then s.(held := Some(s.queue[0]), queue := s.queue[1..]) else s
  }

  function DoWrite(s: State): State {
    if s.held.Some? then s.(held := None, wire := s.wire + [s.held.value]) else s
  }

  /** The forwarder returns, on a stop request or when the capture ended; only between
      packets. What is still queued is dropped with the queue. */
  function DoStop(s: State): State {
    if s.held.None? then s.(stream := NoStream, queue := []) else s
  }

  function DoTakeRequest(s: State): State {
    if s.requests == [] then s
    else
      var s1 := s.(requests := s.requests[1..]);
      match s.stream
      case VideoStream(e, c, phase) =>
        s1.(stream := VideoStream(e, Control(true, c.congested || s.requests[0]), phase))
      case _ => s1
  }

  function DoPublish(s: State): State {
    if s.wire != [] then s.(log := s.log + [s.wire[0]], wire := s.wire[1..]) else s
  }

  function DoSubscribe(s: State): State {
    s.(viewers := s.viewers + [Viewer(|s.log|, FreshGate, [], false)], inFlight := false)
  }

  /** A display switch: the same viewer continues on a new subscription. */
  function DoResubscribe(s: State, v: nat): State {
    if v < |s.viewers| then
      s.(viewers := s.viewers[v := Viewer(|s.log|, FreshGate, s.viewers[v].delivered, false)], inFlight := false)
    else s
  }

  function NextReceived(log: seq<StreamFrame>, pos: nat): (Option<Received>, nat) {
    if pos + BROADCAST_SLOTS < |log| then (Some(Lagged), |log| - BROADCAST_SLOTS)
    else if pos < |log| then (Some(Frame(log[pos])), pos + 1)
    else (None, pos)
  }

  /** A request made while the flag is up is merged; it is swallowed when nothing is left
      to be written. */
  predicate Swallows(s: State) {
    s.inFlight && s.unwritten == 0
  }

  function AfterTurn(v: Viewer, pos: nat, t: Turn, swallowed: bool): Viewer {
    var out := if t.out.Some? && t.out.value.Video? then [t.out.value.frame] else [];
    Viewer(pos, t.gate, v.delivered + out, swallowed)
  }

  function DoRecv(s: State, v: nat): State {
    if v >= |s.viewers| then s
    else
      var viewer := s.viewers[v];
      var (r, pos) := NextReceived(s.log, viewer.pos);
      if r.None? then s
      else
        var t := Receive(viewer.gate, r.value);
        var swallowed := if t.ask.Some? then Swallows(s) else viewer.swallowed && t.gate.awaiting;
        var s1 := s.(viewers := s.viewers[v := AfterTurn(viewer, pos, t, swallowed)]);
        if t.ask.Some? then Ask(s1) else s1
  }

  /** `ConsoleWorkerClient::request_keyframe`: at most one request waits to be written. */
  function Ask(s: State): State {
    if s.inFlight then s else s.(inFlight := true, unwritten := s.unwritten + 1)
  }

  /** The viewer reports that it could not decode a frame. */
  function DoComplain(s: State, v: nat): State {
    if v < |s.viewers| && s.viewers[v].gate.video then Ask(s) else s
  }

  function DoWriteRequest(s: State, congested: bool): State {
    if s.unwritten > 0
    then s.(unwritten := s.unwritten - 1, written := s.written + 1, requests := s.requests + [congested])
    else s
  }

  function DoClearInFlight(s: State): State {
    if s.written > 0 then s.(written := s.written - 1, inFlight := false) else s
  }

  function Apply(s: State, e: Event): State {
    match e
    case Start(h264, w, h, now) => DoStart(s, h264, w, h, now)
    case Check(data, captured) => DoCheck(s, data, captured)
    case Rate(o) => DoRate(s, o)
    case Force(o) => DoForce(s, o)
    case EncodeOne(o) => DoEncode(s, o)
    case TryOffer(now) => DoOffer(s, now)
    case OfferTiles => DoOfferTiles(s)
    case Take => DoTake(s)
    case Write => DoWrite(s)
    case Stop => DoStop(s)
    case TakeRequest => DoTakeRequest(s)
    case Publish => DoPublish(s)
    case Subscribe => DoSubscribe(s)
    case Resubscribe(v) => DoResubscribe(s, v)
    case Recv(v) => DoRecv(s, v)
    case Complain(v) => DoComplain(s, v)
    case WriteRequest(congested) => DoWriteRequest(s, congested)
    case ClearInFlight => DoClearInFlight(s)
  }

  function RunFrom(s: State, events: seq<Event>): State
    decreases |events|
  {
    if events == [] then s else RunFrom(Apply(s, events[0]), events[1..])
  }

  // ---- what every run keeps ----

  /** The frame the capture thread has encoded but not queued yet. */
  function InHand(stream: Stream): seq<StreamFrame> {
    if stream.VideoStream? && stream.phase.Holding? then [Video(stream.phase.frame)] else []
  }

  /** The frames between encoder and viewers, oldest first. */
  function Pipe(s: State): seq<StreamFrame> {
    s.log + s.wire + (if s.held.Some? then [s.held.value] else []) + s.queue + InHand(s.stream)
  }

  /** Output ids rise along the path and stay below `bound`. */
  predicate Rising(p: seq<StreamFrame>, bound: nat) {
    && (forall i | 0 <= i < |p| && p[i].Video? :: p[i].frame.id < bound)
    && (forall i, j | 0 <= i < j < |p| && p[i].Video? && p[j].Video? :: p[i].frame.id < p[j].frame.id)
  }

  predicate PathInv(s: State) {
    && |s.queue| <= QUEUE_SLOTS
    && (s.stream.NoStream? ==> s.queue == [] && s.held.None?)
    && Chain(Pipe(s))
    && Rising(Pipe(s), s.nextId)
    && (s.stream.VideoStream? ==>
          && Bounded(s.stream.enc)
          && (!s.stream.phase.Waiting? ==> |s.queue| < QUEUE_SLOTS)
          && Synced(s.stream.enc.codec, Pipe(s)))
  }

  /** The stream a decoder can play from its first frame on: it starts with a keyframe,
      every delta directly follows its reference, and no output comes twice. */
  predicate Decodable(d: seq<VideoFrame>) {
    && (forall i | 0 <= i < |d| && !d[i].Keyframe() :: i > 0 && d[i - 1].id == d[i].base.value)
    && (forall i, j | 0 <= i < j < |d| :: d[i].id < d[j].id)
  }

  predicate ViewerInv(p: seq<StreamFrame>, published: nat, nextId: nat, v: Viewer)
    requires published <= |p|
  {
    && v.pos <= published
    && GateSound(v.gate)
    && Decodable(v.delivered)
    && (v.delivered != [] ==>
          && Last(v.delivered).id < nextId
          && forall k | v.pos <= k < |p| && p[k].Video? :: Last(v.delivered).id < p[k].frame.id)
    && (!v.gate.awaiting && v.pos > 0 && p[v.pos - 1].Video? ==>
          v.delivered != [] && Last(v.delivered) == p[v.pos - 1].frame)
  }

  predicate Inv(s: State) {
    && PathInv(s)
    && forall i | 0 <= i < |s.viewers| :: ViewerInv(Pipe(s), |s.log|, s.nextId, s.viewers[i])
  }

  /** A viewer only looks at published frames; the path behind them may be cut off or
      grow by new outputs. */
  lemma ViewersUnaffected(s: State, s': State)
    requires Inv(s) && PathInv(s')
    requires s'.viewers == s.viewers && |s.log| <= |s'.log| && s.nextId <= s'.nextId
    requires |s.log| <= |Pipe(s')|
    requires Pipe(s') <= Pipe(s) || (Pipe(s) <= Pipe(s') && forall k | |Pipe(s)| <= k < |Pipe(s')| && Pipe(s')[k].Video? :: s.nextId <= Pipe(s')[k].frame.id)
    ensures Inv(s')
  {
    forall i | 0 <= i < |s'.viewers| ensures ViewerInv(Pipe(s'), |s'.log|, s'.nextId, s'.viewers[i]) {
      assert ViewerInv(Pipe(s), |s.log|, s.nextId, s.viewers[i]);
    }
  }

  /** A change of encoder or flags that leaves the path alone. */
  lemma SamePath(s: State, s': State)
    requires Inv(s)
    requires s'.viewers == s.viewers && s'.log == s.log && s'.wire == s.wire && s'.held == s.held
    requires s'.queue == s.queue && s'.nextId == s.nextId
    requires InHand(s'.stream) == InHand(s.stream)
    requires s'.stream.NoStream? ==> s.stream.NoStream?
    requires s'.stream.VideoStream? ==>
               && Bounded(s'.stream.enc) && Synced(s'.stream.enc.codec, Pipe(s))
               && (!s'.stream.phase.Waiting? ==> |s.queue| < QUEUE_SLOTS)
    ensures Inv(s') && Pipe(s') == Pipe(s)
  {
    assert Pipe(s') == Pipe(s);
    ViewersUnaffected(s, s');
  }

  lemma RateKeeps(s: State, o: Oracle)
    requires Inv(s)
    ensures Inv(DoRate(s, o))
  {
    var s' := DoRate(s, o);
    if s' != s {
      AdaptKeeps(s.stream.enc, s.stream.control, s.stream.phase.captured, o, Pipe(s));
    }
    SamePath(s, s');
  }

  lemma ForceKeeps(s: State, o: Oracle)
    requires Inv(s)
    ensures Inv(DoForce(s, o))
  {
    SamePath(s, DoForce(s, o));
  }

  lemma SignalsKeep(s: State, e: Event)
    requires Inv(s)
    requires e.Start? || e.Check? || e.TakeRequest? || e.WriteRequest? || e.ClearInFlight? || e.Complain?
    ensures Inv(Apply(s, e))
  {
    SamePath(s, Apply(s, e));
  }

  lemma EncodePath(s: State, o: Oracle)
    requires PathInv(s)
    ensures var s' := DoEncode(s, o);
            && PathInv(s') && s'.viewers == s.viewers && s'.log == s.log
            && if s'.nextId == s.nextId then Pipe(s') == Pipe(s)
               else s'.nextId == s.nextId + 1 && |Pipe(s')| == |Pipe(s)| + 1 && Pipe(s) <= Pipe(s')
                    && Last(Pipe(s')).Video? && Last(Pipe(s')).frame.id == s.nextId
  {
    var s' := DoEncode(s, o);
    if s'.nextId > s.nextId {
      var f := Video(s'.stream.phase.frame);
      assert Pipe(s') == Pipe(s) + [f];
      ChainAppend(Pipe(s), f);
    } else {
      assert Pipe(s') == Pipe(s);
    }
  }

  lemma EncodeKeeps(s: State, o: Oracle)
    requires Inv(s)
    ensures Inv(DoEncode(s, o))
  {
    EncodePath(s, o);
    ViewersUnaffected(s, DoEncode(s, o));
  }

  /** The queue has room for an encoded frame although other tasks ran since room was
      checked: the capture thread is its only producer. So the recovery branch for a full
      queue is never taken and an encoded frame always reaches the queue. */
  lemma OfferKeeps(s: State, now: int)
    requires Inv(s)
    ensures Inv(DoOffer(s, now)) && Pipe(DoOffer(s, now)) == Pipe(s)
    ensures s.stream.VideoStream? && s.stream.phase.Holding? ==>
              DoOffer(s, now).queue == s.queue + [Video(s.stream.phase.frame)]
  {
    var s' := DoOffer(s, now);
    assert Pipe(s') == Pipe(s);
    ViewersUnaffected(s, s');
  }

  lemma TakePipe(s: State)
    ensures Pipe(DoTake(s)) == Pipe(s)
  {
    assert s.queue != [] ==> [s.queue[0]] + s.queue[1..] == s.queue;
  }

  lemma PublishPipe(s: State)
    ensures Pipe(DoPublish(s)) == Pipe(s)
  {
    assert s.wire != [] ==> [s.wire[0]] + s.wire[1..] == s.wire;
  }

  /** The forwarder and the broker's reader only move frames along. */
  lemma TransitPipe(s: State, e: Event)
    requires e.Take? || e.Write? || e.Publish?
    ensures Pipe(Apply(s, e)) == Pipe(s)
  {
    match e
    case Take => TakePipe(s);
    case Publish => PublishPipe(s);
    case Write =>
  }

  lemma TransitKeeps(s: State, e: Event)
    requires Inv(s)
    requires e.Take? || e.Write? || e.Publish?
    ensures Inv(Apply(s, e))
  {
    TransitPipe(s, e);
    var s' := Apply(s, e);
    assert PathInv(s');
    forall i | 0 <= i < |s'.viewers| ensures ViewerInv(Pipe(s'), |s'.log|, s'.nextId, s'.viewers[i]) {
      assert ViewerInv(Pipe(s), |s.log|, s.nextId, s.viewers[i]);
    }
  }

  lemma OfferTilesKeeps(s: State)
    requires Inv(s)
    ensures Inv(DoOfferTiles(s))
  {
    var s' := DoOfferTiles(s);
    if s' != s {
      assert Pipe(s') == Pipe(s) + [Tiles];
      ChainAppend(Pipe(s), Tiles);
    }
    ViewersUnaffected(s, s');
  }

  lemma StopKeeps(s: State)
    requires Inv(s)
    ensures Inv(DoStop(s))
  {
    var s' := DoStop(s);
    assert Pipe(s') <= Pipe(s);
    ViewersUnaffected(s, s');
  }

  lemma SubscribeKeeps(s: State, e: Event)
    requires Inv(s)
    requires e.Subscribe? || e.Resubscribe?
    ensures Inv(Apply(s, e))
  {
    var s' := Apply(s, e);
    assert Pipe(s') == Pipe(s);
  }

  /** The heart of the gate: whatever it returns extends a decodable stream. */
  lemma ReceiveKeepsViewer(p: seq<StreamFrame>, log: seq<StreamFrame>, nextId: nat, v: Viewer, after: Viewer)
    requires Chain(p) && Rising(p, nextId) && log <= p
    requires ViewerInv(p, |log|, nextId, v)
    requires NextReceived(log, v.pos).0.Some?
    requires after == AfterTurn(v, NextReceived(log, v.pos).1, Receive(v.gate, NextReceived(log, v.pos).0.value), after.swallowed)
    ensures ViewerInv(p, |log|, nextId, after)
  {
    var (r, pos) := NextReceived(log, v.pos);
    if r.value.Frame? {
      assert log[v.pos] == p[v.pos];
      if after.delivered != v.delivered {
        DecodableAppend(v.delivered, p[v.pos].frame);
      }
    }
  }

  lemma DecodableAppend(d: seq<VideoFrame>, f: VideoFrame)
    requires Decodable(d)
    requires !f.Keyframe() ==> d != [] && Last(d).id == f.base.value
    requires d != [] ==> Last(d).id < f.id
    ensures Decodable(d + [f])
  {
    var e := d + [f];
    forall i | 0 <= i < |e| && !e[i].Keyframe() ensures i > 0 && e[i - 1].id == e[i].base.value {
      if i < |d| {
        assert e[i] == d[i];
      }
    }
    forall i, j | 0 <= i < j < |e| ensures e[i].id < e[j].id {
      if j == |d| && i < |d| - 1 {
        assert d[i].id < Last(d).id;
      }
    }
  }

  lemma RecvKeeps(s: State, v: nat)
    requires Inv(s)
    ensures Inv(DoRecv(s, v))
  {
    var s' := DoRecv(s, v);
    assert Pipe(s') == Pipe(s);
    if v < |s.viewers| && NextReceived(s.log, s.viewers[v].pos).0.Some? {
      assert s.log <= Pipe(s);
      ReceiveKeepsViewer(Pipe(s), s.log, s.nextId, s.viewers[v], s'.viewers[v]);
      forall i | 0 <= i < |s'.viewers| ensures ViewerInv(Pipe(s'), |s'.log|, s'.nextId, s'.viewers[i]) {
        assert i != v ==> s'.viewers[i] == s.viewers[i];
      }
    }
  }

  lemma StepKeeps(s: State, e: Event)
    requires Inv(s)
    ensures Inv(Apply(s, e))
  {
    match e {
      case Rate(o) => RateKeeps(s, o);
      case Force(o) => ForceKeeps(s, o);
      case EncodeOne(o) => EncodeKeeps(s, o);
      case TryOffer(now) => OfferKeeps(s, now);
      case OfferTiles => OfferTilesKeeps(s);
      case Take | Write | Publish => TransitKeeps(s, e);
      case Stop => StopKeeps(s);
      case Subscribe | Resubscribe(_) => SubscribeKeeps(s, e);
      case Recv(v) => RecvKeeps(s, v);
      case _ => SignalsKeep(s, e);
    }
  }

  lemma {:induction false} RunKeeps(s: State, events: seq<Event>)
    requires Inv(s)
    ensures Inv(RunFrom(s, events))
    decreases |events|
  {
    if events != [] {
      StepKeeps(s, events[0]);
      RunKeeps(Apply(s, events[0]), events[1..]);
    }
  }

  /** End to end, for every interleaving of captures, encodes, bitrate rebuilds, full
      queues, restarts, broadcast overwrites, display switches and reads: what `next` has
      returned to any viewer is decodable, and a viewer that waits for a keyframe of a
      video stream has asked for one. */
  lemma EveryViewerCanDecode(events: seq<Event>, i: nat)
    requires i < |RunFrom(Init, events).viewers|
    ensures Decodable(RunFrom(Init, events).viewers[i].delivered)
    ensures GateSound(RunFrom(Init, events).viewers[i].gate)
  {
    RunKeeps(Init, events);
  }

  // ---- a waiting viewer gets its keyframe ----

  predicate KeyframeAt(p: seq<StreamFrame>, k: nat) {
    k < |p| && p[k].Video? && p[k].frame.Keyframe()
  }

  /** The stream's next output is a keyframe, or there is no video stream to wait for. */
  predicate StreamOwesKeyframe(stream: Stream) {
    stream.VideoStream? ==> stream.control.keyframe || StartsIntra(stream.enc.codec)
  }

  /** Nothing more has to go wrong or be asked for: a keyframe is on its way to the viewer,
      a request is on its way to the encoder, or the viewer is about to find out that it
      lagged and will ask again. */
  ghost predicate Coming(s: State, v: Viewer) {
    || (exists k :: v.pos <= k && KeyframeAt(Pipe(s), k))
    || StreamOwesKeyframe(s.stream)
    || s.unwritten > 0
    || s.requests != []
    || v.pos + BROADCAST_SLOTS < |s.log|
  }

  predicate Waits(v: Viewer) {
    v.gate.video && v.gate.awaiting
  }

  ghost predicate Progress(s: State) {
    forall i | 0 <= i < |s.viewers| && Waits(s.viewers[i]) && !s.viewers[i].swallowed :: Coming(s, s.viewers[i])
  }

  /** Steps that take nothing away from any viewer's prospects. */
  lemma ComingKept(s: State, s': State)
    requires Progress(s) && s'.viewers == s.viewers
    requires Pipe(s) <= Pipe(s') && |s.log| <= |s'.log|
    requires s.unwritten > 0 || s.requests != [] || StreamOwesKeyframe(s.stream) ==>
               || s'.unwritten > 0 || s'.requests != [] || StreamOwesKeyframe(s'.stream)
               || (|Pipe(s)| < |Pipe(s')| && KeyframeAt(Pipe(s'), |Pipe(s)|))
    requires forall i | 0 <= i < |s.viewers| :: s.viewers[i].pos <= |s.log|
    ensures Progress(s')
  {
    forall i | 0 <= i < |s'.viewers| && Waits(s'.viewers[i]) && !s'.viewers[i].swallowed
      ensures Coming(s', s'.viewers[i])
    {
      var v := s.viewers[i];
      assert Coming(s, v);
      if k :| v.pos <= k && KeyframeAt(Pipe(s), k) {
        assert KeyframeAt(Pipe(s'), k);
      }
    }
  }

  lemma StreamProgress(s: State, e: Event)
    requires Inv(s) && Progress(s)
    requires e.Start? || e.Check? || e.Rate? || e.Force? || e.EncodeOne?
    ensures Progress(Apply(s, e))
  {
    var s' := Apply(s, e);
    if s'.nextId > s.nextId {
      assert Pipe(s') == Pipe(s) + [Video(s'.stream.phase.frame)];
    } else {
      assert Pipe(s') == Pipe(s);
    }
    ComingKept(s, s');
  }

  lemma TransportProgress(s: State, e: Event)
    requires Inv(s) && Progress(s)
    requires e.TryOffer? || e.Take? || e.Write? || e.Publish? || e.OfferTiles?
    ensures Progress(Apply(s, e))
  {
    if e.TryOffer? {
      OfferKeeps(s, e.now);
    } else if e.OfferTiles? {
      assert DoOfferTiles(s) != s ==> Pipe(DoOfferTiles(s)) == Pipe(s) + [Tiles];
    } else {
      TransitPipe(s, e);
    }
    ComingKept(s, Apply(s, e));
  }

  lemma SignalProgress(s: State, e: Event)
    requires Inv(s) && Progress(s)
    requires e.TakeRequest? || e.WriteRequest? || e.ClearInFlight? || e.Complain?
    ensures Progress(Apply(s, e))
  {
    assert Pipe(Apply(s, e)) == Pipe(s);
    ComingKept(s, Apply(s, e));
  }

  lemma SubscribeProgress(s: State, e: Event)
    requires Inv(s) && Progress(s)
    requires e.Subscribe? || e.Resubscribe?
    ensures Progress(Apply(s, e))
  {
    var s' := Apply(s, e);
    assert Pipe(s') == Pipe(s);
    forall i | 0 <= i < |s'.viewers| && Waits(s'.viewers[i]) && !s'.viewers[i].swallowed
      ensures Coming(s', s'.viewers[i])
    {
      assert s'.viewers[i] == s.viewers[i] && Coming(s, s.viewers[i]);
    }
  }

  lemma RecvProgress(s: State, v: nat)
    requires Inv(s) && Progress(s)
    ensures Progress(DoRecv(s, v))
  {
    var s' := DoRecv(s, v);
    assert Pipe(s') == Pipe(s);
    forall i | 0 <= i < |s'.viewers| && Waits(s'.viewers[i]) && !s'.viewers[i].swallowed
      ensures Coming(s', s'.viewers[i])
    {
      if i != v {
        assert s'.viewers[i] == s.viewers[i] && Coming(s, s.viewers[i]);
      } else if s' != s {
        RecvProgressOwn(s, v);
      }
    }
  }

  /** The reading viewer itself: it skips only deltas, and asks whenever it starts to wait. */
  lemma RecvProgressOwn(s: State, v: nat)
    requires Inv(s) && Progress(s)
    requires v < |s.viewers| && NextReceived(s.log, s.viewers[v].pos).0.Some?
    requires Waits(DoRecv(s, v).viewers[v]) && !DoRecv(s, v).viewers[v].swallowed
    ensures Coming(DoRecv(s, v), DoRecv(s, v).viewers[v])
  {
    var s' := DoRecv(s, v);
    assert Pipe(s') == Pipe(s);
    var (r, pos) := NextReceived(s.log, s.viewers[v].pos);
    var t := Receive(s.viewers[v].gate, r.value);
    assert ViewerInv(Pipe(s), |s.log|, s.nextId, s.viewers[v]);
    if t.ask.None? {
      assert Coming(s, s.viewers[v]);
      assert Pipe(s)[s.viewers[v].pos] == s.log[s.viewers[v].pos];
      if k :| s.viewers[v].pos <= k && KeyframeAt(Pipe(s), k) {
        assert pos <= k && KeyframeAt(Pipe(s'), k);
      }
    }
  }

  lemma {:induction false} RunProgress(s: State, events: seq<Event>)
    requires Inv(s) && Progress(s)
    ensures Progress(RunFrom(s, events))
    decreases |events|
  {
    if events != [] {
      var e := events[0];
      match e {
        case Start(_, _, _, _) | Check(_, _) | Rate(_) | Force(_) | EncodeOne(_) => StreamProgress(s, e);
        case TryOffer(_) | OfferTiles | Take | Write | Publish => TransportProgress(s, e);
        case Stop =>
        case TakeRequest | Complain(_) | WriteRequest(_) | ClearInFlight => SignalProgress(s, e);
        case Subscribe | Resubscribe(_) => SubscribeProgress(s, e);
        case Recv(v) => RecvProgress(s, v);
      }
      StepKeeps(s, e);
      RunProgress(Apply(s, e), events[1..]);
    }
  }

  /** In every reachable state a viewer held back by the gate has a keyframe coming, unless
      its request was swallowed. */
  lemma WaitingViewersGetAKeyframe(events: seq<Event>, i: nat)
    requires i < |RunFrom(Init, events).viewers|
    requires Waits(RunFrom(Init, events).viewers[i])
    ensures RunFrom(Init, events).viewers[i].swallowed || Coming(RunFrom(Init, events), RunFrom(Init, events).viewers[i])
  {
    RunProgress(Init, events);
  }

  // ---- exactly when a request is answered ----

  /** The viewer's next turn makes a keyframe request. */
  predicate Asks(s: State, v: nat) {
    && v < |s.viewers| && NextReceived(s.log, s.viewers[v].pos).0.Some?
    && Receive(s.viewers[v].gate, NextReceived(s.log, s.viewers[v].pos).0.value).ask.Some?
  }

  /** A viewer reading on from `pos` needs no new request: a keyframe is on the path, the stream
      owes one, an earlier request is on its way, or the viewer is about to lag again. */
  ghost predicate Hopeful(s: State, pos: nat) {
    || (exists k :: pos <= k && KeyframeAt(Pipe(s), k))
    || StreamOwesKeyframe(s.stream)
    || s.requests != []
    || pos + BROADCAST_SLOTS < |s.log|
  }

  lemma AskedExactly(s: State, v: nat)
    requires Inv(s) && Asks(s, v)
    ensures var s' := DoRecv(s, v);
            && Waits(s'.viewers[v]) && s'.viewers[v].swallowed == Swallows(s)
            && (Coming(s', s'.viewers[v]) <==> !Swallows(s) || Hopeful(s, NextReceived(s.log, s.viewers[v].pos).1))
  {
    assert Pipe(DoRecv(s, v)) == Pipe(s);
  }

  /** In every run, a viewer whose turn makes a keyframe request has one coming afterwards
      exactly when the request is not merged into one already written, or a keyframe would
      have come without it. */
  lemma RequestIsAnsweredExactly(events: seq<Event>, v: nat)
    requires Asks(RunFrom(Init, events), v)
    ensures var s := RunFrom(Init, events);
            var s' := DoRecv(s, v);
            Coming(s', s'.viewers[v]) <==> !Swallows(s) || Hopeful(s, NextReceived(s.log, s.viewers[v].pos).1)
  {
    RunKeeps(Init, events);
    AskedExactly(RunFrom(Init, events), v);
  }

  // ---- a swallowed request can leave a viewer waiting ----

  const Still: seq<byte> := [0, 0, 0, 0, 0, 0]
  const Calm := Oracle(0, true, Coded(false), 0, 0, false)

  lemma {:induction false} RunAppend(s: State, events: seq<Event>, e: Event)
    ensures RunFrom(s, events + [e]) == Apply(RunFrom(s, events), e)
    decreases |events|
  {
    if events == [] {
      assert events + [e] == [e];
      assert RunFrom(Apply(s, e), []) == Apply(s, e);
    } else {
      assert (events + [e])[1..] == events[1..] + [e];
      RunAppend(Apply(s, events[0]), events[1..], e);
    }
  }

  /** A 2x2 video stream with nothing in transit, untouched clocks and no forced frame yet. */
  predicate Quiet(s: State) {
    && s.stream.VideoStream? && s.stream.phase.Waiting? && !s.stream.control.congested
    && s.stream.enc.w == 2 && s.stream.enc.h == 2
    && s.stream.enc.lastCongestion == 0 && s.stream.enc.lastRateChange == 0
    && s.queue == [] && s.held.None? && s.wire == []
    && (s.stream.control.keyframe ==> s.stream.enc.lastForced.None?)
  }

  function Encoded(s: State): State {
    DoEncode(DoForce(DoRate(DoCheck(s, Still, true), Calm), Calm), Calm)
  }

  function Delivered(s: State): State {
    DoPublish(DoWrite(DoTake(DoOffer(s, 0))))
  }

  /** A keyframe when the stream owes one, otherwise a delta. */
  lemma EncodedEffect(s: State)
    requires Quiet(s)
    ensures var s' := Encoded(s);
            && s'.stream.VideoStream? && s'.stream.phase.Holding?
            && s' == s.(stream := s'.stream, nextId := s.nextId + 1)
            && Quiet(s'.(stream := s'.stream.(phase := Waiting)))
            && !StreamOwesKeyframe(s'.stream)
            && (s'.stream.phase.frame.Keyframe() <==> StreamOwesKeyframe(s.stream))
            && (!s.stream.control.keyframe ==> s'.stream.enc.lastForced == s.stream.enc.lastForced)
  {
    assert |Still| == I420Len(2, 2);
  }

  lemma DeliveredEffect(s: State)
    requires s.stream.VideoStream? && s.stream.phase.Holding? && s.queue == [] && s.held.None? && s.wire == []
    ensures Delivered(s) == s.(stream := s.stream.(enc := s.stream.enc.(lastSent := 0), phase := Waiting),
                               log := s.log + [Video(s.stream.phase.frame)])
  {
  }

  ghost predicate Reachable(s: State) {
    exists events :: RunFrom(Init, events) == s
  }

  lemma Reach(s: State, e: Event)
    requires Reachable(s)
    ensures Reachable(Apply(s, e))
  {
    var events :| RunFrom(Init, events) == s;
    RunAppend(Init, events, e);
  }

  lemma ReachEncoded(s: State)
    requires Reachable(s)
    ensures Reachable(Encoded(s))
  {
    var s1 := DoCheck(s, Still, true);
    var s2 := DoRate(s1, Calm);
    Reach(s, Check(Still, true));
    Reach(s1, Rate(Calm));
    Reach(s2, Force(Calm));
    Reach(DoForce(s2, Calm), EncodeOne(Calm));
  }

  lemma ReachDelivered(s: State)
    requires Reachable(s)
    ensures Reachable(Delivered(s))
  {
    var s1 := DoOffer(s, 0);
    var s2 := DoTake(s1);
    Reach(s, TryOffer(0));
    Reach(s1, Take);
    Reach(s2, Write);
    Reach(DoWrite(s2), Publish);
  }

  /** One captured frame goes all the way to the broadcast. */
  lemma EmitFrame(s: State) returns (s': State)
    requires Reachable(s) && Quiet(s)
    ensures Reachable(s') && Quiet(s') && !StreamOwesKeyframe(s'.stream)
    ensures |s'.log| == |s.log| + 1
    ensures s' == s.(stream := s'.stream, nextId := s'.nextId, log := s.log + [Last(s'.log)])
    ensures Last(s'.log).Video? && (Last(s'.log).frame.Keyframe() <==> StreamOwesKeyframe(s.stream))
    ensures !s.stream.control.keyframe ==> s'.stream.enc.lastForced == s.stream.enc.lastForced
  {
    EncodedEffect(s);
    DeliveredEffect(Encoded(s));
    ReachEncoded(s);
    ReachDelivered(Encoded(s));
    s' := Delivered(Encoded(s));
  }

  lemma LateViewer() returns (s: State)
    ensures Reachable(s) && Quiet(s) && s.stream.enc.lastForced.None?
    ensures s.viewers == [Viewer(1, FreshGate, [], false)] && |s.log| == 2 && s.log[1].Delta()
    ensures !s.inFlight && s.unwritten == 0 && s.requests == []
  {
    assert RunFrom(Init, []) == Init;
    Reach(Init, Start(true, 2, 2, 0));
    s := EmitFrame(DoStart(Init, true, 2, 2, 0));
    Reach(s, Subscribe);
    s := EmitFrame(DoSubscribe(s));
  }

  /** A viewer that joined late has asked for a keyframe; the request was written and
      reached the encoder, but the writing task has not lowered the flag yet. */
  lemma FirstRequest() returns (s: State)
    ensures Reachable(s) && Quiet(s) && StreamOwesKeyframe(s.stream)
    ensures |s.viewers| == 1 && Waits(s.viewers[0]) && s.viewers[0].pos == |s.log|
    ensures Swallows(s) && s.requests == []
  {
    s := LateViewer();
    s := ReadDelta(s);
    Reach(s, WriteRequest(false));
    s := DoWriteRequest(s, false);
    Reach(s, TakeRequest);
    s := DoTakeRequest(s);
  }

  /** The answer and four deltas are published before the viewer reads again, so it loses
      exactly the keyframe it had asked for, and its next turn asks again. */
  lemma AnswerIsOverwritten() returns (s: State)
    ensures Reachable(s) && |s.viewers| == 1 && Asks(s, 0) && Swallows(s)
    ensures !Hopeful(s, NextReceived(s.log, s.viewers[0].pos).1)
  {
    s := FirstRequest();
    s := EmitFrame(s);
    s := EmitFrame(s);
    s := EmitFrame(s);
    s := EmitFrame(s);
    s := EmitFrame(s);
    assert Pipe(s) == s.log;
  }

  /** Viewer `v` asks, its request is swallowed, and it waits with nothing on its way. */
  ghost predicate Stranding(s: State, v: nat) {
    var s' := Apply(s, Recv(v));
    Asks(s, v) && Swallows(s) && v < |s'.viewers| && Waits(s'.viewers[v]) && !Coming(s', s'.viewers[v])
  }

  lemma HopelessAskStrands(s: State, v: nat)
    requires Inv(s) && Asks(s, v) && Swallows(s) && !Hopeful(s, NextReceived(s.log, s.viewers[v].pos).1)
    ensures Stranding(s, v)
  {
    AskedExactly(s, v);
  }

  /** The negative instance of `RequestIsAnsweredExactly`: the request for the lost keyframe is
      merged into the earlier one, whose answer is the keyframe that was lost. */
  lemma SwallowedRequestStrandsViewer()
    ensures exists events :: Stranding(RunFrom(Init, events), 0)
  {
    var s := AnswerIsOverwritten();
    var events :| RunFrom(Init, events) == s;
    RunKeeps(Init, events);
    HopelessAskStrands(s, 0);
    assert Stranding(RunFrom(Init, events), 0);
  }

  /** A waiting viewer reads a delta and drops it, asking for a keyframe if it has not yet. */
  lemma ReadDelta(s: State) returns (s': State)
    requires Reachable(s) && |s.viewers| == 1
    requires var v := s.viewers[0];
             v.gate.awaiting && v.pos < |s.log| <= v.pos + BROADCAST_SLOTS && s.log[v.pos].Delta()
    ensures Reachable(s')
    ensures |s'.viewers| == 1 && Waits(s'.viewers[0]) && s'.viewers[0].pos == s.viewers[0].pos + 1
    ensures s'.viewers[0].gate.requested
    ensures s.viewers[0].gate.requested ==> s' == s.(viewers := s'.viewers)
    ensures !s.viewers[0].gate.requested && !s.inFlight ==>
              s' == s.(viewers := s'.viewers, inFlight := true, unwritten := s.unwritten + 1)
  {
    Reach(s, Recv(0));
    s' := DoRecv(s, 0);
  }
}
