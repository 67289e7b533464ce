/**
  The H.264 encoder of one capture (crates/rivetlink-agent/src/capture/h264.rs).

  OpenH264 itself is abstract: `Codec` keeps which output a delta would be
  predicted from and whether an intra frame was forced. A fresh codec and a
  forced one start with a keyframe; every delta is predicted from the output
  before it. What one call of the real encoder does (output, skip, fail) is an
  argument, so the results hold for every behaviour of it.
 */
module H264 {
  import opened Common

  const MAX_BPS := 10_000_000
  const MIN_BPS := 1_000_000
  const HEARTBEAT := 1000
  const RAISE_AFTER := 10_000
  const LOWER_HOLDOFF := 1000
  const MIN_KEYFRAME_GAP := 500

  /** One encoder output. `base` is the output a delta was predicted from. */
  datatype VideoFrame = VideoFrame(id: nat, base: Option<nat>) {
    predicate Keyframe() {
      base.None?
    }
  }

  datatype StreamFrame = Tiles | Video(frame: VideoFrame) {
    predicate Delta() {
      Video? && !frame.Keyframe()
    }
  }

  /** `next` can be decoded by whoever has just decoded `prev`. */
  predicate Follows(prev: StreamFrame, next: StreamFrame) {
    next.Delta() ==> prev.Video? && prev.frame.id == next.frame.base.value
  }

  /** Every delta directly follows the output it was predicted from. */
  predicate Chain(s: seq<StreamFrame>) {
    forall i | 0 <= i < |s| && s[i].Delta() :: i > 0 && Follows(s[i - 1], s[i])
  }

  // ---- the abstract codec ----

  datatype Codec = Codec(last: Option<nat>, forced: bool)

  const FreshCodec := Codec(None, false)

  datatype Outcome = Skipped | Failed | Coded(intra: bool)

  /** The codec's next output is a keyframe whatever else it decides. */
  predicate StartsIntra(c: Codec) {
    c.forced || c.last.None?
  }

  function Output(c: Codec, intra: bool, id: nat): (f: VideoFrame)
    ensures f.id == id
    ensures StartsIntra(c) ==> f.Keyframe()
    ensures !f.Keyframe() ==> c.last == f.base
  {
    VideoFrame(id, if intra || StartsIntra(c) then None else c.last)
  }

  // ---- encoder state ----

  datatype Control = Control(keyframe: bool, congested: bool)

  datatype Encoder = Encoder(
    w: nat, h: nat,
    codec: Codec,
    bitrate: nat,
    last: Option<seq<byte>>,
    pending: bool,
    lastSent: int,
    lastRateChange: int,
    lastCongestion: int,
    lastForced: Option<int>)

  /** What the outside decides during one call: the clock, the codec, and how many
      frames the consumer takes (or whether it goes away) while a frame is encoded. */
  datatype Oracle = Oracle(now: int, rebuilds: bool, outcome: Outcome, id: nat, took: nat, leaves: bool)

  function I420Len(w: nat, h: nat): nat {
    w * h + 2 * ((w / 2) * (h / 2))
  }

  function NewEncoder(w: nat, h: nat, now: int): (r: Option<Encoder>)
    ensures r.Some? <==> w > 0 && h > 0 && w % 2 == 0 && h % 2 == 0
    ensures r.Some? ==> Bounded(r.value) && StartsIntra(r.value.codec)
  {
    if w == 0 || h == 0 || w % 2 != 0 || h % 2 != 0 then None
    else Some(Encoder(w, h, FreshCodec, MAX_BPS, None, false, now, now, now, None))
  }

  predicate Bounded(e: Encoder) {
    MIN_BPS <= e.bitrate <= MAX_BPS
  }

  // ---- the steps of `adapt` ----

  function SetBitrate(e: Encoder, c: Control, bps: nat, o: Oracle): (Encoder, Control) {
    if bps == e.bitrate then (e, c)
    else if o.rebuilds then
      (e.(lastRateChange := o.now, codec := FreshCodec, bitrate := bps), c.(keyframe := false))
    else
      (e.(lastRateChange := o.now), c)
  }

  function AdaptRate(e: Encoder, c: Control, captured: bool, o: Oracle): (Encoder, Control) {
    if c.congested then
      var e1 := e.(lastCongestion := o.now);
      var c1 := c.(congested := false);
      if o.now - e.lastRateChange >= LOWER_HOLDOFF
      then SetBitrate(e1, c1, Max(e.bitrate / 3 * 2, MIN_BPS), o)
      else (e1, c1)
    else if captured && o.now - e.lastCongestion >= RAISE_AFTER && o.now - e.lastRateChange >= RAISE_AFTER then
      SetBitrate(e, c, Min(e.bitrate / 4 * 5, MAX_BPS), o)
    else
      (e, c)
  }

  predicate MayForce(e: Encoder, now: int) {
    e.lastForced.None? || now - e.lastForced.value >= MIN_KEYFRAME_GAP
  }

  function AdaptKeyframe(e: Encoder, c: Control, o: Oracle): (Encoder, Control) {
    if MayForce(e, o.now) && c.keyframe
    then (e.(codec := e.codec.(forced := true), lastForced := Some(o.now)), c.(keyframe := false))
    else (e, c)
  }

  /** A frame the consumer has no room for is kept, not encoded. */
  function HoldBack(e: Encoder, data: seq<byte>): Encoder {
    e.(last := Some(data), pending := true)
  }

  /** One call of the codec. A failed call may have used up a forced intra frame,
      which is why the code asks for a keyframe again. */
  function Encode(e: Encoder, c: Control, data: seq<byte>, o: Oracle): (Encoder, Control, Option<VideoFrame>) {
    match o.outcome
    case Skipped => (HoldBack(e, data), c, None)
    case Failed => (HoldBack(e, data).(codec := e.codec.(forced := false)), c.(keyframe := true), None)
    case Coded(intra) =>
      (e.(codec := Codec(Some(o.id), false), last := Some(data), pending := false), c,
       Some(Output(e.codec, intra, o.id)))
  }

  // ---- the bounded queue to the forwarder ----

  datatype Queue = Queue(frames: seq<StreamFrame>, capacity: nat, closed: bool)

  function TrySend(q: Queue, f: StreamFrame): (Queue, Sent) {
    if q.closed then (q, Closed)
    else if |q.frames| >= q.capacity then (q, Full)
    else (q.(frames := q.frames + [f]), Accepted)
  }

  /** What the consumer does to the queue between the room check and the send. */
  function Consume(q: Queue, o: Oracle): Queue {
    q.(frames := q.frames[Min(o.took, |q.frames|)..], closed := q.closed || o.leaves)
  }

  datatype SendResult = SendResult(e: Encoder, c: Control, q: Queue, alive: bool)

  function Offer(e: Encoder, c: Control, q: Queue, f: VideoFrame, now: int): SendResult {
    var (q', sent) := TrySend(q, Video(f));
    match sent
    case Accepted => SendResult(e.(lastSent := now), c, q', true)
    case Full => SendResult(e.(pending := true), c.(keyframe := true), q', true)
    case Closed => SendResult(e, c, q', false)
  }

  /** `H264Encoder::send`, with the consumer running beside it. */
  function Send(e: Encoder, c: Control, q: Queue, data: seq<byte>, captured: bool, o: Oracle): SendResult {
    if |data| != I420Len(e.w, e.h) then SendResult(e, c, q, true)
    else if q.closed then SendResult(e, c, q, false)
    else if |q.frames| >= q.capacity then SendResult(HoldBack(e, data), c.(congested := true), q, true)
    else
      var (e1, c1) := AdaptRate(e, c, captured, o);
      var (e2, c2) := AdaptKeyframe(e1, c1, o);
      var (e3, c3, f) := Encode(e2, c2, data, o);
      var q1 := Consume(q, o);
      if f.None? then SendResult(e3, c3, q1, true) else Offer(e3, c3, q1, f.value, o.now)
  }

  function Heartbeat(e: Encoder, c: Control, q: Queue, o: Oracle): SendResult {
    if !e.pending && o.now - e.lastSent < HEARTBEAT then SendResult(e, c, q, true)
    else if e.last.None? then SendResult(e, c, q, !q.closed)
    else Send(e.(last := None), c, q, e.last.value, false, o)
  }

  // ---- what a call keeps ----

  /** The codec predicts from the newest frame that was queued, so nothing it
      produced is missing from `sent`. */
  predicate Synced(c: Codec, sent: seq<StreamFrame>) {
    && Chain(sent)
    && (c.last.Some? ==> sent != [] && Last(sent).Video? && Last(sent).frame.id == c.last.value)
  }

  lemma ChainAppend(s: seq<StreamFrame>, f: StreamFrame)
    requires Chain(s)
    requires f.Delta() ==> s != [] && Follows(Last(s), f)
    ensures Chain(s + [f])
  {
    var t := s + [f];
    forall i | 0 <= i < |t| && t[i].Delta() ensures i > 0 && Follows(t[i - 1], t[i]) {
      if i < |s| {
        assert t[i] == s[i];
      }
    }
  }

  lemma AdaptKeeps(e: Encoder, c: Control, captured: bool, o: Oracle, sent: seq<StreamFrame>)
    requires Bounded(e) && Synced(e.codec, sent)
    ensures var (e1, c1) := AdaptRate(e, c, captured, o);
            var (e2, c2) := AdaptKeyframe(e1, c1, o);
            Bounded(e2) && Synced(e1.codec, sent) && Synced(e2.codec, sent)
  {
  }

  /** The frames one `send` of well-formed data adds behind those the consumer left. */
  function Queued(q: Queue, r: SendResult, o: Oracle): seq<StreamFrame>
    requires |Consume(q, o).frames| <= |r.q.frames|
  {
    r.q.frames[|Consume(q, o).frames|..]
  }

  /** Whatever the codec, the consumer and the clock do, one `send` to an open queue with
      room (a) never meets a full queue, so it never drops a frame it encoded, (b) leaves
      the codec predicting from a queued frame, (c) keeps the bitrate in bounds, and
      (d) either queued `data` or keeps it for the next tick. Only a consumer that went
      away meanwhile loses the frame, and then the capture is told to stop. */
  lemma SendKeepsReferences(e: Encoder, c: Control, q: Queue, data: seq<byte>, captured: bool, o: Oracle,
                            sent: seq<StreamFrame>)
    requires Bounded(e) && Synced(e.codec, sent)
    requires |data| == I420Len(e.w, e.h) && !q.closed && |q.frames| < q.capacity
    ensures var r := Send(e, c, q, data, captured, o);
            && Bounded(r.e) && r.e.last == Some(data)
            && Consume(q, o).frames <= r.q.frames
            && (r.alive ==> Synced(r.e.codec, sent + Queued(q, r, o)))
            && (r.alive ==> (r.e.pending <==> Queued(q, r, o) == []))
            && (!r.alive <==> o.leaves && o.outcome.Coded?)
            && (Queued(q, r, o) != [] <==> !o.leaves && o.outcome.Coded?)
  {
    var (e1, c1) := AdaptRate(e, c, captured, o);
    var (e2, c2) := AdaptKeyframe(e1, c1, o);
    AdaptKeeps(e, c, captured, o, sent);
    var r := Send(e, c, q, data, captured, o);
    if o.outcome.Coded? && !o.leaves {
      var f := Video(Output(e2.codec, o.outcome.intra, o.id));
      ChainAppend(sent, f);
      assert Queued(q, r, o) == [f];
    } else {
      assert sent + [] == sent;
    }
  }

  /** With no room the data is kept for the next tick, the codec is left alone and the
      encoder learns that the link is congested. */
  lemma FullQueueHoldsBack(e: Encoder, c: Control, q: Queue, data: seq<byte>, captured: bool, o: Oracle)
    requires |data| == I420Len(e.w, e.h) && !q.closed && |q.frames| >= q.capacity
    ensures var r := Send(e, c, q, data, captured, o);
            && r.alive && r.q == q && r.e.codec == e.codec && r.e.bitrate == e.bitrate
            && r.e.pending && r.e.last == Some(data) && r.c.congested && r.c.keyframe == c.keyframe
  {
  }

  /** A keyframe request is never lost by a tick: it stays set, or the codec's next
      output is a keyframe, or the frame just queued is one, or the stream is over. */
  lemma SendHonoursRequests(e: Encoder, c: Control, q: Queue, data: seq<byte>, captured: bool, o: Oracle)
    requires c.keyframe || StartsIntra(e.codec)
    ensures var r := Send(e, c, q, data, captured, o);
            || r.c.keyframe
            || StartsIntra(r.e.codec)
            || !r.alive
            || (r.q.frames != [] && Last(r.q.frames).Video? && Last(r.q.frames).frame.Keyframe())
  {
  }

  predicate Sendable(e: Encoder, q: Queue, data: seq<byte>) {
    |data| == I420Len(e.w, e.h) && !q.closed && |q.frames| < q.capacity
  }

  lemma RateAdaptsExactly(e: Encoder, c: Control, captured: bool, o: Oracle)
    requires Bounded(e)
    ensures var e' := AdaptRate(e, c, captured, o).0;
            && (e'.bitrate < e.bitrate <==> o.rebuilds && c.congested && o.now - e.lastRateChange >= LOWER_HOLDOFF && e.bitrate > MIN_BPS)
            && (e'.bitrate > e.bitrate <==>
                  && o.rebuilds && captured && !c.congested && e.bitrate < MAX_BPS
                  && o.now - e.lastCongestion >= RAISE_AFTER && o.now - e.lastRateChange >= RAISE_AFTER)
  {
  }

  lemma SendMovesRate(e: Encoder, c: Control, q: Queue, data: seq<byte>, captured: bool, o: Oracle)
    ensures Send(e, c, q, data, captured, o).e.bitrate
            == if Sendable(e, q, data) then AdaptRate(e, c, captured, o).0.bitrate else e.bitrate
  {
  }

  /** The bitrate falls exactly on reported congestion, outside the hold-off and above the
      minimum, and rises exactly on a captured frame after a quiet time and below the maximum;
      in both cases only if the encoder could be rebuilt. */
  lemma RateMovesExactly(e: Encoder, c: Control, q: Queue, data: seq<byte>, captured: bool, o: Oracle)
    requires Bounded(e)
    ensures var rate := Send(e, c, q, data, captured, o).e.bitrate;
            && (rate < e.bitrate <==>
                  && Sendable(e, q, data) && o.rebuilds && c.congested && o.now - e.lastRateChange >= LOWER_HOLDOFF && e.bitrate > MIN_BPS)
            && (rate > e.bitrate <==>
                  && Sendable(e, q, data) && o.rebuilds && captured && !c.congested && e.bitrate < MAX_BPS
                  && o.now - e.lastCongestion >= RAISE_AFTER && o.now - e.lastRateChange >= RAISE_AFTER)
  {
    SendMovesRate(e, c, q, data, captured, o);
    RateAdaptsExactly(e, c, captured, o);
  }

  /** The codec is replaced exactly when the bitrate moves; the fresh one starts with a
      keyframe, so a pending request is answered by it. Congestion is taken note of. */
  lemma RebuildsExactly(e: Encoder, c: Control, captured: bool, o: Oracle)
    ensures var (e', c') := AdaptRate(e, c, captured, o);
            && !c'.congested
            && if e'.bitrate != e.bitrate then e'.codec == FreshCodec && !c'.keyframe && StartsIntra(e'.codec)
               else e'.codec == e.codec && c'.keyframe == c.keyframe
  {
  }

  /** One look at the bitrate: the flags as they then are, and what the outside does. */
  datatype Look = Look(c: Control, captured: bool, o: Oracle)

  /** The encoder after a row of looks. */
  function Looked(e: Encoder, looks: seq<Look>): Encoder {
    if looks == [] then e
    else
      var l := Last(looks);
      AdaptRate(Looked(e, looks[..|looks| - 1]), l.c, l.captured, l.o).0
  }

  /** At look `i` the encoder asks for a codec with another bitrate, whether it gets it or not. */
  predicate Moves(e: Encoder, looks: seq<Look>, i: nat)
    requires i < |looks|
  {
    var before := Looked(e, looks[..i]);
    AdaptRate(before, looks[i].c, looks[i].captured, looks[i].o.(rebuilds := true)).0.bitrate != before.bitrate
  }

  predicate Raises(e: Encoder, looks: seq<Look>, i: nat)
    requires i < |looks|
  {
    var before := Looked(e, looks[..i]);
    AdaptRate(before, looks[i].c, looks[i].captured, looks[i].o.(rebuilds := true)).0.bitrate > before.bitrate
  }

  predicate Ordered(looks: seq<Look>) {
    forall i, j | 0 <= i < j < |looks| :: looks[i].o.now <= looks[j].o.now
  }

  lemma LookStep(e: Encoder, looks: seq<Look>)
    requires looks != []
    ensures var n := |looks| - 1;
            var before, after := Looked(e, looks[..n]), Looked(e, looks);
            && after.lastRateChange == (if Moves(e, looks, n) then looks[n].o.now else before.lastRateChange)
            && after.lastCongestion == (if looks[n].c.congested then looks[n].o.now else before.lastCongestion)
  {
  }

  lemma {:induction false} LooksBounded(e: Encoder, looks: seq<Look>)
    requires Bounded(e)
    ensures Bounded(Looked(e, looks))
  {
    if looks != [] {
      LooksBounded(e, looks[..|looks| - 1]);
    }
  }

  /** After look `i`, the encoder remembers a time no earlier than that look's move and
      congestion. */
  lemma {:induction false} LooksRemember(e: Encoder, looks: seq<Look>, i: nat)
    requires Ordered(looks) && i < |looks|
    ensures Moves(e, looks, i) ==> Looked(e, looks).lastRateChange >= looks[i].o.now
    ensures looks[i].c.congested ==> Looked(e, looks).lastCongestion >= looks[i].o.now
    decreases |looks|
  {
    var n := |looks| - 1;
    LookStep(e, looks);
    if i < n {
      LooksRemember(e, looks[..n], i);
      assert looks[..n][..i] == looks[..i];
    }
  }

  /** Over any row of looks, whatever flags are raised and codecs refused in between: two moves
      of the bitrate are a hold-off apart, and a rise comes only a long quiet time after every
      earlier move and every reported congestion. */
  lemma MovesKeepTheirDistance(e: Encoder, looks: seq<Look>, i: nat, j: nat)
    requires Bounded(e) && Ordered(looks) && i < j < |looks| && Moves(e, looks, j)
    ensures Moves(e, looks, i) ==> looks[j].o.now - looks[i].o.now >= LOWER_HOLDOFF
    ensures Raises(e, looks, j) && (Moves(e, looks, i) || looks[i].c.congested) ==> looks[j].o.now - looks[i].o.now >= RAISE_AFTER
  {
    LooksBounded(e, looks[..j]);
    LooksRemember(e, looks[..j], i);
    assert looks[..j][..i] == looks[..i];
  }

  /** The encoder after a row of looks at the keyframe flag. */
  function Keyed(e: Encoder, looks: seq<Look>): Encoder {
    if looks == [] then e else AdaptKeyframe(Keyed(e, looks[..|looks| - 1]), Last(looks).c, Last(looks).o).0
  }

  /** At look `i` a keyframe is forced: the request is taken. */
  predicate Forces(e: Encoder, looks: seq<Look>, i: nat)
    requires i < |looks|
  {
    looks[i].c.keyframe && !AdaptKeyframe(Keyed(e, looks[..i]), looks[i].c, looks[i].o).1.keyframe
  }

  lemma {:induction false} KeyedRemembers(e: Encoder, looks: seq<Look>, i: nat)
    requires Ordered(looks) && i < |looks| && Forces(e, looks, i)
    ensures Keyed(e, looks).lastForced.Some? && Keyed(e, looks).lastForced.value >= looks[i].o.now
    decreases |looks|
  {
    var n := |looks| - 1;
    if i < n {
      assert looks[..n][..i] == looks[..i];
      KeyedRemembers(e, looks[..n], i);
    }
  }

  /** However often keyframes are asked for, two forced ones are a gap apart. */
  lemma ForcedKeyframesKeepTheirDistance(e: Encoder, looks: seq<Look>, i: nat, j: nat)
    requires Ordered(looks) && i < j < |looks| && Forces(e, looks, i) && Forces(e, looks, j)
    ensures looks[j].o.now - looks[i].o.now >= MIN_KEYFRAME_GAP
  {
    assert looks[..j][..i] == looks[..i];
    KeyedRemembers(e, looks[..j], i);
  }

  /** A tick never raises the bitrate: only a captured frame does. */
  lemma TickNeverRaises(e: Encoder, c: Control, q: Queue, o: Oracle)
    requires Bounded(e)
    ensures Heartbeat(e, c, q, o).e.bitrate <= e.bitrate
  {
    if e.last.Some? {
      RateMovesExactly(e.(last := None), c, q, e.last.value, false, o);
    }
  }

  /** A send goes on unless it finds the consumer gone, before encoding or after. */
  predicate SendGoesOn(e: Encoder, q: Queue, data: seq<byte>, o: Oracle) {
    |data| != I420Len(e.w, e.h) || (!q.closed && (Sendable(e, q, data) ==> !(o.leaves && o.outcome.Coded?)))
  }

  lemma SendAnswersExactly(e: Encoder, c: Control, q: Queue, data: seq<byte>, captured: bool, o: Oracle)
    ensures Send(e, c, q, data, captured, o).alive <==> SendGoesOn(e, q, data, o)
  {
  }

  /** A tick with something kept back, or after a heartbeat of silence, sends the last data. */
  predicate TickDue(e: Encoder, now: int) {
    e.last.Some? && (e.pending || now - e.lastSent >= HEARTBEAT)
  }

  /** With room and an encoder that gives output, a due tick queues the data it had kept. */
  lemma DueTickSends(e: Encoder, c: Control, q: Queue, o: Oracle)
    requires TickDue(e, o.now) && Sendable(e, q, e.last.value) && o.outcome.Coded? && !o.leaves
    ensures var r := Heartbeat(e, c, q, o);
            && r.alive && !r.e.pending && r.e.last == e.last && r.e.lastSent == o.now
            && |r.q.frames| == |Consume(q, o).frames| + 1 && Consume(q, o).frames <= r.q.frames
            && Last(r.q.frames).Video? && Last(r.q.frames).frame.id == o.id
  {
  }

  /** Nothing is kept back and the last frame was sent within a heartbeat. */
  predicate Fresh(e: Encoder, now: int) {
    !e.pending && now - e.lastSent < HEARTBEAT
  }

  /** The capture goes on after a tick exactly if the tick had nothing to do, or never had a
      frame and the consumer is there, or the send of its last frame goes on. So once the
      consumer is gone, the first tick that is not fresh ends the capture, with or without a
      frame. A tick that is not due changes nothing. */
  lemma TickAnswersExactly(e: Encoder, c: Control, q: Queue, o: Oracle)
    ensures var r := Heartbeat(e, c, q, o);
            && (r.alive <==> Fresh(e, o.now) || (if e.last.None? then !q.closed else SendGoesOn(e, q, e.last.value, o)))
            && (q.closed && (e.last.Some? ==> |e.last.value| == I420Len(e.w, e.h)) ==> (r.alive <==> Fresh(e, o.now)))
            && (!TickDue(e, o.now) ==> r.e == e && r.c == c && r.q == q)
  {
    if e.last.Some? {
      SendAnswersExactly(e.(last := None), c, q, e.last.value, false, o);
    }
  }

  /** Ticks, one after another, on a queue that does not change. */
  function Ticks(e: Encoder, c: Control, q: Queue, oracles: seq<Oracle>): SendResult {
    if oracles == [] then SendResult(e, c, q, true)
    else
      var r := Ticks(e, c, q, oracles[..|oracles| - 1]);
      Heartbeat(r.e, r.c, q, Last(oracles))
  }

  predicate Keeps(e: Encoder, r: SendResult, q: Queue, data: seq<byte>) {
    && r.alive && r.q == q && r.c.congested && r.e.pending && r.e.last == Some(data)
    && r.e.codec == e.codec && r.e.bitrate == e.bitrate && r.e.w == e.w && r.e.h == e.h
  }

  lemma {:induction false} FullTicksKeep(e: Encoder, r: SendResult, q: Queue, data: seq<byte>, oracles: seq<Oracle>)
    requires Keeps(e, r, q, data) && |data| == I420Len(e.w, e.h) && !q.closed && |q.frames| >= q.capacity
    ensures Keeps(e, Ticks(r.e, r.c, q, oracles), q, data)
  {
    if oracles != [] {
      FullTicksKeep(e, r, q, data, oracles[..|oracles| - 1]);
    }
  }

  /** Data that found the queue full is kept through any number of ticks that find it full too,
      with the codec left alone; the first tick with room and an encoder that gives output
      queues it, behind what is there, and as a keyframe if one is owed by then. */
  lemma KeptDataIsSent(e: Encoder, c: Control, full: Queue, data: seq<byte>, captured: bool, o: Oracle,
                       waits: seq<Oracle>, room: Queue, at: Oracle)
    requires |data| == I420Len(e.w, e.h) && !full.closed && |full.frames| >= full.capacity
    requires !room.closed && |room.frames| < room.capacity && at.outcome.Coded? && !at.leaves
    ensures var held := Send(e, c, full, data, captured, o);
            var waited := Ticks(held.e, held.c, full, waits);
            var r := Heartbeat(waited.e, waited.c, room, at);
            && Keeps(e, waited, full, data)
            && r.alive && !r.e.pending && r.e.last == Some(data)
            && r.q.frames != [] && r.q.frames == Consume(room, at).frames + [Last(r.q.frames)]
            && Last(r.q.frames).Video? && Last(r.q.frames).frame.id == at.id
            && (StartsIntra(e.codec) ==> Last(r.q.frames).frame.Keyframe())
  {
    var held := Send(e, c, full, data, captured, o);
    FullQueueHoldsBack(e, c, full, data, captured, o);
    FullTicksKeep(e, held, full, data, waits);
    DueTickSends(Ticks(held.e, held.c, full, waits).e, Ticks(held.e, held.c, full, waits).c, room, at);
  }

  // ---- the source's objects ----

  class VideoControl {
    var keyframe: bool
    var congested: bool

    constructor ()
      ensures !keyframe && !congested
    {
      keyframe, congested := false, false;
    }

    ghost function View(): Control
      reads this
    {
      Control(keyframe, congested)
    }

    method RequestKeyframe()
      modifies this
      ensures View() == old(View()).(keyframe := true)
    {
      keyframe := true;
    }
  }

  class FrameQueue {
    var frames: seq<StreamFrame>
    var closed: bool
    const limit: nat

    constructor (limit: nat)
      ensures View() == Queue([], limit, false)
    {
      this.limit := limit;
      frames, closed := [], false;
    }

    ghost function View(): Queue
      reads this
    {
      Queue(frames, limit, closed)
    }

    /** The consumer's side: takes frames from the front and may go away. */
    method Consumer(o: Oracle)
      modifies this
      ensures View() == Consume(old(View()), o)
    {
      frames := frames[Min(o.took, |frames|)..];
      closed := closed || o.leaves;
    }

    method Offer(f: StreamFrame) returns (sent: Sent)
      modifies this
      ensures (View(), sent) == TrySend(old(View()), f)
    {
      if closed {
        return Closed;
      }
      if |frames| >= limit {
        return Full;
      }
      frames := frames + [f];
      return Accepted;
    }
  }

  class H264Encoder {
    const w: nat
    const h: nat
    const control: VideoControl
    var codec: Codec
    var bitrate: nat
    var last: Option<seq<byte>>
    var pending: bool
    var lastSent: int
    var lastRateChange: int
    var lastCongestion: int
    var lastForced: Option<int>

    constructor (w: nat, h: nat, control: VideoControl, now: int)
      requires NewEncoder(w, h, now).Some?
      ensures View() == NewEncoder(w, h, now).value && this.control == control
    {
      this.w, this.h, this.control := w, h, control;
      codec, bitrate, last, pending := FreshCodec, MAX_BPS, None, false;
      lastSent, lastRateChange, lastCongestion, lastForced := now, now, now, None;
    }

    ghost function View(): Encoder
      reads this
    {
      Encoder(w, h, codec, bitrate, last, pending, lastSent, lastRateChange, lastCongestion, lastForced)
    }

    method ChangeBitrate(bps: nat, o: Oracle)
      modifies this, control
      ensures (View(), control.View()) == SetBitrate(old(View()), old(control.View()), bps, o)
    {
      if bps == bitrate {
        return;
      }
      lastRateChange := o.now;
      if o.rebuilds {
        codec := FreshCodec;
        bitrate := bps;
        control.keyframe := false;
      }
    }

    method Adapt(captured: bool, o: Oracle)
      modifies this, control
      ensures var (e1, c1) := AdaptRate(old(View()), old(control.View()), captured, o);
              (View(), control.View()) == AdaptKeyframe(e1, c1, o)
    {
      if control.congested {
        control.congested := false;
        lastCongestion := o.now;
        if o.now - lastRateChange >= LOWER_HOLDOFF {
          ChangeBitrate(Max(bitrate / 3 * 2, MIN_BPS), o);
        }
      } else if captured && o.now - lastCongestion >= RAISE_AFTER && o.now - lastRateChange >= RAISE_AFTER {
        ChangeBitrate(Min(bitrate / 4 * 5, MAX_BPS), o);
      }
      var mayForce := lastForced.None? || o.now - lastForced.value >= MIN_KEYFRAME_GAP;
      if mayForce && control.keyframe {
        control.keyframe := false;
        codec := codec.(forced := true);
        lastForced := Some(o.now);
      }
    }

    method Push(data: seq<byte>, captured: bool, tx: FrameQueue, o: Oracle) returns (alive: bool)
      modifies this, control, tx
      ensures SendResult(View(), control.View(), tx.View(), alive)
           == Send(old(View()), old(control.View()), old(tx.View()), data, captured, o)
    {
      if |data| != I420Len(w, h) {
        return true;
      }
      if tx.closed {
        return false;
      }
      if |tx.frames| >= tx.limit {
        last, pending := Some(data), true;
        control.congested := true;
        return true;
      }
      Adapt(captured, o);
      tx.Consumer(o);
      match o.outcome {
        case Skipped =>
          last, pending := Some(data), true;
          return true;
        case Failed =>
          codec := codec.(forced := false);
          last, pending := Some(data), true;
          control.RequestKeyframe();
          return true;
        case Coded(intra) =>
          var frame := Output(codec, intra, o.id);
          codec := Codec(Some(o.id), false);
          last, pending := Some(data), false;
          var sent := tx.Offer(Video(frame));
          match sent {
            case Accepted =>
              lastSent := o.now;
              return true;
            case Full =>
              assert false; // single producer, and room was checked above
            case Closed =>
              return false;
          }
      }
    }

    method Tick(tx: FrameQueue, o: Oracle) returns (alive: bool)
      modifies this, control, tx
      ensures SendResult(View(), control.View(), tx.View(), alive)
           == Heartbeat(old(View()), old(control.View()), old(tx.View()), o)
    {
      if !pending && o.now - lastSent < HEARTBEAT {
        return true;
      }
      if last.None? {
        return !tx.closed;
      }
      var data := last.value;
      last := None;
      alive := Push(data, false, tx, o);
    }
  }
}
