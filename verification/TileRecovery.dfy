/**
  How long a wrong tile stays wrong (crates/rivetlink-agent/src/capture/screencast.rs): which
  frames the tile encoder sends in full, and what it costs a viewer when one of those does not
  get through.
 */
module TileRecovery {
  import opened Common
  import opened TileDelta

  // ---- which frames are sent in full ----

  function Frames(deliveries: seq<Delivery>): nat {
    if deliveries == [] then 0 else Frames(deliveries[..|deliveries| - 1]) + if Last(deliveries).e.Captured? then 1 else 0
  }

  predicate Steady(d: Delivery, w: nat, h: nat) {
    d.e.Captured? ==> d.e.w == w && d.e.h == h && WellFormed(w, h, d.e.data)
  }

  predicate FullTurn(n: nat) {
    n % U32 % KEYFRAME_INTERVAL == 0
  }

  lemma CountsOn(x: nat)
    ensures (x % U32 + 1) % U32 == (x + 1) % U32
  {
    var q := x / U32;
    assert x == q * U32 + x % U32;
    if x % U32 + 1 == U32 {
      assert x + 1 == (q + 1) * U32;
    }
  }

  predicate Counted(t: Tiler, n: nat, w: nat, h: nat) {
    t.counter == n % U32 && !DimsChanged(t.prev, w, h)
  }

  function Count(d: Delivery, n: nat): nat {
    if d.e.Captured? then n + 1 else n
  }

  lemma StepCounts(s: System, d: Delivery, n: nat, w: nat, h: nat)
    requires Valid(s.tiler) && Counted(s.tiler, n, w, h) && Steady(d, w, h)
    ensures Counted(LossyStep(s, d).tiler, Count(d, n), w, h)
  {
    if d.e.Captured? {
      CountsOn(n);
      PushMoves(s.tiler, w, h, d.e.data, d.e.failing, d.e.room, d.e.now);
    }
  }

  lemma {:induction false} FramesAreCounted(s: System, deliveries: seq<Delivery>, n: nat, w: nat, h: nat)
    requires Valid(s.tiler) && Counted(s.tiler, n, w, h) && forall d | d in deliveries :: Steady(d, w, h)
    ensures Counted(LossyRun(s, deliveries).tiler, n + Frames(deliveries), w, h)
    decreases |deliveries|
  {
    if deliveries != [] {
      var front, d := deliveries[..|deliveries| - 1], Last(deliveries);
      assert d in deliveries && forall x | x in front :: x in deliveries;
      FramesAreCounted(s, front, n, w, h);
      StepCounts(LossyRun(s, front), d, n + Frames(front), w, h);
    }
  }

  /** At one size, only the number of frames decides which is sent in full, whatever became of
      those sent in full before. */
  lemma FullFramesAreCounted(s: System, deliveries: seq<Delivery>, w: nat, h: nat)
    requires Valid(s.tiler) && !DimsChanged(s.tiler.prev, w, h) && s.tiler.counter < U32
    requires forall d | d in deliveries :: Steady(d, w, h)
    ensures Keyframe(LossyRun(s, deliveries).tiler, w, h) <==> FullTurn(s.tiler.counter + Frames(deliveries))
  {
    FramesAreCounted(s, deliveries, s.tiler.counter, w, h);
  }

  // ---- a tile that does not change ----

  /** Byte `k` of a frame `f`, and so the tile that holds it. */
  datatype Spot = Spot(f: SentFrame, k: nat)

  predicate Proper(x: Spot) {
    WellFormed(x.f.w, x.f.h, x.f.data) && Representable(x.f.w, x.f.h) && x.k < x.f.w * x.f.h * 4 && Tile(x) < TileCount(x.f.w, x.f.h)
  }

  function Tile(x: Spot): nat {
    if x.f.w == 0 then 0 else TileOf(x.f.w, x.k)
  }

  /** `data` is a frame of that size with the same tile. */
  predicate SameTile(x: Spot, data: seq<byte>)
    requires Proper(x)
  {
    WellFormed(x.f.w, x.f.h, data) && !TileDiffers(data, x.f.data, TileRect(x.f.w, x.f.h, Tile(x)))
  }

  predicate Still(x: Spot, d: Delivery)
    requires Proper(x)
  {
    d.e.Captured? ==> d.e.w == x.f.w && d.e.h == x.f.h && SameTile(x, d.e.data)
  }

  /** The encoder's last sent frame has the tile, and the canvas the size. */
  predicate Holds(x: Spot, s: System)
    requires Proper(x)
  {
    && s.tiler.prev.Some? && s.tiler.prev.value.w == x.f.w && s.tiler.prev.value.h == x.f.h && SameTile(x, s.tiler.prev.value.data)
    && SizeOf(s.viewer, x.f) && Sound(s.viewer)
  }

  /** The same after `n` frames. */
  predicate At(x: Spot, s: System, n: nat)
    requires Proper(x)
  {
    Holds(x, s) && Counted(s.tiler, n, x.f.w, x.f.h)
  }

  function Shown(x: Spot, s: System): byte
    requires Proper(x) && SizeOf(s.viewer, x.f) && Sound(s.viewer)
  {
    s.viewer.value.px[x.k]
  }

  /** The tile's patch gets to the viewer, if this frame is sent in full. */
  predicate GetsThrough(x: Spot, d: Delivery) {
    d.e.Captured? && d.e.room.Accepted? && d.heard && Tile(x) !in d.e.failing
  }

  lemma UnchangedTile(x: Spot, a: seq<byte>, b: seq<byte>)
    requires Proper(x) && SameTile(x, a) && SameTile(x, b)
    ensures !TileDiffers(a, b, TileRect(x.f.w, x.f.h, Tile(x)))
  {
    var r := TileRect(x.f.w, x.f.h, Tile(x));
    forall row | 0 <= row < r.h
      ensures Row(a, r, row) == Row(b, r, row)
    {
      assert Row(a, r, row) == Row(x.f.data, r, row) && Row(b, r, row) == Row(x.f.data, r, row);
    }
  }

  lemma PaintedByte(a: Against, base: seq<byte>, w: nat, h: nat, data: seq<byte>, failing: set<nat>, k: nat)
    requires WellFormed(w, h, data) && Comparable(a, w, h, data) && Representable(w, h) && k < |base| == w * h * 4
    requires TileOf(w, k) < TileCount(w, h)
    ensures PaintAll(base, w, Patches(a, w, h, data, failing, TileCount(w, h)))[k]
            == if Changed(a, w, h, data, TileOf(w, k)) && TileOf(w, k) !in failing then data[k] else base[k]
  {
    PatchesFaithful(a, w, h, data, failing, TileCount(w, h));
    PatchedIff(a, w, h, data, failing, TileCount(w, h), TileOf(w, k));
    PaintAllAt(base, data, w, h, Patches(a, w, h, data, failing, TileCount(w, h)), k);
  }

  lemma PushShows(x: Spot, s: System, d: Delivery)
    requires Proper(x) && Valid(s.tiler) && Holds(x, s) && Still(x, d) && d.e.Captured?
    ensures Holds(x, LossyStep(s, d))
    ensures Shown(x, LossyStep(s, d)) == if Keyframe(s.tiler, x.f.w, x.f.h) && GetsThrough(x, d) then x.f.data[x.k] else Shown(x, s)
  {
    var e, prev := d.e, s.tiler.prev.value.data;
    PushMoves(s.tiler, e.w, e.h, e.data, e.failing, e.room, e.now);
    UnchangedTile(x, e.data, prev);
    SameTileSameByte(e.data, x.f.data, x.f.w, x.f.h, x.k);
    PaintedByte(Reference(s.tiler, e.w, e.h), s.viewer.value.px, e.w, e.h, e.data, e.failing, x.k);
  }

  lemma StepShows(x: Spot, s: System, d: Delivery)
    requires Proper(x) && Valid(s.tiler) && Holds(x, s) && Still(x, d)
    ensures Holds(x, LossyStep(s, d))
    ensures Shown(x, LossyStep(s, d)) == if Keyframe(s.tiler, x.f.w, x.f.h) && GetsThrough(x, d) then x.f.data[x.k] else Shown(x, s)
  {
    if d.e.Captured? {
      PushShows(x, s, d);
    }
  }

  lemma CountedKeyframe(t: Tiler, n: nat, w: nat, h: nat)
    requires Counted(t, n, w, h)
    ensures Keyframe(t, w, h) <==> FullTurn(n)
  {
  }

  /** The step from `s` to `s'`, with `n` frames before it. */
  lemma CountedStepShows(x: Spot, s: System, d: Delivery, s': System, n: nat)
    requires Proper(x) && Valid(s.tiler) && At(x, s, n) && Still(x, d) && s' == LossyStep(s, d)
    ensures At(x, s', Count(d, n))
    ensures Shown(x, s') == if FullTurn(n) && GetsThrough(x, d) then x.f.data[x.k] else Shown(x, s)
  {
    StepCounts(s, d, n, x.f.w, x.f.h);
    CountedKeyframe(s.tiler, n, x.f.w, x.f.h);
    StepShows(x, s, d);
  }

  /** One of the frames sent in full brings the tile to the viewer; `n` came before. */
  predicate Recovers(x: Spot, deliveries: seq<Delivery>, n: nat) {
    deliveries != [] &&
    var front, d := deliveries[..|deliveries| - 1], Last(deliveries);
    Recovers(x, front, n) || (FullTurn(n + Frames(front)) && GetsThrough(x, d))
  }

  lemma OneMoreRecovers(x: Spot, before: System, after: System, deliveries: seq<Delivery>, n: nat, first: byte)
    requires deliveries != [] && Proper(x) && Still(x, Last(deliveries)) && Valid(before.tiler) && after == LossyStep(before, Last(deliveries))
    requires var front := deliveries[..|deliveries| - 1];
             && At(x, before, n + Frames(front))
             && Shown(x, before) == if Recovers(x, front, n) then x.f.data[x.k] else first
    ensures At(x, after, n + Frames(deliveries))
    ensures Shown(x, after) == if Recovers(x, deliveries, n) then x.f.data[x.k] else first
  {
    var front, d := deliveries[..|deliveries| - 1], Last(deliveries);
    assert n + Frames(deliveries) == Count(d, n + Frames(front));
    CountedStepShows(x, before, d, after, n + Frames(front));
  }

  /** Over every continuation in which a tile does not change, with any losses and heartbeats:
      a byte of it that the viewer shows wrong is put right exactly when some frame that is
      sent in full, which only counting decides, gets through with that tile. */
  lemma {:induction false} StillTileRecoversExactly(x: Spot, s: System, deliveries: seq<Delivery>, n: nat)
    requires Proper(x) && Valid(s.tiler) && At(x, s, n) && forall d | d in deliveries :: Still(x, d)
    ensures At(x, LossyRun(s, deliveries), n + Frames(deliveries))
    ensures Shown(x, LossyRun(s, deliveries)) == if Recovers(x, deliveries, n) then x.f.data[x.k] else Shown(x, s)
    decreases |deliveries|
  {
    if deliveries != [] {
      var front, d := deliveries[..|deliveries| - 1], Last(deliveries);
      assert d in deliveries && forall y | y in front :: y in deliveries;
      StillTileRecoversExactly(x, s, front, n);
      OneMoreRecovers(x, LossyRun(s, front), LossyRun(s, deliveries), deliveries, n, Shown(x, s));
    }
  }

  // ---- a full frame that is dropped ----

  lemma NoFullTurn(n: nat, j: nat)
    requires FullTurn(n) && n % U32 + KEYFRAME_INTERVAL <= U32 && 0 < j < KEYFRAME_INTERVAL
    ensures !FullTurn(n + j)
  {
    var c, q := n % U32, n / U32;
    assert n == q * U32 + c;
    assert n + j == q * U32 + (c + j) && c + j < U32;
    assert (n + j) % U32 == c + j;
  }

  lemma {:induction false} NoneRecovers(x: Spot, deliveries: seq<Delivery>, n: nat)
    requires FullTurn(n) && n % U32 + KEYFRAME_INTERVAL <= U32 && Frames(deliveries) < KEYFRAME_INTERVAL
    ensures !Recovers(x, deliveries, n + 1)
    decreases |deliveries|
  {
    if deliveries != [] {
      var front := deliveries[..|deliveries| - 1];
      NoneRecovers(x, front, n);
      if Last(deliveries).e.Captured? {
        NoFullTurn(n, Frames(front) + 1);
      }
    }
  }

  /** A full frame that does not bring the tile is not repeated: what the viewer shows there
      stays as it is for all of the 159 frames up to the next one. */
  lemma DroppedFullFrameCosts(x: Spot, s: System, dropped: Delivery, rest: seq<Delivery>, n: nat)
    requires Proper(x) && Valid(s.tiler) && At(x, s, n) && Still(x, dropped) && forall d | d in rest :: Still(x, d)
    requires FullTurn(n) && n % U32 + KEYFRAME_INTERVAL <= U32 && dropped.e.Captured? && !GetsThrough(x, dropped)
    requires Frames(rest) < KEYFRAME_INTERVAL
    ensures At(x, LossyRun(LossyStep(s, dropped), rest), n + 1 + Frames(rest))
    ensures Shown(x, LossyRun(LossyStep(s, dropped), rest)) == Shown(x, s)
  {
    CountedStepShows(x, s, dropped, LossyStep(s, dropped), n);
    StillTileRecoversExactly(x, LossyStep(s, dropped), rest, n + 1);
    NoneRecovers(x, rest, n);
  }

  // ---- such a run, for any frame ----

  predicate Sendable(f: SentFrame) {
    WellFormed(f.w, f.h, f.data) && Representable(f.w, f.h)
  }

  /** The screen shows `f` all along. */
  function Shot(f: SentFrame, failing: set<nat>, room: Sent, now: int): Delivery {
    Delivery(Captured(f.w, f.h, f.data, failing, room, now), true)
  }

  /** The first time no tile can be encoded. */
  function First(f: SentFrame): Delivery {
    Shot(f, AllTiles(f.w, f.h), Accepted, 0)
  }

  function Copies(d: Delivery, n: nat): seq<Delivery> {
    if n == 0 then [] else Copies(d, n - 1) + [d]
  }

  function Shots(f: SentFrame, n: nat): seq<Delivery> {
    [First(f)] + Copies(Shot(f, {}, Accepted, 0), n)
  }

  function Cache(f: SentFrame, counter: nat, lastSent: int): Tiler {
    Tiler(Some(f), counter, lastSent)
  }

  /** The encoder has sent `f`, and the viewer's canvas is black. */
  function Black(f: SentFrame, counter: nat, lastSent: int): System {
    System(Cache(f, counter, lastSent), Some(Canvas(f.w, f.h, Blank(f.w, f.h))), AllTiles(f.w, f.h))
  }

  lemma {:induction false} NothingEncoded(f: SentFrame, n: nat)
    requires Sendable(f) && n <= TileCount(f.w, f.h)
    ensures Patches(Everything, f.w, f.h, f.data, AllTiles(f.w, f.h), n) == []
  {
    if n > 0 {
      NothingEncoded(f, n - 1);
      assert InGrid(f.w, f.h, n - 1);
    }
  }

  lemma {:induction false} NothingChanged(f: SentFrame, n: nat)
    requires Sendable(f) && n <= TileCount(f.w, f.h)
    ensures Patches(Frame(f.data), f.w, f.h, f.data, {}, n) == []
  {
    if n > 0 {
      NothingChanged(f, n - 1);
    }
  }

  lemma FirstPush(f: SentFrame)
    requires Sendable(f)
    ensures Push(NewTiler, f.w, f.h, f.data, AllTiles(f.w, f.h), Accepted, 0) == PushResult(Cache(f, 1, 0), Some(FrameDelta(f.w, f.h, true, [])), true)
  {
    NothingEncoded(f, TileCount(f.w, f.h));
  }

  lemma FirstShot(f: SentFrame)
    requires Sendable(f)
    ensures LossyRun(Init, [First(f)]) == Black(f, 1, 0)
  {
    FirstPush(f);
    assert [First(f)][..0] == [];
    assert forall i | i in AllTiles(f.w, f.h) :: Changed(Everything, f.w, f.h, f.data, i);
    assert StaleAfter(Everything, {}, f.w, f.h, f.data, AllTiles(f.w, f.h)) == AllTiles(f.w, f.h);
  }

  lemma NoFullFrameDue(f: SentFrame, counter: nat)
    requires Sendable(f) && counter % KEYFRAME_INTERVAL != 0 && counter + 1 < U32
    ensures !Keyframe(Cache(f, counter, 0), f.w, f.h) && Reference(Cache(f, counter, 0), f.w, f.h) == Frame(f.data) && (counter + 1) % U32 == counter + 1
  {
  }

  /** Nothing changed and no full frame is due: a delta goes out only as a heartbeat. */
  lemma QuietPush(f: SentFrame, counter: nat, now: int)
    requires Sendable(f) && counter % KEYFRAME_INTERVAL != 0 && counter + 1 < U32
    ensures Push(Cache(f, counter, 0), f.w, f.h, f.data, {}, Accepted, now)
            == if now < HEARTBEAT then PushResult(Cache(f, counter + 1, 0), None, true)
               else PushResult(Cache(f, counter + 1, now), Some(FrameDelta(f.w, f.h, false, [])), true)
  {
    NoFullFrameDue(f, counter);
    NothingChanged(f, TileCount(f.w, f.h));
  }

  lemma NextShot(f: SentFrame, counter: nat)
    requires Sendable(f) && counter % KEYFRAME_INTERVAL != 0 && counter + 1 < U32
    ensures LossyStep(Black(f, counter, 0), Shot(f, {}, Accepted, 0)) == Black(f, counter + 1, 0)
  {
    QuietPush(f, counter, 0);
  }

  lemma OneMore(s: System, deliveries: seq<Delivery>, d: Delivery)
    requires Valid(s.tiler)
    ensures LossyRun(s, deliveries + [d]) == LossyStep(LossyRun(s, deliveries), d)
  {
    assert (deliveries + [d])[..|deliveries|] == deliveries;
  }

  predicate Steps(at: nat -> System, d: Delivery, i: nat) {
    Valid(at(i).tiler) && LossyStep(at(i), d) == at(i + 1)
  }

  /** A run that repeats one delivery goes through whatever states that leads through. */
  lemma {:induction false} CopiesLeadOn(at: nat -> System, d: Delivery, n: nat)
    requires Valid(at(0).tiler) && forall i: nat | i < n :: Steps(at, d, i)
    ensures LossyRun(at(0), Copies(d, n)) == at(n)
  {
    if n > 0 {
      CopiesLeadOn(at, d, n - 1);
      assert Steps(at, d, n - 1);
      OneMore(at(0), Copies(d, n - 1), d);
    }
  }

  lemma BlackSteps(f: SentFrame, at: nat -> System, i: nat)
    requires Sendable(f) && i + 1 < KEYFRAME_INTERVAL && at(i) == Black(f, i + 1, 0) && at(i + 1) == Black(f, i + 2, 0)
    ensures Steps(at, Shot(f, {}, Accepted, 0), i)
  {
    NextShot(f, i + 1);
  }

  lemma BlackLeadsOn(f: SentFrame, n: nat)
    requires Sendable(f) && n < KEYFRAME_INTERVAL
    ensures LossyRun(Black(f, 1, 0), Copies(Shot(f, {}, Accepted, 0), n)) == Black(f, n + 1, 0)
  {
    var at := (i: nat) => Black(f, i + 1, 0);
    forall i: nat | i < n
      ensures Steps(at, Shot(f, {}, Accepted, 0), i)
    {
      BlackSteps(f, at, i);
    }
    CopiesLeadOn(at, Shot(f, {}, Accepted, 0), n);
  }

  lemma {:induction false} RunsOn(s: System, a: seq<Delivery>, b: seq<Delivery>)
    requires Valid(s.tiler)
    ensures LossyRun(s, a + b) == LossyRun(LossyRun(s, a), b)
    decreases |b|
  {
    if b == [] {
      assert a + b == a;
    } else {
      var front := b[..|b| - 1];
      RunsOn(s, a, front);
      OneMore(s, a + front, Last(b));
      Associates(a, front, [Last(b)]);
      assert b == front + [Last(b)];
    }
  }

  lemma ShotsLeadOn(f: SentFrame, n: nat)
    requires Sendable(f) && n < KEYFRAME_INTERVAL
    ensures LossyRun(Init, Shots(f, n)) == Black(f, n + 1, 0)
  {
    FirstShot(f);
    BlackLeadsOn(f, n);
    RunsOn(Init, [First(f)], Copies(Shot(f, {}, Accepted, 0), n));
  }

  lemma DroppedPush(f: SentFrame)
    requires Sendable(f)
    ensures Keyframe(Cache(f, KEYFRAME_INTERVAL, 0), f.w, f.h)
    ensures LossyStep(Black(f, KEYFRAME_INTERVAL, 0), Shot(f, {}, Full, 0)) == Black(f, KEYFRAME_INTERVAL + 1, 0)
  {
  }

  lemma BlackStays(f: SentFrame)
    requires Sendable(f)
    ensures LossyStep(Black(f, KEYFRAME_INTERVAL + 1, 0), Shot(f, {}, Accepted, HEARTBEAT)) == Black(f, KEYFRAME_INTERVAL + 2, HEARTBEAT)
  {
    QuietPush(f, KEYFRAME_INTERVAL + 1, HEARTBEAT);
    assert forall i | i in AllTiles(f.w, f.h) :: InGrid(f.w, f.h, i) && !Changed(Frame(f.data), f.w, f.h, f.data, i);
    assert StaleAfter(Frame(f.data), AllTiles(f.w, f.h), f.w, f.h, f.data, {}) == AllTiles(f.w, f.h);
  }

  /** Whatever the screen shows, there is a run in which the queue is full just when that frame
      is to be sent in full, and a delta is sent after it: the viewer has been black since the
      first frame and still is. From the full queue on, `DroppedFullFrameCosts` applies. */
  lemma DroppedFullFrameIsReached(f: SentFrame, n: nat)
    requires Sendable(f) && n + 1 == KEYFRAME_INTERVAL
    ensures var shots := Shots(f, n);
            && Keyframe(LossyRun(Init, shots).tiler, f.w, f.h)
            && LossyRun(Init, shots + [Shot(f, {}, Full, 0)]) == Black(f, KEYFRAME_INTERVAL + 1, 0)
            && LossyRun(Init, shots + [Shot(f, {}, Full, 0)] + [Shot(f, {}, Accepted, HEARTBEAT)]) == Black(f, KEYFRAME_INTERVAL + 2, HEARTBEAT)
  {
    var shots, dropped, sent := Shots(f, n), Shot(f, {}, Full, 0), Shot(f, {}, Accepted, HEARTBEAT);
    ShotsLeadOn(f, n);
    DroppedPush(f);
    BlackStays(f);
    OneMore(Init, shots, dropped);
    OneMore(Init, shots + [dropped], sent);
  }
}
