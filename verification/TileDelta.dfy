/**
  The tile-delta encoder (crates/rivetlink-agent/src/capture/screencast.rs) and the viewer
  that paints its deltas.

  JPEG is abstract and lossless: a patch carries the tile's pixels. Which tiles fail to
  encode is an argument, so a failing JPEG encoder is covered.
 */
module TileDelta {
  import opened Common

  const TILE := 128
  const KEYFRAME_INTERVAL := 160
  const HEARTBEAT := 1000
  const U32: nat := 0x1_0000_0000

  // ---- tiling arithmetic ----

  function DivCeil(a: nat): nat {
    (a + TILE - 1) / TILE
  }

  /** A tile's rectangle within a frame of width `fw`. */
  datatype Rect = Rect(fw: nat, x: nat, y: nat, w: nat, h: nat)

  function RectAt(w: nat, h: nat, ty: nat, tx: nat): Rect
    requires tx * TILE <= w && ty * TILE <= h
  {
    Rect(w, tx * TILE, ty * TILE, Min(TILE, w - tx * TILE), Min(TILE, h - ty * TILE))
  }

  function TileCount(w: nat, h: nat): nat {
    DivCeil(h) * DivCeil(w)
  }

  /** Offset of a tile row's first byte in the frame. */
  function Start(r: Rect, row: nat): nat {
    ((r.y + row) * r.fw + r.x) * 4
  }

  predicate RowsFit(r: Rect, n: nat) {
    forall row | 0 <= row < r.h :: Start(r, row) + r.w * 4 <= n
  }

  /** Every slice of every tile stays inside the frame. */
  lemma RectFits(w: nat, h: nat, ty: nat, tx: nat)
    requires ty < DivCeil(h) && tx < DivCeil(w)
    ensures tx * TILE < w && ty * TILE < h
    ensures RowsFit(RectAt(w, h, ty, tx), w * h * 4)
  {
    var r := RectAt(w, h, ty, tx);
    forall row | 0 <= row < r.h ensures Start(r, row) + r.w * 4 <= w * h * 4 {
      MulLe(r.y + row, h - 1, w);
      assert (r.y + row) * w + r.x + r.w <= (h - 1) * w + w == h * w;
    }
  }

  lemma MulLe(a: nat, b: nat, c: nat)
    requires a <= b
    ensures a * c <= b * c
  {
  }

  lemma RowMajor(ty: nat, tx: nat, cols: nat)
    requires tx < cols
    ensures (ty * cols + tx) / cols == ty && (ty * cols + tx) % cols == tx
  {
    var i := ty * cols + tx;
    assert i == (i / cols) * cols + i % cols;
    if i / cols < ty {
      MulLe(i / cols + 1, ty, cols);
    } else if ty < i / cols {
      MulLe(ty + 1, i / cols, cols);
    }
  }

  /** The rectangle of the tile with row-major index `i`. */
  function TileRect(w: nat, h: nat, i: nat): (r: Rect)
    requires i < TileCount(w, h)
    ensures RowsFit(r, w * h * 4) && r.fw == w
  {
    IndexInGrid(w, h, i);
    RectFits(w, h, i / DivCeil(w), i % DivCeil(w));
    RectAt(w, h, i / DivCeil(w), i % DivCeil(w))
  }

  lemma IndexInGrid(w: nat, h: nat, i: nat)
    requires i < TileCount(w, h)
    ensures DivCeil(w) > 0 && i / DivCeil(w) < DivCeil(h) && i % DivCeil(w) < DivCeil(w)
  {
    var cols, rows := DivCeil(w), DivCeil(h);
    if rows <= i / cols {
      MulLe(rows, i / cols, cols);
    }
  }

  // ---- the viewer's view of the same tiling, byte by byte ----

  /** Tile, within a frame of width `w`, that byte `k` belongs to. */
  function TileOf(w: nat, k: nat): nat
    requires w > 0
  {
    ((k / 4 / w) / TILE) * DivCeil(w) + (k / 4 % w) / TILE
  }

  /** Where byte `k` of the frame is found inside its tile's pixels. */
  function OffsetInTile(w: nat, k: nat): nat
    requires w > 0
  {
    var (px, py) := (k / 4 % w, k / 4 / w);
    ((py % TILE) * Min(TILE, w - px / TILE * TILE) + px % TILE) * 4 + k % 4
  }

  lemma PixelInFrame(w: nat, h: nat, p: nat)
    requires p < w * h
    ensures w > 0 && p / w < h && p == p / w * w + p % w && p % w < w
  {
    if h <= p / w {
      MulLe(h, p / w, w);
    }
  }

  /** The tile of a pixel, and the pixel's place in it. */
  lemma PixelInTile(w: nat, h: nat, px: nat, py: nat)
    requires px < w && py < h
    ensures var i := py / TILE * DivCeil(w) + px / TILE;
            && i < TileCount(w, h)
            && TileRect(w, h, i).x == px - px % TILE && TileRect(w, h, i).y == py - py % TILE
            && TileRect(w, h, i).w == Min(TILE, w - px / TILE * TILE)
            && px % TILE < TileRect(w, h, i).w && py % TILE < TileRect(w, h, i).h
  {
    var (tx, ty, cols) := (px / TILE, py / TILE, DivCeil(w));
    assert tx < cols && ty < DivCeil(h);
    MulLe(ty + 1, DivCeil(h), cols);
    assert (ty + 1) * cols == ty * cols + cols;
    RowMajor(ty, tx, cols);
  }

  lemma ByteInRow(row: nat, tw: nat, col: nat, b: nat)
    ensures (row * tw + col) * 4 + b == row * (tw * 4) + (col * 4 + b)
  {
  }

  /** Every byte of the frame lies in exactly one tile, at one place of one of its rows. */
  lemma Locate(w: nat, h: nat, k: nat) returns (row: nat, c: nat)
    requires k < w * h * 4
    ensures w > 0 && TileOf(w, k) < TileCount(w, h)
    ensures var r := TileRect(w, h, TileOf(w, k));
            && row < r.h && c < r.w * 4
            && Start(r, row) + c == k
            && OffsetInTile(w, k) == row * (r.w * 4) + c
  {
    var p := k / 4;
    PixelInFrame(w, h, p);
    var (px, py) := (p % w, p / w);
    PixelInTile(w, h, px, py);
    var r := TileRect(w, h, TileOf(w, k));
    row, c := py % TILE, px % TILE * 4 + k % 4;
    ByteInRow(row, r.w, px % TILE, k % 4);
    assert r.y + row == py;
  }

  // ---- tiles of a frame ----

  function Row(d: seq<byte>, r: Rect, row: nat): seq<byte>
    requires Start(r, row) + r.w * 4 <= |d|
  {
    d[Start(r, row)..Start(r, row) + r.w * 4]
  }

  predicate TileDiffers(cur: seq<byte>, prev: seq<byte>, r: Rect)
    requires RowsFit(r, |cur|) && RowsFit(r, |prev|)
  {
    exists row | 0 <= row < r.h :: Row(cur, r, row) != Row(prev, r, row)
  }

  /** The first `n` rows of a tile, one after another. */
  function Rows(d: seq<byte>, r: Rect, n: nat): seq<byte>
    requires n <= r.h && RowsFit(r, |d|)
  {
    if n == 0 then [] else Rows(d, r, n - 1) + Row(d, r, n - 1)
  }

  function TilePixels(d: seq<byte>, r: Rect): seq<byte>
    requires RowsFit(r, |d|)
  {
    Rows(d, r, r.h)
  }

  lemma {:induction false} RowsAt(d: seq<byte>, r: Rect, n: nat, row: nat, c: nat)
    requires n <= r.h && RowsFit(r, |d|) && row < n && c < r.w * 4
    ensures |Rows(d, r, n)| == n * (r.w * 4)
    ensures row * (r.w * 4) + c < |Rows(d, r, n)|
    ensures Start(r, row) + c < |d| && Rows(d, r, n)[row * (r.w * 4) + c] == d[Start(r, row) + c]
  {
    RowsLength(d, r, n);
    RowsLength(d, r, n - 1);
    MulLe(row + 1, n, r.w * 4);
    assert (row + 1) * (r.w * 4) == row * (r.w * 4) + r.w * 4;
    if row < n - 1 {
      RowsAt(d, r, n - 1, row, c);
    } else {
      assert Row(d, r, row)[c] == d[Start(r, row) + c];
    }
  }

  lemma {:induction false} RowsLength(d: seq<byte>, r: Rect, n: nat)
    requires n <= r.h && RowsFit(r, |d|)
    ensures |Rows(d, r, n)| == n * (r.w * 4)
  {
    if n > 0 {
      RowsLength(d, r, n - 1);
      assert n * (r.w * 4) == (n - 1) * (r.w * 4) + r.w * 4;
    }
  }

  method EncodeTile(frame: seq<byte>, r: Rect) returns (pixels: seq<byte>)
    requires RowsFit(r, |frame|)
    ensures pixels == TilePixels(frame, r)
  {
    pixels := [];
    for row := 0 to r.h
      invariant pixels == Rows(frame, r, row)
    {
      var start := Start(r, row);
      pixels := pixels + frame[start..start + r.w * 4];
    }
  }

  /** A frame's byte is found in its tile's pixels, where the viewer looks for it. */
  lemma PixelsAt(d: seq<byte>, w: nat, h: nat, k: nat)
    requires k < w * h * 4 <= |d|
    ensures w > 0 && TileOf(w, k) < TileCount(w, h)
    ensures var pixels := TilePixels(d, TileRect(w, h, TileOf(w, k)));
            OffsetInTile(w, k) < |pixels| && pixels[OffsetInTile(w, k)] == d[k]
  {
    var row, c := Locate(w, h, k);
    var r := TileRect(w, h, TileOf(w, k));
    RowsAt(d, r, r.h, row, c);
  }

  lemma RowByte(d: seq<byte>, r: Rect, row: nat, c: nat)
    requires Start(r, row) + r.w * 4 <= |d| && c < r.w * 4
    ensures Row(d, r, row)[c] == d[Start(r, row) + c]
  {
  }

  /** Equal tiles have equal bytes. */
  lemma SameTileSameByte(a: seq<byte>, b: seq<byte>, w: nat, h: nat, k: nat)
    requires k < w * h * 4 <= |a| && w * h * 4 <= |b|
    requires w > 0 && TileOf(w, k) < TileCount(w, h)
    requires !TileDiffers(a, b, TileRect(w, h, TileOf(w, k)))
    ensures a[k] == b[k]
  {
    var row, c := Locate(w, h, k);
    var r := TileRect(w, h, TileOf(w, k));
    assert Row(a, r, row) == Row(b, r, row);
    RowByte(a, r, row, c);
    RowByte(b, r, row, c);
  }

  // ---- the viewer ----

  datatype TilePatch = TilePatch(i: nat, pixels: seq<byte>)

  datatype FrameDelta = FrameDelta(w: nat, h: nat, keyframe: bool, tiles: seq<TilePatch>)

  datatype Canvas = Canvas(w: nat, h: nat, px: seq<byte>)

  /** Paint one patch over the tile with its row-major index. */
  function Paint(px: seq<byte>, w: nat, t: TilePatch): (r: seq<byte>)
    requires w > 0
    ensures |r| == |px|
  {
    seq(|px|, k requires 0 <= k < |px| =>
      if TileOf(w, k) == t.i && OffsetInTile(w, k) < |t.pixels| then t.pixels[OffsetInTile(w, k)] else px[k])
  }

  function PaintAll(px: seq<byte>, w: nat, tiles: seq<TilePatch>): (r: seq<byte>)
    requires w > 0
    ensures |r| == |px|
  {
    if tiles == [] then px else Paint(PaintAll(px, w, tiles[..|tiles| - 1]), w, Last(tiles))
  }

  function Blank(w: nat, h: nat): seq<byte> {
    seq(w * h * 4, _ => 0)
  }

  function Show(v: Option<Canvas>, d: FrameDelta): Option<Canvas> {
    if d.w == 0 then v
    else if v.Some? && v.value.w == d.w && v.value.h == d.h then Some(v.value.(px := PaintAll(v.value.px, d.w, d.tiles)))
    else Some(Canvas(d.w, d.h, PaintAll(Blank(d.w, d.h), d.w, d.tiles)))
  }

  // ---- the encoder ----

  datatype SentFrame = SentFrame(w: nat, h: nat, data: seq<byte>)

  datatype Tiler = Tiler(prev: Option<SentFrame>, counter: nat, lastSent: int)

  const NewTiler := Tiler(None, 0, 0)

  function ToU32(n: nat): nat {
    if n < U32 then n else 0
  }

  predicate WellFormed(w: nat, h: nat, data: seq<byte>) {
    w > 0 && h > 0 && |data| >= w * h * 4
  }

  predicate DimsChanged(prev: Option<SentFrame>, w: nat, h: nat) {
    prev.None? || prev.value.w != w || prev.value.h != h
  }

  predicate Keyframe(t: Tiler, w: nat, h: nat) {
    DimsChanged(t.prev, w, h) || t.counter % KEYFRAME_INTERVAL == 0
  }

  predicate Valid(t: Tiler) {
    t.prev.Some? ==> WellFormed(t.prev.value.w, t.prev.value.h, t.prev.value.data)
  }

  /** What a frame is compared with: nothing for a keyframe, else a sent frame of its size. */
  datatype Against = Everything | Frame(prev: seq<byte>)

  function Reference(t: Tiler, w: nat, h: nat): Against {
    if Keyframe(t, w, h) then Everything else Frame(t.prev.value.data)
  }

  predicate Comparable(a: Against, w: nat, h: nat, data: seq<byte>) {
    w * h * 4 <= |data| && (a.Frame? ==> w * h * 4 <= |a.prev|)
  }

  predicate Changed(a: Against, w: nat, h: nat, data: seq<byte>, i: nat)
    requires Comparable(a, w, h, data) && i < TileCount(w, h)
  {
    a.Everything? || TileDiffers(data, a.prev, TileRect(w, h, i))
  }

  /** Tile `i`'s patch, if it changed and could be encoded. */
  function PatchOf(a: Against, w: nat, h: nat, data: seq<byte>, failing: set<nat>, i: nat): seq<TilePatch>
    requires Comparable(a, w, h, data) && i < TileCount(w, h)
  {
    if Changed(a, w, h, data, i) && i !in failing
    then [TilePatch(ToU32(i), TilePixels(data, TileRect(w, h, i)))]
    else []
  }

  /** The patches of the first `n` tiles in row-major order. */
  function Patches(a: Against, w: nat, h: nat, data: seq<byte>, failing: set<nat>, n: nat): seq<TilePatch>
    requires Comparable(a, w, h, data) && n <= TileCount(w, h)
  {
    if n == 0 then [] else Patches(a, w, h, data, failing, n - 1) + PatchOf(a, w, h, data, failing, n - 1)
  }

  datatype PushResult = PushResult(t: Tiler, queued: Option<FrameDelta>, alive: bool)

  function Push(t: Tiler, w: nat, h: nat, data: seq<byte>, failing: set<nat>, room: Sent, now: int): PushResult
    requires Valid(t)
  {
    if !WellFormed(w, h, data) then PushResult(t, None, true)
    else
      var keyframe := Keyframe(t, w, h);
      var t1 := t.(counter := (t.counter + 1) % U32);
      var tiles := Patches(Reference(t, w, h), w, h, data, failing, TileCount(w, h));
      if tiles == [] && !keyframe && now - t.lastSent < HEARTBEAT then PushResult(t1, None, true)
      else
        match room
        case Accepted =>
          PushResult(t1.(lastSent := now, prev := Some(SentFrame(w, h, data))),
                     Some(FrameDelta(ToU32(w), ToU32(h), keyframe, tiles)), true)
        case Full => PushResult(t1, None, true)
        case Closed => PushResult(t1, None, false)
  }

  function Heartbeat(t: Tiler, room: Sent, now: int): PushResult {
    if t.prev.None? || now - t.lastSent < HEARTBEAT then PushResult(t, None, true)
    else
      match room
      case Accepted =>
        PushResult(t.(lastSent := now),
                   Some(FrameDelta(ToU32(t.prev.value.w), ToU32(t.prev.value.h), false, [])), true)
      case Full => PushResult(t, None, true)
      case Closed => PushResult(t, None, false)
  }

  /** One cell of the tile grid in `push`. */
  method Cell(a: Against, w: nat, h: nat, data: seq<byte>, failing: set<nat>, ty: nat, tx: nat, i: nat)
    returns (tiles: seq<TilePatch>)
    requires Comparable(a, w, h, data)
    requires ty < DivCeil(h) && tx < DivCeil(w) && i == ty * DivCeil(w) + tx && i < TileCount(w, h)
    ensures tiles == PatchOf(a, w, h, data, failing, i)
  {
    RectFits(w, h, ty, tx);
    RowMajor(ty, tx, DivCeil(w));
    var (x0, y0) := (tx * TILE, ty * TILE);
    var rect := Rect(w, x0, y0, Min(TILE, w - x0), Min(TILE, h - y0));
    assert rect == TileRect(w, h, i);
    if (a.Frame? && !TileDiffers(data, a.prev, rect)) || i in failing {
      return [];
    }
    var pixels := EncodeTile(data, rect);
    tiles := [TilePatch(ToU32(i), pixels)];
  }

  /** A row of the grid begins at tile `row`. */
  predicate RowAt(w: nat, h: nat, ty: nat, row: nat) {
    ty < DivCeil(h) && row == ty * DivCeil(w) && row + DivCeil(w) <= TileCount(w, h)
  }

  lemma NextRow(w: nat, h: nat, ty: nat)
    requires ty < DivCeil(h)
    ensures RowAt(w, h, ty, ty * DivCeil(w)) && (ty + 1) * DivCeil(w) == ty * DivCeil(w) + DivCeil(w)
  {
    MulLe(ty + 1, DivCeil(h), DivCeil(w));
  }

  /** The tiles of the first `n`, as far as the grid goes. */
  ghost predicate Has(tiles: seq<TilePatch>, a: Against, w: nat, h: nat, data: seq<byte>, failing: set<nat>, n: nat)
    requires Comparable(a, w, h, data)
  {
    n <= TileCount(w, h) && tiles == Patches(a, w, h, data, failing, n)
  }

  method AddCell(a: Against, w: nat, h: nat, data: seq<byte>, failing: set<nat>, ty: nat, row: nat, tx: nat, before: seq<TilePatch>)
    returns (tiles: seq<TilePatch>)
    requires Comparable(a, w, h, data) && RowAt(w, h, ty, row) && tx < DivCeil(w) && Has(before, a, w, h, data, failing, row + tx)
    ensures Has(tiles, a, w, h, data, failing, row + tx + 1)
  {
    var patch := Cell(a, w, h, data, failing, ty, tx, row + tx);
    tiles := before + patch;
  }

  /** One row of the tile grid, after the tiles before it. */
  method DiffRow(a: Against, w: nat, h: nat, data: seq<byte>, failing: set<nat>, ty: nat, row: nat, before: seq<TilePatch>)
    returns (tiles: seq<TilePatch>)
    requires Comparable(a, w, h, data) && RowAt(w, h, ty, row) && Has(before, a, w, h, data, failing, row)
    ensures Has(tiles, a, w, h, data, failing, row + DivCeil(w))
  {
    tiles := before;
    for tx := 0 to DivCeil(w)
      invariant Has(tiles, a, w, h, data, failing, row + tx)
    {
      tiles := AddCell(a, w, h, data, failing, ty, row, tx, tiles);
    }
  }

  /** The nested tile loops of `push`. */
  method Diff(a: Against, w: nat, h: nat, data: seq<byte>, failing: set<nat>) returns (tiles: seq<TilePatch>)
    requires Comparable(a, w, h, data)
    ensures tiles == Patches(a, w, h, data, failing, TileCount(w, h))
  {
    tiles := [];
    ghost var row := 0;
    for ty := 0 to DivCeil(h)
      invariant row == ty * DivCeil(w) && Has(tiles, a, w, h, data, failing, row)
    {
      NextRow(w, h, ty);
      tiles := DiffRow(a, w, h, data, failing, ty, ty * DivCeil(w), tiles);
      row := row + DivCeil(w);
    }
  }

  class TileEncoder {
    var prev: Option<SentFrame>
    var counter: nat
    var lastSent: int

    constructor (now: int)
      ensures View() == NewTiler.(lastSent := now)
    {
      prev, counter, lastSent := None, 0, now;
    }

    ghost function View(): Tiler
      reads this
    {
      Tiler(prev, counter, lastSent)
    }

    method PushFrame(w: nat, h: nat, data: seq<byte>, failing: set<nat>, room: Sent, now: int)
      returns (queued: Option<FrameDelta>, alive: bool)
      requires Valid(View())
      modifies this
      ensures PushResult(View(), queued, alive) == Push(old(View()), w, h, data, failing, room, now)
    {
      if w == 0 || h == 0 || |data| < w * h * 4 {
        return None, true;
      }
      var dimsChanged := prev.None? || prev.value.w != w || prev.value.h != h;
      var keyframe := dimsChanged || counter % KEYFRAME_INTERVAL == 0;
      counter := (counter + 1) % U32;
      var tiles := Diff(if keyframe then Everything else Frame(prev.value.data), w, h, data, failing);
      if tiles == [] && !keyframe && now - lastSent < HEARTBEAT {
        return None, true;
      }
      match room {
        case Accepted =>
          lastSent := now;
          prev := Some(SentFrame(w, h, data));
          return Some(FrameDelta(ToU32(w), ToU32(h), keyframe, tiles)), true;
        case Full => return None, true;
        case Closed => return None, false;
      }
    }

    method Beat(room: Sent, now: int) returns (queued: Option<FrameDelta>, alive: bool)
      modifies this
      ensures PushResult(View(), queued, alive) == Heartbeat(old(View()), room, now)
    {
      if prev.None? || now - lastSent < HEARTBEAT {
        return None, true;
      }
      match room {
        case Accepted =>
          lastSent := now;
          return Some(FrameDelta(ToU32(prev.value.w), ToU32(prev.value.h), false, [])), true;
        case Full => return None, true;
        case Closed => return None, false;
      }
    }
  }

  // ---- the viewer holds the last queued frame ----

  /** The canvas shows `prev` everywhere outside the tiles in `stale`. */
  predicate Agrees(prev: Option<SentFrame>, v: Option<Canvas>, stale: set<nat>) {
    match prev
    case None => v.None?
    case Some(f) =>
      && WellFormed(f.w, f.h, f.data)
      && v.Some? && v.value.w == f.w && v.value.h == f.h && |v.value.px| == f.w * f.h * 4
      && forall k | 0 <= k < |v.value.px| && TileOf(f.w, k) !in stale :: v.value.px[k] == f.data[k]
  }

  /** Sizes whose tile indices fit the wire format. */
  predicate Representable(w: nat, h: nat) {
    w < U32 && h < U32 && TileCount(w, h) <= U32
  }

  /** Every patch is the tile of `d` it names. */
  predicate Faithful(tiles: seq<TilePatch>, d: seq<byte>, w: nat, h: nat)
    requires WellFormed(w, h, d)
  {
    forall t | t in tiles :: t.i < TileCount(w, h) && t.pixels == TilePixels(d, TileRect(w, h, t.i))
  }

  predicate Patched(tiles: seq<TilePatch>, i: nat) {
    exists t | t in tiles :: t.i == i
  }

  lemma {:induction false} PaintAllAt(px: seq<byte>, d: seq<byte>, w: nat, h: nat, tiles: seq<TilePatch>, k: nat)
    requires WellFormed(w, h, d) && |px| == w * h * 4 && k < |px| && Faithful(tiles, d, w, h)
    ensures PaintAll(px, w, tiles)[k] == if Patched(tiles, TileOf(w, k)) then d[k] else px[k]
  {
    if tiles != [] {
      var front, t := tiles[..|tiles| - 1], Last(tiles);
      assert tiles == front + [t];
      assert t in tiles && Faithful(front, d, w, h);
      PaintAllAt(px, d, w, h, front, k);
      PixelsAt(d, w, h, k);
      var i := TileOf(w, k);
      assert Patched(tiles, i) <==> Patched(front, i) || t.i == i;
    }
  }

  lemma {:induction false} PatchesFaithful(a: Against, w: nat, h: nat, data: seq<byte>, failing: set<nat>, n: nat)
    requires WellFormed(w, h, data) && Comparable(a, w, h, data) && n <= TileCount(w, h) && Representable(w, h)
    ensures Faithful(Patches(a, w, h, data, failing, n), data, w, h)
  {
    if n > 0 {
      PatchesFaithful(a, w, h, data, failing, n - 1);
    }
  }

  lemma PatchOfOne(a: Against, w: nat, h: nat, data: seq<byte>, failing: set<nat>, i: nat)
    requires WellFormed(w, h, data) && Comparable(a, w, h, data) && i < TileCount(w, h) && Representable(w, h)
    ensures var p := PatchOf(a, w, h, data, failing, i);
            |p| <= 1 && (p != [] <==> Changed(a, w, h, data, i) && i !in failing) && (p != [] ==> p[0].i == i)
  {
  }

  lemma {:induction false} PatchedIff(a: Against, w: nat, h: nat, data: seq<byte>, failing: set<nat>, n: nat, i: nat)
    requires WellFormed(w, h, data) && Comparable(a, w, h, data) && n <= TileCount(w, h) && Representable(w, h)
    ensures Patched(Patches(a, w, h, data, failing, n), i) <==> i < n && Changed(a, w, h, data, i) && i !in failing
  {
    if n > 0 {
      PatchedIff(a, w, h, data, failing, n - 1, i);
      PatchOfOne(a, w, h, data, failing, n - 1);
      PatchedAppend(Patches(a, w, h, data, failing, n - 1), PatchOf(a, w, h, data, failing, n - 1), i);
    }
  }

  lemma PatchedAppend(front: seq<TilePatch>, last: seq<TilePatch>, i: nat)
    requires |last| <= 1
    ensures Patched(front + last, i) <==> Patched(front, i) || (last != [] && last[0].i == i)
  {
    if last != [] {
      assert last[0] in front + last;
    }
  }

  /** Which tiles a push sends: the changed ones that could be encoded, each with its pixels. */
  lemma PatchesOf(a: Against, w: nat, h: nat, data: seq<byte>, failing: set<nat>, n: nat)
    requires WellFormed(w, h, data) && Comparable(a, w, h, data) && n <= TileCount(w, h) && Representable(w, h)
    ensures var tiles := Patches(a, w, h, data, failing, n);
            && Faithful(tiles, data, w, h)
            && forall i: nat :: Patched(tiles, i) <==> i < n && Changed(a, w, h, data, i) && i !in failing
  {
    PatchesFaithful(a, w, h, data, failing, n);
    forall i: nat
      ensures Patched(Patches(a, w, h, data, failing, n), i) <==> i < n && Changed(a, w, h, data, i) && i !in failing
    {
      PatchedIff(a, w, h, data, failing, n, i);
    }
  }

  /** After a queued push, only tiles that failed now, or failed before and have not changed
      since, may be stale. A keyframe heals all others. */
  function StaleAfter(a: Against, stale: set<nat>, w: nat, h: nat, data: seq<byte>, failing: set<nat>): set<nat>
    requires Comparable(a, w, h, data)
  {
    set i: nat | i < TileCount(w, h) && if Changed(a, w, h, data, i) then i in failing else i in stale
  }

  lemma PushedByte(a: Against, base: seq<byte>, stale: set<nat>, w: nat, h: nat, data: seq<byte>, failing: set<nat>, k: nat)
    requires WellFormed(w, h, data) && Comparable(a, w, h, data) && Representable(w, h) && k < |base| == w * h * 4
    requires w > 0 && TileOf(w, k) !in StaleAfter(a, stale, w, h, data, failing)
    requires a.Frame? && TileOf(w, k) !in stale ==> base[k] == a.prev[k]
    ensures PaintAll(base, w, Patches(a, w, h, data, failing, TileCount(w, h)))[k] == data[k]
  {
    PatchesFaithful(a, w, h, data, failing, TileCount(w, h));
    PatchedIff(a, w, h, data, failing, TileCount(w, h), TileOf(w, k));
    PaintAllAt(base, data, w, h, Patches(a, w, h, data, failing, TileCount(w, h)), k);
    PixelsAt(data, w, h, k);
    if !Changed(a, w, h, data, TileOf(w, k)) {
      SameTileSameByte(data, a.prev, w, h, k);
    }
  }

  lemma PushAgrees(t: Tiler, v: Option<Canvas>, stale: set<nat>, w: nat, h: nat, data: seq<byte>, failing: set<nat>, now: int)
    requires Valid(t) && WellFormed(w, h, data) && Representable(w, h) && Agrees(t.prev, v, stale)
    requires Push(t, w, h, data, failing, Accepted, now).queued.Some?
    ensures var r := Push(t, w, h, data, failing, Accepted, now);
            && r.t.prev == Some(SentFrame(w, h, data))
            && Agrees(r.t.prev, Show(v, r.queued.value), StaleAfter(Reference(t, w, h), stale, w, h, data, failing))
  {
    var a := Reference(t, w, h);
    var base := if DimsChanged(t.prev, w, h) then Blank(w, h) else v.value.px;
    var after := PaintAll(base, w, Patches(a, w, h, data, failing, TileCount(w, h)));
    var stale' := StaleAfter(a, stale, w, h, data, failing);
    forall k | 0 <= k < |after| && TileOf(w, k) !in stale' ensures after[k] == data[k] {
      PushedByte(a, base, stale, w, h, data, failing, k);
    }
  }

  // ---- whole runs ----

  datatype Event =
    | Captured(w: nat, h: nat, data: seq<byte>, failing: set<nat>, room: Sent, now: int)
    | Idle(room: Sent, now: int)

  datatype System = System(tiler: Tiler, viewer: Option<Canvas>, stale: set<nat>)

  const Init := System(NewTiler, None, {})

  function Encode(t: Tiler, e: Event): (r: PushResult)
    requires Valid(t)
    ensures Valid(r.t)
  {
    match e
    case Captured(w, h, data, failing, room, now) => Push(t, w, h, data, failing, room, now)
    case Idle(room, now) => Heartbeat(t, room, now)
  }

  function Step(s: System, e: Event): (s': System)
    requires Valid(s.tiler)
    ensures Valid(s'.tiler)
  {
    var r := Encode(s.tiler, e);
    if r.queued.None? then s.(tiler := r.t)
    else
      System(r.t, Show(s.viewer, r.queued.value),
             if e.Captured? then StaleAfter(Reference(s.tiler, e.w, e.h), s.stale, e.w, e.h, e.data, e.failing) else s.stale)
  }

  function Run(events: seq<Event>): (s: System)
    ensures Valid(s.tiler)
  {
    if events == [] then Init else Step(Run(events[..|events| - 1]), Last(events))
  }

  predicate Small(events: seq<Event>) {
    forall e | e in events && e.Captured? :: Representable(e.w, e.h)
  }

  /** For every run of pushes and heartbeats, with any frames, size changes, full or closed
      queues and failing tiles: the viewer shows the last queued frame outside the stale tiles. */
  lemma {:induction false} ViewerAgrees(events: seq<Event>)
    requires Small(events)
    ensures var s := Run(events);
            && Agrees(s.tiler.prev, s.viewer, s.stale)
            && (s.tiler.prev.Some? ==> Representable(s.tiler.prev.value.w, s.tiler.prev.value.h))
  {
    if events != [] {
      var front, e := events[..|events| - 1], Last(events);
      assert Small(front) && e in events;
      ViewerAgrees(front);
      var s := Run(front);
      if Encode(s.tiler, e).queued.Some? && e.Captured? {
        PushAgrees(s.tiler, s.viewer, s.stale, e.w, e.h, e.data, e.failing, e.now);
      }
    }
  }

  // ---- when something is sent, and when a capture is told to stop ----

  predicate SendsTile(a: Against, w: nat, h: nat, data: seq<byte>, failing: set<nat>, i: nat)
    requires Comparable(a, w, h, data)
  {
    i < TileCount(w, h) && Changed(a, w, h, data, i) && i !in failing
  }

  predicate SendsBelow(a: Against, w: nat, h: nat, data: seq<byte>, failing: set<nat>, n: nat)
    requires Comparable(a, w, h, data)
  {
    exists i | 0 <= i < n :: SendsTile(a, w, h, data, failing, i)
  }

  lemma SendsBelowStep(a: Against, w: nat, h: nat, data: seq<byte>, failing: set<nat>, n: nat)
    requires Comparable(a, w, h, data)
    ensures SendsBelow(a, w, h, data, failing, n + 1) <==> SendsBelow(a, w, h, data, failing, n) || SendsTile(a, w, h, data, failing, n)
  {
  }

  lemma PatchIsSent(a: Against, w: nat, h: nat, data: seq<byte>, failing: set<nat>, i: nat)
    requires Comparable(a, w, h, data) && i < TileCount(w, h)
    ensures PatchOf(a, w, h, data, failing, i) != [] <==> SendsTile(a, w, h, data, failing, i)
  {
  }

  lemma {:induction false} SomePatch(a: Against, w: nat, h: nat, data: seq<byte>, failing: set<nat>, n: nat)
    requires Comparable(a, w, h, data) && n <= TileCount(w, h)
    ensures Patches(a, w, h, data, failing, n) != [] <==> SendsBelow(a, w, h, data, failing, n)
  {
    if n > 0 {
      var before, last := Patches(a, w, h, data, failing, n - 1), PatchOf(a, w, h, data, failing, n - 1);
      SomePatch(a, w, h, data, failing, n - 1);
      PatchIsSent(a, w, h, data, failing, n - 1);
      SendsBelowStep(a, w, h, data, failing, n - 1);
      assert before + last != [] <==> before != [] || last != [];
    }
  }

  /** A frame is worth sending: it has a size and all its pixels, and a full one is due, a changed tile could be encoded, or it has
      been quiet for a heartbeat. */
  predicate Worth(t: Tiler, w: nat, h: nat, data: seq<byte>, failing: set<nat>, now: int)
    requires Valid(t)
  {
    w > 0 && h > 0 && |data| >= w * h * 4 &&
    (|| Keyframe(t, w, h)
     || now - t.lastSent >= HEARTBEAT
     || SendsBelow(Reference(t, w, h), w, h, data, failing, TileCount(w, h)))
  }

  lemma PushAnswers(t: Tiler, w: nat, h: nat, data: seq<byte>, failing: set<nat>, room: Sent, now: int)
    requires Valid(t)
    ensures var r, worth := Push(t, w, h, data, failing, room, now), Worth(t, w, h, data, failing, now);
            && (r.alive <==> !(worth && room.Closed?))
            && (r.queued.Some? <==> worth && room.Accepted?)
            && (r.queued.Some? ==> r.queued.value.keyframe == Keyframe(t, w, h))
            && r.t.lastSent == (if r.queued.Some? then now else t.lastSent)
  {
    if WellFormed(w, h, data) {
      SomePatch(Reference(t, w, h), w, h, data, failing, TileCount(w, h));
    }
  }

  predicate BeatDue(t: Tiler, now: int) {
    t.prev.Some? && now - t.lastSent >= HEARTBEAT
  }

  lemma BeatAnswers(t: Tiler, room: Sent, now: int)
    ensures var r := Heartbeat(t, room, now);
            && (r.alive <==> !(BeatDue(t, now) && room.Closed?))
            && (r.queued.Some? <==> BeatDue(t, now) && room.Accepted?)
            && (r.queued.Some? ==> r.queued.value.tiles == [] && !r.queued.value.keyframe)
            && r.t.lastSent == (if r.queued.Some? then now else t.lastSent)
  {
  }

  predicate Sends(t: Tiler, e: Event)
    requires Valid(t)
  {
    match e
    case Captured(w, h, data, failing, _, now) => Worth(t, w, h, data, failing, now)
    case Idle(_, now) => BeatDue(t, now)
  }

  /** In every run, a delta is queued exactly when there is something to send and room, and the
      capture is told to stop exactly when there is something to send and the viewer is gone. */
  lemma CaptureAnswersExactly(events: seq<Event>, e: Event)
    ensures var t := Run(events).tiler;
            && (Encode(t, e).queued.Some? <==> Sends(t, e) && e.room.Accepted?)
            && (Encode(t, e).alive <==> !(Sends(t, e) && e.room.Closed?))
  {
    var t := Run(events).tiler;
    match e
    case Captured(w, h, data, failing, room, now) => PushAnswers(t, w, h, data, failing, room, now);
    case Idle(room, now) => BeatAnswers(t, room, now);
  }

  /** When the last delta of a run was queued. */
  function QueuedAt(events: seq<Event>): int {
    if events == [] then NewTiler.lastSent
    else
      var front, e := events[..|events| - 1], Last(events);
      if Encode(Run(front).tiler, e).queued.Some? then e.now else QueuedAt(front)
  }

  lemma {:induction false} LastSentIsQueuedAt(events: seq<Event>)
    ensures Run(events).tiler.lastSent == QueuedAt(events)
  {
    if events != [] {
      var front := events[..|events| - 1];
      LastSentIsQueuedAt(front);
      var t := Run(front).tiler;
      match Last(events)
      case Captured(w, h, data, failing, room, now) => PushAnswers(t, w, h, data, failing, room, now);
      case Idle(room, now) => BeatAnswers(t, room, now);
    }
  }

  /** In every run, a delta that carries nothing is queued only after a heartbeat's silence, and
      while a frame was sent before, an idle capture with room queues one exactly then. */
  lemma HeartbeatsKeepTheirDistance(events: seq<Event>, e: Event)
    ensures var t := Run(events).tiler;
            var r := Encode(t, e);
            && (r.queued.Some? && r.queued.value.tiles == [] && !r.queued.value.keyframe ==> e.now - QueuedAt(events) >= HEARTBEAT)
            && (e.Idle? && e.room.Accepted? ==> (r.queued.Some? <==> t.prev.Some? && e.now - QueuedAt(events) >= HEARTBEAT))
  {
    LastSentIsQueuedAt(events);
  }

  predicate NoFailures(events: seq<Event>) {
    forall e | e in events && e.Captured? :: e.failing == {}
  }

  lemma {:induction false} NothingStale(events: seq<Event>)
    requires NoFailures(events)
    ensures Run(events).stale == {}
  {
    if events != [] {
      assert NoFailures(events[..|events| - 1]) && Last(events) in events;
      NothingStale(events[..|events| - 1]);
    }
  }

  /** With no failing tile, a viewer holds exactly the last frame that was pushed and not
      dropped, whatever was dropped before it; also when the push queued nothing because
      nothing had changed. */
  lemma ViewerShowsLastPush(events: seq<Event>)
    requires Small(events) && NoFailures(events)
    requires events != [] && Last(events).Captured? && Last(events).room.Accepted?
    requires Last(events).w > 0 && Last(events).h > 0 && |Last(events).data| >= Last(events).w * Last(events).h * 4
    ensures var (v, e) := (Run(events).viewer, Last(events));
            v == Some(Canvas(e.w, e.h, e.data[..e.w * e.h * 4]))
  {
    var s, e := Run(events[..|events| - 1]), Last(events);
    ViewerAgrees(events);
    NothingStale(events);
    var px := Run(events).viewer.value.px;
    if Encode(s.tiler, e).queued.None? {
      assert e in events;
      PatchesOf(Reference(s.tiler, e.w, e.h), e.w, e.h, e.data, {}, TileCount(e.w, e.h));
      forall k | 0 <= k < |px| ensures px[k] == e.data[k] {
        PixelsAt(e.data, e.w, e.h, k);
        assert !Patched([], TileOf(e.w, k));
        SameTileSameByte(e.data, s.tiler.prev.value.data, e.w, e.h, k);
      }
    }
    assert px == e.data[..e.w * e.h * 4];
  }

  // ---- a viewer that misses deltas ----

  /** Whether a queued delta got past the broadcast to this viewer. */
  datatype Delivery = Delivery(e: Event, heard: bool)

  predicate InGrid(w: nat, h: nat, i: nat) {
    i < TileCount(w, h)
  }

  function AllTiles(w: nat, h: nat): set<nat> {
    set i: nat | i < TileCount(w, h) && InGrid(w, h, i)
  }

  /** A delta that does not arrive is one whose tiles all fail. */
  function MissedAfter(t: Tiler, missed: set<nat>, d: Delivery): set<nat>
    requires Valid(t) && Encode(t, d.e).queued.Some?
  {
    if d.e.Idle? then missed
    else StaleAfter(Reference(t, d.e.w, d.e.h), missed, d.e.w, d.e.h, d.e.data, if d.heard then d.e.failing else AllTiles(d.e.w, d.e.h))
  }

  function LossyStep(s: System, d: Delivery): (s': System)
    requires Valid(s.tiler)
    ensures Valid(s'.tiler)
  {
    var r := Encode(s.tiler, d.e);
    if r.queued.None? then s.(tiler := r.t)
    else System(r.t, if d.heard then Show(s.viewer, r.queued.value) else s.viewer, MissedAfter(s.tiler, s.stale, d))
  }

  function LossyRun(s: System, deliveries: seq<Delivery>): (s': System)
    requires Valid(s.tiler)
    ensures Valid(s'.tiler)
    decreases |deliveries|
  {
    if deliveries == [] then s else LossyStep(LossyRun(s, deliveries[..|deliveries| - 1]), Last(deliveries))
  }

  predicate SizeOf(v: Option<Canvas>, f: SentFrame) {
    v.Some? && v.value.w == f.w && v.value.h == f.h
  }

  predicate Sound(v: Option<Canvas>) {
    v.Some? ==> |v.value.px| == v.value.w * v.value.h * 4
  }

  /** The canvas may have another size than the last frame, if it missed all of that frame. */
  predicate LossyAgrees(f: SentFrame, v: Option<Canvas>, missed: set<nat>) {
    && WellFormed(f.w, f.h, f.data) && Sound(v)
    && if SizeOf(v, f) then forall k | 0 <= k < |v.value.px| && TileOf(f.w, k) !in missed :: v.value.px[k] == f.data[k]
       else AllTiles(f.w, f.h) <= missed
  }

  lemma HeardPush(t: Tiler, v: Option<Canvas>, missed: set<nat>, w: nat, h: nat, data: seq<byte>, failing: set<nat>, now: int)
    requires Valid(t) && WellFormed(w, h, data) && Representable(w, h) && Sound(v)
    requires t.prev.Some? ==> LossyAgrees(t.prev.value, v, missed)
    requires Push(t, w, h, data, failing, Accepted, now).queued.Some?
    ensures var r := Push(t, w, h, data, failing, Accepted, now);
            LossyAgrees(SentFrame(w, h, data), Show(v, r.queued.value), StaleAfter(Reference(t, w, h), missed, w, h, data, failing))
  {
    var a := Reference(t, w, h);
    var base := if SizeOf(v, SentFrame(w, h, data)) then v.value.px else Blank(w, h);
    var after := PaintAll(base, w, Patches(a, w, h, data, failing, TileCount(w, h)));
    forall k | 0 <= k < |after| && TileOf(w, k) !in StaleAfter(a, missed, w, h, data, failing)
      ensures after[k] == data[k]
    {
      PixelsAt(data, w, h, k);
      PushedByte(a, base, missed, w, h, data, failing, k);
    }
  }

  lemma UnheardPush(t: Tiler, v: Option<Canvas>, missed: set<nat>, w: nat, h: nat, data: seq<byte>)
    requires Valid(t) && WellFormed(w, h, data) && Sound(v)
    requires t.prev.Some? ==> LossyAgrees(t.prev.value, v, missed)
    ensures LossyAgrees(SentFrame(w, h, data), v, StaleAfter(Reference(t, w, h), missed, w, h, data, AllTiles(w, h)))
  {
    var a, f := Reference(t, w, h), SentFrame(w, h, data);
    if SizeOf(v, f) {
      forall k | 0 <= k < |v.value.px| && TileOf(w, k) !in StaleAfter(a, missed, w, h, data, AllTiles(w, h))
        ensures v.value.px[k] == data[k]
      {
        PixelsAt(data, w, h, k);
        SameTileSameByte(data, a.prev, w, h, k);
      }
    }
  }

  predicate LossyOk(s: System) {
    && Sound(s.viewer)
    && match s.tiler.prev
       case None => true
       case Some(f) => LossyAgrees(f, s.viewer, s.stale) && Representable(f.w, f.h)
  }

  /** The cache moves only with a queued delta; every well-formed frame counts. */
  lemma PushMoves(t: Tiler, w: nat, h: nat, data: seq<byte>, failing: set<nat>, room: Sent, now: int)
    requires Valid(t)
    ensures var r := Push(t, w, h, data, failing, room, now);
            && (if r.queued.Some? then r.t.prev == Some(SentFrame(w, h, data)) && room.Accepted? && WellFormed(w, h, data)
                else r.t.prev == t.prev)
            && (WellFormed(w, h, data) ==> r.t.counter == (t.counter + 1) % U32)
  {
  }

  lemma LossyPushAgrees(s: System, d: Delivery)
    requires Valid(s.tiler) && LossyOk(s) && d.e.Captured? && Representable(d.e.w, d.e.h)
    ensures LossyOk(LossyStep(s, d))
  {
    var e := d.e;
    PushMoves(s.tiler, e.w, e.h, e.data, e.failing, e.room, e.now);
    if Push(s.tiler, e.w, e.h, e.data, e.failing, e.room, e.now).queued.Some? {
      if d.heard {
        HeardPush(s.tiler, s.viewer, s.stale, e.w, e.h, e.data, e.failing, e.now);
      } else {
        UnheardPush(s.tiler, s.viewer, s.stale, e.w, e.h, e.data);
      }
    }
  }

  lemma HeardBeat(f: SentFrame, v: Option<Canvas>, missed: set<nat>)
    requires LossyAgrees(f, v, missed)
    ensures LossyAgrees(f, Show(v, FrameDelta(f.w, f.h, false, [])), missed)
  {
    if !SizeOf(v, f) {
      forall k | 0 <= k < f.w * f.h * 4
        ensures TileOf(f.w, k) in missed
      {
        PixelsAt(f.data, f.w, f.h, k);
        assert InGrid(f.w, f.h, TileOf(f.w, k));
      }
    }
  }

  lemma LossyBeatAgrees(s: System, d: Delivery)
    requires Valid(s.tiler) && LossyOk(s) && d.e.Idle?
    ensures LossyOk(LossyStep(s, d))
  {
    var r := Heartbeat(s.tiler, d.e.room, d.e.now);
    if r.queued.Some? && d.heard {
      HeardBeat(s.tiler.prev.value, s.viewer, s.stale);
    }
  }

  lemma LossyStepAgrees(s: System, d: Delivery)
    requires Valid(s.tiler) && LossyOk(s) && (d.e.Captured? ==> Representable(d.e.w, d.e.h))
    ensures LossyOk(LossyStep(s, d))
  {
    if d.e.Captured? {
      LossyPushAgrees(s, d);
    } else {
      LossyBeatAgrees(s, d);
    }
  }

  predicate SmallDeliveries(deliveries: seq<Delivery>) {
    forall d | d in deliveries && d.e.Captured? :: Representable(d.e.w, d.e.h)
  }

  /** For every run and every pattern of lost deltas: outside the tiles it missed, a viewer
      shows the last queued frame. */
  lemma {:induction false} LossyViewerAgrees(deliveries: seq<Delivery>)
    requires SmallDeliveries(deliveries)
    ensures LossyOk(LossyRun(Init, deliveries))
  {
    if deliveries != [] {
      var front, d := deliveries[..|deliveries| - 1], Last(deliveries);
      assert SmallDeliveries(front) && d in deliveries;
      LossyViewerAgrees(front);
      LossyStepAgrees(LossyRun(Init, front), d);
    }
  }

  /** Whatever the canvas was, a keyframe that arrives with all its tiles makes it the frame. */
  lemma KeyframeHeals(t: Tiler, v: Option<Canvas>, w: nat, h: nat, data: seq<byte>, now: int)
    requires Valid(t) && WellFormed(w, h, data) && Representable(w, h) && Sound(v) && Keyframe(t, w, h)
    ensures var r := Push(t, w, h, data, {}, Accepted, now);
            r.queued.Some? && Show(v, r.queued.value) == Some(Canvas(w, h, data[..w * h * 4]))
  {
    var q := t.(prev := None);
    HeardPush(q, v, {}, w, h, data, {}, now);
    var px := Show(v, Push(q, w, h, data, {}, Accepted, now).queued.value).value.px;
    assert px == data[..w * h * 4];
  }
}
