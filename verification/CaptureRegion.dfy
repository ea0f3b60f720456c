/** Which pixels of an output a capture request gets (mindwm/src/capture.rs). A request is
    in logical coordinates; the pixels are those of the mode, before the output is turned. */
module CaptureRegion {
  import opened Common

  const MAX_PIXELS: int := 64 * 1024 * 1024

  datatype Size = Size(w: int, h: int)
  datatype Rect = Rect(x: int, y: int, w: int, h: int)
  datatype Point = Point(x: int, y: int)

  /** How an output is mounted. */
  datatype Transform = Normal | R90 | R180 | R270 | Flipped | Flipped90 | Flipped180 | Flipped270

  function Inverse(t: Transform): Transform {
    if t == R90 then R270 else if t == R270 then R90 else t
  }

  predicate Sideways(t: Transform) {
    t == R90 || t == R270 || t == Flipped90 || t == Flipped270
  }

  function TransformSize(t: Transform, s: Size): Size {
    if Sideways(t) then Size(s.h, s.w) else s
  }

  function TransformRect(t: Transform, r: Rect, area: Size): Rect {
    match t
    case Normal => r
    case R90 => Rect(area.h - r.y - r.h, r.x, r.h, r.w)
    case R180 => Rect(area.w - r.x - r.w, area.h - r.y - r.h, r.w, r.h)
    case R270 => Rect(r.y, area.w - r.x - r.w, r.h, r.w)
    case Flipped => Rect(area.w - r.x - r.w, r.y, r.w, r.h)
    case Flipped90 => Rect(r.y, r.x, r.h, r.w)
    case Flipped180 => Rect(r.x, area.h - r.y - r.h, r.w, r.h)
    case Flipped270 => Rect(area.h - r.y - r.h, area.w - r.x - r.w, r.h, r.w)
  }

  function Floor(x: real): int { x.Floor }

  function Ceil(x: real): int { -(-x).Floor }

  function MinR(a: real, b: real): real { if a <= b then a else b }

  function MaxR(a: real, b: real): real { if a <= b then b else a }

  function MinI(a: int, b: int): int { if a <= b then a else b }

  predicate UsableMode(mode: Size, scale: real) {
    mode.w > 0 && mode.h > 0 && mode.w * mode.h <= MAX_PIXELS && scale > 0.0
  }

  /** A logical rectangle, `[left, right) x [top, bottom)`. */
  datatype Area = Area(left: real, top: real, right: real, bottom: real)

  /** The request cut to the output, as the source does it before any integer arithmetic. */
  function Clip(oriented: Size, scale: real, requested: Option<Rect>): Option<Area>
    requires scale > 0.0
  {
    var right, bottom := oriented.w as real / scale, oriented.h as real / scale;
    match requested
    case None => Some(Area(0.0, 0.0, right, bottom))
    case Some(q) =>
      if q.w > 0 && q.h > 0 then
        Some(Area(MaxR(q.x as real, 0.0), MaxR(q.y as real, 0.0),
                  MinR(q.x as real + q.w as real, right), MinR(q.y as real + q.h as real, bottom)))
      else None
  }

  function First(lo: real, scale: real): int {
    Floor(lo * scale)
  }

  function End(hi: real, scale: real, limit: int): int {
    MinI(Ceil(hi * scale), limit)
  }

  function PixelsOf(a: Area, scale: real, oriented: Size): Rect {
    var left, top := First(a.left, scale), First(a.top, scale);
    Rect(left, top, End(a.right, scale, oriented.w) - left, End(a.bottom, scale, oriented.h) - top)
  }

  /** `capture_region`. */
  function Region(mode: Size, scale: real, t: Transform, requested: Option<Rect>): Option<Rect> {
    if !UsableMode(mode, scale) then None
    else
      var oriented := TransformSize(t, mode);
      match Clip(oriented, scale, requested)
      case None => None
      case Some(a) =>
        if a.right <= a.left || a.bottom <= a.top then None
        else
          Some(TransformRect(Inverse(t), PixelsOf(a, scale, oriented), oriented))
  }

  // -------------------------------------------------------------- a reference for it

  predicate Within(p: Point, r: Rect) {
    r.x <= p.x < r.x + r.w && r.y <= p.y < r.y + r.h
  }

  predicate OnScreen(p: Point, s: Size) {
    0 <= p.x < s.w && 0 <= p.y < s.h
  }

  /** A quarter turn of a picture of size `s`, and its mirror image. */
  function Turn(p: Point, s: Size): Point {
    Point(s.h - 1 - p.y, p.x)
  }

  function Mirror(p: Point, s: Size): Point {
    Point(s.w - 1 - p.x, p.y)
  }

  function Turns(p: Point, s: Size, n: nat): (Point, Size)
    decreases n
  {
    if n == 0 then (p, s) else Turns(Turn(p, s), Size(s.h, s.w), n - 1)
  }

  function QuarterTurns(t: Transform): nat {
    match t
    case Normal | Flipped => 0
    case R90 | Flipped90 => 1
    case R180 | Flipped180 => 2
    case R270 | Flipped270 => 3
  }

  /** Where pixel `p` of the mode is seen: turned, then mirrored. */
  function Seen(t: Transform, p: Point, mode: Size): Point {
    var (q, s) := Turns(p, mode, QuarterTurns(t));
    if t.Flipped? || t.Flipped90? || t.Flipped180? || t.Flipped270? then Mirror(q, s) else q
  }

  /** The logical square of pixel `k` along one axis shares more than its rim with `[lo, hi)`. */
  predicate Touches(k: int, scale: real, lo: real, hi: real)
    requires scale > 0.0
  {
    MaxR(k as real / scale, lo) < MinR((k + 1) as real / scale, hi)
  }

  /** Pixel `p`, where it is seen, shows part of the requested area. */
  predicate Shows(p: Point, mode: Size, scale: real, t: Transform, requested: Option<Rect>)
    requires scale > 0.0
  {
    ShowsAt(Seen(t, p, mode), scale, requested)
  }

  predicate ShowsAt(at: Point, scale: real, requested: Option<Rect>)
    requires scale > 0.0
  {
    match requested
    case None => true
    case Some(q) =>
      && Touches(at.x, scale, q.x as real, q.x as real + q.w as real)
      && Touches(at.y, scale, q.y as real, q.y as real + q.h as real)
  }

  // ---------------------------------------------------------------------- one axis

  lemma ScaleLess(a: real, b: real, scale: real)
    requires scale > 0.0
    ensures a < b / scale <==> a * scale < b
    ensures b / scale < a <==> b < a * scale
  {
  }

  /** The pixels between floor and ceiling are those that touch the span, and none is cut off
      by the edge of the output. */
  lemma AxisExact(lo: real, hi: real, scale: real, limit: int, k: int)
    requires scale > 0.0 && 0.0 <= lo < hi <= limit as real / scale
    ensures 0 <= First(lo, scale) < End(hi, scale, limit) <= limit
    ensures First(lo, scale) <= k < End(hi, scale, limit) <==> Touches(k, scale, lo, hi)
  {
    ScaleLess(hi, limit as real, scale);
    ScaleLess(lo, hi * scale, scale);
    assert hi * scale / scale == hi;
    ScaleLess(lo, (k + 1) as real, scale);
    ScaleLess(hi, k as real, scale);
    ScaleLess(k as real / scale, (k + 1) as real, scale);
    assert k as real / scale * scale == k as real;
    assert 0.0 <= lo * scale;
  }

  /** Cutting the request to the output changes nothing for the output's own pixels. */
  lemma ClipAxis(lo: real, hi: real, scale: real, limit: int, k: int)
    requires scale > 0.0 && 0 <= k < limit
    ensures Touches(k, scale, MaxR(lo, 0.0), MinR(hi, limit as real / scale)) <==> Touches(k, scale, lo, hi)
  {
  }

  // ----------------------------------------------------------------------- turning

  /** The eight formulas for rectangles are the turns and mirrors of single pixels. */
  lemma TurnedRect(t: Transform, p: Point, r: Rect, mode: Size)
    ensures Within(p, TransformRect(Inverse(t), r, TransformSize(t, mode))) <==> Within(Seen(t, p, mode), r)
  {
    TurnsAre(p, mode);
  }

  lemma TurnsAre(p: Point, s: Size)
    ensures Turns(p, s, 0) == (p, s)
    ensures Turns(p, s, 1) == (Point(s.h - 1 - p.y, p.x), Size(s.h, s.w))
    ensures Turns(p, s, 2) == (Point(s.w - 1 - p.x, s.h - 1 - p.y), s)
    ensures Turns(p, s, 3) == (Point(p.y, s.w - 1 - p.x), Size(s.h, s.w))
  {
  }

  /** A pixel of the mode is seen on the oriented screen, and only those are. */
  lemma SeenOnScreen(t: Transform, p: Point, mode: Size)
    ensures OnScreen(p, mode) <==> OnScreen(Seen(t, p, mode), TransformSize(t, mode))
  {
    TurnsAre(p, mode);
  }

  // ------------------------------------------------------------------- the theorems

  lemma WholeAxis(k: int, scale: real, limit: int)
    requires scale > 0.0 && 0 <= k < limit
    ensures Touches(k, scale, 0.0, limit as real / scale)
  {
  }

  lemma ClipShows(at: Point, scale: real, o: Size, requested: Option<Rect>)
    requires scale > 0.0 && OnScreen(at, o) && Clip(o, scale, requested).Some?
    ensures var a := Clip(o, scale, requested).value;
      ShowsAt(at, scale, requested) <==> Touches(at.x, scale, a.left, a.right) && Touches(at.y, scale, a.top, a.bottom)
  {
    hide Touches, MaxR, MinR;
    match requested
    case None =>
      WholeAxis(at.x, scale, o.w);
      WholeAxis(at.y, scale, o.h);
    case Some(q) =>
      ClipAxis(q.x as real, q.x as real + q.w as real, scale, o.w, at.x);
      ClipAxis(q.y as real, q.y as real + q.h as real, scale, o.h, at.y);
  }

  lemma PixelsExact(a: Area, scale: real, oriented: Size, p: Point)
    requires scale > 0.0 && 0.0 <= a.left < a.right <= oriented.w as real / scale
    requires 0.0 <= a.top < a.bottom <= oriented.h as real / scale
    ensures Within(p, PixelsOf(a, scale, oriented)) <==>
      Touches(p.x, scale, a.left, a.right) && Touches(p.y, scale, a.top, a.bottom)
    ensures Inside(PixelsOf(a, scale, oriented), oriented)
  {
    hide First, End, Touches;
    AxisExact(a.left, a.right, scale, oriented.w, p.x);
    AxisExact(a.top, a.bottom, scale, oriented.h, p.y);
  }

  /** The pixels captured are exactly those that show part of the request: the rectangle
      covers it and no smaller one does. */
  lemma RegionExact(mode: Size, scale: real, t: Transform, requested: Option<Rect>, p: Point)
    requires Region(mode, scale, t, requested).Some? && OnScreen(p, mode)
    ensures Within(p, Region(mode, scale, t, requested).value) <==> Shows(p, mode, scale, t, requested)
  {
    var o := TransformSize(t, mode);
    var a := Clip(o, scale, requested).value;
    SeenOnScreen(t, p, mode);
    ClipShows(Seen(t, p, mode), scale, o, requested);
    TurnedRect(t, p, PixelsOf(a, scale, o), mode);
    PixelsExact(a, scale, o, Seen(t, p, mode));
  }

  ghost predicate Inside(r: Rect, s: Size) {
    r.w > 0 && r.h > 0 && r.x >= 0 && r.y >= 0 && r.x + r.w <= s.w && r.y + r.h <= s.h
  }

  /** What comes out is a real part of the mode. */
  lemma RegionInside(mode: Size, scale: real, t: Transform, requested: Option<Rect>)
    requires Region(mode, scale, t, requested).Some?
    ensures Inside(Region(mode, scale, t, requested).value, mode)
  {
    var o := TransformSize(t, mode);
    var a := Clip(o, scale, requested).value;
    PixelsExact(a, scale, o, Point(0, 0));
  }

  /** Nothing comes out exactly when the output cannot be captured, the request is empty, or
      no pixel of the output shows any of it. */
  lemma RegionNone(mode: Size, scale: real, t: Transform, requested: Option<Rect>)
    ensures Region(mode, scale, t, requested).None? <==>
      || !UsableMode(mode, scale)
      || (requested.Some? && (requested.value.w <= 0 || requested.value.h <= 0))
      || (forall p :: OnScreen(p, mode) ==> !Shows(p, mode, scale, t, requested))
  {
    var region := Region(mode, scale, t, requested);
    if region.Some? {
      var r := region.value;
      RegionInside(mode, scale, t, requested);
      var p := Point(r.x, r.y);
      RegionExact(mode, scale, t, requested, p);
      assert OnScreen(p, mode) && Shows(p, mode, scale, t, requested);
    } else if UsableMode(mode, scale) && Clip(TransformSize(t, mode), scale, requested).Some? {
      forall p | OnScreen(p, mode) ensures !Shows(p, mode, scale, t, requested) {
        SeenOnScreen(t, p, mode);
        ClipShows(Seen(t, p, mode), scale, TransformSize(t, mode), requested);
      }
    }
  }

  /** A capture of the whole output is the whole mode, however it is scaled and turned. */
  lemma FullCapture(mode: Size, scale: real, t: Transform)
    requires UsableMode(mode, scale)
    ensures Region(mode, scale, t, None) == Some(Rect(0, 0, mode.w, mode.h))
  {
  }

  // ------------------------------------------------------------- the client's memory

  datatype Buffer = Buffer(offset: int, width: int, height: int, stride: int, xrgb: bool)

  predicate I32(x: int) { -0x8000_0000 <= x < 0x8000_0000 }

  predicate I64(x: int) { -0x8000_0000_0000_0000 <= x < 0x8000_0000_0000_0000 }

  predicate U64(x: int) { 0 <= x < 0x1_0000_0000_0000_0000 }

  function CheckedMul(a: int, b: int): Option<int> {
    if I64(a * b) then Some(a * b) else None
  }

  function CheckedAdd(a: int, b: int): Option<int> {
    if U64(a + b) then Some(a + b) else None
  }

  /** `valid_shm`. */
  predicate ValidShm(data: Buffer, pool: int, size: Size) {
    match CheckedMul(size.w, 4)
    case None => false
    case Some(stride) =>
      match CheckedMul(stride, size.h)
      case None => false
      case Some(bytes) =>
        && data.xrgb
        && data.width == size.w
        && data.height == size.h
        && data.stride == size.w * 4
        && data.offset >= 0
        && bytes > 0
        && var end := CheckedAdd(data.offset, bytes);
           end.Some? && end.value <= pool
  }

  ghost predicate Typed(data: Buffer, pool: int, size: Size) {
    I32(data.offset) && I32(data.width) && I32(data.height) && I32(data.stride) && U64(pool) && I32(size.w) &&
      I32(size.h)
  }

  /** For the sizes a capture advertises the checks turn away no usable buffer: what is
      accepted is exactly a buffer of the advertised shape whose last byte is in the pool. */
  lemma ValidShmExact(data: Buffer, pool: int, mode: Size, region: Rect)
    requires Inside(region, mode) && mode.w * mode.h <= MAX_PIXELS && Typed(data, pool, Size(region.w, region.h))
    ensures ValidShm(data, pool, Size(region.w, region.h)) <==>
      && data == Buffer(data.offset, region.w, region.h, region.w * 4, true)
      && 0 <= data.offset
      && data.offset + region.h * data.stride <= pool
  {
  }

  lemma PixelsBounded(mode: Size, r: Rect)
    requires Inside(r, mode) && mode.w * mode.h <= MAX_PIXELS
    ensures 0 < r.w * r.h <= MAX_PIXELS
  {
  }

  /** The copy writes `size.w * size.h * 4` bytes at the offset: the last byte of the last
      row is its end, and every byte of every row is inside the pool. */
  lemma BytesInside(data: Buffer, pool: int, size: Size, row: int, column: int)
    requires ValidShm(data, pool, size) && size.w > 0
    requires 0 <= row < size.h && 0 <= column < data.stride
    ensures I64(size.w * size.h * 4) && data.stride * size.h == size.w * size.h * 4
    ensures 0 <= row * data.stride + column < size.w * size.h * 4
    ensures 0 <= data.offset + row * data.stride + column < pool
  {
    RowFits(row, column, data.stride, size.h);
  }

  lemma RowFits(row: int, column: int, stride: int, rows: int)
    requires 0 <= row < rows && 0 <= column < stride
    ensures 0 <= row * stride + column < stride * rows
  {
    Products(row, stride);
    Products(rows - 1 - row, stride);
    assert stride * rows == (rows - 1 - row) * stride + row * stride + stride by { Distributes(row, rows, stride); }
  }

  lemma Products(a: int, b: int)
    requires a >= 0 && b >= 0
    ensures a * b >= 0
  {
  }

  lemma Distributes(row: int, rows: int, stride: int)
    ensures stride * rows == (rows - 1 - row) * stride + row * stride + stride
  {
  }
}
