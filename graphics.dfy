/** Stand-ins for the Android platform types the drawables work with.
    Floats are reals, a canvas is the trace of the operations issued on it, and a
    bitmap is a record of its size, the drawables stamped into it and how often it
    was blurred. */
module Graphics {

  datatype Option<+T> = None | Some(value: T)

  /** The one exception the core raises. */
  datatype Exception = IllegalArgumentException(value: int)

  datatype Result<+T> = Ok(value: T) | Err(error: Exception)

  /** The outcome of a call that returns nothing but may throw. */
  datatype Outcome = Pass | Fail(error: Exception)

  // ---------------------------------------------------------------------------
  // 32-bit integers (Kotlin `Int`)

  const TWO_31: int := 0x8000_0000
  const TWO_32: int := 0x1_0000_0000

  predicate IsInt32(x: int) {
    -TWO_31 <= x < TWO_31
  }

  /** Two's complement wrap-around of a mathematical integer to 32 bits. */
  function Wrap32(x: int): (r: int)
    ensures IsInt32(r)
    ensures IsInt32(x) ==> r == x
    ensures (r - x) % TWO_32 == 0
  {
    (x + TWO_31) % TWO_32 - TWO_31
  }

  function Pow2(n: nat): (p: nat)
    ensures p >= 1
  {
    if n == 0 then 1 else 2 * Pow2(n - 1)
  }

  /** Kotlin's `x ushr n`: the 32-bit pattern of x read as unsigned, shifted right. */
  function Ushr(x: int, n: nat): int {
    (x % TWO_32) / Pow2(n)
  }

  lemma {:induction false} Pow2Small()
    ensures Pow2(7) == 128 && Pow2(8) == 256
  {
    assert Pow2(0) == 1;
    assert Pow2(4) == 16;
  }

  /** On a non-negative Int, `ushr` is plain division. */
  lemma UshrNonNegative(x: int, n: nat)
    requires 0 <= x < TWO_31
    ensures Ushr(x, n) == x / Pow2(n)
  {
  }

  // ---------------------------------------------------------------------------
  // Colours (ARGB packed into a signed 32-bit Int)

  const TRANSPARENT: int := 0
  const WHITE: int := -1           // 0xFFFFFFFF
  const BLACK: int := -16777216    // 0xFF000000

  /** Alpha byte of a packed colour: `color ushr 24`. */
  function AlphaOf(color: int): (a: int)
    ensures 0 <= a < 256
  {
    (color % TWO_32) / 0x100_0000
  }

  // ---------------------------------------------------------------------------
  // Rectangles, corners, paths

  /** android.graphics.Rect as a value. */
  datatype IntRect = IntRect(left: int, top: int, right: int, bottom: int) {
    function Width(): int { right - left }
    function Height(): int { bottom - top }
  }

  /** android.graphics.RectF as a value. */
  datatype RealRect = RealRect(left: real, top: real, right: real, bottom: real) {
    function Width(): real { right - left }
    function Height(): real { bottom - top }
  }

  function ToRealRect(r: IntRect): RealRect {
    RealRect(r.left as real, r.top as real, r.right as real, r.bottom as real)
  }

  /** Corner family constants; any other Int is possible in the source. */
  const ROUNDED: int := 0
  const OVAL: int := 1

  /** The four per-corner radii of a shape appearance. */
  datatype CornerRadii = CornerRadii(topLeft: real, topRight: real, bottomRight: real, bottomLeft: real)

  /** The eight-float (x, y per corner) radii array the platform expects,
      clockwise from the top-left corner. */
  function RadiiArray(c: CornerRadii): (a: seq<real>)
    ensures |a| == 8
  {
    [c.topLeft, c.topLeft, c.topRight, c.topRight,
     c.bottomRight, c.bottomRight, c.bottomLeft, c.bottomLeft]
  }

  /** A path after `reset()`, one `add…` call and `close()`. All contours wind clockwise. */
  datatype Path =
    | EmptyPath
    | OvalPath(oval: RealRect)
    | RoundRectPath(rect: RealRect, radii: seq<real>)

  /** The view outline a drawable reports (`Outline`), without its alpha. */
  datatype Outline =
    | RectOutline(rect: IntRect)
    | OvalOutline(rect: IntRect)
    | RoundRectOutline(rect: IntRect, radius: real)

  // ---------------------------------------------------------------------------
  // Paints

  datatype PaintStyle = Fill | Stroke | FillAndStroke

  /** Red, green and blue of a packed colour: its low 24 bits. */
  function RgbOf(color: int): (rgb: int)
    ensures 0 <= rgb < 0x100_0000
  {
    (color % TWO_32) % 0x100_0000
  }

  /** `a` pinned into 0..255. */
  function Pin255(a: int): (p: int)
    ensures 0 <= p <= 255
    ensures 0 <= a <= 255 ==> p == a
    ensures a < 0 ==> p == 0
    ensures a > 255 ==> p == 255
  {
    if a < 0 then 0 else if a > 255 then 255 else a
  }

  /** The colour with its alpha byte replaced by `a`, as a signed 32-bit Int. */
  function WithAlpha(color: int, a: int): (c: int)
    requires 0 <= a <= 255
    ensures IsInt32(c) && AlphaOf(c) == a && RgbOf(c) == RgbOf(color)
  {
    var x := RgbOf(color) + a * 0x100_0000;
    UnsignedRoundTrip(x);
    Wrap32(x)
  }

  /** A 32-bit pattern read as unsigned survives the wrap to a signed Int. */
  lemma UnsignedRoundTrip(x: int)
    requires 0 <= x < TWO_32
    ensures Wrap32(x) % TWO_32 == x
  {
    if x >= TWO_31 {
      assert (x + TWO_31) % TWO_32 == x + TWO_31 - TWO_32;
    }
  }

  /** Putting back a colour's own alpha byte gives the colour again. */
  lemma WithOwnAlpha(color: int)
    requires IsInt32(color)
    ensures WithAlpha(color, AlphaOf(color)) == color
  {
    var u := color % TWO_32;
    assert u == AlphaOf(color) * 0x100_0000 + RgbOf(color);
    if color < 0 {
      assert u == color + TWO_32;
    }
  }

  /** A Paint. As on the platform, its alpha is the top byte of its colour. */
  datatype Paint = Paint(style: PaintStyle, color: int, strokeWidth: real) {
    /** `getAlpha()`. */
    function Alpha(): int {
      AlphaOf(color)
    }
    function SetColor(c: int): Paint {
      this.(color := c)
    }
    /** `setAlpha(a)`: only the alpha byte changes. The platform leaves an alpha
        outside 0..255 undefined; the model pins it into range, as Skia does. */
    function SetAlpha(a: int): (p: Paint)
      ensures p.Alpha() == Pin255(a) && RgbOf(p.color) == RgbOf(color)
      ensures p.style == style && p.strokeWidth == strokeWidth
    {
      this.(color := WithAlpha(color, Pin255(a)))
    }
    /** `setStrokeWidth(w)`: the platform ignores a negative width and keeps the one
        the paint had. */
    function SetStrokeWidth(w: real): Paint {
      if w >= 0.0 then this.(strokeWidth := w) else this
    }
  }

  /** `Paint().apply { style = s; color = Color.TRANSPARENT }` */
  function NewPaint(style: PaintStyle): Paint {
    Paint(style, TRANSPARENT, 0.0)
  }

  // ---------------------------------------------------------------------------
  // GradientDrawable: each shape strategy owns two and never shares them,
  // so a value that the owner reassigns stands for the object.

  const GRADIENT_RECTANGLE: int := 0
  const GRADIENT_OVAL: int := 1

  datatype GradientStroke = GradientStroke(width: int, color: int)

  datatype GradientDrawable = GradientDrawable(
    shape: int,
    cornerRadii: Option<seq<real>>,
    color: Option<int>,
    stroke: Option<GradientStroke>,
    width: int,
    height: int,
    bounds: IntRect)
  {
    function SetColor(c: int): GradientDrawable { this.(color := Some(c)) }
    function SetStroke(w: int, c: int): GradientDrawable { this.(stroke := Some(GradientStroke(w, c))) }
    function SetShape(s: int): GradientDrawable { this.(shape := s) }
    function SetCornerRadii(r: seq<real>): GradientDrawable { this.(cornerRadii := Some(r)) }
    function SetSize(w: int, h: int): GradientDrawable { this.(width := w, height := h) }
    function SetBounds(l: int, t: int, r: int, b: int): GradientDrawable { this.(bounds := IntRect(l, t, r, b)) }
  }

  /** `GradientDrawable()`: a rectangle with no colour, stroke or radii and no intrinsic size. */
  const NEW_GRADIENT: GradientDrawable :=
    GradientDrawable(GRADIENT_RECTANGLE, None, None, None, -1, -1, IntRect(0, 0, 0, 0))

  // ---------------------------------------------------------------------------
  // Bitmaps and blurring

  /** A drawable drawn into a bitmap under a translation of (dx, dy). */
  datatype Stamp = Stamp(drawable: GradientDrawable, dx: real, dy: real)

  datatype Bitmap = Bitmap(width: int, height: int, stamps: seq<Stamp>, blurCount: nat) {
    /** Drawing a drawable into this bitmap's canvas. */
    function Draw(g: GradientDrawable, dx: real, dy: real): Bitmap {
      this.(stamps := stamps + [Stamp(g, dx, dy)])
    }
  }

  /** The IllegalArgumentException `createBitmap` throws, carrying the first side
      that is not positive. */
  function SizeError(w: int, h: int): Exception {
    IllegalArgumentException(if w <= 0 then w else h)
  }

  /** `Bitmap.createBitmap(w, h, ARGB_8888)`: an empty, never blurred w×h bitmap,
      or the IllegalArgumentException the platform throws unless both sides are positive. */
  function CreateBitmap(w: int, h: int): (r: Result<Bitmap>)
    ensures r.Ok? <==> w > 0 && h > 0
    ensures r.Ok? ==> r.value.width == w && r.value.height == h && r.value.stamps == [] && r.value.blurCount == 0
    ensures r.Err? ==> r.error == SizeError(w, h)
  {
    if w > 0 && h > 0 then Ok(Bitmap(w, h, [], 0)) else Err(SizeError(w, h))
  }

  /** The blur provider. The kernel is not modelled: a successful blur returns the
      same raster marked as blurred once more; when it fails (`null`) is left open. */
  class BlurProvider {
    const succeeds: Bitmap -> bool

    constructor (succeeds: Bitmap -> bool)
      ensures this.succeeds == succeeds
    {
      this.succeeds := succeeds;
    }

    function Blur(b: Bitmap): (r: Option<Bitmap>)
      ensures r.Some? <==> succeeds(b)
      ensures r.Some? ==> r.value.blurCount == b.blurCount + 1
      ensures r.Some? ==> r.value.width == b.width && r.value.height == b.height
      ensures r.Some? ==> r.value.stamps == b.stamps
    {
      if succeeds(b) then Some(b.(blurCount := b.blurCount + 1)) else None
    }
  }

  // ---------------------------------------------------------------------------
  // ColorStateList: compared by reference in the source, so a class.

  class ColorStateList {
    /** The colour the list holds for a state set, if any (the matching rule is the platform's). */
    const lookup: seq<int> -> Option<int>

    constructor (lookup: seq<int> -> Option<int>)
      ensures this.lookup == lookup
    {
      this.lookup := lookup;
    }

    /** `ColorStateList.valueOf(color)`: the same colour for every state. */
    constructor ValueOf(color: int)
      ensures forall s :: lookup(s) == Some(color)
    {
      lookup := (s: seq<int>) => Some(color);
    }

    function GetColorForState(stateSet: seq<int>, defaultColor: int): int {
      match lookup(stateSet)
      case Some(c) => c
      case None => defaultColor
    }
  }

  // ---------------------------------------------------------------------------
  // Canvas as a trace

  datatype CanvasOp =
    | Save
    | Restore
    | ClipPath(path: Path)
    | ClipOutPath(path: Path)
    | DrawPath(path: Path, paint: Paint)
    | DrawBitmapAt(bitmap: Bitmap, left: real, top: real)
    | DrawBitmapInRect(bitmap: Bitmap, dst: IntRect)

  /** The host's canvas: everything a draw does to it is appended to `ops`. */
  class Canvas {
    var ops: seq<CanvasOp>

    constructor ()
      ensures ops == []
    {
      ops := [];
    }

    method Emit(op: CanvasOp)
      modifies this
      ensures ops == old(ops) + [op]
    {
      ops := ops + [op];
    }
  }

  /** Regrouping a concatenation, stated on abstract sequences so that proofs about
      a composed trace never unfold the parts. */
  lemma AppendAssoc(a: seq<CanvasOp>, b: seq<CanvasOp>, c: seq<CanvasOp>)
    ensures a + b + c == a + (b + c)
  {
  }

  lemma AppendAssoc3(p: seq<CanvasOp>, a: seq<CanvasOp>, b: seq<CanvasOp>, c: seq<CanvasOp>)
    ensures p + a + b + c == p + (a + b + c)
  {
  }

  lemma AppendAssoc4(p: seq<CanvasOp>, a: seq<CanvasOp>, b: seq<CanvasOp>, c: seq<CanvasOp>, d: seq<CanvasOp>)
    ensures p + a + b + c + d == p + (a + b + c + d)
  {
  }

  /** The paints of the DrawPath operations of a trace, in order. */
  function PathDraws(ops: seq<CanvasOp>): seq<Paint> {
    if ops == [] then []
    else PathDraws(ops[..|ops| - 1]) + (if ops[|ops| - 1].DrawPath? then [ops[|ops| - 1].paint] else [])
  }

  /** The bitmaps a trace draws (at an offset or into a rectangle), in order. */
  function BitmapDraws(ops: seq<CanvasOp>): seq<Bitmap> {
    if ops == [] then []
    else
      var last := ops[|ops| - 1];
      BitmapDraws(ops[..|ops| - 1]) +
        (if last.DrawBitmapAt? || last.DrawBitmapInRect? then [last.bitmap] else [])
  }

  lemma SingleOpDraws(op: CanvasOp)
    ensures PathDraws([op]) == (if op.DrawPath? then [op.paint] else [])
    ensures BitmapDraws([op]) == (if op.DrawBitmapAt? || op.DrawBitmapInRect? then [op.bitmap] else [])
  {
    assert [op][..0] == [];
  }

  lemma {:induction false} PathDrawsAppend(a: seq<CanvasOp>, b: seq<CanvasOp>)
    ensures PathDraws(a + b) == PathDraws(a) + PathDraws(b)
    decreases |b|
  {
    if b == [] {
      assert a + b == a;
    } else {
      var b' := b[..|b| - 1];
      assert (a + b)[..|a + b| - 1] == a + b';
      assert (a + b)[|a + b| - 1] == b[|b| - 1];
      PathDrawsAppend(a, b');
    }
  }

  lemma {:induction false} BitmapDrawsAppend(a: seq<CanvasOp>, b: seq<CanvasOp>)
    ensures BitmapDraws(a + b) == BitmapDraws(a) + BitmapDraws(b)
    decreases |b|
  {
    if b == [] {
      assert a + b == a;
    } else {
      var b' := b[..|b| - 1];
      assert (a + b)[..|a + b| - 1] == a + b';
      assert (a + b)[|a + b| - 1] == b[|b| - 1];
      BitmapDrawsAppend(a, b');
    }
  }

  /** The draws of a trace made of four consecutive parts. */
  lemma DrawsOfParts(s1: seq<CanvasOp>, s2: seq<CanvasOp>, s3: seq<CanvasOp>, s4: seq<CanvasOp>)
    ensures PathDraws(s1 + s2 + s3 + s4) == PathDraws(s1) + PathDraws(s2) + PathDraws(s3) + PathDraws(s4)
    ensures BitmapDraws(s1 + s2 + s3 + s4) == BitmapDraws(s1) + BitmapDraws(s2) + BitmapDraws(s3) + BitmapDraws(s4)
  {
    PathDrawsAppend(s1, s2);
    PathDrawsAppend(s1 + s2, s3);
    PathDrawsAppend(s1 + s2 + s3, s4);
    BitmapDrawsAppend(s1, s2);
    BitmapDrawsAppend(s1 + s2, s3);
    BitmapDrawsAppend(s1 + s2 + s3, s4);
  }

  /** The draws of two parts framed by a head and a tail that draw nothing. */
  lemma DrawsBetween(h: seq<CanvasOp>, m1: seq<CanvasOp>, m2: seq<CanvasOp>, r: seq<CanvasOp>)
    requires PathDraws(h) == [] && BitmapDraws(h) == [] && PathDraws(r) == [] && BitmapDraws(r) == []
    ensures PathDraws(h + m1 + m2 + r) == PathDraws(m1) + PathDraws(m2)
    ensures BitmapDraws(h + m1 + m2 + r) == BitmapDraws(m1) + BitmapDraws(m2)
  {
    DrawsOfParts(h, m1, m2, r);
    assert [] + PathDraws(m1) + PathDraws(m2) + [] == PathDraws(m1) + PathDraws(m2);
    assert [] + BitmapDraws(m1) + BitmapDraws(m2) + [] == BitmapDraws(m1) + BitmapDraws(m2);
  }

  /** Saves, restores and clips draw nothing. */
  lemma NoDraws(ops: seq<CanvasOp>)
    requires forall i :: 0 <= i < |ops| ==> ops[i].Save? || ops[i].Restore? || ops[i].ClipPath? || ops[i].ClipOutPath?
    ensures PathDraws(ops) == [] && BitmapDraws(ops) == []
  {
    if ops != [] {
      NoDraws(ops[..|ops| - 1]);
    }
  }

  // ---------------------------------------------------------------------------
  // Float conversions and min

  /** Kotlin `Float.roundToInt()` (Math.round): the nearest integer, halves rounded up. */
  function RoundToInt(x: real): (r: int)
    ensures r as real - 0.5 <= x < r as real + 0.5
  {
    (x + 0.5).Floor
  }

  /** Kotlin `Float.toInt()`: truncation toward zero. */
  function ToInt(x: real): (r: int)
    ensures 0.0 <= x ==> 0 <= r && r as real <= x < r as real + 1.0
    ensures x < 0.0 ==> r <= 0 && r as real - 1.0 < x <= r as real
  {
    if x >= 0.0 then x.Floor else -((-x).Floor)
  }

  function Min(a: real, b: real): real {
    if a <= b then a else b
  }
}
