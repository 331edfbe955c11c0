/** The pieces of the shape drawable that both product lines write identically:
    alpha modulation, the shape-type decoding, the fill/stroke tests and the
    order in which a draw composes its layers. */
module DrawableCommon {
  import opened Graphics

  // ---------------------------------------------------------------------------
  // Alpha modulation

  /** `modulateAlpha`: `paintAlpha * (alpha + (alpha ushr 7)) ushr 8` in 32-bit Int arithmetic. */
  function ModulateAlpha(paintAlpha: int, alpha: int): int
    requires IsInt32(paintAlpha) && IsInt32(alpha)
  {
    var scale := Wrap32(alpha + Ushr(alpha, 7));
    Ushr(Wrap32(paintAlpha * scale), 8)
  }

  /** For alphas in 0..255 the scale is alpha + alpha / 128, in 0..256, and nothing wraps. */
  lemma ModulateAlphaExact(p: int, a: int)
    requires 0 <= p <= 255 && 0 <= a <= 255
    ensures ModulateAlpha(p, a) == p * (a + a / 128) / 256
  {
    Pow2Small();
    UshrNonNegative(a, 7);
    var s := a + a / 128;
    assert 0 <= s <= 256;
    assert Wrap32(a + Ushr(a, 7)) == s;
    MulBounds(p, s, 255, 256);
    assert Wrap32(p * s) == p * s;
    UshrNonNegative(p * s, 8);
  }

  lemma MulBounds(x: int, y: int, xMax: int, yMax: int)
    requires 0 <= x <= xMax && 0 <= y <= yMax
    ensures 0 <= x * y <= xMax * yMax
  {
  }

  /** Modulation never raises a paint alpha, keeps it at full alpha and clears it at zero. */
  lemma ModulateAlphaBounds(p: int, a: int)
    requires 0 <= p <= 255 && 0 <= a <= 255
    ensures 0 <= ModulateAlpha(p, a) <= p
    ensures a == 255 ==> ModulateAlpha(p, a) == p
    ensures a == 0 ==> ModulateAlpha(p, a) == 0
  {
    ModulateAlphaExact(p, a);
    var s := a + a / 128;
    MulBounds(p, s, p, 256);
    assert p * s <= p * 256;
    if a == 255 {
      assert s == 256;
    }
  }

  /** Half alpha on an opaque paint gives 128. */
  lemma ModulateAlphaHalf()
    ensures ModulateAlpha(255, 128) == 128
  {
    ModulateAlphaExact(255, 128);
  }

  // ---------------------------------------------------------------------------
  // Paints during a draw

  /** A paint as `draw` uses it: its alpha modulated by the drawable's alpha. */
  function Modulated(p: Paint, alpha: int): Paint
    requires IsInt32(alpha)
  {
    p.SetAlpha(ModulateAlpha(p.Alpha(), alpha))
  }

  /** `getColorForState(state, previous)` of a colour list, or the previous colour
      when there is no list. */
  function StateColor(list: ColorStateList?, stateSet: seq<int>, previous: int): int {
    if list == null then previous else list.GetColorForState(stateSet, previous)
  }

  /** During a draw a paint keeps its colour's red, green and blue and its stroke,
      is never brighter than its own alpha, keeps that alpha (and for a 32-bit colour
      its very colour) at full drawable alpha and vanishes at zero. */
  lemma ModulatedAlpha(p: Paint, alpha: int)
    requires 0 <= alpha <= 255
    ensures 0 <= Modulated(p, alpha).Alpha() <= p.Alpha()
    ensures alpha == 255 ==> Modulated(p, alpha).Alpha() == p.Alpha()
    ensures alpha == 255 && IsInt32(p.color) ==> Modulated(p, alpha) == p
    ensures alpha == 0 ==> Modulated(p, alpha).Alpha() == 0
    ensures RgbOf(Modulated(p, alpha).color) == RgbOf(p.color)
    ensures Modulated(p, alpha).style == p.style && Modulated(p, alpha).strokeWidth == p.strokeWidth
  {
    ModulateAlphaBounds(p.Alpha(), alpha);
    if alpha == 255 && IsInt32(p.color) {
      WithOwnAlpha(p.color);
    }
  }

  /** A drawable alpha above 255 can raise the paint's alpha past 255 in the Int
      arithmetic; the paint pins it back to 255. */
  lemma ModulatedAlphaOutOfRange(p: Paint)
    requires p.Alpha() == 255
    ensures ModulateAlpha(255, 1000) == 1003
    ensures Modulated(p, 1000).Alpha() == 255
  {
    Pow2Small();
    UshrNonNegative(1000, 7);
    assert Wrap32(1000 + Ushr(1000, 7)) == 1007;
    UshrNonNegative(255 * 1007, 8);
  }

  // ---------------------------------------------------------------------------
  // Shape types

  const FLAT: int := 0
  const PRESSED: int := 1
  const BASIN: int := 2

  datatype ShapeType = Flat | Pressed | Basin

  /** The strategy `shadowOf` picks, or the IllegalArgumentException it throws. */
  function ShapeTypeOf(shapeType: int): (r: Result<ShapeType>)
    ensures r.Ok? <==> shapeType in {FLAT, PRESSED, BASIN}
    ensures r == Ok(Flat) <==> shapeType == FLAT
    ensures r == Ok(Pressed) <==> shapeType == PRESSED
    ensures r == Ok(Basin) <==> shapeType == BASIN
    ensures r.Err? ==> r.error == IllegalArgumentException(shapeType)
  {
    if shapeType == FLAT then Ok(Flat)
    else if shapeType == PRESSED then Ok(Pressed)
    else if shapeType == BASIN then Ok(Basin)
    else Err(IllegalArgumentException(shapeType))
  }

  // ---------------------------------------------------------------------------
  // Layers of a draw

  /** `hasFill()`: the FILL and FILL_AND_STROKE styles fill. */
  predicate HasFill(style: PaintStyle) {
    style == FillAndStroke || style == Fill
  }

  /** `hasStroke()`: a stroking style and a positive stroke width. */
  predicate HasStroke(style: PaintStyle, strokeWidth: real) {
    (style == FillAndStroke || style == Stroke) && strokeWidth > 0.0
  }

  /** `drawFillShape` / `drawStrokeShape` when the layer is present. */
  function PathLayer(present: bool, outline: Path, paint: Paint): seq<CanvasOp> {
    if present then [DrawPath(outline, paint)] else []
  }

  /** `drawImageBitmap`: clip to the outline (without a save) and stretch the bitmap
      over the internal bounds. */
  function ImageLayer(image: Option<Bitmap>, outline: Path, dst: IntRect): seq<CanvasOp> {
    if image.Some? then [ClipPath(outline), DrawBitmapInRect(image.value, dst)] else []
  }

  /** The shape layers of a draw: the filled outline, the shadow's operations and the
      stroked outline. This is all a numorphic draw paints. */
  function ShapeTrace(style: PaintStyle, outline: Path, fill: Paint, stroke: Paint, shadow: seq<CanvasOp>): seq<CanvasOp> {
    PathLayer(HasFill(style), outline, fill)
      + shadow
      + PathLayer(HasStroke(style, stroke.strokeWidth), outline, stroke)
  }

  /** The canvas operations of an ssneumorphic draw: the shape layers, then the image
      when a bitmap is set. */
  function DrawTrace(style: PaintStyle, outline: Path, fill: Paint, stroke: Paint,
                     shadow: seq<CanvasOp>, image: Option<Bitmap>, dst: IntRect): seq<CanvasOp>
  {
    ShapeTrace(style, outline, fill, stroke, shadow) + ImageLayer(image, outline, dst)
  }

  lemma PathLayerDraws(present: bool, outline: Path, paint: Paint)
    ensures PathDraws(PathLayer(present, outline, paint)) == (if present then [paint] else [])
    ensures BitmapDraws(PathLayer(present, outline, paint)) == []
  {
    if present { SingleOpDraws(DrawPath(outline, paint)); } else { NoDraws([]); }
  }

  lemma ImageLayerDraws(image: Option<Bitmap>, outline: Path, dst: IntRect)
    ensures PathDraws(ImageLayer(image, outline, dst)) == []
    ensures BitmapDraws(ImageLayer(image, outline, dst)) == (if image.Some? then [image.value] else [])
  {
    if image.Some? {
      var x := ClipPath(outline);
      var y := DrawBitmapInRect(image.value, dst);
      assert ImageLayer(image, outline, dst) == [x] + [y];
      SingleOpDraws(x);
      SingleOpDraws(y);
      PathDrawsAppend([x], [y]);
      BitmapDrawsAppend([x], [y]);
    } else {
      NoDraws([]);
    }
  }

  /** The paths a draw strokes or fills, in order: the fill (for a filling style),
      the shadow's, then the stroke (for a stroking style with positive width). */
  lemma {:induction false} DrawTracePaths(style: PaintStyle, outline: Path, fill: Paint, stroke: Paint,
                                          shadow: seq<CanvasOp>, image: Option<Bitmap>, dst: IntRect)
    ensures PathDraws(DrawTrace(style, outline, fill, stroke, shadow, image, dst))
         == (if HasFill(style) then [fill] else []) + PathDraws(shadow)
            + (if HasStroke(style, stroke.strokeWidth) then [stroke] else [])
  {
    var a := PathLayer(HasFill(style), outline, fill);
    var c := PathLayer(HasStroke(style, stroke.strokeWidth), outline, stroke);
    var d := ImageLayer(image, outline, dst);
    PathLayerDraws(HasFill(style), outline, fill);
    PathLayerDraws(HasStroke(style, stroke.strokeWidth), outline, stroke);
    ImageLayerDraws(image, outline, dst);
    PathsBeforeImage(a, shadow, c, d);
  }

  /** The bitmaps a draw puts on the canvas: the shadow's, then the image if set. */
  lemma {:induction false} DrawTraceBitmaps(style: PaintStyle, outline: Path, fill: Paint, stroke: Paint,
                                            shadow: seq<CanvasOp>, image: Option<Bitmap>, dst: IntRect)
    ensures BitmapDraws(DrawTrace(style, outline, fill, stroke, shadow, image, dst))
         == BitmapDraws(shadow) + (if image.Some? then [image.value] else [])
  {
    var a := PathLayer(HasFill(style), outline, fill);
    var c := PathLayer(HasStroke(style, stroke.strokeWidth), outline, stroke);
    var d := ImageLayer(image, outline, dst);
    PathLayerDraws(HasFill(style), outline, fill);
    PathLayerDraws(HasStroke(style, stroke.strokeWidth), outline, stroke);
    ImageLayerDraws(image, outline, dst);
    BitmapsAroundStroke(a, shadow, c, d);
  }

  /** Without an image layer a draw strokes or fills the same paths, and draws only
      the shadow's bitmaps. */
  lemma ShapeTraceDraws(style: PaintStyle, outline: Path, fill: Paint, stroke: Paint, shadow: seq<CanvasOp>)
    ensures PathDraws(ShapeTrace(style, outline, fill, stroke, shadow))
         == (if HasFill(style) then [fill] else []) + PathDraws(shadow)
            + (if HasStroke(style, stroke.strokeWidth) then [stroke] else [])
    ensures BitmapDraws(ShapeTrace(style, outline, fill, stroke, shadow)) == BitmapDraws(shadow)
  {
    var dst := IntRect(0, 0, 0, 0);
    var t := ShapeTrace(style, outline, fill, stroke, shadow);
    assert DrawTrace(style, outline, fill, stroke, shadow, None, dst) == t + [];
    assert t + [] == t;
    DrawTracePaths(style, outline, fill, stroke, shadow, None, dst);
    DrawTraceBitmaps(style, outline, fill, stroke, shadow, None, dst);
  }

  /** Four layers of which the last fills and strokes nothing. */
  lemma PathsBeforeImage(a: seq<CanvasOp>, s: seq<CanvasOp>, c: seq<CanvasOp>, d: seq<CanvasOp>)
    requires PathDraws(d) == []
    ensures PathDraws(a + s + c + d) == PathDraws(a) + PathDraws(s) + PathDraws(c)
  {
    DrawsOfParts(a, s, c, d);
    assert PathDraws(a) + PathDraws(s) + PathDraws(c) + [] == PathDraws(a) + PathDraws(s) + PathDraws(c);
  }

  /** Four layers of which the first and the third draw no bitmap. */
  lemma BitmapsAroundStroke(a: seq<CanvasOp>, s: seq<CanvasOp>, c: seq<CanvasOp>, d: seq<CanvasOp>)
    requires BitmapDraws(a) == [] && BitmapDraws(c) == []
    ensures BitmapDraws(a + s + c + d) == BitmapDraws(s) + BitmapDraws(d)
  {
    DrawsOfParts(a, s, c, d);
    assert [] + BitmapDraws(s) + [] + BitmapDraws(d) == BitmapDraws(s) + BitmapDraws(d);
  }

  /** The shadow's operations come right after the fill, unchanged. */
  lemma {:induction false} DrawTraceShadowPosition(style: PaintStyle, outline: Path, fill: Paint, stroke: Paint,
                                                   shadow: seq<CanvasOp>, image: Option<Bitmap>, dst: IntRect)
    ensures var f := if HasFill(style) then 1 else 0;
      DrawTrace(style, outline, fill, stroke, shadow, image, dst)[f..f + |shadow|] == shadow
  {
    var a := PathLayer(HasFill(style), outline, fill);
    var c := PathLayer(HasStroke(style, stroke.strokeWidth), outline, stroke);
    var d := ImageLayer(image, outline, dst);
    SliceOfParts(a, shadow, c, d);
  }

  lemma SliceOfParts(a: seq<CanvasOp>, b: seq<CanvasOp>, c: seq<CanvasOp>, d: seq<CanvasOp>)
    ensures (a + b + c + d)[|a|..|a| + |b|] == b
  {
    assert a + b + c + d == a + (b + (c + d));
  }

  // ---------------------------------------------------------------------------
  // Bounds and outline

  /** `getBoundsInternal()`: the bounds shrunk by the inset on every side. */
  function BoundsInternal(bounds: IntRect, inset: IntRect): (r: IntRect)
    ensures r.Width() == bounds.Width() - inset.left - inset.right
    ensures r.Height() == bounds.Height() - inset.top - inset.bottom
    ensures r.left - bounds.left == inset.left && r.top - bounds.top == inset.top
  {
    IntRect(bounds.left + inset.left, bounds.top + inset.top, bounds.right - inset.right, bounds.bottom - inset.bottom)
  }

  /** The rectangle `calculateOutlinePath` covers: anchored at the inset's left and top,
      not at the bounds' origin, with the internal bounds' width and height. */
  function OutlineRect(internal: RealRect, inset: IntRect): RealRect {
    var left := inset.left as real;
    var top := inset.top as real;
    RealRect(left, top, left + internal.Width(), top + internal.Height())
  }

  /** The rectangle a path covers, if it has a contour. */
  function PathRect(p: Path): Option<RealRect> {
    match p
    case EmptyPath => None
    case OvalPath(r) => Some(r)
    case RoundRectPath(r, _) => Some(r)
  }

  /** The outline matches the internal bounds exactly when the bounds sit at the origin. */
  lemma OutlineRectAtOriginIff(bounds: IntRect, inset: IntRect)
    ensures OutlineRect(ToRealRect(BoundsInternal(bounds, inset)), inset) == ToRealRect(BoundsInternal(bounds, inset))
        <==> bounds.left == 0 && bounds.top == 0
  {
  }
}
