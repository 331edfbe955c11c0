/** The geometry the Flat and Pressed shadow strategies compute, as functions of the
    values they read from the drawable state. Both product lines share these rules;
    the strategy classes are specified against them. */
module ShadowGeometry {
  import opened Graphics
  import opened DrawableCommon

  // ---------------------------------------------------------------------------
  // Flat: two separately blurred bitmaps drawn outside the outline

  /** `setCornerShape` on a shadow drawable. The `when` has no `else` branch, so a
      corner family other than OVAL and ROUNDED leaves the drawable as it was. */
  function FlatCornerShape(g: GradientDrawable, family: int, radii: CornerRadii): GradientDrawable {
    if family == OVAL then g.SetShape(GRADIENT_OVAL)
    else if family == ROUNDED then g.SetShape(GRADIENT_RECTANGLE).SetCornerRadii(RadiiArray(radii))
    else g
  }

  /** A Flat shadow drawable after `updateShadowBitmap` for a w×h bounds. */
  function FlatShadowDrawable(g: GradientDrawable, color: int, family: int, radii: CornerRadii, w: int, h: int): GradientDrawable {
    FlatCornerShape(g.SetColor(color), family, radii).SetSize(w, h).SetBounds(0, 0, w, h)
  }

  /** `createBitmap` accepts the size `toBlurredBitmap` asks for: the w×h bounds grown
      by the elevation on every side, rounded, are positive both ways. */
  predicate FlatFits(w: int, h: int, elevation: real) {
    RoundToInt(w as real + elevation * 2.0) > 0 && RoundToInt(h as real + elevation * 2.0) > 0
  }

  /** The unblurred bitmap `toBlurredBitmap` renders: the drawable grown by the
      elevation on every side and drawn translated by (e, e), or what `createBitmap`
      throws for that size. */
  function FlatShadowBitmap(g: GradientDrawable, w: int, h: int, elevation: real): (r: Result<Bitmap>)
    ensures r.Ok? <==> FlatFits(w, h, elevation)
  {
    var bitmap := CreateBitmap(RoundToInt(w as real + elevation * 2.0), RoundToInt(h as real + elevation * 2.0));
    if bitmap.Ok? then Ok(bitmap.value.Draw(g, elevation, elevation)) else Err(bitmap.error)
  }

  /** A draw of a bitmap if there is one (Kotlin's `bitmap?.let { drawBitmap(…) }`). */
  function DrawIfPresent(b: Option<Bitmap>, left: real, top: real): seq<CanvasOp> {
    if b.Some? then [DrawBitmapAt(b.value, left, top)] else []
  }

  /** Flat `draw`: under a save and a clip-out of the outline, the light bitmap is
      drawn at inset − e − z and the dark one at inset − e + z, z = e + translationZ. */
  function FlatTrace(light: Option<Bitmap>, dark: Option<Bitmap>, inset: IntRect,
                     elevation: real, translationZ: real, outline: Path): seq<CanvasOp>
  {
    var z := elevation + translationZ;
    var left := inset.left as real;
    var top := inset.top as real;
    [Save, ClipOutPath(outline)]
      + DrawIfPresent(light, -elevation - z + left, -elevation - z + top)
      + DrawIfPresent(dark, -elevation + z + left, -elevation + z + top)
      + [Restore]
  }

  // ---------------------------------------------------------------------------
  // Pressed: one bitmap with both strokes, blurred once, drawn inside the outline

  /** `cornerRadius()`: a radius clamped to half the bounds' width and height. */
  function PressedCornerRadius(r: real, w: int, h: int): (c: real)
    ensures c <= w as real / 2.0 && c <= h as real / 2.0 && c <= r
    ensures c == w as real / 2.0 || c == h as real / 2.0 || c == r
  {
    Min(Min(w as real / 2.0, h as real / 2.0), r)
  }

  function PressedRadii(radii: CornerRadii, w: int, h: int): CornerRadii {
    CornerRadii(PressedCornerRadius(radii.topLeft, w, h), PressedCornerRadius(radii.topRight, w, h),
                PressedCornerRadius(radii.bottomRight, w, h), PressedCornerRadius(radii.bottomLeft, w, h))
  }

  /** The `apply { … }` block on a Pressed shadow drawable: sized to (w + e) × (h + e),
      stroked e wide in the given colour and shaped by the corner family, with the
      radii clamped to the w×h bounds. */
  function PressedStrokeShape(g: GradientDrawable, color: int, family: int, radii: CornerRadii,
                              e: int, w: int, h: int): GradientDrawable
  {
    var g1 := g.SetSize(w + e, h + e).SetStroke(e, color);
    if family == OVAL then g1.SetShape(GRADIENT_OVAL)
    else if family == ROUNDED then g1.SetShape(GRADIENT_RECTANGLE).SetCornerRadii(RadiiArray(PressedRadii(radii, w, h)))
    else g1
  }

  /** A Pressed shadow drawable after `updateShadowBitmap`: a stroke as wide as the
      truncated elevation e, sized and bounded to (w + e) × (h + e). */
  function PressedShadowDrawable(g: GradientDrawable, color: int, family: int, radii: CornerRadii,
                                 e: int, w: int, h: int): GradientDrawable
  {
    PressedStrokeShape(g, color, family, radii, e, w, h).SetSize(w + e, h + e).SetBounds(0, 0, w + e, h + e)
  }

  /** `createBitmap` accepts the bounds `generateShadowBitmap` asks for. */
  predicate PressedFits(w: int, h: int) {
    w > 0 && h > 0
  }

  /** The unblurred bitmap `generateShadowBitmap` renders: w×h, the light drawable
      translated by (−elevation, −elevation), then the dark one at the origin, or what
      `createBitmap` throws for that size. */
  function PressedShadowBitmap(light: GradientDrawable, dark: GradientDrawable, w: int, h: int, elevation: real): (r: Result<Bitmap>)
    ensures r.Ok? <==> PressedFits(w, h)
  {
    var bitmap := CreateBitmap(w, h);
    if bitmap.Ok? then Ok(bitmap.value.Draw(light, -elevation, -elevation).Draw(dark, 0.0, 0.0)) else Err(bitmap.error)
  }

  /** Every bitmap an `updateShadowBitmap` of the strategy creates fits: Flat's, Pressed's,
      or for Basin both, Flat's being created first. */
  predicate ShadowFits(kind: ShapeType, w: int, h: int, elevation: real) {
    match kind
    case Flat => FlatFits(w, h, elevation)
    case Pressed => PressedFits(w, h)
    case Basin => FlatFits(w, h, elevation) && PressedFits(w, h)
  }

  /** Pressed `draw`: `withSave { withClip(outline) { … } }`, the bitmap at the inset origin. */
  function PressedTrace(b: Option<Bitmap>, inset: IntRect, outline: Path): seq<CanvasOp> {
    [Save, Save, ClipPath(outline)] + DrawIfPresent(b, inset.left as real, inset.top as real) + [Restore, Restore]
  }

  // ---------------------------------------------------------------------------
  // Properties

  lemma DrawIfPresentDraws(b: Option<Bitmap>, left: real, top: real)
    ensures PathDraws(DrawIfPresent(b, left, top)) == []
    ensures BitmapDraws(DrawIfPresent(b, left, top)) == (if b.Some? then [b.value] else [])
  {
    if b.Some? {
      assert DrawIfPresent(b, left, top)[..0] == [];
    }
  }

  /** Flat draws exactly the bitmaps it has, light before dark, one missing bitmap
      not suppressing the other, and fills or strokes nothing. */
  lemma {:induction false} FlatTraceDraws(light: Option<Bitmap>, dark: Option<Bitmap>, inset: IntRect,
                                          elevation: real, translationZ: real, outline: Path)
    ensures PathDraws(FlatTrace(light, dark, inset, elevation, translationZ, outline)) == []
    ensures BitmapDraws(FlatTrace(light, dark, inset, elevation, translationZ, outline))
         == (if light.Some? then [light.value] else []) + (if dark.Some? then [dark.value] else [])
  {
    var z := elevation + translationZ;
    var l := inset.left as real;
    var t := inset.top as real;
    var h: seq<CanvasOp> := [Save, ClipOutPath(outline)];
    var r: seq<CanvasOp> := [Restore];
    NoDraws(h);
    NoDraws(r);
    FramedBitmapsDraws(h, light, -elevation - z + l, -elevation - z + t, dark, -elevation + z + l, -elevation + z + t, r);
  }

  /** What is drawn between a head and a tail that draw nothing: the two bitmaps present. */
  lemma FramedBitmapsDraws(h: seq<CanvasOp>, x: Option<Bitmap>, xLeft: real, xTop: real,
                           y: Option<Bitmap>, yLeft: real, yTop: real, r: seq<CanvasOp>)
    requires PathDraws(h) == [] && BitmapDraws(h) == [] && PathDraws(r) == [] && BitmapDraws(r) == []
    ensures var ops := h + DrawIfPresent(x, xLeft, xTop) + DrawIfPresent(y, yLeft, yTop) + r;
      && PathDraws(ops) == []
      && BitmapDraws(ops) == (if x.Some? then [x.value] else []) + (if y.Some? then [y.value] else [])
  {
    DrawIfPresentDraws(x, xLeft, xTop);
    DrawIfPresentDraws(y, yLeft, yTop);
    DrawsBetween(h, DrawIfPresent(x, xLeft, xTop), DrawIfPresent(y, yLeft, yTop), r);
  }

  /** The two Flat offsets: light at inset − 2e − translationZ, dark at inset + translationZ,
      mirror images about inset − e. */
  lemma FlatOffsets(light: Bitmap, dark: Bitmap, inset: IntRect, elevation: real, translationZ: real, outline: Path)
    ensures var ops := FlatTrace(Some(light), Some(dark), inset, elevation, translationZ, outline);
      && |ops| == 5
      && ops[0] == Save && ops[1] == ClipOutPath(outline) && ops[4] == Restore
      && ops[2] == DrawBitmapAt(light, inset.left as real - 2.0 * elevation - translationZ,
                                       inset.top as real - 2.0 * elevation - translationZ)
      && ops[3] == DrawBitmapAt(dark, inset.left as real + translationZ, inset.top as real + translationZ)
      && (ops[2].left + ops[3].left) / 2.0 == inset.left as real - elevation
      && (ops[2].top + ops[3].top) / 2.0 == inset.top as real - elevation
  {
  }

  /** The Flat bitmap is the w×h shape grown by 2e and rounded to the nearest pixel,
      holding that one shape translated by (e, e), not yet blurred; with a non-positive
      side it is createBitmap's exception for that side. */
  lemma FlatBitmapGeometry(g: GradientDrawable, w: int, h: int, elevation: real)
    ensures var r := FlatShadowBitmap(g, w, h, elevation);
      && (r.Ok? ==> r.value.stamps == [Stamp(g, elevation, elevation)] && r.value.blurCount == 0)
      && (r.Ok? ==> r.value.width as real - 0.5 <= w as real + 2.0 * elevation < r.value.width as real + 0.5)
      && (r.Ok? ==> r.value.height as real - 0.5 <= h as real + 2.0 * elevation < r.value.height as real + 0.5)
      && (r.Err? ==> r.error == SizeError(RoundToInt(w as real + 2.0 * elevation), RoundToInt(h as real + 2.0 * elevation)))
  {
  }

  /** With a whole-pixel elevation the Flat bitmap is exactly (w + 2e) × (h + 2e), and
      exists exactly when both of those are positive. */
  lemma FlatBitmapWholeElevation(g: GradientDrawable, w: int, h: int, e: int)
    ensures FlatShadowBitmap(g, w, h, e as real).Ok? <==> w + 2 * e > 0 && h + 2 * e > 0
    ensures FlatShadowBitmap(g, w, h, e as real).Ok? ==> FlatShadowBitmap(g, w, h, e as real).value.width == w + 2 * e
    ensures FlatShadowBitmap(g, w, h, e as real).Ok? ==> FlatShadowBitmap(g, w, h, e as real).value.height == h + 2 * e
  {
    assert RoundToInt(w as real + e as real * 2.0) == w + 2 * e by {
      var r := RoundToInt(w as real + e as real * 2.0);
      assert r as real - 0.5 <= (w + 2 * e) as real < r as real + 0.5;
    }
    assert RoundToInt(h as real + e as real * 2.0) == h + 2 * e by {
      var r := RoundToInt(h as real + e as real * 2.0);
      assert r as real - 0.5 <= (h + 2 * e) as real < r as real + 0.5;
    }
  }

  /** With a non-negative elevation, bounds that fit Pressed's bitmap fit Flat's too,
      so a Basin update can only fail in its Flat half when both would. */
  lemma FlatFitsWherePressedFits(w: int, h: int, elevation: real)
    requires elevation >= 0.0 && PressedFits(w, h)
    ensures FlatFits(w, h, elevation)
  {
    var _ := RoundToInt(w as real + elevation * 2.0);
    var _ := RoundToInt(h as real + elevation * 2.0);
  }

  /** Flat shadow drawables: the given colour, bounds (0, 0, w, h), and for ROUNDED
      the four radii passed through unclamped. */
  lemma FlatDrawableGeometry(g: GradientDrawable, color: int, family: int, radii: CornerRadii, w: int, h: int)
    ensures var d := FlatShadowDrawable(g, color, family, radii, w, h);
      && d.color == Some(color)
      && d.width == w && d.height == h && d.bounds == IntRect(0, 0, w, h)
      && d.stroke == g.stroke
      && (family == OVAL ==> d.shape == GRADIENT_OVAL && d.cornerRadii == g.cornerRadii)
      && (family == ROUNDED ==> d.shape == GRADIENT_RECTANGLE && d.cornerRadii == Some(RadiiArray(radii)))
      && (family != OVAL && family != ROUNDED ==> d.shape == g.shape && d.cornerRadii == g.cornerRadii)
  {
  }

  /** Pressed shadow drawables: stroke of width e in the given colour, size and bounds
      (w + e) × (h + e), and for ROUNDED every radius at most half the bounds. */
  lemma PressedDrawableGeometry(g: GradientDrawable, color: int, family: int, radii: CornerRadii, e: int, w: int, h: int)
    ensures var d := PressedShadowDrawable(g, color, family, radii, e, w, h);
      && d.stroke == Some(GradientStroke(e, color))
      && d.width == w + e && d.height == h + e && d.bounds == IntRect(0, 0, w + e, h + e)
      && d.color == g.color
      && (family == OVAL ==> d.shape == GRADIENT_OVAL && d.cornerRadii == g.cornerRadii)
      && (family == ROUNDED ==> d.shape == GRADIENT_RECTANGLE && d.cornerRadii.Some?)
      && (family != OVAL && family != ROUNDED ==> d.shape == g.shape && d.cornerRadii == g.cornerRadii)
  {
  }

  /** Every Pressed radius is min(w/2, h/2, r) for its corner: never above half the
      width or half the height, and the corner's own radius when that is smaller. */
  lemma {:induction false} PressedRadiiClamped(g: GradientDrawable, color: int, radii: CornerRadii, e: int, w: int, h: int)
    ensures var d := PressedShadowDrawable(g, color, ROUNDED, radii, e, w, h);
      && d.cornerRadii.Some? && |d.cornerRadii.value| == 8
      && (forall i :: 0 <= i < 8 ==> d.cornerRadii.value[i] <= w as real / 2.0 && d.cornerRadii.value[i] <= h as real / 2.0)
      && d.cornerRadii.value[0] == d.cornerRadii.value[1] == Min(Min(w as real / 2.0, h as real / 2.0), radii.topLeft)
      && d.cornerRadii.value[2] == d.cornerRadii.value[3] == Min(Min(w as real / 2.0, h as real / 2.0), radii.topRight)
      && d.cornerRadii.value[4] == d.cornerRadii.value[5] == Min(Min(w as real / 2.0, h as real / 2.0), radii.bottomRight)
      && d.cornerRadii.value[6] == d.cornerRadii.value[7] == Min(Min(w as real / 2.0, h as real / 2.0), radii.bottomLeft)
  {
    var c := PressedRadii(radii, w, h);
    var a := RadiiArray(c);
    assert PressedShadowDrawable(g, color, ROUNDED, radii, e, w, h).cornerRadii == Some(a);
    var _ := PressedCornerRadius(radii.topLeft, w, h);
    var _ := PressedCornerRadius(radii.topRight, w, h);
    var _ := PressedCornerRadius(radii.bottomRight, w, h);
    var _ := PressedCornerRadius(radii.bottomLeft, w, h);
    assert forall i :: 0 <= i < 8 ==> a[i] in {c.topLeft, c.topRight, c.bottomRight, c.bottomLeft};
  }

  /** The Pressed bitmap is w×h with the light layer shifted by (−e, −e) under the dark
      one, and createBitmap's exception when a side is not positive. */
  lemma PressedBitmapLayers(light: GradientDrawable, dark: GradientDrawable, w: int, h: int, elevation: real)
    ensures var r := PressedShadowBitmap(light, dark, w, h, elevation);
      && (r.Ok? ==> r.value.width == w && r.value.height == h && r.value.blurCount == 0)
      && (r.Ok? ==> r.value.stamps == [Stamp(light, -elevation, -elevation), Stamp(dark, 0.0, 0.0)])
      && (r.Err? ==> r.error == SizeError(w, h))
  {
  }

  /** Pressed draws its bitmap (if any) once, inside the outline, at the inset origin. */
  lemma {:induction false} PressedTraceDraws(b: Option<Bitmap>, inset: IntRect, outline: Path)
    ensures PathDraws(PressedTrace(b, inset, outline)) == []
    ensures BitmapDraws(PressedTrace(b, inset, outline)) == (if b.Some? then [b.value] else [])
    ensures var ops := PressedTrace(b, inset, outline);
      ops[..3] == [Save, Save, ClipPath(outline)] && ops[|ops| - 2..] == [Restore, Restore]
      && (b.Some? ==> ops[3] == DrawBitmapAt(b.value, inset.left as real, inset.top as real))
  {
    var h: seq<CanvasOp> := [Save, Save, ClipPath(outline)];
    var mid := DrawIfPresent(b, inset.left as real, inset.top as real);
    var r: seq<CanvasOp> := [Restore, Restore];
    assert PressedTrace(b, inset, outline) == h + mid + [] + r;
    DrawIfPresentDraws(b, inset.left as real, inset.top as real);
    NoDraws(h);
    NoDraws(r);
    NoDraws([]);
    DrawsBetween(h, mid, [], r);
  }
}
