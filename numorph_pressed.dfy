/** The numorphic `PressedShape`, which the numorphic drawable and Basin shape create.
    Its source is not part of this model; this class assumes it is the ssneumorphic
    Pressed algorithm on the numorphic state: both strokes in one bitmap, blurred once,
    drawn clipped to the outline. */
module NumorphPressed {
  import opened Graphics
  import opened ShadowGeometry
  import opened NumorphState

  /** The mutable fields of a Pressed shape. */
  datatype PressedFields = PressedFields(
    drawableState: NumorphShapeDrawableState, shadowBitmap: Option<Bitmap>,
    lightShadowDrawable: GradientDrawable, darkShadowDrawable: GradientDrawable,
    updateCount: nat, blurCalls: nat)

  /** The fields `updateShadowBitmap(bounds)` leaves behind when it starts from `before`
      and reads the state `s`:
      both stroke drawables rebuilt from the state with the truncated elevation; then,
      when `createBitmap` accepts the bounds, one combined bitmap rendered and blurred
      once, and otherwise (it threw) the bitmap as it was and no blur requested. */
  ghost function PressedAfterUpdate(before: PressedFields, s: NumorphShapeDrawableState, bounds: IntRect): PressedFields
    reads s
  {
    var e := ToInt(s.shadowElevation);
    var w := bounds.Width();
    var h := bounds.Height();
    var family := s.shapeAppearanceModel.GetCornerFamily();
    var light := PressedShadowDrawable(before.lightShadowDrawable, s.shadowColorLight, family, s.cornerRadii, e, w, h);
    var dark := PressedShadowDrawable(before.darkShadowDrawable, s.shadowColorDark, family, s.cornerRadii, e, w, h);
    if PressedFits(w, h) then
      before.(lightShadowDrawable := light, darkShadowDrawable := dark,
              shadowBitmap := Blurred(PressedShadowBitmap(light, dark, w, h, s.shadowElevation).value, s),
              updateCount := before.updateCount + 1,
              blurCalls := before.blurCalls + (if s.inEditMode then 0 else 1))
    else
      before.(lightShadowDrawable := light, darkShadowDrawable := dark)
  }

  class PressedShape {
    var drawableState: NumorphShapeDrawableState
    /** The one bitmap holding the light and the dark shadow. */
    var shadowBitmap: Option<Bitmap>
    var lightShadowDrawable: GradientDrawable
    var darkShadowDrawable: GradientDrawable
    ghost var updateCount: nat
    ghost var blurCalls: nat

    constructor (drawableState: NumorphShapeDrawableState)
      ensures this.drawableState == drawableState
      ensures shadowBitmap == None
      ensures lightShadowDrawable == NEW_GRADIENT && darkShadowDrawable == NEW_GRADIENT
      ensures updateCount == 0 && blurCalls == 0
    {
      this.drawableState := drawableState;
      shadowBitmap := None;
      lightShadowDrawable := NEW_GRADIENT;
      darkShadowDrawable := NEW_GRADIENT;
      updateCount := 0;
      blurCalls := 0;
    }

    method SetDrawableState(newDrawableState: NumorphShapeDrawableState)
      modifies this`drawableState
      ensures drawableState == newDrawableState
    {
      drawableState := newDrawableState;
    }

    function Trace(outlinePath: Path): seq<CanvasOp>
      reads this, drawableState
    {
      PressedTrace(shadowBitmap, drawableState.inset, outlinePath)
    }

    method Draw(canvas: Canvas, outlinePath: Path)
      modifies canvas
      ensures canvas.ops == old(canvas.ops) + Trace(outlinePath)
    {
      canvas.Emit(Save);
      canvas.Emit(Save);
      canvas.Emit(ClipPath(outlinePath));
      if shadowBitmap.Some? {
        var inset := drawableState.inset;
        var left := inset.left as real;
        var top := inset.top as real;
        canvas.Emit(DrawBitmapAt(shadowBitmap.value, left, top));
      }
      canvas.Emit(Restore);
      canvas.Emit(Restore);
    }

    /** The fields `updateShadowBitmap` reads or writes, as a value. */
    ghost function Fields(): PressedFields
      reads this
    {
      PressedFields(drawableState, shadowBitmap, lightShadowDrawable, darkShadowDrawable, updateCount, blurCalls)
    }

    /** The state `updateShadowBitmap(bounds)` leaves behind. */
    twostate predicate UpdatedFrom(bounds: IntRect)
      reads this, drawableState
    {
      Fields() == PressedAfterUpdate(old(Fields()), drawableState, bounds)
    }

    /** `updateShadowBitmap(bounds)`; it throws createBitmap's exception exactly when a
        side of the bounds is not positive. */
    method UpdateShadowBitmap(bounds: IntRect) returns (outcome: Outcome)
      modifies this
      ensures UpdatedFrom(bounds)
      ensures outcome.Pass? <==> PressedFits(bounds.Width(), bounds.Height())
      ensures outcome.Fail? ==> outcome.error == SizeError(bounds.Width(), bounds.Height())
    {
      var shadowElevation := ToInt(drawableState.shadowElevation);
      var w := bounds.Width();
      var h := bounds.Height();
      var width := w + shadowElevation;
      var height := h + shadowElevation;
      var family := drawableState.shapeAppearanceModel.GetCornerFamily();
      var light := StrokeShape(lightShadowDrawable, drawableState.shadowColorLight, family, drawableState.cornerRadii, shadowElevation, w, h);
      var dark := StrokeShape(darkShadowDrawable, drawableState.shadowColorDark, family, drawableState.cornerRadii, shadowElevation, w, h);
      lightShadowDrawable := light.SetSize(width, height).SetBounds(0, 0, width, height);
      darkShadowDrawable := dark.SetSize(width, height).SetBounds(0, 0, width, height);
      var bitmap := GenerateShadowBitmap(w, h);
      if bitmap.Err? {
        return Fail(bitmap.error);
      }
      shadowBitmap := bitmap.value;
      updateCount := updateCount + 1;
      outcome := Pass;
    }

    /** One shadow drawable sized to the bounds grown by the elevation, stroked that
        wide in the colour, and shaped by the corner family. */
    static method StrokeShape(g: GradientDrawable, color: int, family: int, radii: CornerRadii,
                              shadowElevation: int, w: int, h: int) returns (r: GradientDrawable)
      ensures r == PressedStrokeShape(g, color, family, radii, shadowElevation, w, h)
    {
      r := g.SetSize(w + shadowElevation, h + shadowElevation);
      r := r.SetStroke(shadowElevation, color);
      if family == OVAL {
        r := r.SetShape(GRADIENT_OVAL);
      } else if family == ROUNDED {
        r := r.SetShape(GRADIENT_RECTANGLE);
        r := r.SetCornerRadii(RadiiArray(PressedRadii(radii, w, h)));
      }
    }

    /** The light drawable shifted up-left by the
        elevation, the dark one over it at the origin, blurred together; or the
        exception `createBitmap` throws for a w×h bitmap, before any blur. */
    method GenerateShadowBitmap(w: int, h: int) returns (r: Result<Option<Bitmap>>)
      modifies this`blurCalls
      ensures var b := PressedShadowBitmap(lightShadowDrawable, darkShadowDrawable, w, h, drawableState.shadowElevation);
        && r.Ok? == b.Ok?
        && (b.Ok? ==> r.value == Blurred(b.value, drawableState))
        && (b.Err? ==> r.error == b.error)
      ensures blurCalls == old(blurCalls) + (if r.Ok? && !drawableState.inEditMode then 1 else 0)
    {
      var shadowElevation := drawableState.shadowElevation;
      var bitmap := CreateBitmap(w, h);
      if bitmap.Err? {
        return Err(bitmap.error);
      }
      var drawn := bitmap.value.Draw(lightShadowDrawable, -shadowElevation, -shadowElevation);
      drawn := drawn.Draw(darkShadowDrawable, 0.0, 0.0);
      r := Ok(Blurred(drawn, drawableState));
      if !drawableState.inEditMode {
        blurCalls := blurCalls + 1;
      }
    }
  }
}
