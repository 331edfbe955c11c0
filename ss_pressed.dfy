/** `SSNeumorphicPressedShape`: shadows inside the view, both strokes rendered into a
    single bitmap that is blurred once and drawn clipped to the outline. */
module SSPressed {
  import opened Graphics
  import opened ShadowGeometry
  import opened SSState

  /** The mutable fields of a Pressed shape. */
  datatype PressedFields = PressedFields(
    drawableState: SSNeumorphicShapeDrawableState, shadowBitmap: Option<Bitmap>,
    lightShadowDrawable: GradientDrawable, darkShadowDrawable: GradientDrawable,
    updateCount: nat, blurCalls: nat)

  /** The fields `updateShadowBitmap(bounds)` leaves behind when it starts from `before`
      and reads the state `s`:
      both stroke drawables rebuilt from the state with the truncated elevation; then,
      when `createBitmap` accepts the bounds, one combined bitmap rendered and blurred
      once, and otherwise (it threw) the bitmap as it was and no blur requested. */
  ghost function PressedAfterUpdate(before: PressedFields, s: SSNeumorphicShapeDrawableState, bounds: IntRect): PressedFields
    reads s
  {
    var e := ToInt(s.shadowElevation);
    var w := bounds.Width();
    var h := bounds.Height();
    var model := s.shapeAppearanceModel;
    var light := PressedShadowDrawable(before.lightShadowDrawable, s.shadowColorLight, model.cornerFamily, model.corners, e, w, h);
    var dark := PressedShadowDrawable(before.darkShadowDrawable, s.shadowColorDark, model.cornerFamily, model.corners, e, w, h);
    if PressedFits(w, h) then
      before.(lightShadowDrawable := light, darkShadowDrawable := dark,
              shadowBitmap := Blurred(PressedShadowBitmap(light, dark, w, h, s.shadowElevation).value, s),
              updateCount := before.updateCount + 1,
              blurCalls := before.blurCalls + (if s.inEditMode then 0 else 1))
    else
      before.(lightShadowDrawable := light, darkShadowDrawable := dark)
  }

  class SSNeumorphicPressedShape {
    var drawableState: SSNeumorphicShapeDrawableState
    /** The one bitmap holding the light and the dark shadow. */
    var shadowBitmap: Option<Bitmap>
    var lightShadowDrawable: GradientDrawable
    var darkShadowDrawable: GradientDrawable
    ghost var updateCount: nat
    ghost var blurCalls: nat

    constructor (drawableState: SSNeumorphicShapeDrawableState)
      ensures this.drawableState == drawableState
      ensures shadowBitmap == None
      ensures lightShadowDrawable == NEW_GRADIENT && darkShadowDrawable == NEW_GRADIENT
      ensures updateCount == 0 && blurCalls == 0
    {
      this.drawableState := drawableState;
      shadowBitmap := None;
      lightShadowDrawable := NEW_GRADIENT;
      darkShadowDrawable := NEW_GRADIENT;
      updateCount := 0;
      blurCalls := 0;
    }

    method SetDrawableState(newDrawableState: SSNeumorphicShapeDrawableState)
      modifies this`drawableState
      ensures drawableState == newDrawableState
    {
      drawableState := newDrawableState;
    }

    function Trace(outlinePath: Path): seq<CanvasOp>
      reads this, drawableState
    {
      PressedTrace(shadowBitmap, drawableState.inset, outlinePath)
    }

    method Draw(canvas: Canvas, outlinePath: Path)
      modifies canvas
      ensures canvas.ops == old(canvas.ops) + Trace(outlinePath)
    {
      canvas.Emit(Save);
      canvas.Emit(Save);
      canvas.Emit(ClipPath(outlinePath));
      if shadowBitmap.Some? {
        var inset := drawableState.inset;
        var left := inset.left as real;
        var top := inset.top as real;
        canvas.Emit(DrawBitmapAt(shadowBitmap.value, left, top));
      }
      canvas.Emit(Restore);
      canvas.Emit(Restore);
    }

    /** The fields `updateShadowBitmap` reads or writes, as a value. */
    ghost function Fields(): PressedFields
      reads this
    {
      PressedFields(drawableState, shadowBitmap, lightShadowDrawable, darkShadowDrawable, updateCount, blurCalls)
    }

    /** The state `updateShadowBitmap(bounds)` leaves behind. */
    twostate predicate UpdatedFrom(bounds: IntRect)
      reads this, drawableState
    {
      Fields() == PressedAfterUpdate(old(Fields()), drawableState, bounds)
    }

    /** `updateShadowBitmap(bounds)`; it throws createBitmap's exception exactly when a
        side of the bounds is not positive. */
    method UpdateShadowBitmap(bounds: IntRect) returns (outcome: Outcome)
      modifies this
      ensures UpdatedFrom(bounds)
      ensures outcome.Pass? <==> PressedFits(bounds.Width(), bounds.Height())
      ensures outcome.Fail? ==> outcome.error == SizeError(bounds.Width(), bounds.Height())
    {
      var shadowElevation := ToInt(drawableState.shadowElevation);
      var w := bounds.Width();
      var h := bounds.Height();
      var width := w + shadowElevation;
      var height := h + shadowElevation;
      var model := drawableState.shapeAppearanceModel;
      var light := StrokeShape(lightShadowDrawable, drawableState.shadowColorLight, model, shadowElevation, w, h);
      var dark := StrokeShape(darkShadowDrawable, drawableState.shadowColorDark, model, shadowElevation, w, h);
      lightShadowDrawable := light.SetSize(width, height).SetBounds(0, 0, width, height);
      darkShadowDrawable := dark.SetSize(width, height).SetBounds(0, 0, width, height);
      var bitmap := GenerateShadowBitmap(w, h);
      if bitmap.Err? {
        return Fail(bitmap.error);
      }
      shadowBitmap := bitmap.value;
      updateCount := updateCount + 1;
      outcome := Pass;
    }

    /** The `apply { … }` block on one shadow drawable: sized to the bounds grown by the
        elevation, stroked that wide in the colour, and shaped by the corner family. */
    static method StrokeShape(g: GradientDrawable, color: int, model: SSNeumorphicShapeAppearanceModel,
                              shadowElevation: int, w: int, h: int) returns (r: GradientDrawable)
      ensures r == PressedStrokeShape(g, color, model.cornerFamily, model.corners, shadowElevation, w, h)
    {
      r := g.SetSize(w + shadowElevation, h + shadowElevation);
      r := r.SetStroke(shadowElevation, color);
      if model.cornerFamily == OVAL {
        r := r.SetShape(GRADIENT_OVAL);
      } else if model.cornerFamily == ROUNDED {
        r := r.SetShape(GRADIENT_RECTANGLE);
        r := r.SetCornerRadii(RadiiArray(PressedRadii(model.corners, w, h)));
      }
    }

    /** `generateShadowBitmap(w, h)`: the light drawable shifted up-left by the
        elevation, the dark one over it at the origin, blurred together; or the
        exception `createBitmap` throws for a w×h bitmap, before any blur. */
    method GenerateShadowBitmap(w: int, h: int) returns (r: Result<Option<Bitmap>>)
      modifies this`blurCalls
      ensures var b := PressedShadowBitmap(lightShadowDrawable, darkShadowDrawable, w, h, drawableState.shadowElevation);
        && r.Ok? == b.Ok?
        && (b.Ok? ==> r.value == Blurred(b.value, drawableState))
        && (b.Err? ==> r.error == b.error)
      ensures blurCalls == old(blurCalls) + (if r.Ok? && !drawableState.inEditMode then 1 else 0)
    {
      var shadowElevation := drawableState.shadowElevation;
      var bitmap := CreateBitmap(w, h);
      if bitmap.Err? {
        return Err(bitmap.error);
      }
      var drawn := bitmap.value.Draw(lightShadowDrawable, -shadowElevation, -shadowElevation);
      drawn := drawn.Draw(darkShadowDrawable, 0.0, 0.0);
      r := Ok(Blurred(drawn, drawableState));
      if !drawableState.inEditMode {
        blurCalls := blurCalls + 1;
      }
    }
  }
}
