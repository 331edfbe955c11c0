/** `SSNeumorphicFlatShape`: shadows outside the view, a light one towards the top
    left and a dark one towards the bottom right, each blurred on its own. */
module SSFlat {
  import opened Graphics
  import opened ShadowGeometry
  import opened SSState

  /** The mutable fields of a Flat shape. */
  datatype FlatFields = FlatFields(
    drawableState: SSNeumorphicShapeDrawableState,
    lightShadowBitmap: Option<Bitmap>, darkShadowBitmap: Option<Bitmap>,
    lightShadowDrawable: GradientDrawable, darkShadowDrawable: GradientDrawable,
    updateCount: nat, blurCalls: nat)

  /** The fields `updateShadowBitmap(bounds)` leaves behind when it starts from `before`
      and reads the state `s`:
      both drawables re-coloured, re-shaped and sized to the bounds; then, when
      `createBitmap` accepts the grown size, each rendered and blurred into its bitmap,
      and otherwise (it threw) the bitmaps as they were and no blur requested. */
  ghost function FlatAfterUpdate(before: FlatFields, s: SSNeumorphicShapeDrawableState, bounds: IntRect): FlatFields
    reads s
  {
    var w := bounds.Width();
    var h := bounds.Height();
    var model := s.shapeAppearanceModel;
    var light := FlatShadowDrawable(before.lightShadowDrawable, s.shadowColorLight, model.cornerFamily, model.corners, w, h);
    var dark := FlatShadowDrawable(before.darkShadowDrawable, s.shadowColorDark, model.cornerFamily, model.corners, w, h);
    if FlatFits(w, h, s.shadowElevation) then
      before.(lightShadowDrawable := light, darkShadowDrawable := dark,
              lightShadowBitmap := Blurred(FlatShadowBitmap(light, w, h, s.shadowElevation).value, s),
              darkShadowBitmap := Blurred(FlatShadowBitmap(dark, w, h, s.shadowElevation).value, s),
              updateCount := before.updateCount + 1,
              blurCalls := before.blurCalls + (if s.inEditMode then 0 else 2))
    else
      before.(lightShadowDrawable := light, darkShadowDrawable := dark)
  }

  class SSNeumorphicFlatShape {
    var drawableState: SSNeumorphicShapeDrawableState
    var lightShadowBitmap: Option<Bitmap>
    var darkShadowBitmap: Option<Bitmap>
    var lightShadowDrawable: GradientDrawable
    var darkShadowDrawable: GradientDrawable
    /** Completed `updateShadowBitmap` calls. */
    ghost var updateCount: nat
    /** Calls made into the blur provider. */
    ghost var blurCalls: nat

    constructor (drawableState: SSNeumorphicShapeDrawableState)
      ensures this.drawableState == drawableState
      ensures lightShadowBitmap == None && darkShadowBitmap == None
      ensures lightShadowDrawable == NEW_GRADIENT && darkShadowDrawable == NEW_GRADIENT
      ensures updateCount == 0 && blurCalls == 0
    {
      this.drawableState := drawableState;
      lightShadowBitmap := None;
      darkShadowBitmap := None;
      lightShadowDrawable := NEW_GRADIENT;
      darkShadowDrawable := NEW_GRADIENT;
      updateCount := 0;
      blurCalls := 0;
    }

    method SetDrawableState(newDrawableState: SSNeumorphicShapeDrawableState)
      modifies this`drawableState
      ensures drawableState == newDrawableState
    {
      drawableState := newDrawableState;
    }

    /** What `draw` issues on a canvas, given the current bitmaps and state. */
    function Trace(outlinePath: Path): seq<CanvasOp>
      reads this, drawableState
    {
      FlatTrace(lightShadowBitmap, darkShadowBitmap, drawableState.inset,
                drawableState.shadowElevation, drawableState.translationZ, outlinePath)
    }

    method Draw(canvas: Canvas, outlinePath: Path)
      modifies canvas
      ensures canvas.ops == old(canvas.ops) + Trace(outlinePath)
    {
      canvas.Emit(Save);
      canvas.Emit(ClipOutPath(outlinePath));
      var elevation := drawableState.shadowElevation;
      var z := drawableState.shadowElevation + drawableState.translationZ;
      var inset := drawableState.inset;
      var left := inset.left as real;
      var top := inset.top as real;
      if lightShadowBitmap.Some? {
        var offset := -elevation - z;
        canvas.Emit(DrawBitmapAt(lightShadowBitmap.value, offset + left, offset + top));
      }
      if darkShadowBitmap.Some? {
        var offset := -elevation + z;
        canvas.Emit(DrawBitmapAt(darkShadowBitmap.value, offset + left, offset + top));
      }
      canvas.Emit(Restore);
    }

    /** The fields `updateShadowBitmap` reads or writes, as a value. */
    ghost function Fields(): FlatFields
      reads this
    {
      FlatFields(drawableState, lightShadowBitmap, darkShadowBitmap, lightShadowDrawable, darkShadowDrawable,
                 updateCount, blurCalls)
    }

    /** The state `updateShadowBitmap(bounds)` leaves behind. */
    twostate predicate UpdatedFrom(bounds: IntRect)
      reads this, drawableState
    {
      Fields() == FlatAfterUpdate(old(Fields()), drawableState, bounds)
    }

    /** `updateShadowBitmap(bounds)`; it throws createBitmap's exception exactly when the
        grown size does not fit. */
    method UpdateShadowBitmap(bounds: IntRect) returns (outcome: Outcome)
      modifies this
      ensures UpdatedFrom(bounds)
      ensures outcome.Pass? <==> FlatFits(bounds.Width(), bounds.Height(), drawableState.shadowElevation)
      ensures outcome.Fail? ==>
        outcome.error == FlatShadowBitmap(lightShadowDrawable, bounds.Width(), bounds.Height(), drawableState.shadowElevation).error
    {
      var model := drawableState.shapeAppearanceModel;
      lightShadowDrawable := FlatCornerShape(lightShadowDrawable.SetColor(drawableState.shadowColorLight),
                                             model.cornerFamily, model.corners);
      darkShadowDrawable := FlatCornerShape(darkShadowDrawable.SetColor(drawableState.shadowColorDark),
                                            model.cornerFamily, model.corners);
      var w := bounds.Width();
      var h := bounds.Height();
      lightShadowDrawable := lightShadowDrawable.SetSize(w, h);
      lightShadowDrawable := lightShadowDrawable.SetBounds(0, 0, w, h);
      darkShadowDrawable := darkShadowDrawable.SetSize(w, h);
      darkShadowDrawable := darkShadowDrawable.SetBounds(0, 0, w, h);
      var light := ToBlurredBitmap(lightShadowDrawable, w, h);
      if light.Err? {
        return Fail(light.error);
      }
      lightShadowBitmap := light.value;
      // The dark bitmap has the light one's size, so its creation succeeds as well.
      var dark := ToBlurredBitmap(darkShadowDrawable, w, h);
      darkShadowBitmap := dark.value;
      updateCount := updateCount + 1;
      outcome := Pass;
    }

    /** `Drawable.toBlurredBitmap(w, h)`: render into a bitmap grown by the elevation,
        then blur it; or the exception `createBitmap` throws for that size, before any blur. */
    method ToBlurredBitmap(d: GradientDrawable, w: int, h: int) returns (r: Result<Option<Bitmap>>)
      modifies this`blurCalls
      ensures var b := FlatShadowBitmap(d, w, h, drawableState.shadowElevation);
        && r.Ok? == b.Ok?
        && (b.Ok? ==> r.value == Blurred(b.value, drawableState))
        && (b.Err? ==> r.error == b.error)
      ensures blurCalls == old(blurCalls) + (if r.Ok? && !drawableState.inEditMode then 1 else 0)
    {
      var shadowElevation := drawableState.shadowElevation;
      var width := RoundToInt(w as real + shadowElevation * 2.0);
      var height := RoundToInt(h as real + shadowElevation * 2.0);
      var bitmap := CreateBitmap(width, height);
      if bitmap.Err? {
        return Err(bitmap.error);
      }
      var drawn := bitmap.value.Draw(d, shadowElevation, shadowElevation);
      r := Ok(Blurred(drawn, drawableState));
      if !drawableState.inEditMode {
        blurCalls := blurCalls + 1;
      }
    }
  }
}
