/** `SSNeumorphicShapeDrawable`: the drawable a neumorphic view paints with. Setters
    write the shared drawable state and mark the drawable dirty when the shape has to
    be rebuilt; `draw` rebuilds the outline and the shadow only when dirty, then
    paints fill, shadow, stroke and image in that order. */
module SSDrawable {
  import opened Graphics
  import opened DrawableCommon
  import opened SSState
  import ShadowGeometry
  import SSShadow

  // ---------------------------------------------------------------------------
  // Outline

  /** `calculateRadius`: a zero radius stays zero, any other grows by the elevation so
      the outline follows the outer edge of the shadow. */
  function CalculateRadius(radius: real, shadowElevation: real): real {
    if radius == 0.0 then radius else radius + shadowElevation
  }

  /** The path `calculateOutlinePath(bounds, path)` leaves in `path`: an oval or a
      rounded rectangle anchored at the inset with the bounds' size, nothing for any
      other corner family. */
  function OutlinePath(bounds: RealRect, inset: IntRect, model: SSNeumorphicShapeAppearanceModel, shadowElevation: real): Path {
    var rect := OutlineRect(bounds, inset);
    var c := model.corners;
    if model.cornerFamily == OVAL then OvalPath(rect)
    else if model.cornerFamily == ROUNDED then
      RoundRectPath(rect, RadiiArray(CornerRadii(CalculateRadius(c.topLeft, shadowElevation),
                                                 CalculateRadius(c.topRight, shadowElevation),
                                                 CalculateRadius(c.bottomRight, shadowElevation),
                                                 CalculateRadius(c.bottomLeft, shadowElevation))))
    else EmptyPath
  }

  /** Both families cover the same rectangle: from the inset's top-left corner, as wide
      and as high as the bounds; an unknown family leaves the path empty. */
  lemma OutlinePathRect(bounds: RealRect, inset: IntRect, model: SSNeumorphicShapeAppearanceModel, e: real)
    ensures var r := PathRect(OutlinePath(bounds, inset, model, e));
      && (model.cornerFamily in {OVAL, ROUNDED} <==> r.Some?)
      && (r.Some? ==> r.value.left == inset.left as real && r.value.top == inset.top as real
                      && r.value.Width() == bounds.Width() && r.value.Height() == bounds.Height())
  {
  }

  /** In ROUNDED mode each of the eight radii is the corner's radius when that is zero
      and the radius plus the elevation otherwise; OVAL mode has no radii at all. */
  lemma OutlinePathRadii(bounds: RealRect, inset: IntRect, model: SSNeumorphicShapeAppearanceModel, e: real)
    ensures model.cornerFamily == OVAL ==> OutlinePath(bounds, inset, model, e).OvalPath?
    ensures model.cornerFamily == ROUNDED ==>
      var p := OutlinePath(bounds, inset, model, e);
      var given := RadiiArray(model.corners);
      && p.RoundRectPath? && |p.radii| == 8
      && forall k :: 0 <= k < 8 ==> p.radii[k] == (if given[k] == 0.0 then 0.0 else given[k] + e)
  {
  }

  /** `drawable?.toBitmap(width, height)`: a new bitmap of that size, which the platform
      refuses for a non-positive side, holding the drawable drawn with its bounds set to
      fill it (the drawable's own bounds are restored afterwards, so its value here is
      untouched). */
  function ToBitmap(drawable: GradientDrawable, width: int, height: int): (r: Result<Bitmap>)
    ensures r.Ok? <==> width > 0 && height > 0
    ensures r.Ok? ==> r.value.width == width && r.value.height == height
    ensures r.Ok? ==> |r.value.stamps| == 1 && r.value.stamps[0].dx == 0.0 && r.value.stamps[0].dy == 0.0
    ensures r.Ok? ==> r.value.stamps[0].drawable.bounds == IntRect(0, 0, width, height)
    ensures r.Ok? ==> r.value.stamps[0].drawable == drawable.(bounds := r.value.stamps[0].drawable.bounds)
  {
    var bitmap := CreateBitmap(width, height);
    if bitmap.Ok? then Ok(bitmap.value.Draw(drawable.SetBounds(0, 0, width, height), 0.0, 0.0)) else Err(bitmap.error)
  }

  class SSNeumorphicShapeDrawable {
    var drawableState: SSNeumorphicShapeDrawableState
    var dirty: bool
    var fillPaint: Paint
    var strokePaint: Paint
    var outlinePath: Path
    /** Never null: the constructor either installs a shape or throws. */
    var shapeShadow: SSShadow.Shadow
    var imageBitmap: Option<Bitmap>
    /** `getBounds()`, kept by the platform `Drawable`. */
    var bounds: IntRect
    /** `getState()`, kept by the platform `Drawable`. */
    var stateSet: seq<int>
    /** Calls to the platform's `invalidateSelf()`, each asking the host to repaint. */
    ghost var repaintRequests: nat
    /** The objects of the shape, none of them the drawable or its state. */
    ghost var shadowRepr: set<object>

    ghost predicate Valid()
      reads this, drawableState, shadowRepr
    {
      && shadowRepr == SSShadow.Objects(shapeShadow)
      && this !in shadowRepr && drawableState !in shadowRepr
      && SSShadow.On(shapeShadow, drawableState)
      && IsInt32(drawableState.alpha)
    }

    /** The private constructor, given what `shadowOf` returned for the state. */
    constructor FromState(drawableState: SSNeumorphicShapeDrawableState, shadow: SSShadow.Shadow)
      requires SSShadow.On(shadow, drawableState) && IsInt32(drawableState.alpha)
      ensures Valid()
      ensures this.drawableState == drawableState && shapeShadow == shadow && !dirty
      ensures fillPaint == NewPaint(Fill) && strokePaint == NewPaint(Stroke)
      ensures outlinePath == EmptyPath && imageBitmap == None
      ensures bounds == IntRect(0, 0, 0, 0) && stateSet == [] && repaintRequests == 0
    {
      this.drawableState := drawableState;
      dirty := false;
      fillPaint := NewPaint(Fill);
      strokePaint := NewPaint(Stroke);
      outlinePath := EmptyPath;
      shapeShadow := shadow;
      shadowRepr := SSShadow.Objects(shadow);
      imageBitmap := None;
      bounds := IntRect(0, 0, 0, 0);
      stateSet := [];
      repaintRequests := 0;
    }

    /** `SSNeumorphicShapeDrawable(drawableState)`: throws for a state whose shape type
        is not Flat, Pressed or Basin. */
    static method Create(drawableState: SSNeumorphicShapeDrawableState) returns (r: Result<SSNeumorphicShapeDrawable>)
      requires IsInt32(drawableState.alpha)
      ensures r.Ok? <==> ShapeTypeOf(drawableState.shapeType).Ok?
      ensures r.Err? ==> r.error == IllegalArgumentException(drawableState.shapeType)
      ensures r.Ok? ==> var d := r.value;
        && fresh(d) && fresh(SSShadow.Objects(d.shapeShadow)) && d.Valid() && SSShadow.Initial(d.shapeShadow)
        && d.drawableState == drawableState && !d.dirty
        && SSShadow.Kind(d.shapeShadow) == ShapeTypeOf(drawableState.shapeType).value
    {
      var shadow := SSShadow.ShadowOf(drawableState.shapeType, drawableState);
      if shadow.Err? {
        return Err(shadow.error);
      }
      var d := new SSNeumorphicShapeDrawable.FromState(drawableState, shadow.value);
      r := Ok(d);
    }

    /** `SSNeumorphicShapeDrawable(shapeAppearanceModel, blurProvider)`: a new default
        state, whose shape type is Flat, so this one never throws. */
    static method CreateWithModel(model: SSNeumorphicShapeAppearanceModel, blurProvider: BlurProvider)
      returns (d: SSNeumorphicShapeDrawable)
      ensures fresh(d) && fresh(d.drawableState) && d.Valid() && !d.dirty
      ensures d.drawableState.Fields() == DefaultFields(model) && d.drawableState.blurProvider == blurProvider
      ensures SSShadow.Kind(d.shapeShadow) == Flat && SSShadow.Initial(d.shapeShadow)
    {
      var state := new SSNeumorphicShapeDrawableState(model, blurProvider);
      var r := Create(state);
      d := r.value;
    }

    /** `SSNeumorphicShapeDrawableState.newDrawable()`: a drawable sharing this state,
        marked dirty so that its first draw builds the outline and the shadow. */
    static method NewDrawable(drawableState: SSNeumorphicShapeDrawableState) returns (r: Result<SSNeumorphicShapeDrawable>)
      requires IsInt32(drawableState.alpha)
      ensures r.Ok? <==> ShapeTypeOf(drawableState.shapeType).Ok?
      ensures r.Err? ==> r.error == IllegalArgumentException(drawableState.shapeType)
      ensures r.Ok? ==> var d := r.value;
        && fresh(d) && fresh(SSShadow.Objects(d.shapeShadow)) && d.Valid()
        && d.drawableState == drawableState && d.dirty
    {
      r := Create(drawableState);
      if r.Ok? {
        r.value.dirty := true;
      }
    }

    // -------------------------------------------------------------------------
    // Invalidation

    /** `invalidateSelf()`: the shape must be rebuilt, and the host repaints. */
    method InvalidateSelf()
      modifies this`dirty, this`repaintRequests
      ensures dirty && repaintRequests == old(repaintRequests) + 1
    {
      dirty := true;
      repaintRequests := repaintRequests + 1;
    }

    /** `invalidateSelfIgnoreShape()`: only a repaint; the shape stays as it is. */
    method InvalidateSelfIgnoreShape()
      modifies this`repaintRequests
      ensures repaintRequests == old(repaintRequests) + 1
    {
      repaintRequests := repaintRequests + 1;
    }

    twostate predicate Invalidated()
      reads this
    {
      dirty && repaintRequests == old(repaintRequests) + 1
    }

    twostate predicate RepaintOnly()
      reads this
    {
      dirty == old(dirty) && repaintRequests == old(repaintRequests) + 1
    }

    twostate predicate Untouched()
      reads this
    {
      dirty == old(dirty) && repaintRequests == old(repaintRequests)
    }

    // -------------------------------------------------------------------------
    // Draw

    /** `draw(canvas)`: when dirty, the outline and the shadow are rebuilt first; then
        the four layers are drawn with both paints' alphas modulated by the drawable's
        alpha and the stroke paint at the state's stroke width, and the paints get
        their own alphas back. When the shadow update throws, nothing is drawn, the
        drawable stays dirty and the paints keep the modulated alphas. */
    method Draw(canvas: Canvas) returns (outcome: Outcome)
      requires Valid()
      modifies this`fillPaint, this`strokePaint, this`outlinePath, this`dirty, canvas, shadowRepr
      ensures Valid()
      ensures dirty == outcome.Fail?
      ensures old(dirty) ==>
        outlinePath == OutlinePath(ToRealRect(BoundsInternal(bounds, drawableState.inset)), drawableState.inset,
                                   drawableState.shapeAppearanceModel, drawableState.shadowElevation)
      ensures old(dirty) ==> SSShadow.Updated(shapeShadow, drawableState, BoundsInternal(bounds, drawableState.inset))
      ensures old(dirty) ==> (outcome.Pass? <==> ShadowGeometry.ShadowFits(SSShadow.Kind(shapeShadow),
        BoundsInternal(bounds, drawableState.inset).Width(), BoundsInternal(bounds, drawableState.inset).Height(),
        drawableState.shadowElevation))
      ensures !old(dirty) ==> outcome.Pass? && outlinePath == old(outlinePath) && unchanged(shadowRepr)
      ensures outcome.Pass? ==>
        fillPaint == old(fillPaint) && strokePaint == old(strokePaint).SetStrokeWidth(drawableState.strokeWidth)
      ensures outcome.Pass? ==> canvas.ops == old(canvas.ops) + DrawTrace(
        drawableState.paintStyle, outlinePath,
        Modulated(fillPaint, drawableState.alpha), Modulated(strokePaint, drawableState.alpha),
        SSShadow.Trace(shapeShadow, drawableState, outlinePath), imageBitmap, BoundsInternal(bounds, drawableState.inset))
      ensures outcome.Fail? ==>
        && fillPaint == Modulated(old(fillPaint), drawableState.alpha)
        && strokePaint == Modulated(old(strokePaint).SetStrokeWidth(drawableState.strokeWidth), drawableState.alpha)
        && canvas.ops == old(canvas.ops)
    {
      // The paint writes before the `if (dirty)` block touch nothing the block reads;
      // they are made after it.
      var fill := Modulated(fillPaint, drawableState.alpha);
      var stroke := Modulated(strokePaint.SetStrokeWidth(drawableState.strokeWidth), drawableState.alpha);
      outcome := Refresh();
      ghost var refreshed := SSShadow.Fields(shapeShadow);
      SSShadow.CanvasApart(shapeShadow, canvas);
      DrawAfterRefresh(canvas, outcome, fill, stroke);
      assert SSShadow.Fields(shapeShadow) == refreshed;
    }

    /** The part of `draw` after the `if (dirty)` block, given its outcome and the
        modulated paints. When the block threw, the exception leaves the paints with
        their modulated alphas and the canvas untouched; otherwise the stroke width is
        set and the layers are drawn. */
    method DrawAfterRefresh(canvas: Canvas, outcome: Outcome, fill: Paint, stroke: Paint)
      requires Valid()
      modifies this`fillPaint, this`strokePaint, canvas
      ensures Valid()
      ensures outcome.Pass? ==>
        && fillPaint == old(fillPaint) && strokePaint == old(strokePaint).SetStrokeWidth(drawableState.strokeWidth)
        && canvas.ops == old(canvas.ops) + DrawTrace(
             drawableState.paintStyle, outlinePath, fill, stroke,
             SSShadow.Trace(shapeShadow, drawableState, outlinePath), imageBitmap, BoundsInternal(bounds, drawableState.inset))
      ensures outcome.Fail? ==> fillPaint == fill && strokePaint == stroke && canvas.ops == old(canvas.ops)
    {
      if outcome.Fail? {
        fillPaint := fill;
        strokePaint := stroke;
      } else {
        strokePaint := strokePaint.SetStrokeWidth(drawableState.strokeWidth);
        DrawLayers(canvas, fill, stroke);
      }
    }

    /** The `if (dirty)` block of `draw`: a dirty drawable rebuilds its outline and
        shadow and clears the flag unless the shadow update throws; a clean one
        rebuilds nothing. */
    method Refresh() returns (outcome: Outcome)
      requires Valid()
      modifies this`outlinePath, this`dirty, shadowRepr
      ensures Valid()
      ensures dirty == outcome.Fail?
      ensures old(dirty) ==>
        outlinePath == OutlinePath(ToRealRect(BoundsInternal(bounds, drawableState.inset)), drawableState.inset,
                                   drawableState.shapeAppearanceModel, drawableState.shadowElevation)
      ensures old(dirty) ==> SSShadow.Updated(shapeShadow, drawableState, BoundsInternal(bounds, drawableState.inset))
      ensures old(dirty) ==> (outcome.Pass? <==> ShadowGeometry.ShadowFits(SSShadow.Kind(shapeShadow),
        BoundsInternal(bounds, drawableState.inset).Width(), BoundsInternal(bounds, drawableState.inset).Height(),
        drawableState.shadowElevation))
      ensures !old(dirty) ==> outcome.Pass? && outlinePath == old(outlinePath) && unchanged(shadowRepr)
    {
      outcome := Pass;
      if dirty {
        outcome := Rebuild();
        if outcome.Pass? {
          dirty := false;
        }
      }
    }

    /** The body of that block: the outline path recalculated from the bounds, and the
        shadow updated once from the internal bounds, which may throw. */
    method Rebuild() returns (outcome: Outcome)
      requires Valid()
      modifies this`outlinePath, shadowRepr
      ensures Valid()
      ensures outlinePath == OutlinePath(ToRealRect(BoundsInternal(bounds, drawableState.inset)), drawableState.inset,
                                         drawableState.shapeAppearanceModel, drawableState.shadowElevation)
      ensures SSShadow.Updated(shapeShadow, drawableState, BoundsInternal(bounds, drawableState.inset))
      ensures outcome.Pass? <==> ShadowGeometry.ShadowFits(SSShadow.Kind(shapeShadow),
        BoundsInternal(bounds, drawableState.inset).Width(), BoundsInternal(bounds, drawableState.inset).Height(),
        drawableState.shadowElevation)
    {
      CalculateOutlinePath(ToRealRect(BoundsInternal(bounds, drawableState.inset)));
      outcome := SSShadow.Update(shapeShadow, drawableState, BoundsInternal(bounds, drawableState.inset));
    }

    /** The painting half of `draw`: fill, shadow, stroke and image, with the paints
        given. */
    method DrawLayers(canvas: Canvas, fill: Paint, stroke: Paint)
      requires Valid()
      modifies canvas
      ensures Valid()
      ensures canvas.ops == old(canvas.ops) + DrawTrace(
        drawableState.paintStyle, outlinePath, fill, stroke,
        SSShadow.Trace(shapeShadow, drawableState, outlinePath), imageBitmap, BoundsInternal(bounds, drawableState.inset))
    {
      SSShadow.CanvasApart(shapeShadow, canvas);
      ghost var ops0 := canvas.ops;
      DrawFillShape(canvas, fill);
      ghost var ops1 := canvas.ops;
      SSShadow.Draw(shapeShadow, drawableState, canvas, outlinePath);
      ghost var ops2 := canvas.ops;
      DrawStrokeShape(canvas, stroke);
      ghost var ops3 := canvas.ops;
      DrawImageBitmap(canvas);
      AppendAssoc4(ops0, ops1[|ops0|..], ops2[|ops1|..], ops3[|ops2|..], canvas.ops[|ops3|..]);
    }

    /** `if (hasFill()) drawFillShape(canvas)`: the outline filled with the paint. */
    method DrawFillShape(canvas: Canvas, fill: Paint)
      modifies canvas
      ensures canvas.ops == old(canvas.ops) + PathLayer(HasFill(drawableState.paintStyle), outlinePath, fill)
    {
      if HasFill(drawableState.paintStyle) {
        canvas.Emit(DrawPath(outlinePath, fill));
      }
    }

    /** `if (hasStroke()) drawStrokeShape(canvas)`: the outline stroked with the paint. */
    method DrawStrokeShape(canvas: Canvas, stroke: Paint)
      modifies canvas
      ensures canvas.ops == old(canvas.ops) + PathLayer(HasStroke(drawableState.paintStyle, stroke.strokeWidth), outlinePath, stroke)
    {
      if HasStroke(drawableState.paintStyle, stroke.strokeWidth) {
        canvas.Emit(DrawPath(outlinePath, stroke));
      }
    }

    /** `if (hasImageBitmap()) drawImageBitmap(canvas)`: clipped to the outline, the
        bitmap stretched over the internal bounds. */
    method DrawImageBitmap(canvas: Canvas)
      modifies canvas
      ensures canvas.ops == old(canvas.ops) + ImageLayer(imageBitmap, outlinePath, BoundsInternal(bounds, drawableState.inset))
    {
      if imageBitmap.Some? {
        canvas.Emit(ClipPath(outlinePath));
        canvas.Emit(DrawBitmapInRect(imageBitmap.value, BoundsInternal(bounds, drawableState.inset)));
      }
    }

    /** `calculateOutlinePath(bounds, outlinePath)`: the path reset and rebuilt. */
    method CalculateOutlinePath(boundsF: RealRect)
      modifies this`outlinePath
      ensures outlinePath == OutlinePath(boundsF, drawableState.inset, drawableState.shapeAppearanceModel,
                                         drawableState.shadowElevation)
    {
      var left := drawableState.inset.left as real;
      var top := drawableState.inset.top as real;
      var right := left + boundsF.Width();
      var bottom := top + boundsF.Height();
      var model := drawableState.shapeAppearanceModel;
      var e := drawableState.shadowElevation;
      outlinePath := EmptyPath;
      if model.cornerFamily == OVAL {
        outlinePath := OvalPath(RealRect(left, top, right, bottom));
      } else if model.cornerFamily == ROUNDED {
        var c := model.corners;
        outlinePath := RoundRectPath(RealRect(left, top, right, bottom),
          [CalculateRadius(c.topLeft, e), CalculateRadius(c.topLeft, e),
           CalculateRadius(c.topRight, e), CalculateRadius(c.topRight, e),
           CalculateRadius(c.bottomRight, e), CalculateRadius(c.bottomRight, e),
           CalculateRadius(c.bottomLeft, e), CalculateRadius(c.bottomLeft, e)]);
      }
    }

    // -------------------------------------------------------------------------
    // Setters that rebuild the shape

    method SetShapeAppearanceModel(model: SSNeumorphicShapeAppearanceModel)
      requires Valid()
      modifies drawableState, this`dirty, this`repaintRequests
      ensures Valid()
      ensures drawableState.Fields() == old(drawableState.Fields()).(shapeAppearanceModel := model)
      ensures Invalidated()
    {
      drawableState.shapeAppearanceModel := model;
      InvalidateSelf();
    }

    method SetStrokeWidth(strokeWidth: real)
      requires Valid()
      modifies drawableState, this`dirty, this`repaintRequests
      ensures Valid()
      ensures drawableState.Fields() == old(drawableState.Fields()).(strokeWidth := strokeWidth)
      ensures Invalidated()
    {
      drawableState.strokeWidth := strokeWidth;
      InvalidateSelf();
    }

    method SetImageBitmap(bm: Option<Bitmap>)
      requires Valid()
      modifies this`imageBitmap, this`dirty, this`repaintRequests
      ensures Valid()
      ensures imageBitmap == bm
      ensures Invalidated()
    {
      imageBitmap := bm;
      InvalidateSelf();
    }

    /** `setBackgroundDrawable(drawable, width, height)`: nothing when both sides are
        zero; otherwise the drawable rendered at that size becomes the image, which
        throws when just one side is zero or a side is negative. */
    method SetBackgroundDrawable(drawable: Option<GradientDrawable>, width: int, height: int) returns (outcome: Outcome)
      requires Valid()
      modifies this`imageBitmap, this`dirty, this`repaintRequests
      ensures Valid()
      ensures width == 0 && height == 0 ==> outcome == Pass && imageBitmap == old(imageBitmap) && Untouched()
      ensures !(width == 0 && height == 0) && drawable.None? ==> outcome == Pass && imageBitmap == None && Invalidated()
      ensures !(width == 0 && height == 0) && drawable.Some? ==>
        (outcome == Pass <==> width > 0 && height > 0)
        && (outcome == Pass ==> imageBitmap == Some(ToBitmap(drawable.value, width, height).value) && Invalidated())
        && (outcome.Fail? ==> imageBitmap == old(imageBitmap) && Untouched())
    {
      if width == 0 && height == 0 {
        return Pass;
      }
      if drawable.None? {
        SetImageBitmap(None);
        return Pass;
      }
      var bm := ToBitmap(drawable.value, width, height);
      if bm.Err? {
        return Fail(bm.error);
      }
      SetImageBitmap(Some(bm.value));
      outcome := Pass;
    }

    method SetInset(left: int, top: int, right: int, bottom: int)
      requires Valid()
      modifies drawableState, this`dirty, this`repaintRequests
      ensures Valid()
      ensures drawableState.Fields() == old(drawableState.Fields()).(inset := IntRect(left, top, right, bottom))
      ensures Invalidated()
    {
      drawableState.inset := IntRect(left, top, right, bottom);
      InvalidateSelf();
    }

    /** `setShapeType(shapeType)`: a new shape on the state when the type changes. The
        state takes the new type before `shadowOf` runs, so an invalid type is stored
        even though the exception leaves the old shape in place. */
    method SetShapeType(shapeType: int) returns (outcome: Outcome)
      requires Valid()
      modifies drawableState, this`shapeShadow, this`shadowRepr, this`dirty, this`repaintRequests
      ensures Valid()
      ensures drawableState.Fields() == old(drawableState.Fields()).(shapeType := shapeType)
      ensures outcome.Fail? <==> old(drawableState.shapeType) != shapeType && ShapeTypeOf(shapeType).Err?
      ensures outcome.Fail? ==> outcome.error == IllegalArgumentException(shapeType)
      ensures old(drawableState.shapeType) != shapeType && outcome == Pass ==>
        && fresh(shadowRepr) && SSShadow.Initial(shapeShadow)
        && SSShadow.Kind(shapeShadow) == ShapeTypeOf(shapeType).value
        && Invalidated()
      ensures old(drawableState.shapeType) == shapeType || outcome.Fail? ==> shapeShadow == old(shapeShadow) && Untouched()
    {
      outcome := Pass;
      if drawableState.shapeType != shapeType {
        drawableState.shapeType := shapeType;
        var shadow := SSShadow.ShadowOf(shapeType, drawableState);
        if shadow.Err? {
          return Fail(shadow.error);
        }
        shapeShadow := shadow.value;
        shadowRepr := SSShadow.Objects(shadow.value);
        InvalidateSelf();
      }
    }

    method SetShadowElevation(shadowElevation: real)
      requires Valid()
      modifies drawableState, this`dirty, this`repaintRequests
      ensures Valid()
      ensures old(drawableState.shadowElevation) != shadowElevation ==>
        drawableState.Fields() == old(drawableState.Fields()).(shadowElevation := shadowElevation) && Invalidated()
      ensures old(drawableState.shadowElevation) == shadowElevation ==>
        drawableState.Fields() == old(drawableState.Fields()) && Untouched()
    {
      if drawableState.shadowElevation != shadowElevation {
        drawableState.shadowElevation := shadowElevation;
        InvalidateSelf();
      }
    }

    method SetShadowColorLight(shadowColor: int)
      requires Valid()
      modifies drawableState, this`dirty, this`repaintRequests
      ensures Valid()
      ensures old(drawableState.shadowColorLight) != shadowColor ==>
        drawableState.Fields() == old(drawableState.Fields()).(shadowColorLight := shadowColor) && Invalidated()
      ensures old(drawableState.shadowColorLight) == shadowColor ==>
        drawableState.Fields() == old(drawableState.Fields()) && Untouched()
    {
      if drawableState.shadowColorLight != shadowColor {
        drawableState.shadowColorLight := shadowColor;
        InvalidateSelf();
      }
    }

    method SetShadowColorDark(shadowColor: int)
      requires Valid()
      modifies drawableState, this`dirty, this`repaintRequests
      ensures Valid()
      ensures old(drawableState.shadowColorDark) != shadowColor ==>
        drawableState.Fields() == old(drawableState.Fields()).(shadowColorDark := shadowColor) && Invalidated()
      ensures old(drawableState.shadowColorDark) == shadowColor ==>
        drawableState.Fields() == old(drawableState.Fields()) && Untouched()
    {
      if drawableState.shadowColorDark != shadowColor {
        drawableState.shadowColorDark := shadowColor;
        InvalidateSelf();
      }
    }

    /** `onBoundsChange(bounds)`: the shape must be rebuilt for the new bounds. */
    method OnBoundsChange()
      modifies this`dirty
      ensures dirty
    {
      dirty := true;
    }

    /** The platform's `setBounds`: when the bounds differ it invalidates (if the old
        bounds were not empty), stores them and calls `onBoundsChange`. */
    method SetBounds(newBounds: IntRect)
      requires Valid()
      modifies this`bounds, this`dirty, this`repaintRequests
      ensures Valid()
      ensures bounds == newBounds
      ensures dirty == (old(dirty) || old(bounds) != newBounds)
      ensures repaintRequests == old(repaintRequests) +
        (if old(bounds) != newBounds && old(bounds).left < old(bounds).right && old(bounds).top < old(bounds).bottom then 1 else 0)
    {
      if bounds != newBounds {
        if bounds.left < bounds.right && bounds.top < bounds.bottom {
          InvalidateSelf();
        }
        bounds := newBounds;
        OnBoundsChange();
      }
    }

    // -------------------------------------------------------------------------
    // Setters that only repaint

    /** `setAlpha(alpha)`: stored when it differs, with a repaint but no rebuild. */
    method SetAlpha(alpha: int)
      requires Valid() && IsInt32(alpha)
      modifies drawableState, this`repaintRequests
      ensures Valid()
      ensures old(drawableState.alpha) != alpha ==>
        drawableState.Fields() == old(drawableState.Fields()).(alpha := alpha) && RepaintOnly()
      ensures old(drawableState.alpha) == alpha ==>
        drawableState.Fields() == old(drawableState.Fields()) && Untouched()
    {
      if drawableState.alpha != alpha {
        drawableState.alpha := alpha;
        InvalidateSelfIgnoreShape();
      }
    }

    method SetTranslationZ(translationZ: real)
      requires Valid()
      modifies drawableState, this`repaintRequests
      ensures Valid()
      ensures old(drawableState.translationZ) != translationZ ==>
        drawableState.Fields() == old(drawableState.Fields()).(translationZ := translationZ) && RepaintOnly()
      ensures old(drawableState.translationZ) == translationZ ==>
        drawableState.Fields() == old(drawableState.Fields()) && Untouched()
    {
      if drawableState.translationZ != translationZ {
        drawableState.translationZ := translationZ;
        InvalidateSelfIgnoreShape();
      }
    }

    /** `setPaintStyle(paintStyle)`: always stored and repainted, never rebuilt. */
    method SetPaintStyle(paintStyle: PaintStyle)
      requires Valid()
      modifies drawableState, this`repaintRequests
      ensures Valid()
      ensures drawableState.Fields() == old(drawableState.Fields()).(paintStyle := paintStyle)
      ensures RepaintOnly()
    {
      drawableState.paintStyle := paintStyle;
      InvalidateSelfIgnoreShape();
    }

    /** `setInEditMode(inEditMode)`: stored, with no invalidation at all. */
    method SetInEditMode(inEditMode: bool)
      requires Valid()
      modifies drawableState
      ensures Valid()
      ensures drawableState.Fields() == old(drawableState.Fields()).(inEditMode := inEditMode)
    {
      drawableState.inEditMode := inEditMode;
    }

    /** `getZ()`: the elevation plus the translation. */
    function GetZ(): real
      reads this, drawableState
    {
      drawableState.shadowElevation + drawableState.translationZ
    }

    /** `setZ(z)`: the translation becomes z minus the elevation, so `getZ()` reads z back. */
    method SetZ(z: real)
      requires Valid()
      modifies drawableState, this`repaintRequests
      ensures Valid()
      ensures GetZ() == z
      ensures drawableState.Fields() == old(drawableState.Fields()).(translationZ := z - old(drawableState.shadowElevation))
      ensures if old(drawableState.translationZ) == z - old(drawableState.shadowElevation) then Untouched() else RepaintOnly()
    {
      SetTranslationZ(z - drawableState.shadowElevation);
    }

    // -------------------------------------------------------------------------
    // Colours and state

    method SetFillColor(fillColor: ColorStateList?) returns (changed: bool)
      requires Valid()
      modifies drawableState, this`fillPaint, this`strokePaint, this`dirty, this`repaintRequests
      ensures Valid()
      ensures drawableState.Fields() == old(drawableState.Fields()).(fillColor := fillColor)
      ensures old(drawableState.fillColor) == fillColor ==>
        !changed && fillPaint == old(fillPaint) && strokePaint == old(strokePaint) && Untouched()
      ensures old(drawableState.fillColor) != fillColor ==> ColorsUpdated(stateSet, changed) && (if changed then Invalidated() else Untouched())
    {
      changed := false;
      if drawableState.fillColor != fillColor {
        drawableState.fillColor := fillColor;
        changed := OnStateChange(stateSet);
      }
    }

    method SetStrokeColor(strokeColor: ColorStateList?) returns (changed: bool)
      requires Valid()
      modifies drawableState, this`fillPaint, this`strokePaint, this`dirty, this`repaintRequests
      ensures Valid()
      ensures drawableState.Fields() == old(drawableState.Fields()).(strokeColor := strokeColor)
      ensures old(drawableState.strokeColor) == strokeColor ==>
        !changed && fillPaint == old(fillPaint) && strokePaint == old(strokePaint) && Untouched()
      ensures old(drawableState.strokeColor) != strokeColor ==> ColorsUpdated(stateSet, changed) && (if changed then Invalidated() else Untouched())
    {
      changed := false;
      if drawableState.strokeColor != strokeColor {
        drawableState.strokeColor := strokeColor;
        changed := OnStateChange(stateSet);
      }
    }

    /** `setStroke(strokeWidth, strokeColor: Int)`: the width, then a single-colour list
        built here as a new object, so it is never the current one and the colours are
        always re-read. */
    method SetStroke(strokeWidth: real, strokeColor: int)
      requires Valid()
      modifies drawableState, this`fillPaint, this`strokePaint, this`dirty, this`repaintRequests
      ensures Valid()
      ensures drawableState.strokeColor != null && fresh(drawableState.strokeColor)
      ensures forall s :: drawableState.strokeColor.lookup(s) == Some(strokeColor)
      ensures drawableState.Fields() == old(drawableState.Fields()).(strokeWidth := strokeWidth, strokeColor := drawableState.strokeColor)
      ensures strokePaint.color == strokeColor
      ensures ColorsUpdated(stateSet, ColorMoved())
      ensures dirty && repaintRequests == old(repaintRequests) + (if ColorMoved() then 2 else 1)
    {
      SetStrokeWidth(strokeWidth);
      var list := new ColorStateList.ValueOf(strokeColor);
      var _ := SetStrokeColor(list);
    }

    /** `setStroke(strokeWidth, strokeColor: ColorStateList?)`. */
    method SetStrokeList(strokeWidth: real, strokeColor: ColorStateList?)
      requires Valid()
      modifies drawableState, this`fillPaint, this`strokePaint, this`dirty, this`repaintRequests
      ensures Valid()
      ensures drawableState.Fields() == old(drawableState.Fields()).(strokeWidth := strokeWidth, strokeColor := strokeColor)
      ensures old(drawableState.strokeColor) == strokeColor ==>
        fillPaint == old(fillPaint) && strokePaint == old(strokePaint) && dirty && repaintRequests == old(repaintRequests) + 1
      ensures old(drawableState.strokeColor) != strokeColor ==>
        ColorsUpdated(stateSet, ColorMoved()) && dirty && repaintRequests == old(repaintRequests) + (if ColorMoved() then 2 else 1)
    {
      SetStrokeWidth(strokeWidth);
      var _ := SetStrokeColor(strokeColor);
    }

    /** Whether a paint's colour differs from the one it had before. */
    twostate predicate ColorMoved()
      reads this
    {
      fillPaint.color != old(fillPaint.color) || strokePaint.color != old(strokePaint.color)
    }

    /** What `updateColorsForState` leaves: each paint with a colour list takes the list's
        colour for the current state (its own colour as the default), a paint keeps
        everything when that colour is the one it has, and `changed` says whether any
        paint's colour moved. */
    twostate predicate ColorsUpdated(state: seq<int>, changed: bool)
      reads this, drawableState
    {
      && fillPaint.color == StateColor(drawableState.fillColor, state, old(fillPaint.color))
      && strokePaint.color == StateColor(drawableState.strokeColor, state, old(strokePaint.color))
      && fillPaint == (if fillPaint.color == old(fillPaint.color) then old(fillPaint) else old(fillPaint).SetColor(fillPaint.color))
      && strokePaint == (if strokePaint.color == old(strokePaint.color) then old(strokePaint) else old(strokePaint).SetColor(strokePaint.color))
      && (changed <==> fillPaint.color != old(fillPaint.color) || strokePaint.color != old(strokePaint.color))
    }

    /** `onStateChange(state)`: re-read the colours for the new state, and invalidate
        (dirty) only when a paint colour actually changed. */
    method OnStateChange(state: seq<int>) returns (changed: bool)
      requires Valid()
      modifies this`fillPaint, this`strokePaint, this`dirty, this`repaintRequests
      ensures Valid()
      ensures ColorsUpdated(state, changed)
      ensures if changed then Invalidated() else Untouched()
    {
      changed := UpdateColorsForState(state);
      if changed {
        InvalidateSelf();
      }
    }

    method UpdateColorsForState(state: seq<int>) returns (changed: bool)
      requires Valid()
      modifies this`fillPaint, this`strokePaint
      ensures Valid()
      ensures ColorsUpdated(state, changed)
    {
      changed := false;
      if drawableState.fillColor != null {
        var previousFillColor := fillPaint.color;
        var newFillColor := drawableState.fillColor.GetColorForState(state, previousFillColor);
        if previousFillColor != newFillColor {
          fillPaint := fillPaint.SetColor(newFillColor);
          changed := true;
        }
      }
      if drawableState.strokeColor != null {
        var previousStrokeColor := strokePaint.color;
        var newStrokeColor := drawableState.strokeColor.GetColorForState(state, previousStrokeColor);
        if previousStrokeColor != newStrokeColor {
          strokePaint := strokePaint.SetColor(newStrokeColor);
          changed := true;
        }
      }
    }

    // -------------------------------------------------------------------------
    // Mutation and queries

    /** `mutate()`: the drawable and its shape move to a fresh field-equal copy of the
        state, so later changes no longer reach other drawables sharing the old one;
        what the shape draws is the same as before. */
    method Mutate()
      requires Valid()
      modifies this`drawableState, shadowRepr
      ensures Valid()
      ensures fresh(drawableState) && drawableState != old(drawableState)
      ensures drawableState.Fields() == old(drawableState.Fields())
      ensures drawableState.blurProvider == old(drawableState.blurProvider)
      ensures SSShadow.Kept(shapeShadow)
      ensures forall o: Path {:trigger SSShadow.Trace(shapeShadow, drawableState, o)} ::
        SSShadow.Trace(shapeShadow, drawableState, o) == old(SSShadow.Trace(shapeShadow, drawableState, o))
    {
      var newDrawableState := new SSNeumorphicShapeDrawableState.Copy(drawableState);
      var previous := drawableState;
      drawableState := newDrawableState;
      SSShadow.SetState(shapeShadow, previous, newDrawableState);
    }

    /** `getOutline(outline)`: the platform default (the bounds), replaced by an oval
        or a rounded rectangle over the internal bounds for the two corner families. */
    function GetOutline(): (r: Outline)
      reads this, drawableState
      ensures drawableState.shapeAppearanceModel.cornerFamily == OVAL <==> r.OvalOutline?
      ensures drawableState.shapeAppearanceModel.cornerFamily == ROUNDED <==> r.RoundRectOutline?
      ensures r.RectOutline? ==> r.rect == bounds
      ensures !r.RectOutline? ==> r.rect == BoundsInternal(bounds, drawableState.inset)
      ensures r.RoundRectOutline? ==> r.radius == drawableState.shapeAppearanceModel.cornerRadius
    {
      var internal := BoundsInternal(bounds, drawableState.inset);
      var model := drawableState.shapeAppearanceModel;
      if model.cornerFamily == OVAL then OvalOutline(internal)
      else if model.cornerFamily == ROUNDED then RoundRectOutline(internal, model.cornerRadius)
      else RectOutline(bounds)
    }

    function GetShadowColorLight(): int
      reads this, drawableState
    {
      drawableState.shadowColorLight
    }

    /** `getShadowColorDark()` as written: it returns the light colour. */
    function GetShadowColorDark(): int
      reads this, drawableState
    {
      drawableState.shadowColorLight
    }

    /** The dark colour, as the getter's name and documentation promise. */
    function GetShadowColorDarkCorrected(): int
      reads this, drawableState
    {
      drawableState.shadowColorDark
    }
  }

  /** As written, the dark getter disagrees with the dark setter: on a fresh default
      state (light WHITE, dark BLACK) it reports WHITE. */
  lemma ShadowColorDarkAsWritten(d: SSNeumorphicShapeDrawable)
    requires d.drawableState.Fields() == DefaultFields(d.drawableState.shapeAppearanceModel)
    ensures d.GetShadowColorDark() == WHITE && d.drawableState.shadowColorDark == BLACK
    ensures d.GetShadowColorDark() != d.drawableState.shadowColorDark
  {
  }

  /** Corrected, each getter returns what its setter stored, and the two differ
      exactly when the stored colours differ. */
  lemma ShadowColorGettersCorrected(d: SSNeumorphicShapeDrawable)
    ensures d.GetShadowColorDarkCorrected() == d.drawableState.shadowColorDark
    ensures d.GetShadowColorLight() == d.drawableState.shadowColorLight
    ensures d.GetShadowColorDarkCorrected() != d.GetShadowColorLight()
        <==> d.drawableState.shadowColorDark != d.drawableState.shadowColorLight
  {
  }
}
