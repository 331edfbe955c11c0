/** `SSNeumorphicBasinShape`: a Flat and a Pressed shadow on the same state, each
    operation forwarded to both, Flat first. */
module SSBasin {
  import opened Graphics
  import opened ShadowGeometry
  import opened SSState
  import opened SSFlat
  import opened SSPressed

  /** An element of the basin's list of shadows. */
  datatype Child = FlatChild(flat: SSNeumorphicFlatShape) | PressedChild(pressed: SSNeumorphicPressedShape)

  /** The children's fields after `forEach { it.updateShadowBitmap(bounds) }` from
      `flatBefore` and `pressedBefore`, reading the states `fs` and `ps`: Flat updated
      first, then Pressed only when Flat's update did not throw, since the exception
      ends the `forEach`. */
  ghost function BasinAfterUpdate(flatBefore: FlatFields, pressedBefore: PressedFields,
                                  fs: SSNeumorphicShapeDrawableState, ps: SSNeumorphicShapeDrawableState,
                                  bounds: IntRect): (FlatFields, PressedFields)
    reads fs, ps
  {
    var fits := FlatFits(bounds.Width(), bounds.Height(), fs.shadowElevation);
    (FlatAfterUpdate(flatBefore, fs, bounds), if fits then PressedAfterUpdate(pressedBefore, ps, bounds) else pressedBefore)
  }

  class SSNeumorphicBasinShape {
    const flat: SSNeumorphicFlatShape
    const pressed: SSNeumorphicPressedShape
    /** `shadows = listOf(flat, pressed)`. */
    const shadows: seq<Child>

    ghost predicate Valid() {
      shadows == [FlatChild(flat), PressedChild(pressed)]
    }

    constructor (drawableState: SSNeumorphicShapeDrawableState)
      ensures Valid() && fresh(flat) && fresh(pressed)
      ensures flat.drawableState == drawableState && pressed.drawableState == drawableState
      ensures flat.lightShadowBitmap == None && flat.darkShadowBitmap == None && pressed.shadowBitmap == None
      ensures flat.updateCount == 0 && pressed.updateCount == 0
      ensures flat.blurCalls == 0 && pressed.blurCalls == 0
    {
      var f := new SSNeumorphicFlatShape(drawableState);
      var p := new SSNeumorphicPressedShape(drawableState);
      flat := f;
      pressed := p;
      shadows := [FlatChild(f), PressedChild(p)];
    }

    method SetDrawableState(newDrawableState: SSNeumorphicShapeDrawableState)
      requires Valid()
      modifies flat`drawableState, pressed`drawableState
      ensures flat.drawableState == newDrawableState && pressed.drawableState == newDrawableState
    {
      for i := 0 to |shadows|
        invariant 1 <= i ==> flat.drawableState == newDrawableState
        invariant 2 <= i ==> pressed.drawableState == newDrawableState
      {
        match shadows[i]
        case FlatChild(f) => f.SetDrawableState(newDrawableState);
        case PressedChild(p) => p.SetDrawableState(newDrawableState);
      }
    }

    /** What `draw` issues: Flat's trace, then Pressed's. */
    function Trace(outlinePath: Path): seq<CanvasOp>
      reads flat, flat.drawableState, pressed, pressed.drawableState
    {
      flat.Trace(outlinePath) + pressed.Trace(outlinePath)
    }

    /** The trace of the first n shadows of the list. */
    function TraceUpTo(n: nat, outlinePath: Path): seq<CanvasOp>
      requires Valid() && n <= |shadows|
      reads flat, flat.drawableState, pressed, pressed.drawableState
    {
      if n == 0 then [] else TraceUpTo(n - 1, outlinePath) + ChildTrace(shadows[n - 1], outlinePath)
    }

    function ChildTrace(c: Child, outlinePath: Path): seq<CanvasOp>
      requires Valid() && c in shadows
      reads flat, flat.drawableState, pressed, pressed.drawableState
    {
      match c
      case FlatChild(f) => f.Trace(outlinePath)
      case PressedChild(p) => p.Trace(outlinePath)
    }

    method Draw(canvas: Canvas, outlinePath: Path)
      requires Valid()
      modifies canvas
      ensures canvas.ops == old(canvas.ops) + Trace(outlinePath)
    {
      for i := 0 to |shadows|
        invariant canvas.ops == old(canvas.ops) + TraceUpTo(i, outlinePath)
      {
        DrawChild(shadows[i], canvas, outlinePath);
        AppendAssoc(old(canvas.ops), TraceUpTo(i, outlinePath), ChildTrace(shadows[i], outlinePath));
      }
      TraceUpToAll(outlinePath);
    }

    lemma TraceUpToAll(outlinePath: Path)
      requires Valid()
      ensures TraceUpTo(|shadows|, outlinePath) == Trace(outlinePath)
    {
      assert TraceUpTo(1, outlinePath) == [] + flat.Trace(outlinePath);
    }

    /** The body of `forEach { it.draw(canvas, outlinePath) }`. */
    method DrawChild(child: Child, canvas: Canvas, outlinePath: Path)
      requires Valid() && child in shadows
      modifies canvas
      ensures canvas.ops == old(canvas.ops) + ChildTrace(child, outlinePath)
    {
      match child
      case FlatChild(f) => f.Draw(canvas, outlinePath);
      case PressedChild(p) => p.Draw(canvas, outlinePath);
    }

    /** The state `updateShadowBitmap(bounds)` leaves behind. */
    twostate predicate UpdatedFrom(bounds: IntRect)
      reads flat, pressed, flat.drawableState, pressed.drawableState
    {
      (flat.Fields(), pressed.Fields()) ==
        BasinAfterUpdate(old(flat.Fields()), old(pressed.Fields()), flat.drawableState, pressed.drawableState, bounds)
    }

    /** `forEach { it.updateShadowBitmap(bounds) }`: it throws the first child's exception,
        so it completes exactly when both children's bitmaps fit. */
    method UpdateShadowBitmap(bounds: IntRect) returns (outcome: Outcome)
      requires Valid()
      modifies flat, pressed
      ensures UpdatedFrom(bounds)
      ensures var w, h := bounds.Width(), bounds.Height();
        outcome.Pass? <==> FlatFits(w, h, flat.drawableState.shadowElevation) && PressedFits(w, h)
      ensures var w, h := bounds.Width(), bounds.Height();
        && (outcome.Fail? && !FlatFits(w, h, flat.drawableState.shadowElevation) ==>
              outcome.error == FlatShadowBitmap(flat.lightShadowDrawable, w, h, flat.drawableState.shadowElevation).error)
        && (outcome.Fail? && FlatFits(w, h, flat.drawableState.shadowElevation) ==> outcome.error == SizeError(w, h))
    {
      for i := 0 to |shadows|
        invariant 1 <= i ==>
          flat.Fields() == FlatAfterUpdate(old(flat.Fields()), flat.drawableState, bounds) &&
          FlatFits(bounds.Width(), bounds.Height(), flat.drawableState.shadowElevation)
        invariant i < 1 ==> unchanged(flat)
        invariant 2 <= i ==>
          pressed.Fields() == PressedAfterUpdate(old(pressed.Fields()), pressed.drawableState, bounds) &&
          PressedFits(bounds.Width(), bounds.Height())
        invariant i < 2 ==> unchanged(pressed)
      {
        var o: Outcome;
        match shadows[i] {
          case FlatChild(f) => o := f.UpdateShadowBitmap(bounds);
          case PressedChild(p) => o := p.UpdateShadowBitmap(bounds);
        }
        if o.Fail? {
          return o;
        }
      }
      outcome := Pass;
    }
  }
}
