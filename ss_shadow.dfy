/** The drawable's shadow strategy: one of the three shapes, chosen by `shadowOf`,
    with the four calls the drawable makes on it dispatched to the shape. */
module SSShadow {
  import opened Graphics
  import opened DrawableCommon
  import opened ShadowGeometry
  import opened SSState
  import opened SSFlat
  import opened SSPressed
  import opened SSBasin

  datatype Shadow =
    | FlatShadow(flat: SSNeumorphicFlatShape)
    | PressedShadow(pressed: SSNeumorphicPressedShape)
    | BasinShadow(basin: SSNeumorphicBasinShape)

  function Kind(s: Shadow): ShapeType {
    match s
    case FlatShadow(_) => Flat
    case PressedShadow(_) => Pressed
    case BasinShadow(_) => Basin
  }

  /** The objects a shadow owns. */
  function Objects(s: Shadow): set<object> {
    match s
    case FlatShadow(f) => {f}
    case PressedShadow(p) => {p}
    case BasinShadow(b) => {b, b.flat, b.pressed}
  }

  /** A canvas is none of a shadow's shapes. */
  lemma CanvasApart(s: Shadow, canvas: Canvas)
    ensures canvas !in Objects(s)
  {
  }

  /** Every shape of the shadow reads the drawable state `st`. */
  ghost predicate On(s: Shadow, st: SSNeumorphicShapeDrawableState)
    reads Objects(s)
  {
    match s
    case FlatShadow(f) => f.drawableState == st
    case PressedShadow(p) => p.drawableState == st
    case BasinShadow(b) => b.Valid() && b.flat.drawableState == st && b.pressed.drawableState == st
  }

  /** A shadow as constructed: nothing rendered yet, nothing updated, nothing blurred. */
  ghost predicate Initial(s: Shadow)
    reads Objects(s)
  {
    match s
    case FlatShadow(f) => f.lightShadowBitmap == None && f.darkShadowBitmap == None && f.updateCount == 0 && f.blurCalls == 0
    case PressedShadow(p) => p.shadowBitmap == None && p.updateCount == 0 && p.blurCalls == 0
    case BasinShadow(b) =>
      && b.flat.lightShadowBitmap == None && b.flat.darkShadowBitmap == None && b.pressed.shadowBitmap == None
      && b.flat.updateCount == 0 && b.pressed.updateCount == 0 && b.flat.blurCalls == 0 && b.pressed.blurCalls == 0
  }

  /** What the shadow's `draw(canvas, outlinePath)` issues. */
  function Trace(s: Shadow, st: SSNeumorphicShapeDrawableState, outlinePath: Path): seq<CanvasOp>
    requires On(s, st)
    reads Objects(s), st
  {
    match s
    case FlatShadow(f) => f.Trace(outlinePath)
    case PressedShadow(p) => p.Trace(outlinePath)
    case BasinShadow(b) => b.Trace(outlinePath)
  }

  /** The mutable fields of a shadow's shapes, as a value. */
  datatype ShadowFields =
    | FlatShadowFields(flat: FlatFields)
    | PressedShadowFields(pressed: PressedFields)
    | BasinShadowFields(basinFlat: FlatFields, basinPressed: PressedFields)

  ghost function Fields(s: Shadow): ShadowFields
    reads Objects(s)
  {
    match s
    case FlatShadow(f) => FlatShadowFields(f.Fields())
    case PressedShadow(p) => PressedShadowFields(p.Fields())
    case BasinShadow(b) => BasinShadowFields(b.flat.Fields(), b.pressed.Fields())
  }

  /** The fields the shadow's `updateShadowBitmap(bounds)` leaves behind when its shapes
      start from `before` and read the state `st`. */
  ghost function AfterUpdate(before: ShadowFields, st: SSNeumorphicShapeDrawableState, bounds: IntRect): ShadowFields
    reads st
  {
    match before
    case FlatShadowFields(f) => FlatShadowFields(FlatAfterUpdate(f, st, bounds))
    case PressedShadowFields(p) => PressedShadowFields(PressedAfterUpdate(p, st, bounds))
    case BasinShadowFields(f, p) =>
      var (f', p') := BasinAfterUpdate(f, p, st, st, bounds);
      BasinShadowFields(f', p')
  }

  /** The state the shadow's `updateShadowBitmap(bounds)` leaves behind. */
  twostate predicate Updated(s: Shadow, st: SSNeumorphicShapeDrawableState, bounds: IntRect)
    reads Objects(s), st
  {
    Fields(s) == AfterUpdate(old(Fields(s)), st, bounds)
  }

  /** Everything of the shadow except the state it reads is as before. */
  twostate predicate Kept(s: Shadow)
    reads Objects(s)
  {
    match s
    case FlatShadow(f) =>
      unchanged(f`lightShadowBitmap, f`darkShadowBitmap, f`lightShadowDrawable, f`darkShadowDrawable, f`updateCount, f`blurCalls)
    case PressedShadow(p) =>
      unchanged(p`shadowBitmap, p`lightShadowDrawable, p`darkShadowDrawable, p`updateCount, p`blurCalls)
    case BasinShadow(b) =>
      && unchanged(b.flat`lightShadowBitmap, b.flat`darkShadowBitmap, b.flat`lightShadowDrawable, b.flat`darkShadowDrawable,
                   b.flat`updateCount, b.flat`blurCalls)
      && unchanged(b.pressed`shadowBitmap, b.pressed`lightShadowDrawable, b.pressed`darkShadowDrawable,
                   b.pressed`updateCount, b.pressed`blurCalls)
  }

  /** `shadowOf(shapeType, drawableState)`: a new Flat, Pressed or Basin shape on the
      state, or the IllegalArgumentException for any other shape type. */
  method ShadowOf(shapeType: int, drawableState: SSNeumorphicShapeDrawableState) returns (r: Result<Shadow>)
    ensures r.Ok? <==> ShapeTypeOf(shapeType).Ok?
    ensures r.Err? ==> r.error == IllegalArgumentException(shapeType)
    ensures r.Ok? ==> Kind(r.value) == ShapeTypeOf(shapeType).value
    ensures r.Ok? ==> fresh(Objects(r.value)) && On(r.value, drawableState) && Initial(r.value)
  {
    if shapeType == FLAT {
      var f := new SSNeumorphicFlatShape(drawableState);
      r := Ok(FlatShadow(f));
    } else if shapeType == PRESSED {
      var p := new SSNeumorphicPressedShape(drawableState);
      r := Ok(PressedShadow(p));
    } else if shapeType == BASIN {
      var b := new SSNeumorphicBasinShape(drawableState);
      r := Ok(BasinShadow(b));
    } else {
      r := Err(IllegalArgumentException(shapeType));
    }
  }

  /** `updateShadowBitmap(bounds)` on the shadow; it throws exactly when a bitmap the
      strategy creates does not fit. */
  method Update(s: Shadow, st: SSNeumorphicShapeDrawableState, bounds: IntRect) returns (outcome: Outcome)
    requires On(s, st)
    modifies Objects(s)
    ensures On(s, st)
    ensures Updated(s, st, bounds)
    ensures outcome.Pass? <==> ShadowFits(Kind(s), bounds.Width(), bounds.Height(), st.shadowElevation)
  {
    match s
    case FlatShadow(f) => outcome := f.UpdateShadowBitmap(bounds);
    case PressedShadow(p) => outcome := p.UpdateShadowBitmap(bounds);
    case BasinShadow(b) => outcome := b.UpdateShadowBitmap(bounds);
  }

  method Draw(s: Shadow, st: SSNeumorphicShapeDrawableState, canvas: Canvas, outlinePath: Path)
    requires On(s, st)
    modifies canvas
    ensures canvas.ops == old(canvas.ops) + Trace(s, st, outlinePath)
  {
    match s
    case FlatShadow(f) => f.Draw(canvas, outlinePath);
    case PressedShadow(p) => p.Draw(canvas, outlinePath);
    case BasinShadow(b) => b.Draw(canvas, outlinePath);
  }

  /** `setDrawableState(newDrawableState)`: every shape reads the new state, and
      nothing it has rendered is touched. */
  method SetState(s: Shadow, st: SSNeumorphicShapeDrawableState, newState: SSNeumorphicShapeDrawableState)
    requires On(s, st)
    modifies Objects(s)
    ensures On(s, newState)
    ensures Kept(s)
    ensures newState.Fields() == st.Fields() ==>
      forall o: Path {:trigger Trace(s, newState, o)} :: Trace(s, newState, o) == old(Trace(s, st, o))
  {
    match s
    case FlatShadow(f) => f.SetDrawableState(newState);
    case PressedShadow(p) => p.SetDrawableState(newState);
    case BasinShadow(b) => b.SetDrawableState(newState);
  }
}
