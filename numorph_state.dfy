/** The numorphic drawable state (`NumorphShapeDrawable.NumorphShapeDrawableState`)
    and the numorphic `blurred` helper that reads it. */
module NumorphState {
  import opened Graphics
  import opened NumorphModel

  /** The values of a state's mutable fields, for "field-equal" and "nothing else changed". */
  datatype StateFields = StateFields(
    shapeAppearanceModel: NumorphShapeAppearanceModel,
    inEditMode: bool,
    inset: IntRect,
    fillColor: ColorStateList?,
    strokeColor: ColorStateList?,
    strokeWidth: real,
    alpha: int,
    shapeType: int,
    shadowElevation: real,
    shadowColorLight: int,
    shadowColorDark: int,
    translationZ: real,
    paintStyle: PaintStyle)

  /** The field values of a state fresh from `NumorphShapeDrawableState(model, provider)`:
      shape type `ShapeType.DEFAULT`, which is Flat. */
  function DefaultFields(model: NumorphShapeAppearanceModel): StateFields {
    StateFields(model, false, IntRect(0, 0, 0, 0), null, null, 0.0, 255, 0, 0.0, WHITE, BLACK, 0.0, FillAndStroke)
  }

  class NumorphShapeDrawableState {
    var shapeAppearanceModel: NumorphShapeAppearanceModel
    const blurProvider: BlurProvider
    /** The four per-corner radii the Flat shape reads from the appearance model, which
        declares no such properties: an abstract record fixed when the state is made. */
    const cornerRadii: CornerRadii
    var inEditMode: bool
    /** The internal inset. A `Rect` the state owns, so a value here. */
    var inset: IntRect
    var fillColor: ColorStateList?
    var strokeColor: ColorStateList?
    var strokeWidth: real
    var alpha: int
    var shapeType: int
    var shadowElevation: real
    var shadowColorLight: int
    var shadowColorDark: int
    var translationZ: real
    var paintStyle: PaintStyle

    function Fields(): StateFields
      reads this
    {
      StateFields(shapeAppearanceModel, inEditMode, inset, fillColor, strokeColor, strokeWidth, alpha,
                  shapeType, shadowElevation, shadowColorLight, shadowColorDark, translationZ, paintStyle)
    }

    constructor (shapeAppearanceModel: NumorphShapeAppearanceModel, blurProvider: BlurProvider, cornerRadii: CornerRadii)
      ensures Fields() == DefaultFields(shapeAppearanceModel)
      ensures this.blurProvider == blurProvider && this.cornerRadii == cornerRadii
    {
      this.shapeAppearanceModel := shapeAppearanceModel;
      this.blurProvider := blurProvider;
      this.cornerRadii := cornerRadii;
      inEditMode := false;
      inset := IntRect(0, 0, 0, 0);
      fillColor := null;
      strokeColor := null;
      strokeWidth := 0.0;
      alpha := 255;
      shapeType := 0;
      shadowElevation := 0.0;
      shadowColorLight := WHITE;
      shadowColorDark := BLACK;
      translationZ := 0.0;
      paintStyle := FillAndStroke;
    }

    /** The copy constructor `mutate` uses: every field equal, the inset a copy of its own. */
    constructor Copy(orig: NumorphShapeDrawableState)
      ensures Fields() == orig.Fields()
      ensures blurProvider == orig.blurProvider && cornerRadii == orig.cornerRadii
    {
      shapeAppearanceModel := orig.shapeAppearanceModel;
      blurProvider := orig.blurProvider;
      cornerRadii := orig.cornerRadii;
      inEditMode := orig.inEditMode;
      inset := orig.inset;
      fillColor := orig.fillColor;
      strokeColor := orig.strokeColor;
      strokeWidth := orig.strokeWidth;
      alpha := orig.alpha;
      shapeType := orig.shapeType;
      shadowElevation := orig.shadowElevation;
      shadowColorLight := orig.shadowColorLight;
      shadowColorDark := orig.shadowColorDark;
      translationZ := orig.translationZ;
      paintStyle := orig.paintStyle;
    }
  }

  /** `Bitmap.blurred(drawableState)`: the bitmap itself in edit mode, otherwise what
      the state's blur provider returns. A result keeps the bitmap's size and content
      and carries one more blur exactly outside edit mode; there is no result exactly
      when, outside edit mode, the provider fails. */
  function Blurred(b: Bitmap, state: NumorphShapeDrawableState): (r: Option<Bitmap>)
    reads state
    ensures r.Some? ==> r.value.width == b.width && r.value.height == b.height && r.value.stamps == b.stamps
    ensures r.Some? ==> r.value.blurCount == b.blurCount + (if state.inEditMode then 0 else 1)
    ensures r.None? <==> !state.inEditMode && !state.blurProvider.succeeds(b)
  {
    if state.inEditMode then Some(b) else state.blurProvider.Blur(b)
  }
}
