# SSAndroidNeumorphicKit drawable core in Dafny

This project models how the neumorphic shape drawable works in both product lines of
SSAndroidNeumorphicKit: `ssneumorphic` (`SSNeumorphicShapeDrawable`) and `numorphic`
(`NumorphShapeDrawable`). A view paints its background through the drawable. It has:

- a shared, copyable drawable state;
- a dirty flag: a setter that changes the geometry marks the drawable dirty, and the
  next `draw` rebuilds the outline path and the shadow bitmaps before painting;
- a shadow strategy chosen by shape type:
  - **Flat**: two blurred bitmaps outside the outline;
  - **Pressed**: one bitmap with both strokes, drawn inside the outline;
  - **Basin**: Flat and then Pressed on the same state;
- the `blurred` helper, which skips the blur provider in edit mode.

The numorphic line adds its own appearance model, a corner family and one corner size
built by a `Builder`, in place of the four-radius ssneumorphic model.

## How the model is built

- **Graphics** (`graphics.dfy`): the platform stand-ins.
  - Rectangles, paths, outlines, paints and gradient drawables are values.
  - A canvas is a class holding the trace of the operations issued on it (`ops`).
    Every draw method is specified by what it appends to that trace.
  - A bitmap records its size, the drawables stamped into it and how often it was
    blurred.
  - The blur provider is a class whose success on a bitmap is a parameter.
  - Kotlin `Int` arithmetic is written out: 32-bit wrap-around and `ushr`.
    `roundToInt` and `toInt` are defined exactly.
- **DrawableCommon** holds what both drawables share.
  - `modulateAlpha` in 32-bit arithmetic.
  - `shadowOf`'s shape-type decoding as a `Result`.
  - `hasFill` and `hasStroke`.
  - The layer order of a draw (`ShapeTrace`, `DrawTrace`), with lemmas that read off
    which paints and bitmaps a draw uses.
  - The internal bounds and the outline rectangle.
- **ShadowGeometry** gives the Flat and Pressed rules as functions of the values read
  from the state: shadow drawables, unblurred bitmaps, clamped radii and draw traces.
  Lemmas about offsets, sizes and radii go with them.
- **Classes where the source mutates fields**:
  - states: `SSState`, `NumorphState`;
  - shapes: `SSFlat`, `SSPressed`, `SSBasin`, `NumorphFlat`, `NumorphPressed`, `NumorphBasin`;
  - drawables: `SSDrawable`, `NumorphDrawable`;
  - builder: `NumorphModel.Builder`.

  Each method's `ensures` gives its whole new state in terms of the specification
  functions. `SSShadow` and `NumorphShadow` dispatch the `SSNeumorphicShape` /
  `Shape` interface over the three strategies.
- **The drawable's state machine**: `Invalidated`, `RepaintOnly` and `Untouched` track
  the dirty flag and a ghost count of repaint requests.
  - Rebuild setters (model, stroke width, inset, shape type, elevation, shadow
    colours, image) end `Invalidated`.
  - Alpha, translation and paint style end `RepaintOnly`.
  - Guarded setters given an equal value end `Untouched`.
  - `Draw` rebuilds the outline and updates the shadow exactly when the drawable was
    dirty, then paints the layers in source order and leaves the drawable clean.
    `Bitmap.createBitmap` throws for a side ≤ 0. That exception travels out of the
    shadow update and out of `draw` as an `Outcome`: the drawable stays dirty, nothing
    is painted and the paints keep their modulated alphas.
- **`mutate()`** gives the drawable a fresh, field-equal state. Every setter's frame
  is `modifies drawableState`, so a later `setInset` on the mutated drawable cannot
  reach the state it left behind or any other drawable sharing that state.

Behaviour the model follows where a reader might expect otherwise:

- `setInset`, `setStrokeWidth`, `setShapeAppearanceModel` and `setImageBitmap` have no
  equality guard. They always invalidate.
- The outline path is anchored at the inset's left/top, not at the bounds' origin
  (`DrawableCommon.OutlineRectAtOriginIff`).
- The numorphic `getOutline` does not call the platform default. For a family other
  than OVAL or ROUNDED it leaves the given outline untouched.
- The ssneumorphic `getShadowColorDark` returns the light colour (see Findings).
- `Paint.setStrokeWidth` ignores a negative width and keeps the old one, as the platform does. After a negative `setStrokeWidth` the next draw strokes at the width the stroke paint already had.

## Model

| member | source | states |
|---|---|---|
| Graphics.RoundToInt | ssneumorphic/src/main/java/com/simformsolutions/ssneumorphic/shape/SSNeumorphicFlatShape.kt:119-120 | `roundToInt`: the nearest integer, x within half a unit of the result |
| Graphics.ToInt | ssneumorphic/src/main/java/com/simformsolutions/ssneumorphic/shape/SSNeumorphicPressedShape.kt:55 | `toInt`: truncation toward zero, the result at most one unit closer to zero than x |
| DrawableCommon.ModulateAlphaExact | ssneumorphic/src/main/java/com/simformsolutions/ssneumorphic/drawable/SSNeumorphicShapeDrawable.kt:804-807 | for alphas in 0..255 the 32-bit `ushr` arithmetic equals p·(a + a/128)/256 exactly (nothing wraps) |
| DrawableCommon.ModulateAlphaBounds | numorphic/src/main/java/com/simformsolutions/numorphic/drawable/NumorphShapeDrawable.kt:704-707 | modulation never raises a paint's alpha, keeps it at drawable alpha 255 and clears it at 0 |
| DrawableCommon.ModulateAlphaHalf | ssneumorphic/src/main/java/com/simformsolutions/ssneumorphic/drawable/SSNeumorphicShapeDrawable.kt:804-807 | drawable alpha 128 on an opaque paint gives 128 |
| DrawableCommon.ModulatedAlpha | ssneumorphic/src/main/java/com/simformsolutions/ssneumorphic/drawable/SSNeumorphicShapeDrawable.kt:121-134 | the paint a draw uses has an alpha between 0 and its own, is the paint itself at alpha 255, and keeps colour and stroke width |
| DrawableCommon.ModulatedAlphaOutOfRange | ssneumorphic/src/main/java/com/simformsolutions/ssneumorphic/drawable/SSNeumorphicShapeDrawable.kt:121-126 | a drawable alpha above 255 (`setAlpha` stores it unchecked) modulates an opaque paint to 1003, which `Paint.setAlpha` pins to 255 |
| DrawableCommon.ShapeTypeOf | ssneumorphic/src/main/java/com/simformsolutions/ssneumorphic/drawable/SSNeumorphicShapeDrawable.kt:221-229 | Flat, Pressed and Basin exactly for types 0, 1 and 2; every other type is an IllegalArgumentException carrying the type |
| DrawableCommon.DrawTracePaths | ssneumorphic/src/main/java/com/simformsolutions/ssneumorphic/drawable/SSNeumorphicShapeDrawable.kt:143-159 | the paints a draw fills or strokes with, in order: fill (filling styles), the shadow's, stroke (stroking styles with positive width) |
| DrawableCommon.DrawTraceBitmaps | ssneumorphic/src/main/java/com/simformsolutions/ssneumorphic/drawable/SSNeumorphicShapeDrawable.kt:143-159 | the bitmaps a draw puts down: the shadow's, then the image exactly when one is set |
| DrawableCommon.ShapeTraceDraws | numorphic/src/main/java/com/simformsolutions/numorphic/drawable/NumorphShapeDrawable.kt:453-464 | without an image layer the same paths are painted, and only the shadow's bitmaps are drawn |
| DrawableCommon.DrawTraceShadowPosition | ssneumorphic/src/main/java/com/simformsolutions/ssneumorphic/drawable/SSNeumorphicShapeDrawable.kt:143-149 | the shadow's operations appear unchanged right after the optional fill |
| DrawableCommon.BoundsInternal | ssneumorphic/src/main/java/com/simformsolutions/ssneumorphic/drawable/SSNeumorphicShapeDrawable.kt:358-368 | the internal bounds are the bounds shrunk by the inset on each side: width and height lose both insets, the origin moves by left/top |
| DrawableCommon.OutlineRectAtOriginIff | ssneumorphic/src/main/java/com/simformsolutions/ssneumorphic/drawable/SSNeumorphicShapeDrawable.kt:608-616 | the outline rectangle coincides with the internal bounds if and only if the bounds start at the origin |
| ShadowGeometry.FlatTraceDraws | ssneumorphic/src/main/java/com/simformsolutions/ssneumorphic/shape/SSNeumorphicFlatShape.kt:44-64 | Flat paints no path and draws exactly the bitmaps it has, light before dark, a missing one not suppressing the other |
| ShadowGeometry.FlatOffsets | ssneumorphic/src/main/java/com/simformsolutions/ssneumorphic/shape/SSNeumorphicFlatShape.kt:44-64 | Flat's five operations: save, clip-out, light at inset−2e−tz, dark at inset+tz, restore; the offsets are mirror images about inset−e |
| ShadowGeometry.FlatBitmapGeometry | ssneumorphic/src/main/java/com/simformsolutions/ssneumorphic/shape/SSNeumorphicFlatShape.kt:117-130 | a Flat bitmap is w+2e by h+2e rounded to the nearest pixel, holds one stamp translated by (e, e) and is not yet blurred; a rounded side ≤ 0 is createBitmap's IllegalArgumentException for that size |
| ShadowGeometry.FlatBitmapWholeElevation | ssneumorphic/src/main/java/com/simformsolutions/ssneumorphic/shape/SSNeumorphicFlatShape.kt:117-121 | for a whole-pixel elevation the Flat bitmap exists exactly when w+2e and h+2e are positive, and is then exactly (w+2e)×(h+2e) |
| ShadowGeometry.FlatDrawableGeometry | ssneumorphic/src/main/java/com/simformsolutions/ssneumorphic/shape/SSNeumorphicFlatShape.kt:71-107 | Flat drawables get the colour, size and bounds w×h; OVAL sets the oval shape, ROUNDED the rectangle with the four radii unclamped, any other family changes no shape |
| ShadowGeometry.PressedCornerRadius | ssneumorphic/src/main/java/com/simformsolutions/ssneumorphic/shape/SSNeumorphicPressedShape.kt:62-64 | a Pressed radius is at most half the width, half the height and the given radius, and equal to one of them |
| ShadowGeometry.PressedDrawableGeometry | ssneumorphic/src/main/java/com/simformsolutions/ssneumorphic/shape/SSNeumorphicPressedShape.kt:54-118 | Pressed drawables get a stroke e wide in the colour, size and bounds (w+e)×(h+e), keep the fill colour; shape per family as for Flat |
| ShadowGeometry.PressedRadiiClamped | ssneumorphic/src/main/java/com/simformsolutions/ssneumorphic/shape/SSNeumorphicPressedShape.kt:74-87 | in ROUNDED mode all eight Pressed radii are min(w/2, h/2, r) of their corner, so none exceeds half the bounds |
| ShadowGeometry.PressedBitmapLayers | ssneumorphic/src/main/java/com/simformsolutions/ssneumorphic/shape/SSNeumorphicPressedShape.kt:126-138 | the Pressed bitmap is w×h with the light drawable shifted by (−e, −e) under the dark one at the origin, unblurred; bounds with a side ≤ 0 give createBitmap's IllegalArgumentException |
| ShadowGeometry.FlatFitsWherePressedFits | ssneumorphic/src/main/java/com/simformsolutions/ssneumorphic/shape/SSNeumorphicBasinShape.kt:40-42 | with a non-negative elevation, bounds that Pressed accepts are bounds that Flat accepts, so a Basin update throws only where a Pressed one would |
| ShadowGeometry.PressedTraceDraws | ssneumorphic/src/main/java/com/simformsolutions/ssneumorphic/shape/SSNeumorphicPressedShape.kt:39-52 | Pressed paints no path, draws its bitmap (if any) once at the inset origin, between two saves plus a clip and two restores |
| SSState.SSNeumorphicShapeDrawableState.constructor | ssneumorphic/src/main/java/com/simformsolutions/ssneumorphic/drawable/SSNeumorphicShapeDrawable.kt:715-757 | a new ssneumorphic state holds the given model and provider and the defaults: no edit mode, zero inset, no colour lists, width 0, alpha 255, shape type Flat, elevation 0, WHITE/BLACK shadows, translation 0, FILL_AND_STROKE |
| SSState.SSNeumorphicShapeDrawableState.Copy | ssneumorphic/src/main/java/com/simformsolutions/ssneumorphic/drawable/SSNeumorphicShapeDrawable.kt:763-778 | the copy used by `mutate` has every field equal to the original's and the same blur provider |
| SSState.Blurred | ssneumorphic/src/main/java/com/simformsolutions/ssneumorphic/util/Bitmap.kt:10-14 | in edit mode the bitmap itself, not blurred again; otherwise the provider's result: same size and content, blurred once more, and missing exactly when the provider fails |
| SSFlat.SSNeumorphicFlatShape.constructor | ssneumorphic/src/main/java/com/simformsolutions/ssneumorphic/shape/SSNeumorphicFlatShape.kt:24-38 | a new Flat shape reads the given state, has no bitmaps and two blank gradient drawables |
| SSFlat.SSNeumorphicFlatShape.SetDrawableState | ssneumorphic/src/main/java/com/simformsolutions/ssneumorphic/shape/SSNeumorphicFlatShape.kt:40-42 | the shape reads the new state |
| SSFlat.SSNeumorphicFlatShape.Draw | ssneumorphic/src/main/java/com/simformsolutions/ssneumorphic/shape/SSNeumorphicFlatShape.kt:44-64 | the canvas gains exactly the Flat trace of the current bitmaps and state (see `ShadowGeometry.FlatTraceDraws`, `FlatOffsets`) |
| SSFlat.SSNeumorphicFlatShape.UpdateShadowBitmap | ssneumorphic/src/main/java/com/simformsolutions/ssneumorphic/shape/SSNeumorphicFlatShape.kt:66-130 | both drawables re-coloured, re-shaped and sized to the bounds; when `createBitmap` accepts the grown size, each rendered and blurred into its own bitmap with two provider calls outside edit mode; otherwise createBitmap's IllegalArgumentException, thrown exactly when the grown size has a side ≤ 0, with the bitmaps as they were |
| SSFlat.SSNeumorphicFlatShape.ToBlurredBitmap | ssneumorphic/src/main/java/com/simformsolutions/ssneumorphic/shape/SSNeumorphicFlatShape.kt:117-130 | the drawable rendered into the bitmap grown by the elevation and passed through `blurred`, one provider call outside edit mode; or, for a grown size with a side ≤ 0, createBitmap's exception before any blur |
| SSPressed.SSNeumorphicPressedShape.constructor | ssneumorphic/src/main/java/com/simformsolutions/ssneumorphic/shape/SSNeumorphicPressedShape.kt:22-33 | a new Pressed shape reads the given state, has no bitmap and two blank gradient drawables |
| SSPressed.SSNeumorphicPressedShape.SetDrawableState | ssneumorphic/src/main/java/com/simformsolutions/ssneumorphic/shape/SSNeumorphicPressedShape.kt:35-37 | the shape reads the new state |
| SSPressed.SSNeumorphicPressedShape.Draw | ssneumorphic/src/main/java/com/simformsolutions/ssneumorphic/shape/SSNeumorphicPressedShape.kt:39-52 | the canvas gains exactly the Pressed trace (see `ShadowGeometry.PressedTraceDraws`) |
| SSPressed.SSNeumorphicPressedShape.UpdateShadowBitmap | ssneumorphic/src/main/java/com/simformsolutions/ssneumorphic/shape/SSNeumorphicPressedShape.kt:54-138 | both stroke drawables rebuilt with the truncated elevation; when both sides of the bounds are positive one combined bitmap blurred once; otherwise createBitmap's IllegalArgumentException for the bounds, with the bitmap as it was |
| SSPressed.SSNeumorphicPressedShape.StrokeShape | ssneumorphic/src/main/java/com/simformsolutions/ssneumorphic/shape/SSNeumorphicPressedShape.kt:66-113 | one `apply` block: the drawable the Pressed geometry prescribes for the colour, family and radii |
| SSPressed.SSNeumorphicPressedShape.GenerateShadowBitmap | ssneumorphic/src/main/java/com/simformsolutions/ssneumorphic/shape/SSNeumorphicPressedShape.kt:126-138 | the combined light/dark bitmap passed through `blurred`, one provider call outside edit mode; or, for bounds with a side ≤ 0, createBitmap's exception before any blur |
| SSBasin.SSNeumorphicBasinShape.constructor | ssneumorphic/src/main/java/com/simformsolutions/ssneumorphic/shape/SSNeumorphicBasinShape.kt:18-21 | the list is a fresh Flat shape then a fresh Pressed shape, both on the given state and not yet rendered |
| SSBasin.SSNeumorphicBasinShape.SetDrawableState | ssneumorphic/src/main/java/com/simformsolutions/ssneumorphic/shape/SSNeumorphicBasinShape.kt:26-28 | both shapes read the new state |
| SSBasin.SSNeumorphicBasinShape.Draw | ssneumorphic/src/main/java/com/simformsolutions/ssneumorphic/shape/SSNeumorphicBasinShape.kt:33-35 | the canvas gains the Flat trace followed by the Pressed trace |
| SSBasin.SSNeumorphicBasinShape.TraceUpToAll | ssneumorphic/src/main/java/com/simformsolutions/ssneumorphic/shape/SSNeumorphicBasinShape.kt:33-35 | drawing every element of the list in order is Flat's trace then Pressed's |
| SSBasin.SSNeumorphicBasinShape.DrawChild | ssneumorphic/src/main/java/com/simformsolutions/ssneumorphic/shape/SSNeumorphicBasinShape.kt:34 | drawing one element appends that element's trace |
| SSBasin.SSNeumorphicBasinShape.UpdateShadowBitmap | ssneumorphic/src/main/java/com/simformsolutions/ssneumorphic/shape/SSNeumorphicBasinShape.kt:40-42 | Flat updated first, then Pressed only when Flat's update did not throw; it completes exactly when both sizes fit and otherwise throws the first child's exception |
| SSShadow.ShadowOf | ssneumorphic/src/main/java/com/simformsolutions/ssneumorphic/drawable/SSNeumorphicShapeDrawable.kt:221-229 | a fresh Flat, Pressed or Basin shape on the state, not yet rendered, exactly for the three valid types; otherwise the IllegalArgumentException |
| SSShadow.Update | ssneumorphic/src/main/java/com/simformsolutions/ssneumorphic/drawable/SSNeumorphicShapeDrawable.kt:139 | the chosen shape's own update from the bounds, still on the same state; it completes exactly when every bitmap that strategy creates fits |
| SSShadow.Draw | ssneumorphic/src/main/java/com/simformsolutions/ssneumorphic/drawable/SSNeumorphicShapeDrawable.kt:149 | the canvas gains the chosen shape's trace |
| SSShadow.SetState | ssneumorphic/src/main/java/com/simformsolutions/ssneumorphic/drawable/SSNeumorphicShapeDrawable.kt:182 | every shape reads the new state, nothing it rendered changes, and for a field-equal state it draws the same trace on every outline |
| SSDrawable.OutlinePathRect | ssneumorphic/src/main/java/com/simformsolutions/ssneumorphic/drawable/SSNeumorphicShapeDrawable.kt:608-660 | both corner families cover the rectangle from the inset's corner with the bounds' size; exactly the other families leave the path empty |
| SSDrawable.OutlinePathRadii | ssneumorphic/src/main/java/com/simformsolutions/ssneumorphic/drawable/SSNeumorphicShapeDrawable.kt:627-655 | OVAL gives an oval; in ROUNDED mode each of the eight radii is the corner's radius if zero, else that radius plus the elevation |
| SSDrawable.ToBitmap | ssneumorphic/src/main/java/com/simformsolutions/ssneumorphic/drawable/SSNeumorphicShapeDrawable.kt:329 | rendering succeeds exactly for positive width and height and yields a bitmap of that size holding the drawable once, at the origin, with its bounds set to (0, 0, width, height) and everything else kept |
| SSDrawable.SSNeumorphicShapeDrawable.FromState | ssneumorphic/src/main/java/com/simformsolutions/ssneumorphic/drawable/SSNeumorphicShapeDrawable.kt:115-118 | a clean drawable on the state with the shape `shadowOf` returned, transparent fill and stroke paints and an empty outline |
| SSDrawable.SSNeumorphicShapeDrawable.Create | ssneumorphic/src/main/java/com/simformsolutions/ssneumorphic/drawable/SSNeumorphicShapeDrawable.kt:115-118 | a fresh valid drawable for a Flat, Pressed or Basin state, with that kind of fresh shape; otherwise the IllegalArgumentException |
| SSDrawable.SSNeumorphicShapeDrawable.CreateWithModel | ssneumorphic/src/main/java/com/simformsolutions/ssneumorphic/drawable/SSNeumorphicShapeDrawable.kt:101-110 | never throws: a fresh default state holding the model and provider, and a fresh Flat shape |
| SSDrawable.SSNeumorphicShapeDrawable.NewDrawable | ssneumorphic/src/main/java/com/simformsolutions/ssneumorphic/drawable/SSNeumorphicShapeDrawable.kt:784-791 | a drawable sharing the state, dirty so its first draw rebuilds; IllegalArgumentException for an invalid shape type |
| SSDrawable.SSNeumorphicShapeDrawable.InvalidateSelf | ssneumorphic/src/main/java/com/simformsolutions/ssneumorphic/drawable/SSNeumorphicShapeDrawable.kt:514-517 | the drawable is dirty and one repaint is requested |
| SSDrawable.SSNeumorphicShapeDrawable.InvalidateSelfIgnoreShape | ssneumorphic/src/main/java/com/simformsolutions/ssneumorphic/drawable/SSNeumorphicShapeDrawable.kt:523-525 | one repaint is requested; the dirty flag is untouched |
| SSDrawable.SSNeumorphicShapeDrawable.Draw | ssneumorphic/src/main/java/com/simformsolutions/ssneumorphic/drawable/SSNeumorphicShapeDrawable.kt:120-164 | when dirty, the outline recalculated and the shadow updated from the internal bounds before painting; a clean drawable's shadow untouched; it completes exactly when the shadow's bitmaps fit: then clean, the canvas gains fill, shadow, stroke and image layers with alpha-modulated paints and the paints end as they were (stroke at the state's width); when the update throws the drawable stays dirty, nothing is drawn and the paints keep the modulated alphas |
| SSDrawable.SSNeumorphicShapeDrawable.DrawAfterRefresh | ssneumorphic/src/main/java/com/simformsolutions/ssneumorphic/drawable/SSNeumorphicShapeDrawable.kt:139-163 | after the dirty block: when it threw, the paints take the modulated alphas and the canvas is untouched; otherwise the stroke width is set and the layers are drawn with the modulated paints |
| SSDrawable.SSNeumorphicShapeDrawable.Refresh | ssneumorphic/src/main/java/com/simformsolutions/ssneumorphic/drawable/SSNeumorphicShapeDrawable.kt:137-141 | a dirty drawable rebuilds outline and shadow and becomes clean exactly when the shadow update completes; a clean one rebuilds nothing |
| SSDrawable.SSNeumorphicShapeDrawable.Rebuild | ssneumorphic/src/main/java/com/simformsolutions/ssneumorphic/drawable/SSNeumorphicShapeDrawable.kt:138-139 | the outline recalculated from the internal bounds and the shadow updated once from them; it completes exactly when the strategy's bitmaps fit |
| SSDrawable.SSNeumorphicShapeDrawable.DrawLayers | ssneumorphic/src/main/java/com/simformsolutions/ssneumorphic/drawable/SSNeumorphicShapeDrawable.kt:143-159 | the canvas gains fill, shadow, stroke and image layers in that order |
| SSDrawable.SSNeumorphicShapeDrawable.DrawFillShape | ssneumorphic/src/main/java/com/simformsolutions/ssneumorphic/drawable/SSNeumorphicShapeDrawable.kt:576-578 | the outline filled exactly when the style fills |
| SSDrawable.SSNeumorphicShapeDrawable.DrawStrokeShape | ssneumorphic/src/main/java/com/simformsolutions/ssneumorphic/drawable/SSNeumorphicShapeDrawable.kt:584-586 | the outline stroked exactly when the style strokes and the width is positive |
| SSDrawable.SSNeumorphicShapeDrawable.DrawImageBitmap | ssneumorphic/src/main/java/com/simformsolutions/ssneumorphic/drawable/SSNeumorphicShapeDrawable.kt:588-593 | with an image: a clip to the outline and the bitmap stretched over the internal bounds; nothing without |
| SSDrawable.SSNeumorphicShapeDrawable.CalculateOutlinePath | ssneumorphic/src/main/java/com/simformsolutions/ssneumorphic/drawable/SSNeumorphicShapeDrawable.kt:608-660 | the rebuilt path is the outline function's (see `OutlinePathRect`, `OutlinePathRadii`) |
| SSDrawable.SSNeumorphicShapeDrawable.SetShapeAppearanceModel | ssneumorphic/src/main/java/com/simformsolutions/ssneumorphic/drawable/SSNeumorphicShapeDrawable.kt:232-235 | only the model changes, always with a rebuild (no equality guard) |
| SSDrawable.SSNeumorphicShapeDrawable.SetStrokeWidth | ssneumorphic/src/main/java/com/simformsolutions/ssneumorphic/drawable/SSNeumorphicShapeDrawable.kt:297-300 | only the stroke width changes, always with a rebuild |
| SSDrawable.SSNeumorphicShapeDrawable.SetImageBitmap | ssneumorphic/src/main/java/com/simformsolutions/ssneumorphic/drawable/SSNeumorphicShapeDrawable.kt:306-309 | the image is replaced, always with a rebuild |
| SSDrawable.SSNeumorphicShapeDrawable.SetBackgroundDrawable | ssneumorphic/src/main/java/com/simformsolutions/ssneumorphic/drawable/SSNeumorphicShapeDrawable.kt:324-330 | no-op for 0×0; no drawable clears the image; otherwise the rendered bitmap becomes the image exactly when both sides are positive, and the call fails leaving everything as it was |
| SSDrawable.SSNeumorphicShapeDrawable.SetInset | ssneumorphic/src/main/java/com/simformsolutions/ssneumorphic/drawable/SSNeumorphicShapeDrawable.kt:381-384 | only the inset changes, always with a rebuild |
| SSDrawable.SSNeumorphicShapeDrawable.SetShapeType | ssneumorphic/src/main/java/com/simformsolutions/ssneumorphic/drawable/SSNeumorphicShapeDrawable.kt:391-397 | the type is stored; a different valid type installs a fresh shape and rebuilds; a different invalid type fails and keeps the old shape; the same type changes nothing else |
| SSDrawable.SSNeumorphicShapeDrawable.SetShadowElevation | ssneumorphic/src/main/java/com/simformsolutions/ssneumorphic/drawable/SSNeumorphicShapeDrawable.kt:410-415 | a different elevation is stored with a rebuild; the same one changes nothing |
| SSDrawable.SSNeumorphicShapeDrawable.SetShadowColorLight | ssneumorphic/src/main/java/com/simformsolutions/ssneumorphic/drawable/SSNeumorphicShapeDrawable.kt:431-436 | a different light colour is stored with a rebuild; the same one changes nothing |
| SSDrawable.SSNeumorphicShapeDrawable.SetShadowColorDark | ssneumorphic/src/main/java/com/simformsolutions/ssneumorphic/drawable/SSNeumorphicShapeDrawable.kt:457-462 | a different dark colour is stored with a rebuild; the same one changes nothing |
| SSDrawable.SSNeumorphicShapeDrawable.OnBoundsChange | ssneumorphic/src/main/java/com/simformsolutions/ssneumorphic/drawable/SSNeumorphicShapeDrawable.kt:567-570 | the drawable becomes dirty |
| SSDrawable.SSNeumorphicShapeDrawable.SetBounds | ssneumorphic/src/main/java/com/simformsolutions/ssneumorphic/drawable/SSNeumorphicShapeDrawable.kt:567-570 | the bounds are stored; the drawable is dirty exactly when it was or the bounds changed; one repaint is requested exactly when the bounds changed and the old ones were not empty; the paints are kept |
| SSDrawable.SSNeumorphicShapeDrawable.SetAlpha | ssneumorphic/src/main/java/com/simformsolutions/ssneumorphic/drawable/SSNeumorphicShapeDrawable.kt:338-343 | a different alpha is stored with a repaint but no rebuild; the same one changes nothing |
| SSDrawable.SSNeumorphicShapeDrawable.SetTranslationZ | ssneumorphic/src/main/java/com/simformsolutions/ssneumorphic/drawable/SSNeumorphicShapeDrawable.kt:486-491 | a different translation is stored with a repaint but no rebuild; the same one changes nothing |
| SSDrawable.SSNeumorphicShapeDrawable.SetPaintStyle | ssneumorphic/src/main/java/com/simformsolutions/ssneumorphic/drawable/SSNeumorphicShapeDrawable.kt:537-540 | the style is stored with a repaint and no rebuild |
| SSDrawable.SSNeumorphicShapeDrawable.SetInEditMode | ssneumorphic/src/main/java/com/simformsolutions/ssneumorphic/drawable/SSNeumorphicShapeDrawable.kt:708-710 | only the edit-mode flag changes, with no invalidation |
| SSDrawable.SSNeumorphicShapeDrawable.SetZ | ssneumorphic/src/main/java/com/simformsolutions/ssneumorphic/drawable/SSNeumorphicShapeDrawable.kt:503-508 | afterwards `getZ()` returns z, because the translation becomes z minus the elevation; a repaint is requested exactly when that translation differs from the old one |
| SSDrawable.SSNeumorphicShapeDrawable.SetFillColor | ssneumorphic/src/main/java/com/simformsolutions/ssneumorphic/drawable/SSNeumorphicShapeDrawable.kt:246-251 | the list is stored; a different list re-reads the colours for the current state and rebuilds exactly when a paint colour moved |
| SSDrawable.SSNeumorphicShapeDrawable.SetStrokeColor | ssneumorphic/src/main/java/com/simformsolutions/ssneumorphic/drawable/SSNeumorphicShapeDrawable.kt:259-264 | the list is stored; a different list re-reads the colours for the current state and rebuilds exactly when a paint colour moved |
| SSDrawable.SSNeumorphicShapeDrawable.SetStroke | ssneumorphic/src/main/java/com/simformsolutions/ssneumorphic/drawable/SSNeumorphicShapeDrawable.kt:276-279 | width stored and a single-colour list installed as a new object, so it differs from the old one: both paints re-read their colours for the current state, the stroke paint takes the new colour, and the drawable is dirty with one repaint for the width and a second exactly when a paint colour moved |
| SSDrawable.SSNeumorphicShapeDrawable.SetStrokeList | ssneumorphic/src/main/java/com/simformsolutions/ssneumorphic/drawable/SSNeumorphicShapeDrawable.kt:286-289 | width and list stored, and the drawable is dirty; the same list keeps both paints with one repaint, a different list re-reads both paints' colours for the current state and adds a second repaint exactly when a paint colour moved |
| SSDrawable.SSNeumorphicShapeDrawable.OnStateChange | ssneumorphic/src/main/java/com/simformsolutions/ssneumorphic/drawable/SSNeumorphicShapeDrawable.kt:666-672 | colours re-read for the state; invalidated exactly when a paint colour changed, untouched otherwise |
| SSDrawable.SSNeumorphicShapeDrawable.UpdateColorsForState | ssneumorphic/src/main/java/com/simformsolutions/ssneumorphic/drawable/SSNeumorphicShapeDrawable.kt:678-703 | each paint with a list takes the list's colour for the state (its own as default); `changed` is true exactly when a colour moved |
| SSDrawable.SSNeumorphicShapeDrawable.Mutate | ssneumorphic/src/main/java/com/simformsolutions/ssneumorphic/drawable/SSNeumorphicShapeDrawable.kt:176-184 | drawable and shape move to a fresh field-equal copy of the state; what the shape renders and draws is unchanged |
| SSDrawable.SSNeumorphicShapeDrawable.GetOutline | ssneumorphic/src/main/java/com/simformsolutions/ssneumorphic/drawable/SSNeumorphicShapeDrawable.kt:191-202 | OVAL gives an oval and ROUNDED a rounded rectangle of the model's radius over the internal bounds; any other family the platform default over the bounds |
| SSDrawable.ShadowColorDarkAsWritten | ssneumorphic/src/main/java/com/simformsolutions/ssneumorphic/drawable/SSNeumorphicShapeDrawable.kt:471-474 | as written, on a default state the dark getter reports WHITE while the dark colour is BLACK |
| SSDrawable.ShadowColorGettersCorrected | ssneumorphic/src/main/java/com/simformsolutions/ssneumorphic/drawable/SSNeumorphicShapeDrawable.kt:446-474 | corrected, each getter returns what its setter stored, and the getters differ exactly when the stored colours differ |
| NumorphModel.DefaultModel | numorphic/src/main/java/com/simformsolutions/numorphic/model/NumorphShapeAppearanceModel.kt:83-86 | the no-argument model has ROUNDED corners of size 0 |
| NumorphModel.Builder.constructor | numorphic/src/main/java/com/simformsolutions/numorphic/model/NumorphShapeAppearanceModel.kt:28-31 | a new builder holds ROUNDED and 0 |
| NumorphModel.Builder.SetAllCorners | numorphic/src/main/java/com/simformsolutions/numorphic/model/NumorphShapeAppearanceModel.kt:34-40 | returns the same builder holding both the given family and size |
| NumorphModel.Builder.SetAllCornerFamily | numorphic/src/main/java/com/simformsolutions/numorphic/model/NumorphShapeAppearanceModel.kt:43-47 | returns the same builder; only the family changes |
| NumorphModel.Builder.SetAllCornerSizes | numorphic/src/main/java/com/simformsolutions/numorphic/model/NumorphShapeAppearanceModel.kt:50-54 | returns the same builder; only the size changes |
| NumorphModel.Builder.Build | numorphic/src/main/java/com/simformsolutions/numorphic/model/NumorphShapeAppearanceModel.kt:59-78 | the built model's getters read back exactly the builder's family and size |
| NumorphModel.NewBuilder | numorphic/src/main/java/com/simformsolutions/numorphic/model/NumorphShapeAppearanceModel.kt:108-110 | a fresh builder with the defaults |
| NumorphModel.BuildFaithful | numorphic/src/main/java/com/simformsolutions/numorphic/model/NumorphShapeAppearanceModel.kt:59-86 | two builders build equal models exactly when their fields agree, and a builder builds the default model exactly when it holds the defaults |
| NumorphModel.ModelByGetters | numorphic/src/main/java/com/simformsolutions/numorphic/model/NumorphShapeAppearanceModel.kt:91-101 | two models are equal exactly when both getters agree |
| NumorphState.NumorphShapeDrawableState.constructor | numorphic/src/main/java/com/simformsolutions/numorphic/drawable/NumorphShapeDrawable.kt:615-657 | a new numorphic state holds the given model and provider and the defaults: no edit mode, zero inset, no colour lists, width 0, alpha 255, shape type Flat, elevation 0, WHITE/BLACK shadows, translation 0, FILL_AND_STROKE |
| NumorphState.NumorphShapeDrawableState.Copy | numorphic/src/main/java/com/simformsolutions/numorphic/drawable/NumorphShapeDrawable.kt:663-678 | the copy used by `mutate` has every field equal to the original's and the same blur provider |
| NumorphState.Blurred | numorphic/src/main/java/com/simformsolutions/numorphic/util/Bitmap.kt:10-14 | in edit mode the bitmap itself, not blurred again; otherwise the provider's result: same size and content, blurred once more, and missing exactly when the provider fails |
| NumorphFlat.FlatShape.constructor | numorphic/src/main/java/com/simformsolutions/numorphic/shape/FlatShape.kt:24-38 | a new Flat shape reads the given state, has no bitmaps and two blank gradient drawables |
| NumorphFlat.FlatShape.SetDrawableState | numorphic/src/main/java/com/simformsolutions/numorphic/shape/FlatShape.kt:40-42 | the shape reads the new state |
| NumorphFlat.FlatShape.Draw | numorphic/src/main/java/com/simformsolutions/numorphic/shape/FlatShape.kt:44-64 | the canvas gains exactly the Flat trace of the current bitmaps and state (see `ShadowGeometry.FlatTraceDraws`, `FlatOffsets`) |
| NumorphFlat.FlatShape.UpdateShadowBitmap | numorphic/src/main/java/com/simformsolutions/numorphic/shape/FlatShape.kt:66-130 | both drawables re-coloured, re-shaped and sized to the bounds; when `createBitmap` accepts the grown size, each rendered and blurred into its own bitmap with two provider calls outside edit mode; otherwise createBitmap's IllegalArgumentException, thrown exactly when the grown size has a side ≤ 0, with the bitmaps as they were |
| NumorphFlat.FlatShape.ToBlurredBitmap | numorphic/src/main/java/com/simformsolutions/numorphic/shape/FlatShape.kt:117-130 | the drawable rendered into the bitmap grown by the elevation and passed through `blurred`, one provider call outside edit mode; or, for a grown size with a side ≤ 0, createBitmap's exception before any blur |
| NumorphPressed.PressedShape.constructor | ssneumorphic/src/main/java/com/simformsolutions/ssneumorphic/shape/SSNeumorphicPressedShape.kt:22-33 | a new Pressed shape reads the given state, has no bitmap and two blank gradient drawables (stand-in running this algorithm on the numorphic state) |
| NumorphPressed.PressedShape.SetDrawableState | ssneumorphic/src/main/java/com/simformsolutions/ssneumorphic/shape/SSNeumorphicPressedShape.kt:35-37 | the shape reads the new state (stand-in running this algorithm on the numorphic state) |
| NumorphPressed.PressedShape.Draw | ssneumorphic/src/main/java/com/simformsolutions/ssneumorphic/shape/SSNeumorphicPressedShape.kt:39-52 | the canvas gains exactly the Pressed trace (see `ShadowGeometry.PressedTraceDraws`) (stand-in running this algorithm on the numorphic state) |
| NumorphPressed.PressedShape.UpdateShadowBitmap | ssneumorphic/src/main/java/com/simformsolutions/ssneumorphic/shape/SSNeumorphicPressedShape.kt:54-138 | both stroke drawables rebuilt with the truncated elevation; when both sides of the bounds are positive one combined bitmap blurred once; otherwise createBitmap's IllegalArgumentException for the bounds, with the bitmap as it was (stand-in running this algorithm on the numorphic state) |
| NumorphPressed.PressedShape.StrokeShape | ssneumorphic/src/main/java/com/simformsolutions/ssneumorphic/shape/SSNeumorphicPressedShape.kt:66-113 | one `apply` block: the drawable the Pressed geometry prescribes for the colour, family and radii (stand-in running this algorithm on the numorphic state) |
| NumorphPressed.PressedShape.GenerateShadowBitmap | ssneumorphic/src/main/java/com/simformsolutions/ssneumorphic/shape/SSNeumorphicPressedShape.kt:126-138 | the combined light/dark bitmap passed through `blurred`, one provider call outside edit mode; or, for bounds with a side ≤ 0, createBitmap's exception before any blur (stand-in running this algorithm on the numorphic state) |
| NumorphBasin.BasinShape.constructor | numorphic/src/main/java/com/simformsolutions/numorphic/shape/BasinShape.kt:18-21 | the list is a fresh Flat shape then a fresh Pressed shape, both on the given state and not yet rendered |
| NumorphBasin.BasinShape.SetDrawableState | numorphic/src/main/java/com/simformsolutions/numorphic/shape/BasinShape.kt:26-28 | both shapes read the new state |
| NumorphBasin.BasinShape.Draw | numorphic/src/main/java/com/simformsolutions/numorphic/shape/BasinShape.kt:33-35 | the canvas gains the Flat trace followed by the Pressed trace |
| NumorphBasin.BasinShape.TraceUpToAll | numorphic/src/main/java/com/simformsolutions/numorphic/shape/BasinShape.kt:33-35 | drawing every element of the list in order is Flat's trace then Pressed's |
| NumorphBasin.BasinShape.DrawChild | numorphic/src/main/java/com/simformsolutions/numorphic/shape/BasinShape.kt:34 | drawing one element appends that element's trace |
| NumorphBasin.BasinShape.UpdateShadowBitmap | numorphic/src/main/java/com/simformsolutions/numorphic/shape/BasinShape.kt:40-42 | Flat updated first, then Pressed only when Flat's update did not throw; it completes exactly when both sizes fit and otherwise throws the first child's exception |
| NumorphShadow.ShadowOf | numorphic/src/main/java/com/simformsolutions/numorphic/drawable/NumorphShapeDrawable.kt:116-126 | a fresh Flat, Pressed or Basin shape on the state, not yet rendered, exactly for the three valid types; otherwise the IllegalArgumentException |
| NumorphShadow.Update | numorphic/src/main/java/com/simformsolutions/numorphic/drawable/NumorphShapeDrawable.kt:449 | the chosen shape's own update from the bounds, still on the same state; it completes exactly when every bitmap that strategy creates fits |
| NumorphShadow.Draw | numorphic/src/main/java/com/simformsolutions/numorphic/drawable/NumorphShapeDrawable.kt:459 | the canvas gains the chosen shape's trace |
| NumorphShadow.SetState | numorphic/src/main/java/com/simformsolutions/numorphic/drawable/NumorphShapeDrawable.kt:144 | every shape reads the new state, nothing it rendered changes, and for a field-equal state it draws the same trace on every outline |
| NumorphDrawable.OutlinePathRect | numorphic/src/main/java/com/simformsolutions/numorphic/drawable/NumorphShapeDrawable.kt:500-532 | both corner families cover the rectangle from the inset's corner with the bounds' size; exactly the other families leave the path empty |
| NumorphDrawable.OutlinePathRadii | numorphic/src/main/java/com/simformsolutions/numorphic/drawable/NumorphShapeDrawable.kt:519-527 | OVAL gives an oval; in ROUNDED mode all eight radii are the corner size, independent of the elevation |
| NumorphDrawable.NumorphShapeDrawable.FromState | numorphic/src/main/java/com/simformsolutions/numorphic/drawable/NumorphShapeDrawable.kt:105-108 | a clean drawable on the state with the shape `shadowOf` returned, transparent fill and stroke paints and an empty outline |
| NumorphDrawable.NumorphShapeDrawable.Create | numorphic/src/main/java/com/simformsolutions/numorphic/drawable/NumorphShapeDrawable.kt:105-108 | a fresh valid drawable for a Flat, Pressed or Basin state, with that kind of fresh shape; otherwise the IllegalArgumentException |
| NumorphDrawable.NumorphShapeDrawable.CreateWithModel | numorphic/src/main/java/com/simformsolutions/numorphic/drawable/NumorphShapeDrawable.kt:91-100 | never throws: a fresh default state holding the model and provider, and a fresh Flat shape; the state carries the given corner radii |
| NumorphDrawable.NumorphShapeDrawable.NewDrawable | numorphic/src/main/java/com/simformsolutions/numorphic/drawable/NumorphShapeDrawable.kt:684-691 | a drawable sharing the state, dirty so its first draw rebuilds; IllegalArgumentException for an invalid shape type |
| NumorphDrawable.NumorphShapeDrawable.InvalidateSelf | numorphic/src/main/java/com/simformsolutions/numorphic/drawable/NumorphShapeDrawable.kt:376-379 | the drawable is dirty and one repaint is requested |
| NumorphDrawable.NumorphShapeDrawable.InvalidateSelfIgnoreShape | numorphic/src/main/java/com/simformsolutions/numorphic/drawable/NumorphShapeDrawable.kt:385-387 | one repaint is requested; the dirty flag is untouched |
| NumorphDrawable.NumorphShapeDrawable.Draw | numorphic/src/main/java/com/simformsolutions/numorphic/drawable/NumorphShapeDrawable.kt:430-469 | when dirty, the outline recalculated and the shadow updated from the internal bounds before painting; a clean drawable's shadow untouched; it completes exactly when the shadow's bitmaps fit: then clean, the canvas gains fill, shadow, stroke layers with alpha-modulated paints and the paints end as they were (stroke at the state's width); when the update throws the drawable stays dirty, nothing is drawn and the paints keep the modulated alphas |
| NumorphDrawable.NumorphShapeDrawable.DrawAfterRefresh | numorphic/src/main/java/com/simformsolutions/numorphic/drawable/NumorphShapeDrawable.kt:449-468 | after the dirty block: when it threw, the paints take the modulated alphas and the canvas is untouched; otherwise the stroke width is set and the layers are drawn with the modulated paints |
| NumorphDrawable.NumorphShapeDrawable.Refresh | numorphic/src/main/java/com/simformsolutions/numorphic/drawable/NumorphShapeDrawable.kt:447-451 | a dirty drawable rebuilds outline and shadow and becomes clean exactly when the shadow update completes; a clean one rebuilds nothing |
| NumorphDrawable.NumorphShapeDrawable.Rebuild | numorphic/src/main/java/com/simformsolutions/numorphic/drawable/NumorphShapeDrawable.kt:448-449 | the outline recalculated from the internal bounds and the shadow updated once from them; it completes exactly when the strategy's bitmaps fit |
| NumorphDrawable.NumorphShapeDrawable.DrawLayers | numorphic/src/main/java/com/simformsolutions/numorphic/drawable/NumorphShapeDrawable.kt:453-464 | the canvas gains fill, shadow, stroke layers in that order |
| NumorphDrawable.NumorphShapeDrawable.DrawFillShape | numorphic/src/main/java/com/simformsolutions/numorphic/drawable/NumorphShapeDrawable.kt:475-477 | the outline filled exactly when the style fills |
| NumorphDrawable.NumorphShapeDrawable.DrawStrokeShape | numorphic/src/main/java/com/simformsolutions/numorphic/drawable/NumorphShapeDrawable.kt:483-485 | the outline stroked exactly when the style strokes and the width is positive |
| NumorphDrawable.NumorphShapeDrawable.CalculateOutlinePath | numorphic/src/main/java/com/simformsolutions/numorphic/drawable/NumorphShapeDrawable.kt:500-532 | the rebuilt path is the outline function's (see `OutlinePathRect`, `OutlinePathRadii`) |
| NumorphDrawable.NumorphShapeDrawable.SetShapeAppearanceModel | numorphic/src/main/java/com/simformsolutions/numorphic/drawable/NumorphShapeDrawable.kt:149-152 | only the model changes, always with a rebuild (no equality guard) |
| NumorphDrawable.NumorphShapeDrawable.SetStrokeWidth | numorphic/src/main/java/com/simformsolutions/numorphic/drawable/NumorphShapeDrawable.kt:214-217 | only the stroke width changes, always with a rebuild |
| NumorphDrawable.NumorphShapeDrawable.SetInset | numorphic/src/main/java/com/simformsolutions/numorphic/drawable/NumorphShapeDrawable.kt:267-270 | only the inset changes, always with a rebuild |
| NumorphDrawable.NumorphShapeDrawable.SetShapeType | numorphic/src/main/java/com/simformsolutions/numorphic/drawable/NumorphShapeDrawable.kt:277-283 | the type is stored; a different valid type installs a fresh shape and rebuilds; a different invalid type fails and keeps the old shape; the same type changes nothing else |
| NumorphDrawable.NumorphShapeDrawable.SetShadowElevation | numorphic/src/main/java/com/simformsolutions/numorphic/drawable/NumorphShapeDrawable.kt:296-301 | a different elevation is stored with a rebuild; the same one changes nothing |
| NumorphDrawable.NumorphShapeDrawable.SetShadowColorLight | numorphic/src/main/java/com/simformsolutions/numorphic/drawable/NumorphShapeDrawable.kt:317-322 | a different light colour is stored with a rebuild; the same one changes nothing |
| NumorphDrawable.NumorphShapeDrawable.SetShadowColorDark | numorphic/src/main/java/com/simformsolutions/numorphic/drawable/NumorphShapeDrawable.kt:331-336 | a different dark colour is stored with a rebuild; the same one changes nothing |
| NumorphDrawable.NumorphShapeDrawable.OnBoundsChange | numorphic/src/main/java/com/simformsolutions/numorphic/drawable/NumorphShapeDrawable.kt:425-428 | the drawable becomes dirty |
| NumorphDrawable.NumorphShapeDrawable.SetBounds | numorphic/src/main/java/com/simformsolutions/numorphic/drawable/NumorphShapeDrawable.kt:425-428 | the bounds are stored; the drawable is dirty exactly when it was or the bounds changed; one repaint is requested exactly when the bounds changed and the old ones were not empty; the paints are kept |
| NumorphDrawable.NumorphShapeDrawable.SetAlpha | numorphic/src/main/java/com/simformsolutions/numorphic/drawable/NumorphShapeDrawable.kt:225-230 | a different alpha is stored with a repaint but no rebuild; the same one changes nothing |
| NumorphDrawable.NumorphShapeDrawable.SetTranslationZ | numorphic/src/main/java/com/simformsolutions/numorphic/drawable/NumorphShapeDrawable.kt:348-353 | a different translation is stored with a repaint but no rebuild; the same one changes nothing |
| NumorphDrawable.NumorphShapeDrawable.SetPaintStyle | numorphic/src/main/java/com/simformsolutions/numorphic/drawable/NumorphShapeDrawable.kt:399-402 | the style is stored with a repaint and no rebuild |
| NumorphDrawable.NumorphShapeDrawable.SetInEditMode | numorphic/src/main/java/com/simformsolutions/numorphic/drawable/NumorphShapeDrawable.kt:608-610 | only the edit-mode flag changes, with no invalidation |
| NumorphDrawable.NumorphShapeDrawable.SetZ | numorphic/src/main/java/com/simformsolutions/numorphic/drawable/NumorphShapeDrawable.kt:365-370 | afterwards `getZ()` returns z, because the translation becomes z minus the elevation; a repaint is requested exactly when that translation differs from the old one |
| NumorphDrawable.NumorphShapeDrawable.SetFillColor | numorphic/src/main/java/com/simformsolutions/numorphic/drawable/NumorphShapeDrawable.kt:163-168 | the list is stored; a different list re-reads the colours for the current state and rebuilds exactly when a paint colour moved |
| NumorphDrawable.NumorphShapeDrawable.SetStrokeColor | numorphic/src/main/java/com/simformsolutions/numorphic/drawable/NumorphShapeDrawable.kt:176-181 | the list is stored; a different list re-reads the colours for the current state and rebuilds exactly when a paint colour moved |
| NumorphDrawable.NumorphShapeDrawable.SetStroke | numorphic/src/main/java/com/simformsolutions/numorphic/drawable/NumorphShapeDrawable.kt:193-196 | width stored and a single-colour list installed as a new object, so it differs from the old one: both paints re-read their colours for the current state, the stroke paint takes the new colour, and the drawable is dirty with one repaint for the width and a second exactly when a paint colour moved |
| NumorphDrawable.NumorphShapeDrawable.SetStrokeList | numorphic/src/main/java/com/simformsolutions/numorphic/drawable/NumorphShapeDrawable.kt:203-206 | width and list stored, and the drawable is dirty; the same list keeps both paints with one repaint, a different list re-reads both paints' colours for the current state and adds a second repaint exactly when a paint colour moved |
| NumorphDrawable.NumorphShapeDrawable.OnStateChange | numorphic/src/main/java/com/simformsolutions/numorphic/drawable/NumorphShapeDrawable.kt:566-572 | colours re-read for the state; invalidated exactly when a paint colour changed, untouched otherwise |
| NumorphDrawable.NumorphShapeDrawable.UpdateColorsForState | numorphic/src/main/java/com/simformsolutions/numorphic/drawable/NumorphShapeDrawable.kt:578-603 | each paint with a list takes the list's colour for the state (its own as default); `changed` is true exactly when a colour moved |
| NumorphDrawable.NumorphShapeDrawable.Mutate | numorphic/src/main/java/com/simformsolutions/numorphic/drawable/NumorphShapeDrawable.kt:138-146 | drawable and shape move to a fresh field-equal copy of the state; what the shape renders and draws is unchanged; the corner radii are kept |
| NumorphDrawable.NumorphShapeDrawable.GetOutline | numorphic/src/main/java/com/simformsolutions/numorphic/drawable/NumorphShapeDrawable.kt:539-549 | OVAL gives an oval and ROUNDED a rounded rectangle of the corner size, each over the internal bounds and whatever outline was passed in; any other family returns the given outline as it was |
| NumorphDrawable.NumorphShapeDrawable.GetOutlineIgnoresGiven | numorphic/src/main/java/com/simformsolutions/numorphic/drawable/NumorphShapeDrawable.kt:539-549 | for OVAL and ROUNDED the result is the same whatever outline is passed in, and is never the platform's plain rectangle |

## Left out

- I/O and the platform:
  - the blur kernel (RenderScript), which is a parameter of `BlurProvider`;
  - `Canvas` rendering, beyond the trace of operations;
  - the views and widgets, the attribute parsing (`builder(context, attrs, …)`) and the `Context` constructors.
- `isStateful`, `setColorFilter`, `getOpacity`, `getConstantState` and `getChangingConfigurations` are not modelled; they are one-line platform plumbing without behaviour of the core.
- The trivial getters (`getFillColor`, `getStrokeWidth`, `getShapeType`, …) are not modelled; they return a state field.
- Floats are reals. NaN, infinities and rounding of float arithmetic are not modelled.
- Integer overflow is modelled only in `modulateAlpha`, where the source relies on 32-bit `Int`.
- `SSDrawable.SSNeumorphicShapeDrawable.SetStroke` and `NumorphDrawable.NumorphShapeDrawable.SetStroke`: `ColorStateList.valueOf` may hand back a cached instance for a colour. The model always builds a new list, so it always re-reads both paints. The source skips that re-read, with its possible repaint, when the cached list is the one already installed.
- `Paint.setAlpha` is modelled as pinning its argument to 0..255, which is what the platform's graphics library does; the platform documentation leaves values outside that range undefined.
- The outline's alpha is not modelled. `Outline` carries only the shape and rectangle.
- Aliasing of the platform `Path` and `Rect` objects is not modelled; a path or rectangle the drawable owns is a value.
- `shapeShadow` / `shadow` is nullable in the source. It is never null after construction, so the model has no null case.
- `SSDrawable.ToBitmap`: takes a `GradientDrawable`, while the source accepts any `Drawable?`. A `BitmapDrawable`, which `toBitmap` answers with its own bitmap, is not modelled. The restoring of the drawable's old bounds is implicit, because the drawable is a value.
- `SSDrawable.SSNeumorphicShapeDrawable.SetBackgroundDrawable`: the platform's `toBitmap` throws for one zero or a negative side. The model reports that as `Fail`, leaving the image unchanged.
- `SSDrawable.SSNeumorphicShapeDrawable.Draw`: the paint fields are written after the `if (dirty)` block rather than before it. The block reads neither paint, so the resulting states agree. When `draw` completes, the model states the paints as they were. The source's restore of the saved alpha yields that same paint for every 32-bit colour (`Graphics.WithOwnAlpha`).
- `NumorphDrawable.NumorphShapeDrawable.Draw`: the same reordering of the paint writes.
- Numorphic `PressedShape.kt` is not part of this model. `NumorphPressed.PressedShape` assumes it runs the ssneumorphic Pressed algorithm on the numorphic state. Its rows cite the ssneumorphic Pressed lines for that reason.
- The numorphic `FlatShape` reads four per-corner radii (`cornerRadiusTopLeft`, …) that `NumorphShapeAppearanceModel` does not declare. The model gives the numorphic state an abstract `cornerRadii` record, fixed when the state is made, for the Flat and Pressed shapes to read.
- The `SSNeumorphicShapeAppearanceModel` class is not part of this model. It is reduced to the corner family, the outline radius and the four corner radii that the drawable and shapes read.

## Findings

| source | as written | input that shows it | evidently intended | confidence | as-written member | corrected member |
|---|---|---|---|---|---|---|
| ssneumorphic/src/main/java/com/simformsolutions/ssneumorphic/drawable/SSNeumorphicShapeDrawable.kt:471-474 | `getShadowColorDark()` returns `drawableState.shadowColorLight` | a fresh default state (light WHITE, dark BLACK): the getter returns WHITE | return `drawableState.shadowColorDark`, what `setShadowColorDark` stores | not executed | SSDrawable.ShadowColorDarkAsWritten | SSDrawable.ShadowColorGettersCorrected |
