# Designable appearance core in Dafny

This project models the appearance-state logic of the Designable UIKit
library: the views, buttons and layers whose inspectable properties are
pushed onto Core Animation layers.

- **Gradient direction.** The eight fixed gradient directions and the
  `custom(degree:)` angle map to start and end points in the unit square.
- **Appearance traits.** `DesignableBorder`, `DesignableShadow` and
  `DesignableCorner` copy a few properties onto the backing layer. The corner
  trait rounds with `frame.height / 2` when `fullyRoundedCorners` is set.
- **`DesignableButton`.** Its border, shadow and corner properties read and
  write the layer itself. It also has the icon/title spacing helper and the
  lifecycle hooks that re-apply the traits.
- **`DesignableFlatButton`.** It keeps one optional background colour per
  control state (normal, highlighted, selected, disabled). On every draw it
  rewrites the per-state background-image table from those colours.
- **Layers rebuilt on layout.** The dashed-border view replaces its dash
  sublayer on each layout. The shadow layer sets fixed flags and an even-odd
  two-subpath path. The gradient layer copies its direction, colours, radius
  and locations at initialisation.

Every `CALayer` is a Dafny class whose fields the methods assign: `Layer`,
`ShapeLayer`, `GradientLayer` and `DesignableShadowLayer`. A `Layer` also
offers `State()`, which gathers its appearance fields into one `LayerState`
value. Each trait push is a method proved against a pure function on
`LayerState`, and the idempotence and "nothing else changes" lemmas are
about those functions. `CGFloat` and `Float` are exact `real`s. A `CGColor`
is its RGBA value, so `UIColor.clear.cgColor` can be named, and a `UIColor`
wraps the `CGColor` it is backed by. Images, attributed strings and coders
are abstract types. Paths are values built from `Shape`:
`RectShape(bounds)` or `RoundedRectShape(bounds, r)`.

Some collaborators are parameters of the operations that use them:

- the bitmap synthesiser `Utils.image(color:size:cornerRadius:)`, of type
  `(UIColor, Size, real) -> Option<Image>`;
- `cos`, `sin` and `.pi`, as a `Trig` record;
- the properties a `UIView` or `UIImageView` conformer stores for a trait.

`DesignableFlatButton` extends `DesignableButton` in the source. In the model
it holds the button it extends as `button`.

Behaviours of the code that are easy to misread, kept as written:

- When the synthesiser yields no image, `setBackgroundImage(nil, for:)` still
  runs, so that state's background is cleared
  (`FailedSynthesisClearsBackground`).
- The button keeps no requested corner radius of its own. With
  `fullyRoundedCorners` set, the setter stores half the height in the layer,
  and the getter reads the layer back. Turning the flag off keeps that
  radius (`SetFullyRoundedCorners`).
- Only `DesignableShadowLayer.generateShadowPath` builds a path with two
  parts (an outline plus an extra bounds rectangle). The dashed-border view
  builds a single outline.
- `updateCornerRadius` uses `frame.height`, which is the standardized
  (non-negative) height. The `cornerRadius` setter and the
  `fullyRoundedCorners` observer use `frame.size.height`, which is the height
  as stored. The model keeps the two apart (`Rect.Height()` against
  `size.height`).
- `addSpaceBetweenImageAndTitle` gives the image a right inset only when the
  current state has both a plain title and an attributed title. The model
  keeps that condition as written.

## Model

| member | source | states |
|---|---|---|
| `GradientDirection.StartPoint` | Source/Designable/Gradient/DesignableGradientDirection/DesignableGradientDirection.swift:42-64 | every fixed start point has coordinates in {0, 0.5, 1}, lies in the unit square and is not the centre |
| `GradientDirection.EndPoint` | Source/Designable/Gradient/DesignableGradientDirection/DesignableGradientDirection.swift:66-88 | every fixed end point has coordinates in {0, 0.5, 1} and lies in the unit square |
| `GradientDirection.FixedStartPoints` | Source/Designable/Gradient/DesignableGradientDirection/DesignableGradientDirection.swift:44-59 | the eight fixed start points are exactly (0.5,0), (0.5,1), (0,0.5), (1,0.5), (0,0), (1,0), (0,1), (1,1) |
| `GradientDirection.FixedEndPoints` | Source/Designable/Gradient/DesignableGradientDirection/DesignableGradientDirection.swift:68-83 | the eight fixed end points are exactly (0.5,1), (0.5,0), (1,0.5), (0,0.5), (1,1), (0,1), (1,0), (0,0) |
| `GradientDirection.FixedEndReflectsStart` | Source/Designable/Gradient/DesignableGradientDirection/DesignableGradientDirection.swift:42-83 | for every fixed direction, end = (1 − start.x, 1 − start.y) |
| `GradientDirection.FixedAxisNotDegenerate` | Source/Designable/Gradient/DesignableGradientDirection/DesignableGradientDirection.swift:42-88 | for every fixed direction, start ≠ end |
| `GradientDirection.OppositeSwapsEndpoints` | Source/Designable/Gradient/DesignableGradientDirection/DesignableGradientDirection.swift:44-83 | the opposite direction has start and end swapped, e.g. start(topToBottom) = end(bottomToTop) |
| `GradientDirection.CustomEndReflectsStart` | Source/Designable/Gradient/DesignableGradientDirection/DesignableGradientDirection.swift:60-86 | for an angle, end is the centre reflection of start, given only cos(r + π) = −cos r |
| `GradientDirection.CustomPeriodic` | Source/Designable/Gradient/DesignableGradientDirection/DesignableGradientDirection.swift:60-86 | θ and θ + 360 give the same start and end points when cos and sin have period 2π |
| `GradientDirection.Radian` | Source/Designable/Gradient/DesignableGradientDirection/DesignableGradientDirection.swift:61 | degrees to radians: 0° is 0, 90° is π/2, 180° is π |
| `GradientDirection.RadianFullTurn` | Source/Designable/Gradient/DesignableGradientDirection/DesignableGradientDirection.swift:61 | adding 360° to the angle adds 2π to the radian |
| `GradientDirection.CustomInUnitSquare` | Source/Designable/Gradient/DesignableGradientDirection/DesignableGradientDirection.swift:60-86 | for every angle, the start and end points lie in the unit square, given only that cos and sin stay within [−1, 1] |
| `GradientDirection.CustomZeroDegrees` | Source/Designable/Gradient/DesignableGradientDirection/DesignableGradientDirection.swift:60-86 | an angle of 0 gives start (1, 0.5) and end (0, 0.5), the right-to-left axis |
| `GradientLayers.CgColors` | Source/Designable/Gradient/GardientLayer/GradientLayer.swift:47 | the stored colours have the input's length and order, each the `cgColor` of its input |
| `GradientLayers.CopyLocations` | Source/Designable/Gradient/GardientLayer/GradientLayer.swift:51 | the element-by-element copy of the locations equals the input |
| `GradientLayers.CopyOptionalLocations` | Source/Designable/Gradient/GardientLayer/GradientLayer.swift:51 | `nil` locations stay `nil`, present ones are copied unchanged |
| `GradientLayers.GradientLayer.constructor` | Source/Designable/Gradient/GardientLayer/GradientLayer.swift:44-52 | needsDisplayOnBoundsChange is set; start and end are the direction's; colours mapped in order; radius and locations as given |
| `GradientLayers.GradientLayer.InitWithCoder` | Source/Designable/Gradient/GardientLayer/GradientLayer.swift:54-56 | the coder initialiser always ends in a fatal error |
| `GradientLayers.DefaultGradientLayer` | Source/Designable/Gradient/GardientLayer/GradientLayer.swift:44 | with the defaults, start is (0.5,0), end is (0.5,1), the radius is 0 and there are no locations |
| `Layers.Layer.RoundCorners` | Source/Designable/Designables/DesignableCorner/DesignableCorner.swift:51 | `roundCorners(with:)` sets the layer's corner radius and nothing else |
| `Layers.Without` | Source/Designable/DesignableView/DesignableDashedBorderView.swift:52 | after removal the layer is gone; every other sublayer stays; a removed member shortens the list |
| `Layers.WithoutKeepsOrder` | Source/Designable/DesignableView/DesignableDashedBorderView.swift:52 | removing a sublayer keeps the relative order of the remaining ones |
| `Graphics.CgColorOf` | Source/Designable/Designables/DesignableBorder/DesignableBorder.swift:44 | `color?.cgColor` is `nil` exactly when the colour is `nil` |
| `Graphics.UIColorOf` | Source/Designable/DesignableButton/DesignableButton.swift:51-59 | reading a layer colour back as a `UIColor` and converting it again gives the layer colour |
| `Graphics.Outline` | Source/Designable/DesignableView/DesignableDashedBorderView.swift:59-63 | the outline is a rounded rect with the radius exactly when the radius is positive, otherwise the plain bounds rect |
| `DesignableBorder.BorderApplied` | Source/Designable/Designables/DesignableBorder/DesignableBorder.swift:42-45 | border width and colour equal the properties; a `nil` colour gives a `nil` layer colour; no other layer field changes |
| `DesignableBorder.BorderAppliedIdempotent` | Source/Designable/Designables/DesignableBorder/DesignableBorder.swift:42-45 | applying twice equals applying once; applying to a layer that already shows the border changes nothing |
| `DesignableBorder.UpdateBorder` | Source/Designable/Designables/DesignableBorder/DesignableBorder.swift:39-64 | the layer's new state is `BorderApplied` of its old state; one body serves the view, button and image-view extensions |
| `DesignableShadow.ShadowApplied` | Source/Designable/Designables/DesignableShadow/DesignableShadow.swift:48-53 | shadow colour, opacity, offset and radius equal the properties; `nil` colour gives `nil`; no other layer field changes |
| `DesignableShadow.ShadowAppliedIdempotent` | Source/Designable/Designables/DesignableShadow/DesignableShadow.swift:48-53 | drawing the shadow twice equals drawing it once |
| `DesignableShadow.DrawShadow` | Source/Designable/Designables/DesignableShadow/DesignableShadow.swift:45-76 | the layer's new state is `ShadowApplied` of its old state, identically for all three extensions |
| `DesignableCorner.EffectiveCornerRadius` | Source/Designable/Designables/DesignableCorner/DesignableCorner.swift:37-63 | flag on: half the frame's height (never negative); flag off: the `cornerRadius` property |
| `DesignableCorner.CornerApplied` | Source/Designable/Designables/DesignableCorner/DesignableCorner.swift:51 | only the layer's corner radius is written, with the effective radius |
| `DesignableCorner.FullyRoundedFollowsHeight` | Source/Designable/Designables/DesignableCorner/DesignableCorner.swift:51 | with the flag on the stored radius is irrelevant: height 40 gives 20, height 60 gives 30 |
| `DesignableCorner.CornerAppliedIdempotent` | Source/Designable/Designables/DesignableCorner/DesignableCorner.swift:50-53 | the update is idempotent while frame, flag and property are unchanged |
| `DesignableCorner.UpdateCornerRadius` | Source/Designable/Designables/DesignableCorner/DesignableCorner.swift:37-63 | the layer's new state is `CornerApplied` of its old state, for all three extensions |
| `DesignableButtons.InsetsForSpacing` | Source/Designable/DesignableButton/DesignableButton.swift:139-144 | content (0, s/2, 0, s/2); image (0, −s/2, 0, s/2 only with both title kinds, else 0); title (0, s/2 only with an image, else 0, 0, −s/2) |
| `DesignableButtons.SpacingIsSymmetric` | Source/Designable/DesignableButton/DesignableButton.swift:140-143 | the content grows by s, the image and title are pulled back by exactly the outer padding, and with everything present the inner sides get equal halves |
| `DesignableButtons.SpacingOfTen` | Source/Designable/DesignableButton/DesignableButton.swift:139-144 | spacing 10 with title and image gives image (0,−5,0,5), title (0,5,0,−5), content (0,5,0,5); a missing part zeroes its side |
| `DesignableButtons.CornerAfterLayout` | Source/Designable/DesignableButton/DesignableButton.swift:185-194 | a layout pass sets the radius to half the height when the flag is on and leaves the layer unchanged otherwise |
| `DesignableButtons.LayoutIdempotent` | Source/Designable/DesignableButton/DesignableButton.swift:185-189 | a second layout with the same frame changes nothing; with the flag on a new height is tracked |
| `DesignableButtons.AppearanceReapplied` | Source/Designable/DesignableButton/DesignableButton.swift:161-183 | re-applying never touches the corner radius or sublayers; a non-positive width leaves the border fields and a non-positive opacity the shadow fields as they were |
| `DesignableButtons.ReapplyChangesNothing` | Source/Designable/DesignableButton/DesignableButton.swift:161-183 | re-applying border and shadow from properties that read the layer leaves the layer unchanged |
| `DesignableButtons.DesignableButton.BorderWidth` | Source/Designable/DesignableButton/DesignableButton.swift:40-42 | the property is the layer's border width; the button keeps no copy |
| `DesignableButtons.DesignableButton.BorderColor` | Source/Designable/DesignableButton/DesignableButton.swift:52-55 | `nil` exactly when the layer has no border colour; converting the result back gives the layer's colour |
| `DesignableButtons.DesignableButton.ShadowColor` | Source/Designable/DesignableButton/DesignableButton.swift:68-71 | `nil` exactly when the layer has no shadow colour; converting the result back gives the layer's colour |
| `DesignableButtons.DesignableButton.ShadowOpacity` | Source/Designable/DesignableButton/DesignableButton.swift:81-83 | the property is the layer's shadow opacity; the button keeps no copy |
| `DesignableButtons.DesignableButton.ShadowOffset` | Source/Designable/DesignableButton/DesignableButton.swift:92-94 | the property is the layer's shadow offset; the button keeps no copy |
| `DesignableButtons.DesignableButton.ShadowRadius` | Source/Designable/DesignableButton/DesignableButton.swift:103-105 | the property is the layer's shadow radius; the button keeps no copy |
| `DesignableButtons.DesignableButton.CornerRadius` | Source/Designable/DesignableButton/DesignableButton.swift:118-120 | the property is the layer's corner radius; the button keeps no copy |
| `DesignableButtons.DesignableButton.SetBorderWidth` | Source/Designable/DesignableButton/DesignableButton.swift:39-46 | writes only the layer's border width; reading `borderWidth` returns the value written |
| `DesignableButtons.DesignableButton.SetBorderColor` | Source/Designable/DesignableButton/DesignableButton.swift:51-59 | writes only the layer's border colour; reading `borderColor` returns the value written |
| `DesignableButtons.DesignableButton.SetShadowColor` | Source/Designable/DesignableButton/DesignableButton.swift:67-75 | writes only the layer's shadow colour; reading returns the value written |
| `DesignableButtons.DesignableButton.SetShadowOpacity` | Source/Designable/DesignableButton/DesignableButton.swift:80-87 | writes only the layer's shadow opacity; reading returns the value written |
| `DesignableButtons.DesignableButton.SetShadowOffset` | Source/Designable/DesignableButton/DesignableButton.swift:91-98 | writes only the layer's shadow offset; reading returns the value written |
| `DesignableButtons.DesignableButton.SetShadowRadius` | Source/Designable/DesignableButton/DesignableButton.swift:102-109 | writes only the layer's shadow radius; reading returns the value written |
| `DesignableButtons.DesignableButton.SetCornerRadius` | Source/Designable/DesignableButton/DesignableButton.swift:117-125 | flag on: stores half the frame's stored height whatever was requested; flag off: stores the requested value |
| `DesignableButtons.DesignableButton.SetFullyRoundedCorners` | Source/Designable/DesignableButton/DesignableButton.swift:131-135 | on: the radius becomes half the height; off: the current radius stays, no earlier value comes back |
| `DesignableButtons.DesignableButton.AddSpaceBetweenImageAndTitle` | Source/Designable/DesignableButton/DesignableButton.swift:139-144 | the three insets are `InsetsForSpacing` of the current state's title, attributed title and image |
| `DesignableButtons.DesignableButton.ReapplyBorderAndShadow` | Source/Designable/DesignableButton/DesignableButton.swift:161-183 | border is pushed only when its width is positive, shadow only when its opacity is; the layer ends unchanged |
| `DesignableButtons.DesignableButton.AwakeFromNib` | Source/Designable/DesignableButton/DesignableButton.swift:173-183 | the conditional border and shadow application, leaving the layer unchanged |
| `DesignableButtons.DesignableButton.PrepareForInterfaceBuilder` | Source/Designable/DesignableButton/DesignableButton.swift:161-171 | the same conditional application, leaving the layer unchanged |
| `DesignableButtons.DesignableButton.LayoutSubviews` | Source/Designable/DesignableButton/DesignableButton.swift:185-189 | re-runs the corner-radius update: the layer becomes `CornerAfterLayout` of its old state |
| `DesignableButtons.DesignableButton.TraitCollectionDidChange` | Source/Designable/DesignableButton/DesignableButton.swift:191-194 | re-runs the same corner-radius update |
| `DesignableFlatButtons.BackgroundsFor` | Source/Designable/DesignableButton/DesignableFlatButton.swift:166-187 | each coloured state gets image(colour, size, radius), all with the same size and radius; an uncoloured state keeps its entry |
| `DesignableFlatButtons.Installed` | Source/Designable/DesignableButton/DesignableFlatButton.swift:168-171 | one `if let` step: a coloured state gets its synthesised image, an uncoloured one leaves the table alone, and no other state's entry changes |
| `DesignableFlatButtons.StepsGiveBackgrounds` | Source/Designable/DesignableButton/DesignableFlatButton.swift:168-186 | the four `if let` steps, normal to disabled, produce exactly `BackgroundsFor` |
| `DesignableFlatButtons.BackgroundsIdempotent` | Source/Designable/DesignableButton/DesignableFlatButton.swift:166-187 | with a deterministic synthesiser, updating twice equals updating once |
| `DesignableFlatButtons.FailedSynthesisClearsBackground` | Source/Designable/DesignableButton/DesignableFlatButton.swift:168-171 | when synthesis yields none, that state's background becomes none |
| `DesignableFlatButtons.DesignableFlatButton.constructor` | Source/Designable/DesignableButton/DesignableFlatButton.swift:142-152 | after initialisation both image-adjusting flags are off, no colour is set and display is requested |
| `DesignableFlatButtons.DesignableFlatButton.SetColor` | Source/Designable/DesignableButton/DesignableFlatButton.swift:35-60 | sets one state's colour and the needs-display flag; other colours and the background table are untouched |
| `DesignableFlatButtons.DesignableFlatButton.SetTitle` | Source/Designable/DesignableButton/DesignableFlatButton.swift:65-86 | writes only its own state's title entry |
| `DesignableFlatButtons.DesignableFlatButton.SetTitleColor` | Source/Designable/DesignableButton/DesignableFlatButton.swift:91-112 | writes only its own state's title-colour entry |
| `DesignableFlatButtons.DesignableFlatButton.SetImage` | Source/Designable/DesignableButton/DesignableFlatButton.swift:117-138 | writes only its own state's image entry |
| `DesignableFlatButtons.DesignableFlatButton.Title` | Source/Designable/DesignableButton/DesignableFlatButton.swift:65-86 | a state's title is its own table entry, `nil` when it was never set |
| `DesignableFlatButtons.DesignableFlatButton.TitleColor` | Source/Designable/DesignableButton/DesignableFlatButton.swift:91-112 | a state's title colour is its own table entry, `nil` when it was never set |
| `DesignableFlatButtons.DesignableFlatButton.ImageFor` | Source/Designable/DesignableButton/DesignableFlatButton.swift:117-138 | a state's image is its own table entry, `nil` when it was never set |
| `DesignableFlatButtons.DesignableFlatButton.Configure` | Source/Designable/DesignableButton/DesignableFlatButton.swift:161-164 | both image-adjusting flags are off |
| `DesignableFlatButtons.DesignableFlatButton.UpdateBackgroundImages` | Source/Designable/DesignableButton/DesignableFlatButton.swift:166-187 | the background table becomes `BackgroundsFor` of the old table, the colours, the frame size and the layer's corner radius |
| `DesignableFlatButtons.DesignableFlatButton.Draw` | Source/Designable/DesignableButton/DesignableFlatButton.swift:154-157 | drawing rebuilds the background table exactly as `updateBackgroundImages` does |
| `DesignableDashedBorderViews.Detached` | Source/Designable/DesignableView/DesignableDashedBorderView.swift:52 | the previous dash layer is no longer a sublayer; nothing new appears; a present one shortens the list |
| `DesignableDashedBorderViews.DesignableDashedBorderView.constructor` | Source/Designable/DesignableView/DesignableDashedBorderView.swift:34-48 | dash width, length and spacing default to 0, the colour to `nil`, and there is no dash layer |
| `DesignableDashedBorderViews.DesignableDashedBorderView.Strokes` | Source/Designable/DesignableView/DesignableDashedBorderView.swift:54-63 | a layer that strokes the view has a path over its own frame, rounded exactly when the view's radius is positive, and a two-length dash pattern |
| `DesignableDashedBorderViews.DesignableDashedBorderView.LayoutSubviews` | Source/Designable/DesignableView/DesignableDashedBorderView.swift:50-66 | old dash layer removed, a fresh one appended last and kept as `dashBorder`; it is the only own dash layer among the sublayers; its stroke, pattern, frame, fill and path follow the view |
| `DesignableShadowLayers.ShadowPath` | Source/DesignableShadowLayer.swift:84-95 | three elements: the outline over the bounds (rounded iff radius > 0), the plain bounds rect, a close |
| `DesignableShadowLayers.ShadowPathShape` | Source/DesignableShadowLayer.swift:83-96 | outline (rounded iff radius > 0), then the plain bounds rect whatever the radius, then a close |
| `DesignableShadowLayers.DesignableShadowLayer.SetShadowColor` | Source/DesignableShadowLayer.swift:34-38 | sets the shadow colour and marks the layer as needing layout |
| `DesignableShadowLayers.DesignableShadowLayer.SetShadowOpacity` | Source/DesignableShadowLayer.swift:43-47 | sets the shadow opacity and marks the layer as needing layout |
| `DesignableShadowLayers.DesignableShadowLayer.SetShadowOffset` | Source/DesignableShadowLayer.swift:51-55 | sets the shadow offset and marks the layer as needing layout |
| `DesignableShadowLayers.DesignableShadowLayer.SetShadowRadius` | Source/DesignableShadowLayer.swift:59-63 | sets the shadow radius and marks the layer as needing layout |
| `DesignableShadowLayers.DesignableShadowLayer.LayoutSublayers` | Source/DesignableShadowLayer.swift:71-81 | masksToBounds and shouldRasterize on, even-odd fill, clear border, the shadow path; a second layout with the same bounds and radius changes nothing |
| `DesignableShadowLayers.DesignableShadowLayer.LaidOut` | Source/DesignableShadowLayer.swift:74-78 | a laid-out layer clips, rasterises, fills even-odd and carries a three-element shadow path |
| `DesignableShadowLayers.DesignableShadowLayer.GenerateShadowPath` | Source/DesignableShadowLayer.swift:83-96 | the path built step by step is `ShadowPath(bounds, cornerRadius)`, a function of those two alone |

## Left out

- Fonts (`Source/Font/Font.swift`): these are `UIFont` lookups, which are foreign and end in `fatalError`, plus `UIFontMetrics` scaling. The size tables are constant data with no behaviour.
- Bitmap rendering in `Utils.image`: the two graphics-context passes are host drawing. The synthesiser is a function parameter, and nothing is claimed about its pixels.
- Trigonometry: `cos`, `sin` and `.pi` are uninterpreted. Only cos(r + π) = −cos r, for periodicity a period of 2π, for the zero angle cos 0 = 1 and sin 0 = 0, and for the unit-square bound −1 ≤ cos r, sin r ≤ 1, are assumed, as lemma preconditions. Floating-point rounding is not modelled: `CGFloat` and `Float` are exact reals.
- `roundCorners(with:)` is not part of this model. It is taken to set the layer's corner radius, and nothing is claimed about masking.
- `DesignableView`, the superclass of the dashed-border view, is not part of this model. Its `cornerRadius` is treated as a plain stored field.
- Host behaviour:
  - UIKit's fallback to the normal state in the per-state getters `title(for:)`, `attributedTitle(for:)`, `titleColor(for:)` and `image(for:)`: the title, title-colour and image getters of the flat button and the attributed-title and image checks of `addSpaceBetweenImageAndTitle` read only the state's own entry;
  - the host clearing the needs-display and needs-layout flags;
  - the `layoutIfNeeded()` call in the `UIView` corner extension;
  - `super` calls, interface-builder preview and trait collections;
  - real bezier and `CGPath` geometry.
- `UIControl.State` is an option set in UIKit. It is modelled as the closed set of the four states the library configures.
- `DesignableFlatButton.init?(coder:)`: decoding the archive, and a failing `super.init(coder:)`, are host behaviour. The one constructor covers what both initialisers then do: `configure()` and `setNeedsDisplay()`.
- `removeFromSuperlayer()` is modelled as removal from the view's own layer. That is where the dash layer was added, and Core Animation is assumed not to have moved it.
- `UIColor(cgColor:)` is taken to be lossless, with no colour-space conversion.
- `DesignableDashedBorderViews.DesignableDashedBorderView.LayoutSubviews`: promises only bounds on the number of sublayers, not exact counts, because the model does not rule out one layer appearing twice among the sublayers. The contract allows the count to grow by at most one. A layout that finds no earlier dash layer among the sublayers, such as the first, adds one. A layout that finds the earlier dash layer there leaves the count no larger than before.
- `DesignableDashedBorderViews.DesignableDashedBorderView.LayoutSubviews`: the promise that only the current dash layer is among the sublayers rests on the `Valid()` precondition, which assumes nothing outside the view writes `dashBorder`. In the source `dashBorder` is an `open var`, so a client that sets it to `nil` between layouts leaves the old layer attached, and dash layers then pile up. The model has no operation for such an outside write.
- `Example/Designable/ButtonExamplesViewController.swift`: UI event handlers only.
