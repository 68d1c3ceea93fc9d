/** `DesignableButton`: a `UIButton` whose border, shadow and corner
    properties read and write its backing layer, plus an icon/title spacing
    helper and the lifecycle hooks that re-apply the appearance traits. */
module DesignableButtons {
  import opened Graphics
  import opened Layers
  import opened DesignableBorder
  import opened DesignableShadow
  import opened DesignableCorner

  /** `UIControl.State`, closed to the four states the library configures. */
  datatype ControlState = Normal | Highlighted | Selected | Disabled

  /** An `NSAttributedString`; its content is not modelled. */
  type AttributedString(==)

  /** A per-state table of the host button: a missing entry reads as `nil`. */
  type StateTable<T> = map<ControlState, Option<T>>

  /** The entry for `st`, with no fallback to another state. */
  function Lookup<T>(m: StateTable<T>, st: ControlState): (r: Option<T>)
    ensures st !in m ==> r == None
    ensures r.Some? ==> st in m && m[st] == r
  {
    if st in m then m[st] else None
  }

  /** The three insets `addSpaceBetweenImageAndTitle` assigns. */
  datatype SpacingInsets = SpacingInsets(image: EdgeInsets, title: EdgeInsets, content: EdgeInsets)

  /** The insets for `spacing`, given whether the current state has a title,
      an attributed title and an image. */
  function InsetsForSpacing(spacing: real, hasTitle: bool, hasAttributedTitle: bool, hasImage: bool): (r: SpacingInsets)
    ensures r.content == EdgeInsets(0.0, spacing / 2.0, 0.0, spacing / 2.0)
    ensures r.image == EdgeInsets(0.0, -spacing / 2.0, 0.0, if hasTitle && hasAttributedTitle then spacing / 2.0 else 0.0)
    ensures r.title == EdgeInsets(0.0, if hasImage then spacing / 2.0 else 0.0, 0.0, -spacing / 2.0)
  {
    var insetAmount := spacing / 2.0;
    SpacingInsets(
      EdgeInsets(0.0, -insetAmount, 0.0, if !hasTitle || !hasAttributedTitle then 0.0 else insetAmount),
      EdgeInsets(0.0, if !hasImage then 0.0 else insetAmount, 0.0, -insetAmount),
      EdgeInsets(0.0, insetAmount, 0.0, insetAmount))
  }

  /** The content grows by the spacing and the image and title are pulled
      back by exactly the padding on their outer sides; with an image and
      both kinds of title, the inner sides get the same half spacing. */
  lemma SpacingIsSymmetric(spacing: real, hasTitle: bool, hasAttributedTitle: bool, hasImage: bool)
    ensures var r := InsetsForSpacing(spacing, hasTitle, hasAttributedTitle, hasImage);
      && r.content.left + r.content.right == spacing
      && r.image.left + r.content.left == 0.0
      && r.title.right + r.content.right == 0.0
      && r.image.top == r.image.bottom == r.title.top == r.title.bottom == 0.0
      && (hasTitle && hasAttributedTitle && hasImage ==> r.image.right == r.title.left == r.content.left)
  {
  }

  /** A worked example: a spacing of 10 with a title and an image, and the
      same spacing with one part missing. */
  lemma SpacingOfTen()
    ensures InsetsForSpacing(10.0, true, true, true)
         == SpacingInsets(EdgeInsets(0.0, -5.0, 0.0, 5.0), EdgeInsets(0.0, 5.0, 0.0, -5.0), EdgeInsets(0.0, 5.0, 0.0, 5.0))
    ensures InsetsForSpacing(10.0, false, false, true).image.right == 0.0
    ensures InsetsForSpacing(10.0, true, true, false).title.left == 0.0
  {
  }

  /** The layer after `layoutSubviews` or `traitCollectionDidChange`: the
      corner update runs with the `cornerRadius` property, which reads the
      layer's own radius back. */
  function CornerAfterLayout(s: LayerState, fullyRoundedCorners: bool, frame: Rect): (r: LayerState)
    ensures fullyRoundedCorners ==> r == s.(cornerRadius := frame.Height() / 2.0)
    ensures !fullyRoundedCorners ==> r == s
  {
    CornerApplied(s, fullyRoundedCorners, frame, s.cornerRadius)
  }

  /** Laying out again with the same frame and flag changes nothing; with
      the flag set, a new height is tracked without setting `cornerRadius`. */
  lemma LayoutIdempotent(s: LayerState, fullyRoundedCorners: bool, frame: Rect, frame': Rect)
    ensures CornerAfterLayout(CornerAfterLayout(s, fullyRoundedCorners, frame), fullyRoundedCorners, frame)
         == CornerAfterLayout(s, fullyRoundedCorners, frame)
    ensures fullyRoundedCorners ==>
      CornerAfterLayout(CornerAfterLayout(s, true, frame), true, frame').cornerRadius == frame'.Height() / 2.0
  {
  }

  /** The layer after `awakeFromNib` or `prepareForInterfaceBuilder`: the
      border is pushed when its width is positive and the shadow when its
      opacity is, each from properties that read the layer itself. */
  function AppearanceReapplied(s: LayerState): (r: LayerState)
    ensures r.cornerRadius == s.cornerRadius && r.sublayers == s.sublayers
    ensures s.borderWidth <= 0.0 ==> r.borderWidth == s.borderWidth && r.borderColor == s.borderColor
    ensures s.shadowOpacity <= 0.0 ==>
              && r.shadowOpacity == s.shadowOpacity && r.shadowColor == s.shadowColor
              && r.shadowOffset == s.shadowOffset && r.shadowRadius == s.shadowRadius
  {
    var bordered := if s.borderWidth > 0.0
                    then BorderApplied(s, s.borderWidth, UIColorOf(s.borderColor))
                    else s;
    if bordered.shadowOpacity > 0.0
    then ShadowApplied(bordered, UIColorOf(bordered.shadowColor), bordered.shadowOpacity,
                       bordered.shadowOffset, bordered.shadowRadius)
    else bordered
  }

  /** Because the properties read the layer back, re-applying them leaves
      the layer exactly as it was. */
  lemma ReapplyChangesNothing(s: LayerState)
    ensures AppearanceReapplied(s) == s
  {
    if s.borderWidth > 0.0 {
      BorderAppliedIdempotent(s, s.borderWidth, UIColorOf(s.borderColor));
    }
    if s.shadowOpacity > 0.0 {
      ShadowAppliedIdempotent(s, UIColorOf(s.shadowColor), s.shadowOpacity, s.shadowOffset, s.shadowRadius);
    }
  }

  class DesignableButton {
    /** The backing layer. */
    const layer: Layer
    var frame: Rect
    /** The control state the button is currently in (`state`). */
    var state: ControlState
    var fullyRoundedCorners: bool

    // The host button's per-state tables.
    var titles: StateTable<string>
    var attributedTitles: StateTable<AttributedString>
    var titleColors: StateTable<UIColor>
    var images: StateTable<Image>
    var backgroundImages: StateTable<Image>

    var imageEdgeInsets: EdgeInsets
    var titleEdgeInsets: EdgeInsets
    var contentEdgeInsets: EdgeInsets
    var adjustsImageWhenDisabled: bool
    var adjustsImageWhenHighlighted: bool
    /** Set by `setNeedsDisplay()`. */
    var needsDisplay: bool

    constructor (frame: Rect)
      ensures this.frame == frame && state == Normal && !fullyRoundedCorners
      ensures fresh(layer) && layer.State().borderWidth == 0.0 && layer.State().cornerRadius == 0.0
      ensures titles == map[] && attributedTitles == map[] && titleColors == map[]
      ensures images == map[] && backgroundImages == map[]
      ensures imageEdgeInsets == titleEdgeInsets == contentEdgeInsets == ZeroInsets
      ensures adjustsImageWhenDisabled && adjustsImageWhenHighlighted && !needsDisplay
    {
      layer := new Layer();
      this.frame := frame;
      state, fullyRoundedCorners := Normal, false;
      titles, attributedTitles, titleColors := map[], map[], map[];
      images, backgroundImages := map[], map[];
      imageEdgeInsets, titleEdgeInsets, contentEdgeInsets := ZeroInsets, ZeroInsets, ZeroInsets;
      adjustsImageWhenDisabled, adjustsImageWhenHighlighted := true, true;
      needsDisplay := false;
    }

    // The border and shadow properties are the layer's own fields.

    /** The `borderWidth` getter: the button keeps no copy of its own. */
    function BorderWidth(): (v: real)
      reads layer
      ensures v == layer.State().borderWidth
    {
      layer.borderWidth
    }

    method SetBorderWidth(newValue: real)
      modifies layer
      ensures layer.State() == old(layer.State()).(borderWidth := newValue)
      ensures BorderWidth() == newValue
    {
      layer.borderWidth := newValue;
    }

    /** The `borderColor` getter: `nil` when the layer has no colour, otherwise a
        colour that converts back to the layer's. */
    function BorderColor(): (c: Option<UIColor>)
      reads layer
      ensures c.None? <==> layer.borderColor.None?
      ensures CgColorOf(c) == layer.borderColor
    {
      UIColorOf(layer.borderColor)
    }

    method SetBorderColor(newValue: Option<UIColor>)
      modifies layer
      ensures layer.State() == old(layer.State()).(borderColor := CgColorOf(newValue))
      ensures BorderColor() == newValue
    {
      layer.borderColor := CgColorOf(newValue);
    }

    /** The `shadowColor` getter: `nil` when the layer has no colour, otherwise a
        colour that converts back to the layer's. */
    function ShadowColor(): (c: Option<UIColor>)
      reads layer
      ensures c.None? <==> layer.shadowColor.None?
      ensures CgColorOf(c) == layer.shadowColor
    {
      UIColorOf(layer.shadowColor)
    }

    method SetShadowColor(newValue: Option<UIColor>)
      modifies layer
      ensures layer.State() == old(layer.State()).(shadowColor := CgColorOf(newValue))
      ensures ShadowColor() == newValue
    {
      layer.shadowColor := CgColorOf(newValue);
    }

    /** The `shadowOpacity` getter: the button keeps no copy of its own. */
    function ShadowOpacity(): (v: real)
      reads layer
      ensures v == layer.State().shadowOpacity
    {
      layer.shadowOpacity
    }

    method SetShadowOpacity(newValue: real)
      modifies layer
      ensures layer.State() == old(layer.State()).(shadowOpacity := newValue)
      ensures ShadowOpacity() == newValue
    {
      layer.shadowOpacity := newValue;
    }

    /** The `shadowOffset` getter: the button keeps no copy of its own. */
    function ShadowOffset(): (v: Size)
      reads layer
      ensures v == layer.State().shadowOffset
    {
      layer.shadowOffset
    }

    method SetShadowOffset(newValue: Size)
      modifies layer
      ensures layer.State() == old(layer.State()).(shadowOffset := newValue)
      ensures ShadowOffset() == newValue
    {
      layer.shadowOffset := newValue;
    }

    /** The `shadowRadius` getter: the button keeps no copy of its own. */
    function ShadowRadius(): (v: real)
      reads layer
      ensures v == layer.State().shadowRadius
    {
      layer.shadowRadius
    }

    method SetShadowRadius(newValue: real)
      modifies layer
      ensures layer.State() == old(layer.State()).(shadowRadius := newValue)
      ensures ShadowRadius() == newValue
    {
      layer.shadowRadius := newValue;
    }

    /** The `cornerRadius` getter: the button keeps no copy of its own. */
    function CornerRadius(): (v: real)
      reads layer
      ensures v == layer.State().cornerRadius
    {
      layer.cornerRadius
    }

    /** The `cornerRadius` setter: with `fullyRoundedCorners` set, the
        requested value is ignored and half the frame's stored height is
        used instead. */
    method SetCornerRadius(newValue: real)
      modifies layer
      ensures layer.State() == old(layer.State()).(cornerRadius :=
                if fullyRoundedCorners then frame.size.height / 2.0 else newValue)
      ensures !fullyRoundedCorners ==> CornerRadius() == newValue
    {
      layer.RoundCorners(if fullyRoundedCorners then frame.size.height / 2.0 else newValue);
    }

    /** Setting `fullyRoundedCorners` (the stored property and its `didSet`):
        turning it on rounds with half the height; turning it off keeps the
        current radius and does not bring an earlier one back. */
    method SetFullyRoundedCorners(newValue: bool)
      modifies this`fullyRoundedCorners, layer
      ensures fullyRoundedCorners == newValue
      ensures layer.State() == old(layer.State()).(cornerRadius :=
                if newValue then frame.size.height / 2.0 else old(layer.cornerRadius))
    {
      fullyRoundedCorners := newValue;
      SetCornerRadius(if fullyRoundedCorners then frame.size.height / 2.0 else CornerRadius());
    }

    /** `addSpaceBetweenImageAndTitle(spacing:)`: the insets follow from the
        current state's title, attributed title and image. */
    method AddSpaceBetweenImageAndTitle(spacing: real)
      modifies this`imageEdgeInsets, this`titleEdgeInsets, this`contentEdgeInsets
      ensures SpacingInsets(imageEdgeInsets, titleEdgeInsets, contentEdgeInsets)
           == InsetsForSpacing(spacing, Lookup(titles, state).Some?,
                               Lookup(attributedTitles, state).Some?, Lookup(images, state).Some?)
    {
      var insetAmount := spacing / 2.0;
      imageEdgeInsets := EdgeInsets(0.0, -insetAmount, 0.0,
        if Lookup(titles, state).None? || Lookup(attributedTitles, state).None? then 0.0 else insetAmount);
      titleEdgeInsets := EdgeInsets(0.0, if Lookup(images, state).None? then 0.0 else insetAmount, 0.0, -insetAmount);
      contentEdgeInsets := EdgeInsets(0.0, insetAmount, 0.0, insetAmount);
    }

    /** The body shared by `awakeFromNib` and `prepareForInterfaceBuilder`. */
    method ReapplyBorderAndShadow()
      modifies layer
      ensures layer.State() == AppearanceReapplied(old(layer.State()))
      ensures layer.State() == old(layer.State())
    {
      ghost var s := layer.State();
      if BorderWidth() > 0.0 {
        UpdateBorder(layer, BorderWidth(), BorderColor());
      }
      if ShadowOpacity() > 0.0 {
        DrawShadow(layer, ShadowColor(), ShadowOpacity(), ShadowOffset(), ShadowRadius());
      }
      ReapplyChangesNothing(s);
    }

    method AwakeFromNib()
      modifies layer
      ensures layer.State() == AppearanceReapplied(old(layer.State())) == old(layer.State())
    {
      ReapplyBorderAndShadow();
    }

    method PrepareForInterfaceBuilder()
      modifies layer
      ensures layer.State() == AppearanceReapplied(old(layer.State())) == old(layer.State())
    {
      ReapplyBorderAndShadow();
    }

    /** `layoutSubviews` (after the host's own layout). */
    method LayoutSubviews()
      modifies layer
      ensures layer.State() == CornerAfterLayout(old(layer.State()), fullyRoundedCorners, frame)
    {
      UpdateCornerRadius(layer, fullyRoundedCorners, frame, CornerRadius());
    }

    /** `traitCollectionDidChange(_:)`. */
    method TraitCollectionDidChange()
      modifies layer
      ensures layer.State() == CornerAfterLayout(old(layer.State()), fullyRoundedCorners, frame)
    {
      UpdateCornerRadius(layer, fullyRoundedCorners, frame, CornerRadius());
    }
  }
}
