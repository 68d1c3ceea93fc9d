/** `DesignableBorder`: a border width and an optional border colour, pushed
    onto the backing layer by `updateBorder`. The `UIView`, `UIButton` and
    `UIImageView` extensions share one body, modelled once. */
module DesignableBorder {
  import opened Graphics
  import opened Layers

  /** The layer after the border properties have been pushed onto it:
      the two border fields carry the properties and nothing else moves. */
  function BorderApplied(s: LayerState, borderWidth: real, borderColor: Option<UIColor>): (r: LayerState)
    ensures r.borderWidth == borderWidth
    ensures r.borderColor == CgColorOf(borderColor)
    ensures borderColor.None? ==> r.borderColor.None?
    ensures r.(borderWidth := s.borderWidth, borderColor := s.borderColor) == s
  {
    s.(borderWidth := borderWidth, borderColor := CgColorOf(borderColor))
  }

  /** The layer already shows these border properties. */
  predicate ShowsBorder(s: LayerState, borderWidth: real, borderColor: Option<UIColor>) {
    s.borderWidth == borderWidth && s.borderColor == CgColorOf(borderColor)
  }

  /** Pushing onto a layer that already shows the properties changes nothing;
      in particular pushing twice is the same as pushing once. */
  lemma BorderAppliedIdempotent(s: LayerState, borderWidth: real, borderColor: Option<UIColor>)
    ensures ShowsBorder(BorderApplied(s, borderWidth, borderColor), borderWidth, borderColor)
    ensures ShowsBorder(s, borderWidth, borderColor) ==> BorderApplied(s, borderWidth, borderColor) == s
    ensures BorderApplied(BorderApplied(s, borderWidth, borderColor), borderWidth, borderColor)
         == BorderApplied(s, borderWidth, borderColor)
  {
  }

  /** `updateBorder()`, given the conformer's `borderWidth` and `borderColor`. */
  method UpdateBorder(layer: Layer, borderWidth: real, borderColor: Option<UIColor>)
    modifies layer
    ensures layer.State() == BorderApplied(old(layer.State()), borderWidth, borderColor)
  {
    layer.borderWidth := borderWidth;
    layer.borderColor := CgColorOf(borderColor);
  }
}
