/** `DesignableShadow`: shadow colour, opacity, offset and blur radius, pushed
    onto the backing layer by `drawShadow`. The `UIView`, `UIButton` and
    `UIImageView` extensions share one body, modelled once. `Float` and
    `CGFloat` are both exact reals. */
module DesignableShadow {
  import opened Graphics
  import opened Layers

  /** The layer after the shadow properties have been pushed onto it: the
      four shadow fields carry the properties and nothing else moves. */
  function ShadowApplied(s: LayerState, shadowColor: Option<UIColor>, shadowOpacity: real,
                         shadowOffset: Size, shadowRadius: real): (r: LayerState)
    ensures r.shadowColor == CgColorOf(shadowColor)
    ensures shadowColor.None? ==> r.shadowColor.None?
    ensures r.shadowOpacity == shadowOpacity
    ensures r.shadowOffset == shadowOffset
    ensures r.shadowRadius == shadowRadius
    ensures r.(shadowColor := s.shadowColor, shadowOpacity := s.shadowOpacity,
               shadowOffset := s.shadowOffset, shadowRadius := s.shadowRadius) == s
  {
    s.(shadowColor := CgColorOf(shadowColor), shadowOpacity := shadowOpacity,
       shadowOffset := shadowOffset, shadowRadius := shadowRadius)
  }

  /** The layer already shows these shadow properties. */
  predicate ShowsShadow(s: LayerState, shadowColor: Option<UIColor>, shadowOpacity: real,
                        shadowOffset: Size, shadowRadius: real) {
    && s.shadowColor == CgColorOf(shadowColor)
    && s.shadowOpacity == shadowOpacity
    && s.shadowOffset == shadowOffset
    && s.shadowRadius == shadowRadius
  }

  /** Pushing onto a layer that already shows the properties changes nothing;
      in particular drawing the shadow twice is the same as drawing it once. */
  lemma ShadowAppliedIdempotent(s: LayerState, shadowColor: Option<UIColor>, shadowOpacity: real,
                                shadowOffset: Size, shadowRadius: real)
    ensures ShowsShadow(ShadowApplied(s, shadowColor, shadowOpacity, shadowOffset, shadowRadius),
                        shadowColor, shadowOpacity, shadowOffset, shadowRadius)
    ensures ShowsShadow(s, shadowColor, shadowOpacity, shadowOffset, shadowRadius) ==>
              ShadowApplied(s, shadowColor, shadowOpacity, shadowOffset, shadowRadius) == s
    ensures var once := ShadowApplied(s, shadowColor, shadowOpacity, shadowOffset, shadowRadius);
            ShadowApplied(once, shadowColor, shadowOpacity, shadowOffset, shadowRadius) == once
  {
  }

  /** `drawShadow()`, given the conformer's four shadow properties. */
  method DrawShadow(layer: Layer, shadowColor: Option<UIColor>, shadowOpacity: real,
                    shadowOffset: Size, shadowRadius: real)
    modifies layer
    ensures layer.State() == ShadowApplied(old(layer.State()), shadowColor, shadowOpacity, shadowOffset, shadowRadius)
  {
    layer.shadowColor := CgColorOf(shadowColor);
    layer.shadowOpacity := shadowOpacity;
    layer.shadowOffset := shadowOffset;
    layer.shadowRadius := shadowRadius;
  }
}
