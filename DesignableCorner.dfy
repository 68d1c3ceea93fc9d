/** `DesignableCorner`: a corner radius and a `fullyRoundedCorners` flag.
    `updateCornerRadius` rounds the backing layer with half the frame's height
    when the flag is set and with `cornerRadius` otherwise. The `UIView`,
    `UIButton` and `UIImageView` extensions compute the same radius; the
    `UIView` one first forces a layout pass, which is host behaviour. */
module DesignableCorner {
  import opened Graphics
  import opened Layers

  /** The radius `updateCornerRadius` rounds the layer with. `frame.height`
      is the standardized height of the frame. */
  function EffectiveCornerRadius(fullyRoundedCorners: bool, frame: Rect, cornerRadius: real): (r: real)
    ensures fullyRoundedCorners ==> r == frame.Height() / 2.0 && r >= 0.0
    ensures !fullyRoundedCorners ==> r == cornerRadius
  {
    if fullyRoundedCorners then frame.Height() / 2.0 else cornerRadius
  }

  /** The layer after `updateCornerRadius`: only its corner radius moves. */
  function CornerApplied(s: LayerState, fullyRoundedCorners: bool, frame: Rect, cornerRadius: real): (r: LayerState)
    ensures r.cornerRadius == EffectiveCornerRadius(fullyRoundedCorners, frame, cornerRadius)
    ensures r.(cornerRadius := s.cornerRadius) == s
  {
    s.(cornerRadius := EffectiveCornerRadius(fullyRoundedCorners, frame, cornerRadius))
  }

  /** With the flag set, the stored `cornerRadius` is irrelevant: the radius
      follows the frame alone. Worked examples: a height of 40 gives 20 and
      60 gives 30. */
  lemma FullyRoundedFollowsHeight(frame: Rect, a: real, b: real)
    ensures EffectiveCornerRadius(true, frame, a) == EffectiveCornerRadius(true, frame, b)
    ensures frame.size.height == 40.0 ==> EffectiveCornerRadius(true, frame, a) == 20.0
    ensures frame.size.height == 60.0 ==> EffectiveCornerRadius(true, frame, a) == 30.0
  {
  }

  /** Re-running the update with unchanged inputs changes nothing more. */
  lemma CornerAppliedIdempotent(s: LayerState, fullyRoundedCorners: bool, frame: Rect, cornerRadius: real)
    ensures var once := CornerApplied(s, fullyRoundedCorners, frame, cornerRadius);
            CornerApplied(once, fullyRoundedCorners, frame, cornerRadius) == once
  {
  }

  /** `updateCornerRadius()`, given the conformer's properties and frame. */
  method UpdateCornerRadius(layer: Layer, fullyRoundedCorners: bool, frame: Rect, cornerRadius: real)
    modifies layer
    ensures layer.State() == CornerApplied(old(layer.State()), fullyRoundedCorners, frame, cornerRadius)
  {
    layer.RoundCorners(if fullyRoundedCorners then frame.Height() / 2.0 else cornerRadius);
  }
}
