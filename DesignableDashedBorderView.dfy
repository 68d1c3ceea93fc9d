/** `DesignableDashedBorderView`: a view that strokes a dashed outline on a
    shape sublayer, rebuilt on every layout pass. The previous dash layer is
    detached before the new one is added, so the view's own dash layers
    never pile up among its layer's sublayers. */
module DesignableDashedBorderViews {
  import opened Graphics
  import opened Layers

  /** The sublayers once `dashBorder?.removeFromSuperlayer()` has run. */
  function Detached(sublayers: seq<object>, dashBorder: ShapeLayer?): (r: seq<object>)
    ensures dashBorder != null ==> dashBorder !in r
    ensures forall k :: 0 <= k < |r| ==> r[k] in sublayers
    ensures dashBorder != null && dashBorder in sublayers ==> |r| < |sublayers|
    ensures dashBorder == null ==> r == sublayers
  {
    if dashBorder == null then sublayers else Without(sublayers, dashBorder)
  }

  class DesignableDashedBorderView {
    /** The backing layer. */
    const layer: Layer
    var bounds: Rect
    /** The corner radius inherited from `DesignableView`, whose definition is
        not part of this model. */
    var cornerRadius: real

    var dashWidth: real
    var dashColor: Option<UIColor>
    var dashLength: real
    var betweenDashesSpace: real
    var dashBorder: ShapeLayer?

    /** Every dash layer this view has made. */
    ghost var dashLayers: set<object>

    /** Of the layers this view made, only the current `dashBorder` can be a
        sublayer of its layer. */
    ghost predicate Valid()
      reads this, layer
    {
      && (dashBorder != null ==> dashBorder in dashLayers)
      && (forall k :: 0 <= k < |layer.sublayers| && layer.sublayers[k] in dashLayers ==>
            layer.sublayers[k] == dashBorder)
    }

    /** The dash layer carries the view's current dash settings. */
    predicate Strokes(d: ShapeLayer)
      reads this, d
      ensures Strokes(d) ==> d.path.Some? && d.path.value.bounds == d.frame
      ensures Strokes(d) ==> (d.path.value.RoundedRectShape? <==> cornerRadius > 0.0)
      ensures Strokes(d) ==> d.lineDashPattern.Some? && |d.lineDashPattern.value| == 2
    {
      && d.lineWidth == dashWidth
      && d.strokeColor == CgColorOf(dashColor)
      && d.lineDashPattern == Some([dashLength, betweenDashesSpace])
      && d.frame == bounds
      && d.fillColor == None
      && d.path == Some(Outline(bounds, cornerRadius))
    }

    /** The stored-property defaults: no dash width, length or spacing and no
        colour. */
    constructor (bounds: Rect)
      ensures Valid() && fresh(layer) && layer.sublayers == []
      ensures this.bounds == bounds && cornerRadius == 0.0
      ensures dashWidth == 0.0 && dashColor == None && dashLength == 0.0 && betweenDashesSpace == 0.0
      ensures dashBorder == null
    {
      layer := new Layer();
      this.bounds, cornerRadius := bounds, 0.0;
      dashWidth, dashColor, dashLength, betweenDashesSpace := 0.0, None, 0.0, 0.0;
      dashBorder := null;
      dashLayers := {};
    }

    /** `layoutSubviews`: the previous dash layer leaves the layer's
        sublayers and a new one, appended last, becomes `dashBorder`. */
    method LayoutSubviews()
      requires Valid()
      modifies this`dashBorder, this`dashLayers, layer`sublayers
      ensures Valid()
      ensures dashBorder != null && fresh(dashBorder) && Strokes(dashBorder)
      ensures layer.sublayers == Detached(old(layer.sublayers), old(dashBorder)) + [dashBorder]
      ensures forall k :: 0 <= k < |layer.sublayers| && layer.sublayers[k] in dashLayers ==>
                k == |layer.sublayers| - 1
      ensures |layer.sublayers| <= |old(layer.sublayers)| + 1
      ensures old(dashBorder) != null && old(dashBorder) in old(layer.sublayers) ==>
                |layer.sublayers| <= |old(layer.sublayers)|
    {
      var detached := Detached(layer.sublayers, dashBorder);
      layer.sublayers := detached;
      var d := new ShapeLayer();
      d.lineWidth := dashWidth;
      d.strokeColor := CgColorOf(dashColor);
      d.lineDashPattern := Some([dashLength, betweenDashesSpace]);
      d.frame := bounds;
      d.fillColor := None;
      if cornerRadius > 0.0 {
        d.path := Some(RoundedRectShape(bounds, cornerRadius));
      } else {
        d.path := Some(RectShape(bounds));
      }
      layer.sublayers := layer.sublayers + [d];
      dashBorder := d;
      dashLayers := dashLayers + {d};
      forall k | 0 <= k < |detached| ensures detached[k] !in dashLayers {
        assert detached[k] in old(layer.sublayers);
      }
    }
  }
}
