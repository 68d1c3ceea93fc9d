/** `DesignableShadowLayer`: a shape layer whose shadow setters request a new
    layout, and whose layout sets fixed clipping and rasterising flags and
    rebuilds an even-odd shadow path from its bounds and corner radius. */
module DesignableShadowLayers {
  import opened Graphics

  /** `CAShapeLayerFillRule`. */
  datatype FillRule = NonZero | EvenOdd

  /** One step of building a `CGMutablePath`. */
  datatype PathElement =
    | Subpath(shape: Shape)   // addPath(_:) of a bezier path, or addRect(_:)
    | CloseSubpath            // closeSubpath()

  type Path = seq<PathElement>

  /** The path `generateShadowPath` builds: the layer's outline, then its
      bounds rectangle, then a close. */
  function ShadowPath(bounds: Rect, cornerRadius: real): (p: Path)
    ensures |p| == 3 && p[2] == CloseSubpath
    ensures p[0].Subpath? && p[0].shape.bounds == bounds
    ensures p[0].shape.RoundedRectShape? <==> cornerRadius > 0.0
    ensures p[1] == Subpath(RectShape(bounds))
  {
    [Subpath(Outline(bounds, cornerRadius)), Subpath(RectShape(bounds)), CloseSubpath]
  }

  /** The second subpath does not depend on the radius, and without
      rounding the outline is that same rectangle again. */
  lemma ShadowPathShape(bounds: Rect, cornerRadius: real, otherRadius: real)
    ensures ShadowPath(bounds, cornerRadius)[1] == ShadowPath(bounds, otherRadius)[1]
    ensures cornerRadius <= 0.0 ==> ShadowPath(bounds, cornerRadius)[0] == ShadowPath(bounds, cornerRadius)[1]
  {
  }

  class DesignableShadowLayer {
    var shadowColor: Option<CGColor>
    var shadowOpacity: real
    var shadowOffset: Size
    var shadowRadius: real
    /** Set by `setNeedsLayout()`. */
    var needsLayout: bool

    var bounds: Rect
    var cornerRadius: real
    var masksToBounds: bool
    var shouldRasterize: bool
    var fillRule: FillRule
    var borderColor: Option<CGColor>
    var path: Option<Path>

    /** What `layoutSublayers` leaves behind. */
    predicate LaidOut()
      reads this
      ensures LaidOut() ==> masksToBounds && shouldRasterize && fillRule == EvenOdd
      ensures LaidOut() ==> path.Some? && |path.value| == 3 && path.value[2] == CloseSubpath
    {
      && masksToBounds && shouldRasterize
      && fillRule == EvenOdd && borderColor == Some(Clear)
      && path == Some(ShadowPath(bounds, cornerRadius))
    }

    /** A new layer carries Core Animation's documented defaults. */
    constructor (bounds: Rect)
      ensures this.bounds == bounds && cornerRadius == 0.0 && path == None && !needsLayout
      ensures shadowOpacity == 0.0 && shadowOffset == Size(0.0, -3.0) && shadowRadius == 3.0
      ensures !masksToBounds && !shouldRasterize && fillRule == NonZero
    {
      shadowColor, shadowOpacity := Some(RGBA(0.0, 0.0, 0.0, 1.0)), 0.0;
      shadowOffset, shadowRadius := Size(0.0, -3.0), 3.0;
      needsLayout := false;
      this.bounds, cornerRadius := bounds, 0.0;
      masksToBounds, shouldRasterize := false, false;
      fillRule, borderColor, path := NonZero, Some(RGBA(0.0, 0.0, 0.0, 1.0)), None;
    }

    method SetShadowColor(newValue: Option<CGColor>)
      modifies this`shadowColor, this`needsLayout
      ensures shadowColor == newValue && needsLayout
    {
      shadowColor := newValue;
      needsLayout := true;
    }

    method SetShadowOpacity(newValue: real)
      modifies this`shadowOpacity, this`needsLayout
      ensures shadowOpacity == newValue && needsLayout
    {
      shadowOpacity := newValue;
      needsLayout := true;
    }

    method SetShadowOffset(newValue: Size)
      modifies this`shadowOffset, this`needsLayout
      ensures shadowOffset == newValue && needsLayout
    {
      shadowOffset := newValue;
      needsLayout := true;
    }

    method SetShadowRadius(newValue: real)
      modifies this`shadowRadius, this`needsLayout
      ensures shadowRadius == newValue && needsLayout
    {
      shadowRadius := newValue;
      needsLayout := true;
    }

    /** `layoutSublayers` (after the host's own layout). A layer that is
        already laid out for its bounds and radius is left as it is. */
    method LayoutSublayers()
      modifies this`masksToBounds, this`shouldRasterize, this`fillRule, this`borderColor, this`path
      ensures LaidOut()
      ensures old(LaidOut()) ==> unchanged(this)
    {
      masksToBounds := true;
      shouldRasterize := true;
      fillRule := EvenOdd;
      borderColor := Some(Clear);
      GenerateShadowPath();
    }

    /** `generateShadowPath`: the path is built one subpath at a time. */
    method GenerateShadowPath()
      modifies this`path
      ensures path == Some(ShadowPath(bounds, cornerRadius))
    {
      var p: Path := [];
      var bezier := if cornerRadius > 0.0 then RoundedRectShape(bounds, cornerRadius) else RectShape(bounds);
      p := p + [Subpath(bezier)];
      p := p + [Subpath(RectShape(bounds))];
      p := p + [CloseSubpath];
      assert p == [Subpath(bezier), Subpath(RectShape(bounds)), CloseSubpath];
      path := Some(p);
    }
  }
}
