/** Host value types shared by every component: optional values, Core Graphics
    geometry (with CGFloat as exact `real`), colours, images and bezier paths. */
module Graphics {

  /** Swift's `Optional`. */
  datatype Option<+T> = None | Some(value: T)

  /** `CGPoint`. */
  datatype Point = Point(x: real, y: real)

  const Zero := Point(0.0, 0.0)

  /** `CGSize`. */
  datatype Size = Size(width: real, height: real)

  /** `CGRect`. Core Graphics lets a size be negative; the `height` accessor
      of a rectangle returns the standardized (non-negative) height while
      `size.height` returns the stored value, and the sources use both. */
  datatype Rect = Rect(origin: Point, size: Size) {
    function Height(): (h: real)
      ensures h >= 0.0
      ensures h == size.height || h == -size.height
      ensures size.height >= 0.0 ==> h == size.height
    {
      if size.height < 0.0 then -size.height else size.height
    }
  }

  /** `UIEdgeInsets`. */
  datatype EdgeInsets = EdgeInsets(top: real, left: real, bottom: real, right: real)

  const ZeroInsets := EdgeInsets(0.0, 0.0, 0.0, 0.0)

  /** `CGColor`, as its RGBA components. */
  datatype CGColor = RGBA(red: real, green: real, blue: real, alpha: real)

  /** `UIColor.clear.cgColor`: transparent black. */
  const Clear := RGBA(0.0, 0.0, 0.0, 0.0)

  /** `UIColor`: a wrapper around the `CGColor` it is backed by, so that
      `UIColor(cgColor: c).cgColor == c`. */
  datatype UIColor = UIColor(cgColor: CGColor)

  /** Optional chaining `color?.cgColor`. */
  function CgColorOf(c: Option<UIColor>): (r: Option<CGColor>)
    ensures r.None? <==> c.None?
    ensures c.Some? ==> r.value == c.value.cgColor
  {
    match c
    case None => None
    case Some(u) => Some(u.cgColor)
  }

  /** The getter idiom `guard let c = layer.color else { return nil };
      return UIColor(cgColor: c)`. */
  function UIColorOf(c: Option<CGColor>): (r: Option<UIColor>)
    ensures r.None? <==> c.None?
    ensures CgColorOf(r) == c
  {
    match c
    case None => None
    case Some(g) => Some(UIColor(g))
  }

  /** A bitmap (`UIImage`); its pixels are not modelled. */
  type Image(==)

  /** The geometry of a `UIBezierPath`, as the constructor that made it. */
  datatype Shape =
    | RectShape(bounds: Rect)                        // UIBezierPath(rect:)
    | RoundedRectShape(bounds: Rect, radius: real)   // UIBezierPath(roundedRect:cornerRadius:)

  /** The outline both the dashed border and the shadow layer draw: a rounded
      rectangle when the corner radius is positive, the plain rectangle
      otherwise. */
  function Outline(bounds: Rect, cornerRadius: real): (s: Shape)
    ensures s.bounds == bounds
    ensures s.RoundedRectShape? <==> cornerRadius > 0.0
    ensures s.RoundedRectShape? ==> s.radius == cornerRadius
  {
    if cornerRadius > 0.0 then RoundedRectShape(bounds, cornerRadius) else RectShape(bounds)
  }
}
