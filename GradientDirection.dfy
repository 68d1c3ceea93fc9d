/** `GradientDirection`: a symbolic gradient direction and the start and end
    points of its axis in the unit square of the layer, where (0, 0) is the
    top-left corner and (1, 1) the bottom-right one. */
module GradientDirection {
  import opened Graphics

  datatype Direction =
    | TopToBottom
    | BottomToTop
    | LeftToRight
    | RightToLeft
    | TopLeftToBottomRight
    | TopRightToBottomLeft
    | BottomLeftToTopRight
    | BottomRightToTopLeft
    | Custom(degree: real)

  /** The trigonometry `custom(degree:)` relies on, left uninterpreted:
      `cos`, `sin` and the value used for `.pi`. */
  datatype Trig = Trig(cos: real -> real, sin: real -> real, pi: real)

  /** The only trigonometric fact the model relies on: cos(r + pi) = -cos(r). */
  ghost predicate CosReflects(t: Trig) {
    forall r :: t.cos(r + t.pi) == -t.cos(r)
  }

  /** A coordinate of one of the eight fixed directions. */
  predicate OnGrid(v: real) {
    v == 0.0 || v == 0.5 || v == 1.0
  }

  predicate InUnitSquare(p: Point) {
    0.0 <= p.x <= 1.0 && 0.0 <= p.y <= 1.0
  }

  /** The reflection through the centre (0.5, 0.5) of the unit square. */
  function Reflect(p: Point): (q: Point)
    ensures q.x + p.x == 1.0 && q.y + p.y == 1.0
    ensures (q == p) <==> (p == Point(0.5, 0.5))
  {
    Point(1.0 - p.x, 1.0 - p.y)
  }

  /** `degree * .pi / 180`: degrees to radians. */
  function Radian(degree: real, t: Trig): (r: real)
    ensures degree == 0.0 ==> r == 0.0
    ensures degree == 90.0 ==> r + r == t.pi
    ensures degree == 180.0 ==> r == t.pi
  {
    degree * t.pi / 180.0
  }

  /** A full turn of 360 degrees adds 2·pi. */
  lemma RadianFullTurn(degree: real, t: Trig)
    ensures Radian(degree + 360.0, t) == Radian(degree, t) + 2.0 * t.pi
  {
  }

  /** `startPoint`. */
  function StartPoint(d: Direction, t: Trig): (p: Point)
    ensures !d.Custom? ==> OnGrid(p.x) && OnGrid(p.y) && InUnitSquare(p)
    ensures !d.Custom? ==> p != Point(0.5, 0.5)
  {
    match d
    case TopToBottom => Point(0.5, 0.0)
    case BottomToTop => Point(0.5, 1.0)
    case LeftToRight => Point(0.0, 0.5)
    case RightToLeft => Point(1.0, 0.5)
    case TopLeftToBottomRight => Zero
    case TopRightToBottomLeft => Point(1.0, 0.0)
    case BottomLeftToTopRight => Point(0.0, 1.0)
    case BottomRightToTopLeft => Point(1.0, 1.0)
    case Custom(degree) =>
      var radian := Radian(degree, t);
      Point(0.5 * (t.cos(radian) + 1.0), 0.5 * (1.0 - t.sin(radian)))
  }

  /** `endPoint`. */
  function EndPoint(d: Direction, t: Trig): (p: Point)
    ensures !d.Custom? ==> OnGrid(p.x) && OnGrid(p.y) && InUnitSquare(p)
  {
    match d
    case TopToBottom => Point(0.5, 1.0)
    case BottomToTop => Point(0.5, 0.0)
    case LeftToRight => Point(1.0, 0.5)
    case RightToLeft => Point(0.0, 0.5)
    case TopLeftToBottomRight => Point(1.0, 1.0)
    case TopRightToBottomLeft => Point(0.0, 1.0)
    case BottomLeftToTopRight => Point(1.0, 0.0)
    case BottomRightToTopLeft => Point(0.0, 0.0)
    case Custom(degree) =>
      var radian := Radian(degree, t);
      Point(0.5 * (t.cos(radian + t.pi) + 1.0), 0.5 * (1.0 + t.sin(radian)))
  }

  /** The fixed direction that runs the other way. */
  function Opposite(d: Direction): (o: Direction)
    requires !d.Custom?
    ensures !o.Custom? && o != d
  {
    match d
    case TopToBottom => BottomToTop
    case BottomToTop => TopToBottom
    case LeftToRight => RightToLeft
    case RightToLeft => LeftToRight
    case TopLeftToBottomRight => BottomRightToTopLeft
    case BottomRightToTopLeft => TopLeftToBottomRight
    case TopRightToBottomLeft => BottomLeftToTopRight
    case BottomLeftToTopRight => TopRightToBottomLeft
  }

  /** The eight fixed start points. */
  lemma FixedStartPoints(t: Trig)
    ensures StartPoint(TopToBottom, t) == Point(0.5, 0.0)
    ensures StartPoint(BottomToTop, t) == Point(0.5, 1.0)
    ensures StartPoint(LeftToRight, t) == Point(0.0, 0.5)
    ensures StartPoint(RightToLeft, t) == Point(1.0, 0.5)
    ensures StartPoint(TopLeftToBottomRight, t) == Point(0.0, 0.0)
    ensures StartPoint(TopRightToBottomLeft, t) == Point(1.0, 0.0)
    ensures StartPoint(BottomLeftToTopRight, t) == Point(0.0, 1.0)
    ensures StartPoint(BottomRightToTopLeft, t) == Point(1.0, 1.0)
  {
  }

  /** The eight fixed end points. */
  lemma FixedEndPoints(t: Trig)
    ensures EndPoint(TopToBottom, t) == Point(0.5, 1.0)
    ensures EndPoint(BottomToTop, t) == Point(0.5, 0.0)
    ensures EndPoint(LeftToRight, t) == Point(1.0, 0.5)
    ensures EndPoint(RightToLeft, t) == Point(0.0, 0.5)
    ensures EndPoint(TopLeftToBottomRight, t) == Point(1.0, 1.0)
    ensures EndPoint(TopRightToBottomLeft, t) == Point(0.0, 1.0)
    ensures EndPoint(BottomLeftToTopRight, t) == Point(1.0, 0.0)
    ensures EndPoint(BottomRightToTopLeft, t) == Point(0.0, 0.0)
  {
  }

  /** Every fixed end point is the centre reflection of its start point. */
  lemma FixedEndReflectsStart(d: Direction, t: Trig)
    requires !d.Custom?
    ensures EndPoint(d, t) == Reflect(StartPoint(d, t))
  {
  }

  /** A fixed direction's axis is never degenerate. */
  lemma FixedAxisNotDegenerate(d: Direction, t: Trig)
    requires !d.Custom?
    ensures StartPoint(d, t) != EndPoint(d, t)
  {
    FixedEndReflectsStart(d, t);
  }

  /** Opposite directions swap their end points. */
  lemma OppositeSwapsEndpoints(d: Direction, t: Trig)
    requires !d.Custom?
    ensures StartPoint(Opposite(d), t) == EndPoint(d, t)
    ensures EndPoint(Opposite(d), t) == StartPoint(d, t)
  {
  }

  /** For an angle, the end point is also the centre reflection of the start
      point, given only that cos(r + pi) = -cos(r). */
  lemma CustomEndReflectsStart(degree: real, t: Trig)
    requires CosReflects(t)
    ensures EndPoint(Custom(degree), t) == Reflect(StartPoint(Custom(degree), t))
  {
    var r := Radian(degree, t);
    assert t.cos(r + t.pi) == -t.cos(r);
  }

  /** θ and θ + 360 give the same axis when cos and sin have period 2·pi. */
  lemma CustomPeriodic(degree: real, t: Trig)
    requires forall r :: t.cos(r + 2.0 * t.pi) == t.cos(r)
    requires forall r :: t.sin(r + 2.0 * t.pi) == t.sin(r)
    ensures StartPoint(Custom(degree + 360.0), t) == StartPoint(Custom(degree), t)
    ensures EndPoint(Custom(degree + 360.0), t) == EndPoint(Custom(degree), t)
  {
    var r := Radian(degree, t);
    RadianFullTurn(degree, t);
    assert t.cos(r + 2.0 * t.pi) == t.cos(r);
    assert t.sin(r + 2.0 * t.pi) == t.sin(r);
    assert t.cos(r + 2.0 * t.pi + t.pi) == t.cos(r + t.pi + 2.0 * t.pi) == t.cos(r + t.pi);
  }

  /** For an angle, both points lie in the unit square whenever cos and sin
      stay within [-1, 1]. */
  lemma CustomInUnitSquare(degree: real, t: Trig)
    requires forall r :: -1.0 <= t.cos(r) <= 1.0 && -1.0 <= t.sin(r) <= 1.0
    ensures InUnitSquare(StartPoint(Custom(degree), t))
    ensures InUnitSquare(EndPoint(Custom(degree), t))
  {
    var r := Radian(degree, t);
    assert -1.0 <= t.cos(r) <= 1.0 && -1.0 <= t.sin(r) <= 1.0;
    assert -1.0 <= t.cos(r + t.pi) <= 1.0;
  }

  /** An angle of 0 degrees runs from the right edge to the left edge. */
  lemma CustomZeroDegrees(t: Trig)
    requires CosReflects(t)
    requires t.cos(0.0) == 1.0 && t.sin(0.0) == 0.0
    ensures StartPoint(Custom(0.0), t) == Point(1.0, 0.5) == StartPoint(RightToLeft, t)
    ensures EndPoint(Custom(0.0), t) == Point(0.0, 0.5) == EndPoint(RightToLeft, t)
  {
    assert Radian(0.0, t) == 0.0;
    assert t.cos(0.0 + t.pi) == -t.cos(0.0);
  }
}
