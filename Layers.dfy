/** The Core Animation layers the views push their appearance onto. Only the
    properties the library reads or writes are modelled. */
module Layers {
  import opened Graphics

  /** The appearance properties of a `CALayer`, as one value. */
  datatype LayerState = LayerState(
    borderWidth: real,
    borderColor: Option<CGColor>,
    cornerRadius: real,
    shadowColor: Option<CGColor>,
    shadowOpacity: real,
    shadowOffset: Size,
    shadowRadius: real,
    sublayers: seq<object>)

  const OpaqueBlack := RGBA(0.0, 0.0, 0.0, 1.0)

  /** The backing `CALayer` of a view, button or image view. */
  class Layer {
    var borderWidth: real
    var borderColor: Option<CGColor>
    var cornerRadius: real
    var shadowColor: Option<CGColor>
    var shadowOpacity: real
    var shadowOffset: Size
    var shadowRadius: real
    var sublayers: seq<object>

    function State(): (s: LayerState)
      reads this
    {
      LayerState(borderWidth, borderColor, cornerRadius, shadowColor,
                 shadowOpacity, shadowOffset, shadowRadius, sublayers)
    }

    /** A new layer carries Core Animation's documented defaults. */
    constructor ()
      ensures State() == LayerState(0.0, Some(OpaqueBlack), 0.0, Some(OpaqueBlack),
                                    0.0, Size(0.0, -3.0), 3.0, [])
    {
      borderWidth, borderColor, cornerRadius := 0.0, Some(OpaqueBlack), 0.0;
      shadowColor, shadowOpacity := Some(OpaqueBlack), 0.0;
      shadowOffset, shadowRadius := Size(0.0, -3.0), 3.0;
      sublayers := [];
    }

    /** `roundCorners(with:)`, whose definition is not part of this model:
        it is taken to set the corner radius and nothing else. */
    method RoundCorners(radius: real)
      modifies this
      ensures State() == old(State()).(cornerRadius := radius)
    {
      cornerRadius := radius;
    }
  }

  /** The stroke of a `CAShapeLayer`, as `CGFloat` dash lengths. */
  type DashPattern = seq<real>

  /** A `CAShapeLayer` used as a sublayer. */
  class ShapeLayer {
    var lineWidth: real
    var strokeColor: Option<CGColor>
    var fillColor: Option<CGColor>
    var lineDashPattern: Option<DashPattern>
    var frame: Rect
    var path: Option<Shape>

    /** A new shape layer carries Core Animation's documented defaults. */
    constructor ()
      ensures lineWidth == 1.0 && strokeColor == None && fillColor == Some(OpaqueBlack)
      ensures lineDashPattern == None && frame == Rect(Zero, Size(0.0, 0.0)) && path == None
    {
      lineWidth, strokeColor, fillColor := 1.0, None, Some(OpaqueBlack);
      lineDashPattern, frame, path := None, Rect(Zero, Size(0.0, 0.0)), None;
    }
  }

  /** `removeFromSuperlayer` seen from the superlayer: `x` leaves the list of
      sublayers, which otherwise keeps its members in their order. */
  function Without(s: seq<object>, x: object): (r: seq<object>)
    ensures x !in r
    ensures |r| <= |s|
    ensures x in s ==> |r| < |s|
    ensures forall k :: 0 <= k < |r| ==> r[k] in s && r[k] != x
    ensures forall k :: 0 <= k < |s| && s[k] != x ==> s[k] in r
    ensures x !in s ==> r == s
  {
    if s == [] then []
    else if s[0] == x then Without(s[1..], x)
    else [s[0]] + Without(s[1..], x)
  }

  /** Removing keeps the relative order of what stays: two remaining
      sublayers are found, in the same order, at positions `i'` < `j'`. */
  lemma {:induction false} WithoutKeepsOrder(s: seq<object>, x: object, i: nat, j: nat)
      returns (i': nat, j': nat)
    requires i < j < |s| && s[i] != x && s[j] != x
    ensures i' < j' < |Without(s, x)|
    ensures Without(s, x)[i'] == s[i] && Without(s, x)[j'] == s[j]
  {
    var rest := Without(s[1..], x);
    assert s[1..][j - 1] == s[j];
    if s[0] == x {
      i', j' := WithoutKeepsOrder(s[1..], x, i - 1, j - 1);
    } else if i == 0 {
      var k :| 0 <= k < |rest| && rest[k] == s[j];
      i', j' := 0, k + 1;
    } else {
      var a, b := WithoutKeepsOrder(s[1..], x, i - 1, j - 1);
      i', j' := a + 1, b + 1;
    }
  }
}
