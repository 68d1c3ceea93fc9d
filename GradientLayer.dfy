/** `GradientLayer`: a gradient layer configured once, at initialisation,
    from a direction, colours, a corner radius and optional stop locations. */
module GradientLayers {
  import opened Graphics
  import opened GradientDirection

  /** `colors.map { $0.cgColor }`. */
  function CgColors(colors: seq<UIColor>): (r: seq<CGColor>)
    ensures |r| == |colors|
    ensures forall i :: 0 <= i < |colors| ==> r[i] == colors[i].cgColor
  {
    if colors == [] then [] else [colors[0].cgColor] + CgColors(colors[1..])
  }

  /** `NSNumber` stop locations, as reals, copied with `map { $0 }`. */
  function CopyLocations(locations: seq<real>): (r: seq<real>)
    ensures r == locations
  {
    if locations == [] then [] else [locations[0]] + CopyLocations(locations[1..])
  }

  /** `locations?.map { $0 }`: `nil` stays `nil`. */
  function CopyOptionalLocations(locations: Option<seq<real>>): (r: Option<seq<real>>)
    ensures r == locations
  {
    match locations
    case None => None
    case Some(ls) => Some(CopyLocations(ls))
  }

  /** An archive a view hierarchy is decoded from; its content is not modelled. */
  type Coder

  /** What an initialiser comes to: a layer, or a trap with its message. */
  datatype InitOutcome<T> = Initialised(layer: T) | FatalError(message: string)

  class GradientLayer {
    var needsDisplayOnBoundsChange: bool
    var colors: seq<CGColor>
    var startPoint: Point
    var endPoint: Point
    var cornerRadius: real
    var locations: Option<seq<real>>

    /** `init(direction:colors:cornerRadius:locations:)` with its defaults;
        `trig` supplies the trigonometry of a `custom` direction. */
    constructor (colors: seq<UIColor>, trig: Trig, direction: Direction := TopToBottom,
                 cornerRadius: real := 0.0, locations: Option<seq<real>> := None)
      ensures needsDisplayOnBoundsChange
      ensures |this.colors| == |colors| && forall i :: 0 <= i < |colors| ==> this.colors[i] == colors[i].cgColor
      ensures startPoint == StartPoint(direction, trig) && endPoint == EndPoint(direction, trig)
      ensures this.cornerRadius == cornerRadius
      ensures this.locations == locations
    {
      needsDisplayOnBoundsChange := true;
      this.colors := CgColors(colors);
      startPoint := StartPoint(direction, trig);
      endPoint := EndPoint(direction, trig);
      this.cornerRadius := cornerRadius;
      this.locations := CopyOptionalLocations(locations);
    }

    /** `init?(coder:)` is not supported: it always traps. */
    static function InitWithCoder(coder: Coder): (r: InitOutcome<GradientLayer>)
      ensures r.FatalError?
    {
      FatalError("init(coder:) has not been implemented")
    }
  }

  /** The defaults: top to bottom, straight corners, no stop locations. */
  method DefaultGradientLayer(colors: seq<UIColor>, trig: Trig) returns (g: GradientLayer)
    ensures g.startPoint == Point(0.5, 0.0) && g.endPoint == Point(0.5, 1.0)
    ensures g.cornerRadius == 0.0 && g.locations == None
    ensures g.needsDisplayOnBoundsChange && |g.colors| == |colors|
  {
    g := new GradientLayer(colors, trig);
  }
}
