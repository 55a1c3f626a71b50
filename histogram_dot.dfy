/**
 * `HistogramDot`: a ball carrying a value. Its constructor fills in the
 * default radius and colour, validates the point and picks the text scale.
 */
module HistogramDots {
  import opened Wrappers
  import opened Numbers
  import opened Geometry
  import opened ShapePoints

  const DefaultRadius: real := 0.2

  /** manim's `WHITE`. */
  const White: string := "#FFFFFF"

  /** The class-level `colors` palette, keyed by value. */
  const Palette: map<real, string> :=
    map[1.0 := "#7FCC81", 2.0 := "#FFE236", 3.0 := "#FFB742", 4.0 := "#FF7555"]

  const FloatTextScale: real := 0.25
  const IntTextScale: real := 0.4

  /**
   * A constructed dot. `point` is the validated `ShapePoint`; `centre` is
   * where the mobject currently is, which `move_to` changes and `get_x` reads.
   */
  datatype HistogramDot = HistogramDot(
    value: Number,
    radius: real,
    color: string,
    point: Point,
    textScale: real,
    centre: Point)

  /**
   * A supplied radius is never stored, so the `Dot` call reads a missing
   * attribute; a bad point raises from `ShapePoint`.
   */
  datatype DotError = RadiusNotStored | BadPoint(cause: ShapePointError)

  /** `colors.get(value, WHITE)`: dictionary keys compare numerically, so `2.0` finds entry 2. */
  function PaletteColor(value: Number): (c: string)
    ensures value.AsReal() in {1.0, 2.0, 3.0, 4.0} ==> c == Palette[value.AsReal()]
    ensures value.AsReal() !in {1.0, 2.0, 3.0, 4.0} ==> c == White
  {
    if value.AsReal() in Palette then Palette[value.AsReal()] else White
  }

  /**
   * `HistogramDot(value, point, radius, color)`. `None` stands for an
   * argument left out; `0.0` and `""` are falsy and count as left out too.
   */
  function NewDot(value: Number, point: CoordsValue, radius: Option<real>, color: Option<string>): (r: Result<HistogramDot, DotError>)
    ensures r.Ok? <==> (radius.None? || radius.value == 0.0) && Validate(point).Ok?
    ensures radius.Some? && radius.value != 0.0 ==> r == Err(RadiusNotStored)
    ensures (radius.None? || radius.value == 0.0) && Validate(point).Err? ==> r == Err(BadPoint(Validate(point).error))
    ensures r.Ok? ==>
      && r.value.value == value
      && r.value.radius == DefaultRadius
      && r.value.point == Validate(point).value
      && r.value.centre == r.value.point
      && r.value.color == (if color.Some? && color.value != "" then color.value else PaletteColor(value))
      && r.value.textScale == (if value.Float? then FloatTextScale else IntTextScale)
  {
    if radius.Some? && radius.value != 0.0 then Err(RadiusNotStored)
    else
      var c := if color.Some? && color.value != "" then color.value else PaletteColor(value);
      match Validate(point)
      case Err(e) => Err(BadPoint(e))
      case Ok(p) =>
        var scale := if value.Float? then FloatTextScale else IntTextScale;
        Ok(HistogramDot(value, DefaultRadius, c, p, scale, p))
  }

  /** `dot.move_to(p)`: only the centre changes. */
  function MoveTo(dot: HistogramDot, p: Point): (d: HistogramDot)
    ensures d.centre == p
    ensures d.value == dot.value && d.radius == dot.radius && d.color == dot.color && d.point == dot.point
    ensures d.textScale == dot.textScale
  {
    dot.(centre := p)
  }

  /** Every successfully built dot has radius 0.2 and a palette or given colour, never an empty one. */
  lemma BuiltDotShape(value: Number, point: CoordsValue, color: Option<string>)
    requires Validate(point).Ok?
    ensures NewDot(value, point, None, color).Ok?
    ensures NewDot(value, point, None, color).value.radius == 0.2
    ensures NewDot(value, point, None, color).value.color != ""
  {
  }
}
