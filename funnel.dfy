/**
 * `Funnel`: the outline of a funnel, built once from its two top corners,
 * its height and the radius of the dots that will fall through it. Every
 * field is a function of the constructor's arguments.
 */
module FunnelGeometry {
  import opened Wrappers
  import opened Geometry
  import opened ShapePoints

  /** The class attribute `text_scale`. */
  const TextScale: real := 0.6
  /** `y_bottom_shift`: how far above the bottom the bottom line is drawn. */
  const BottomShift: real := 0.2
  /** How far below the top the slanted walls end. */
  const NeckDrop: real := 0.5
  /** How far below the top the short appendix lines end. */
  const AppendixDrop: real := 0.7
  /** How far the bottom line reaches past each side wall. */
  const BottomOverhang: real := 0.2

  /** The constructor's arguments, top corners already as points. */
  datatype Funnel = Funnel(
    leftTop: Point,
    rightTop: Point,
    height: real,
    pointRadius: real,
    annot: bool,
    annotText: string)

  /**
   * `Funnel(start_end_points, height, point_radius, annot, annot_text)`:
   * the left corner, then the right one, go through `ShapePoint`, which
   * may raise; the funnel keeps the validated corners and the other
   * arguments as given.
   */
  function NewFunnel(first: CoordsValue, second: CoordsValue, height: real, pointRadius: real, annot: bool, annotText: string)
    : (r: Result<Funnel, ShapePointError>)
    ensures r.Ok? <==> Validate(first).Ok? && Validate(second).Ok?
    ensures Validate(first).Err? ==> r == Err(Validate(first).error)
    ensures Validate(first).Ok? && Validate(second).Err? ==> r == Err(Validate(second).error)
    ensures r.Ok? ==>
      && r.value.leftTop == Validate(first).value && r.value.rightTop == Validate(second).value
      && r.value.height == height && r.value.pointRadius == pointRadius
      && r.value.annot == annot && r.value.annotText == annotText
  {
    match ValidateBoth(first, second)
    case Err(e) => Err(e)
    case Ok(corners) => Ok(Funnel(corners.0, corners.1, height, pointRadius, annot, annotText))
  }

  /** `point_diameter`: half the neck's width. */
  function PointDiameter(f: Funnel): real {
    f.pointRadius * 1.5
  }

  /** `y_point_top`: the left corner's height; the right corner's y is never read. */
  function YTop(f: Funnel): real {
    f.leftTop.y
  }

  function YBottom(f: Funnel): real {
    YTop(f) - f.height
  }

  function XLeft(f: Funnel): real {
    f.leftTop.x
  }

  function XRight(f: Funnel): real {
    f.rightTop.x
  }

  /** `x_funnel_center`: the mean of the two top corners' x. */
  function Centre(f: Funnel): real {
    (f.rightTop.x + f.leftTop.x) / 2.0
  }

  /** The seven lines of the outline. */
  datatype Outline = Outline(
    leftToBottom: Segment,
    rightToBottom: Segment,
    leftToBottomRight: Segment,
    rightToBottomLeft: Segment,
    leftAppendix: Segment,
    rightAppendix: Segment,
    bottomLine: Segment)

  /**
   * The outline: two vertical side walls, two slanted walls from the top
   * corners down to a neck of width `2 * point_diameter` around the
   * centre, a short appendix under each end of the neck, and the bottom
   * line.
   */
  function Lines(f: Funnel): (o: Outline)
    ensures IsVertical(o.leftToBottom) && o.leftToBottom.start == Flat(XLeft(f), YTop(f))
    ensures IsVertical(o.rightToBottom) && o.rightToBottom.start == Flat(XRight(f), YTop(f))
    ensures o.leftToBottom.start.y - o.leftToBottom.end.y == f.height
    ensures o.rightToBottom.start.y - o.rightToBottom.end.y == f.height
    ensures o.leftToBottomRight.start == o.leftToBottom.start
    ensures o.rightToBottomLeft.start == o.rightToBottom.start
    ensures o.leftToBottomRight.end.y == o.rightToBottomLeft.end.y == YTop(f) - NeckDrop
    ensures o.leftToBottomRight.end.x + o.rightToBottomLeft.end.x == 2.0 * Centre(f)
    ensures o.rightToBottomLeft.end.x - o.leftToBottomRight.end.x == 3.0 * f.pointRadius
    ensures o.leftAppendix.start == o.rightToBottomLeft.end && IsVertical(o.leftAppendix)
    ensures o.rightAppendix.start == o.leftToBottomRight.end && IsVertical(o.rightAppendix)
    ensures o.leftAppendix.start.y - o.leftAppendix.end.y == AppendixDrop - NeckDrop
    ensures o.rightAppendix.start.y - o.rightAppendix.end.y == AppendixDrop - NeckDrop
    ensures IsHorizontal(o.bottomLine) && o.bottomLine.start.y == YBottom(f) + BottomShift
    ensures o.bottomLine.start.x == XLeft(f) - BottomOverhang && o.bottomLine.end.x == XRight(f) + BottomOverhang
  {
    var top := YTop(f);
    var bottom := YBottom(f);
    var left := XLeft(f);
    var right := XRight(f);
    var centre := Centre(f);
    var d := PointDiameter(f);
    Outline(
      Segment(Flat(left, top), Flat(left, bottom)),
      Segment(Flat(right, top), Flat(right, bottom)),
      Segment(Flat(left, top), Flat(centre - d, top - NeckDrop)),
      Segment(Flat(right, top), Flat(centre + d, top - NeckDrop)),
      Segment(Flat(centre + d, top - NeckDrop), Flat(centre + d, top - AppendixDrop)),
      Segment(Flat(centre - d, top - NeckDrop), Flat(centre - d, top - AppendixDrop)),
      Segment(Flat(left - BottomOverhang, bottom + BottomShift), Flat(right + BottomOverhang, bottom + BottomShift)))
  }

  /**
   * The members of the group, in order: the seven lines, then the
   * annotation at the bottom centre when `annot` is set.
   */
  function Members(f: Funnel): (r: (seq<Segment>, seq<Label>))
    ensures |r.0| == 7
    ensures r.0[0] == Lines(f).leftToBottom && r.0[1] == Lines(f).rightToBottom
    ensures r.0[2] == Lines(f).leftToBottomRight && r.0[3] == Lines(f).rightToBottomLeft
    ensures r.0[4] == Lines(f).leftAppendix && r.0[5] == Lines(f).rightAppendix
    ensures r.0[6] == Lines(f).bottomLine
    ensures |r.1| == if f.annot then 1 else 0
    ensures f.annot ==> r.1[0] == Label(f.annotText, Flat(Centre(f), YBottom(f)))
  {
    var o := Lines(f);
    var lines := [o.leftToBottom, o.rightToBottom, o.leftToBottomRight, o.rightToBottomLeft,
                  o.leftAppendix, o.rightAppendix, o.bottomLine];
    var texts := if f.annot then [Label(f.annotText, Flat(Centre(f), YBottom(f)))] else [];
    (lines, texts)
  }

  /** The centre is halfway between the side walls. */
  lemma CentreIsMidway(f: Funnel)
    ensures Centre(f) - XLeft(f) == XRight(f) - Centre(f)
    ensures XLeft(f) <= XRight(f) ==> XLeft(f) <= Centre(f) <= XRight(f)
  {
  }

  /**
   * The right corner's height plays no part: two funnels whose right
   * corners differ only there have the same outline and members.
   */
  lemma RightTopHeightIgnored(first: CoordsValue, second: CoordsValue, other: CoordsValue,
                              height: real, pointRadius: real, annot: bool, annotText: string)
    requires NewFunnel(first, second, height, pointRadius, annot, annotText).Ok?
    requires Validate(other).Ok? && Validate(other).value.x == Validate(second).value.x
    ensures var f := NewFunnel(first, second, height, pointRadius, annot, annotText).value;
      var g := NewFunnel(first, other, height, pointRadius, annot, annotText).value;
      Lines(g) == Lines(f) && Members(g) == Members(f)
  {
  }
}
