/**
 * `Graph`, `CategoricalGraph` and `ContinuousGraph`: axis lines, bin
 * widths, bin centres, and where the tick marks and labels go.
 */
module Graphs {
  import opened Wrappers
  import opened Numbers
  import opened Geometry
  import opened ShapePoints

  /** Class attributes of `Graph`. */
  const TextScale: real := 0.6
  const GraphDotPadding: real := 0.25

  /** Half the length of a tick mark. */
  const TickHalf: real := 0.3
  /** How far above the horizontal axis the first dot of a bin sits. */
  const SlotLift: real := 0.25
  /** How far a continuous graph's end labels sit from the axis. */
  const EndLabelOffset: real := 0.55

  /**
   * The fields the constructor sets. `stepX` is only meaningful with a
   * horizontal line and `stepY` only with a vertical one (Python leaves
   * the other attribute unset); the model keeps `0.0` there.
   */
  datatype Graph = Graph(
    horizontal: Option<Segment>,
    vertical: Option<Segment>,
    bins: int,
    annot: bool,
    stepX: real,
    stepY: real)

  /**
   * `GraphLinesEmptyException`; the exception `ShapePoint` raises for an
   * axis end; the `IndexError` of an axis given with one point; Python's
   * `ZeroDivisionError` for zero bins; the `TypeError` from indexing a
   * missing horizontal line.
   */
  datatype GraphError = LinesEmpty | BadAxisPoint(cause: ShapePointError) | MissingAxisPoint | ZeroDivision | NoHorizontalLine

  /**
   * An axis argument: the points the caller passed, in order. `[]` stands
   * for an axis left out; `None` and `()` are both falsy and mean the same.
   */
  type AxisArg = seq<CoordsValue>

  /**
   * One axis of the constructor: `ShapePoint` on its first point, then on
   * its second (which must exist), then the axis length is divided by
   * `bins`. An absent axis is skipped; points past the second are unused.
   */
  function Axis(a: AxisArg, bins: int): (r: Result<Option<(Point, Point)>, GraphError>)
    ensures a == [] ==> r == Ok(None)
    ensures a != [] && Validate(a[0]).Err? ==> r == Err(BadAxisPoint(Validate(a[0]).error))
    ensures a != [] && Validate(a[0]).Ok? && |a| < 2 ==> r == Err(MissingAxisPoint)
    ensures |a| >= 2 && ValidateBoth(a[0], a[1]).Err? ==> r == Err(BadAxisPoint(ValidateBoth(a[0], a[1]).error))
    ensures |a| >= 2 && ValidateBoth(a[0], a[1]).Ok? && bins == 0 ==> r == Err(ZeroDivision)
    ensures |a| >= 2 && ValidateBoth(a[0], a[1]).Ok? && bins != 0 ==>
      r == Ok(Some((Validate(a[0]).value, Validate(a[1]).value)))
  {
    if a == [] then Ok(None)
    else if Validate(a[0]).Err? then Err(BadAxisPoint(Validate(a[0]).error))
    else if |a| < 2 then Err(MissingAxisPoint)
    else
      match ValidateBoth(a[0], a[1])
      case Err(e) => Err(BadAxisPoint(e))
      case Ok(ends) => if bins == 0 then Err(ZeroDivision) else Ok(Some(ends))
  }

  /** `abs(p - q) / bins` for the validated ends of an axis, `0.0` without one. */
  function StepOf(ends: Option<(Point, Point)>, horizontal: bool, bins: int): (s: real)
    requires ends.Some? ==> bins != 0
    ensures ends.None? ==> s == 0.0
    ensures ends.Some? && horizontal ==> s * (bins as real) == Abs(ends.value.0.x - ends.value.1.x)
    ensures ends.Some? && !horizontal ==> s * (bins as real) == Abs(ends.value.0.y - ends.value.1.y)
  {
    if ends.None? then 0.0
    else if horizontal then Abs(ends.value.0.x - ends.value.1.x) / (bins as real)
    else Abs(ends.value.0.y - ends.value.1.y) / (bins as real)
  }

  /**
   * `Graph.__init__` up to `create_graph`: the empty-lines check, then the
   * horizontal axis (its ends, then its step), then the vertical one.
   */
  function NewGraph(h: AxisArg, v: AxisArg, bins: int, annot: bool): (r: Result<Graph, GraphError>)
    ensures r == Err(LinesEmpty) <==> h == [] && v == []
    ensures h != [] && Axis(h, bins).Err? ==> r == Err(Axis(h, bins).error)
    ensures (h != [] || v != []) && Axis(h, bins).Ok? && Axis(v, bins).Err? ==> r == Err(Axis(v, bins).error)
    ensures r.Ok? <==>
      && (h != [] || v != []) && bins != 0
      && (h != [] ==> |h| >= 2 && ValidateBoth(h[0], h[1]).Ok?)
      && (v != [] ==> |v| >= 2 && ValidateBoth(v[0], v[1]).Ok?)
    ensures r.Ok? ==> r.value.bins == bins && r.value.annot == annot
    ensures r.Ok? ==> (r.value.horizontal.Some? <==> h != []) && (r.value.vertical.Some? <==> v != [])
    ensures r.Ok? && h != [] ==>
      && r.value.horizontal.value == Segment(Validate(h[0]).value, Validate(h[1]).value)
      && r.value.stepX * (bins as real) == Abs(Validate(h[0]).value.x - Validate(h[1]).value.x)
    ensures r.Ok? && v != [] ==>
      && r.value.vertical.value == Segment(Validate(v[0]).value, Validate(v[1]).value)
      && r.value.stepY * (bins as real) == Abs(Validate(v[0]).value.y - Validate(v[1]).value.y)
  {
    if h == [] && v == [] then Err(LinesEmpty)
    else
      match Axis(h, bins)
      case Err(e) => Err(e)
      case Ok(hs) =>
        match Axis(v, bins)
        case Err(e) => Err(e)
        case Ok(vs) =>
          Ok(Graph(
            if hs.Some? then Some(Segment(hs.value.0, hs.value.1)) else None,
            if vs.Some? then Some(Segment(vs.value.0, vs.value.1)) else None,
            bins, annot, StepOf(hs, true, bins), StepOf(vs, false, bins)))
  }

  /** Where the next dot of a bin goes. */
  datatype Slot = Slot(x: real, y: real)

  /** The centre of bin `i` (counted from 1) on the horizontal axis. */
  function BinCentreX(g: Graph, i: int): real
    requires g.horizontal.Some?
  {
    g.horizontal.value.start.x + (i as real - 0.5) * g.stepX
  }

  function Min(a: int, b: int): int {
    if a < b then a else b
  }

  /** How many values `range(0, n)` yields. */
  function Count(n: int): (c: nat)
    ensures n >= 0 ==> c == n
    ensures n < 0 ==> c == 0
  {
    if n < 0 then 0 else n
  }

  /** `Count(n)` is the length of Python's `range(0, n)`. */
  lemma RangeCount(n: int)
    ensures |Range(0, n, 1)| == Count(n)
  {
    var r := Range(0, n, 1);
    if |r| > 0 {
      assert r[|r| - 1] < n;
    }
  }

  /** With a positive step, the bin centres go left to right. */
  lemma CentresIncrease(g: Graph)
    requires g.horizontal.Some?
    ensures g.stepX > 0.0 ==> forall i, j :: i < j ==> BinCentreX(g, i) < BinCentreX(g, j)
  {
    if g.stepX > 0.0 {
      forall i, j | i < j
        ensures BinCentreX(g, i) < BinCentreX(g, j)
      {
        var d := (j - i) as real;
        assert BinCentreX(g, j) - BinCentreX(g, i) == d * g.stepX;
        assert d * g.stepX > 0.0;
      }
    }
  }

  /** One slot per bin `1..bins`, each at the bin's centre and 0.25 above the horizontal axis. */
  ghost predicate SlotsOfBins(g: Graph, m: map<int, Slot>): (r: bool)
    requires g.horizontal.Some?
    ensures r && g.stepX > 0.0 ==> forall i, j :: i in m && j in m && i < j ==> m[i].x < m[j].x
  {
    CentresIncrease(g);
    && (forall i :: i in m <==> 1 <= i <= g.bins)
    && (forall i :: i in m ==> m[i] == Slot(BinCentreX(g, i), g.horizontal.value.start.y + SlotLift))
  }

  /**
   * `_prepare_next_dot_coords`: one slot per bin `1..bins`, at the bin's
   * centre and 0.25 above the horizontal axis.
   */
  method PrepareNextDotCoords(g: Graph) returns (r: Result<map<int, Slot>, GraphError>)
    ensures r.Err? <==> g.horizontal.None?
    ensures r.Err? ==> r.error == NoHorizontalLine
    ensures r.Ok? ==> SlotsOfBins(g, r.value)
  {
    if g.horizontal.None? {
      return Err(NoHorizontalLine);
    }
    var x0 := g.horizontal.value.start.x;
    var y0 := g.horizontal.value.start.y;
    var d: map<int, Slot> := map[];
    var startX := x0;
    var i := 1;
    while i <= g.bins
      invariant 1 <= i <= Count(g.bins) + 1
      invariant startX == x0 + (i - 1) as real * g.stepX
      invariant forall k :: k in d <==> 1 <= k < i
      invariant forall k :: k in d ==> d[k] == Slot(BinCentreX(g, k), y0 + SlotLift)
    {
      HalfStep(x0, i - 1, g.stepX);
      StepForward(x0, i - 1, g.stepX);
      d := d[i := Slot(startX + g.stepX / 2.0, y0 + SlotLift)];
      startX := startX + g.stepX;
      i := i + 1;
    }
    r := Ok(d);
  }

  /** Neighbouring bin centres are one bin width apart. */
  lemma BinCentresEvenlySpaced(g: Graph, i: int)
    requires g.horizontal.Some?
    ensures BinCentreX(g, i + 1) - BinCentreX(g, i) == g.stepX
  {
  }

  /**
   * For an axis drawn left to right, the bins tile it exactly: bin `bins`
   * ends at the right end, and each centre lies strictly inside its bin.
   */
  lemma BinsTileAxis(h: AxisArg, bins: int, annot: bool, i: int)
    requires bins >= 1 && 1 <= i <= bins
    requires |h| >= 2 && ValidateBoth(h[0], h[1]).Ok? && Validate(h[0]).value.x < Validate(h[1]).value.x
    ensures NewGraph(h, [], bins, annot).Ok?
    ensures var g := NewGraph(h, [], bins, annot).value;
      var (p, q) := (Validate(h[0]).value, Validate(h[1]).value);
      && p.x + (bins as real) * g.stepX == q.x
      && p.x + (i - 1) as real * g.stepX < BinCentreX(g, i) < p.x + (i as real) * g.stepX
  {
    var g := NewGraph(h, [], bins, annot).value;
    var (p, q) := (Validate(h[0]).value, Validate(h[1]).value);
    assert g.stepX * (bins as real) == q.x - p.x;
    assert g.stepX > 0.0;
  }



  /** A vertical tick at `x`, through the horizontal axis at height `y`. */
  function XTick(x: real, y: real): (s: Segment)
    ensures IsVertical(s) && s.start.y - s.end.y == 2.0 * TickHalf
    ensures s.start.x == x && s.start.y + s.end.y == 2.0 * y
  {
    Segment(Flat(x, y + TickHalf), Flat(x, y - TickHalf))
  }

  /** A horizontal tick at height `y`, through the vertical axis at `x`. */
  function YTick(x: real, y: real): (s: Segment)
    ensures IsHorizontal(s) && s.end.x - s.start.x == 2.0 * TickHalf
    ensures s.start.y == y && s.start.x + s.end.x == 2.0 * x
  {
    Segment(Flat(x - TickHalf, y), Flat(x + TickHalf, y))
  }

  /** Tick `k` of the categorical graph's horizontal axis, `k` bins right of its start. */
  function XTickAt(g: Graph, k: int): Segment
    requires g.horizontal.Some?
  {
    var h := g.horizontal.value;
    XTick(h.start.x + (k as real) * g.stepX, h.start.y)
  }

  /** Label of bin `k + 1`, half a bin right of tick `k`, just below the axis. */
  function XLabelAt(g: Graph, k: int): Label
    requires g.horizontal.Some?
  {
    var h := g.horizontal.value;
    Label(IntToString(k + 1), Flat(h.start.x + (k as real) * g.stepX + g.stepX / 2.0, h.start.y - TickHalf))
  }

  /** Tick `k` of the vertical axis, `k` bins below its start. */
  function YTickAt(g: Graph, k: int): Segment
    requires g.vertical.Some?
  {
    var v := g.vertical.value;
    YTick(v.start.x, v.start.y - (k as real) * g.stepY)
  }

  /** Label of bin `k + 1` beside the vertical axis, half a bin below tick `k`. */
  function YLabelAt(g: Graph, k: int): Label
    requires g.vertical.Some?
  {
    var v := g.vertical.value;
    Label(IntToString(k + 1), Flat(v.start.x - TickHalf, v.start.y - (k as real) * g.stepY - g.stepY / 2.0))
  }

  /** The categorical graph's ticks on the horizontal axis: `bins + 1` of them. */
  function CategoricalXTicks(g: Graph): (s: seq<Segment>)
    requires g.horizontal.Some?
    ensures |s| == Count(g.bins + 1)
  {
    seq(Count(g.bins + 1), k => XTickAt(g, k))
  }

  /** Its bin labels `"1"`..`"bins"`; none after the last tick. */
  function CategoricalXLabels(g: Graph): (s: seq<Label>)
    requires g.horizontal.Some?
    ensures |s| == if g.annot then Count(g.bins) else 0
  {
    if g.annot then seq(Count(g.bins), k => XLabelAt(g, k)) else []
  }

  /** The ticks on the vertical axis. */
  function CategoricalYTicks(g: Graph): (s: seq<Segment>)
    requires g.vertical.Some?
    ensures |s| == Count(g.bins + 1)
  {
    seq(Count(g.bins + 1), k => YTickAt(g, k))
  }

  /** Labels `"1"`..`"bins"` beside the vertical axis. */
  function CategoricalYLabels(g: Graph): (s: seq<Label>)
    requires g.vertical.Some?
    ensures |s| == if g.annot then Count(g.bins) else 0
  {
    if g.annot then seq(Count(g.bins), k => YLabelAt(g, k)) else []
  }

  /** One pass of the horizontal tick loop extends both prefixes of the layout by one element. */
  lemma {:induction false} XStep(g: Graph, i: int, startX: real)
    requires g.horizontal.Some?
    requires 1 <= i < g.bins + 2
    requires startX == g.horizontal.value.start.x + (i - 1) as real * g.stepX
    ensures CategoricalXTicks(g)[..i] == CategoricalXTicks(g)[..i - 1] + [XTick(startX, g.horizontal.value.start.y)]
    ensures g.annot && i != g.bins + 1 ==>
      CategoricalXLabels(g)[..i] == CategoricalXLabels(g)[..i - 1]
        + [Label(IntToString(i), Flat(startX + g.stepX / 2.0, g.horizontal.value.start.y - TickHalf))]
  {
    var h := g.horizontal.value;
    PrefixStep(CategoricalXTicks(g), i);
    assert CategoricalXTicks(g)[i - 1] == XTick(startX, h.start.y);
    if g.annot && i != g.bins + 1 {
      PrefixStep(CategoricalXLabels(g), i);
      assert CategoricalXLabels(g)[i - 1] == Label(IntToString(i), Flat(startX + g.stepX / 2.0, h.start.y - TickHalf));
    }
  }

  /** The first `i` elements are the first `i - 1` and element `i - 1`. */
  lemma PrefixStep<T>(s: seq<T>, i: int)
    requires 1 <= i <= |s|
    ensures s[..i] == s[..i - 1] + [s[i - 1]]
  {
  }

  /** The tick loop over the horizontal axis in `create_graph`. */
  method CategoricalXPart(g: Graph) returns (texts: seq<Label>, ticks: seq<Segment>)
    requires g.horizontal.Some?
    ensures ticks == CategoricalXTicks(g)
    ensures texts == CategoricalXLabels(g)
  {
    var h := g.horizontal.value;
    texts, ticks := [], [];
    var startX := h.start.x;
    var yCoord := h.start.y;
    var i := 1;
    while i < g.bins + 2
      invariant 1 <= i <= Count(g.bins + 1) + 1
      invariant startX == h.start.x + (i - 1) as real * g.stepX
      invariant ticks == CategoricalXTicks(g)[..i - 1]
      invariant texts == CategoricalXLabels(g)[..if g.annot then Min(i - 1, Count(g.bins)) else 0]
    {
      XStep(g, i, startX);
      ticks := ticks + [XTick(startX, yCoord)];
      if g.annot && i != g.bins + 1 {
        texts := texts + [Label(IntToString(i), Flat(startX + g.stepX / 2.0, yCoord - TickHalf))];
      }
      StepForward(h.start.x, i - 1, g.stepX);
      startX := startX + g.stepX;
      i := i + 1;
    }
  }

  /** One pass of the vertical tick loop extends both prefixes of the layout by one element. */
  lemma {:induction false} YStep(g: Graph, j: int, startY: real)
    requires g.vertical.Some?
    requires 1 <= j < g.bins + 2
    requires startY == g.vertical.value.start.y - (j - 1) as real * g.stepY
    ensures CategoricalYTicks(g)[..j] == CategoricalYTicks(g)[..j - 1] + [YTick(g.vertical.value.start.x, startY)]
    ensures g.annot && j != g.bins + 1 ==>
      CategoricalYLabels(g)[..j] == CategoricalYLabels(g)[..j - 1]
        + [Label(IntToString(j), Flat(g.vertical.value.start.x - TickHalf, startY - g.stepY / 2.0))]
  {
    var v := g.vertical.value;
    PrefixStep(CategoricalYTicks(g), j);
    assert CategoricalYTicks(g)[j - 1] == YTick(v.start.x, startY);
    if g.annot && j != g.bins + 1 {
      PrefixStep(CategoricalYLabels(g), j);
      assert CategoricalYLabels(g)[j - 1] == Label(IntToString(j), Flat(v.start.x - TickHalf, startY - g.stepY / 2.0));
    }
  }

  /** The tick loop over the vertical axis in `create_graph`. */
  method CategoricalYPart(g: Graph) returns (texts: seq<Label>, ticks: seq<Segment>)
    requires g.vertical.Some?
    ensures ticks == CategoricalYTicks(g)
    ensures texts == CategoricalYLabels(g)
  {
    var v := g.vertical.value;
    texts, ticks := [], [];
    var startY := v.start.y;
    var xCoord := v.start.x;
    var j := 1;
    while j < g.bins + 2
      invariant 1 <= j <= Count(g.bins + 1) + 1
      invariant startY == v.start.y - (j - 1) as real * g.stepY
      invariant ticks == CategoricalYTicks(g)[..j - 1]
      invariant texts == CategoricalYLabels(g)[..if g.annot then Min(j - 1, Count(g.bins)) else 0]
    {
      YStep(g, j, startY);
      ticks := ticks + [YTick(xCoord, startY)];
      if g.annot && j != g.bins + 1 {
        texts := texts + [Label(IntToString(j), Flat(xCoord - TickHalf, startY - g.stepY / 2.0))];
      }
      StepBackward(v.start.y, j - 1, g.stepY);
      startY := startY - g.stepY;
      j := j + 1;
    }
  }

  /**
   * `CategoricalGraph.create_graph`. It returns `(texts, lines)` in that
   * order. Everything sits under the horizontal-line branch, so the
   * vertical axis is only drawn when a horizontal one exists.
   */
  method CategoricalCreateGraph(g: Graph) returns (texts: seq<Label>, lines: seq<Segment>)
    ensures g.horizontal.None? ==> texts == [] && lines == []
    ensures g.horizontal.Some? && g.vertical.None? ==>
      && lines == [g.horizontal.value] + CategoricalXTicks(g)
      && texts == CategoricalXLabels(g)
    ensures g.horizontal.Some? && g.vertical.Some? ==>
      && lines == [g.horizontal.value] + CategoricalXTicks(g) + [g.vertical.value] + CategoricalYTicks(g)
      && texts == CategoricalXLabels(g) + CategoricalYLabels(g)
  {
    texts, lines := [], [];
    if g.horizontal.None? {
      return;
    }
    var xTexts, xTicks := CategoricalXPart(g);
    lines := [g.horizontal.value] + xTicks;
    texts := xTexts;
    if g.vertical.Some? {
      var yTexts, yTicks := CategoricalYPart(g);
      lines := lines + [g.vertical.value] + yTicks;
      texts := texts + yTexts;
    }
  }

  /** Bin label `k` names bin `k` and sits under that bin's centre. */
  lemma {:induction false} CategoricalLabelAtBinCentre(g: Graph, k: int)
    requires g.horizontal.Some? && g.annot
    requires 0 <= k < Count(g.bins)
    ensures CategoricalXLabels(g)[k].text == IntToString(k + 1)
    ensures CategoricalXLabels(g)[k].at.x == BinCentreX(g, k + 1)
    ensures CategoricalXLabels(g)[k].at.y == CategoricalXTicks(g)[k].end.y
  {
    assert CategoricalXLabels(g)[k] == XLabelAt(g, k);
    assert CategoricalXTicks(g)[k] == XTickAt(g, k);
    LabelXIsCentre(g, k);
  }

  lemma LabelXIsCentre(g: Graph, k: int)
    requires g.horizontal.Some?
    ensures XLabelAt(g, k).at.x == BinCentreX(g, k + 1)
  {
    HalfStep(g.horizontal.value.start.x, k, g.stepX);
  }

  /** No two bin labels read the same. */
  lemma CategoricalLabelsDistinct(g: Graph, k: int, m: int)
    requires g.horizontal.Some? && g.annot
    requires 0 <= k < m < Count(g.bins)
    ensures CategoricalXLabels(g)[k].text != CategoricalXLabels(g)[m].text
  {
    if IntToString(k + 1) == IntToString(m + 1) {
      IntToStringInjective(k + 1, m + 1);
    }
  }

  /** The two end ticks of a horizontal axis and of a vertical axis. */
  function XEndTicks(h: Segment): (r: seq<Segment>)
    ensures |r| == 2 && IsVertical(r[0]) && IsVertical(r[1])
    ensures r[0].start.x == h.start.x && r[1].start.x == h.end.x
    ensures forall k :: 0 <= k < 2 ==> r[k].start.y + r[k].end.y == 2.0 * h.start.y
  {
    [XTick(h.start.x, h.start.y), XTick(h.end.x, h.start.y)]
  }

  function YEndTicks(v: Segment): (r: seq<Segment>)
    ensures |r| == 2 && IsHorizontal(r[0]) && IsHorizontal(r[1])
    ensures r[0].start.y == v.start.y && r[1].start.y == v.end.y
    ensures forall k :: 0 <= k < 2 ==> r[k].start.x + r[k].end.x == 2.0 * v.start.x
  {
    [YTick(v.start.x, v.start.y), YTick(v.start.x, v.end.y)]
  }

  /**
   * `ContinuousGraph.create_graph`: each present axis, a tick through each
   * of its ends, and with `annot` the labels `"0"` and `str(bins)` at the
   * ends, `0.55` below the horizontal axis and `0.55` left of the vertical
   * one.
   */
  function ContinuousCreateGraph(g: Graph): (r: (seq<Segment>, seq<Label>))
    ensures var axes := (if g.horizontal.Some? then 1 else 0) + (if g.vertical.Some? then 1 else 0);
      |r.0| == 3 * axes && |r.1| == (if g.annot then 2 * axes else 0)
    ensures g.horizontal.Some? ==>
      var h := g.horizontal.value;
      && r.0[0] == h
      && r.0[1] == XTick(h.start.x, h.start.y)
      && r.0[2] == XTick(h.end.x, h.start.y)
      && (g.annot ==>
        && r.1[0].at == Flat(h.start.x, h.start.y - EndLabelOffset)
        && r.1[1].at == Flat(h.end.x, h.start.y - EndLabelOffset))
    ensures g.vertical.Some? ==>
      var v := g.vertical.value;
      var at := if g.horizontal.Some? then 3 else 0;
      && r.0[at] == v
      && r.0[at + 1] == YTick(v.start.x, v.start.y)
      && r.0[at + 2] == YTick(v.start.x, v.end.y)
      && (g.annot ==>
        var t := if g.horizontal.Some? then 2 else 0;
        && r.1[t].at == Flat(v.start.x - EndLabelOffset, v.start.y)
        && r.1[t + 1].at == Flat(v.start.x - EndLabelOffset, v.end.y))
    ensures g.annot ==> forall k :: 0 <= k < |r.1| ==>
      r.1[k].text == if k % 2 == 0 then "0" else IntToString(g.bins)
  {
    var hLines := if g.horizontal.Some? then [g.horizontal.value] + XEndTicks(g.horizontal.value) else [];
    var hTexts := if g.horizontal.Some? && g.annot then
      var h := g.horizontal.value;
      [Label("0", Flat(h.start.x, h.start.y - EndLabelOffset)),
       Label(IntToString(g.bins), Flat(h.end.x, h.start.y - EndLabelOffset))]
    else [];
    var vLines := if g.vertical.Some? then [g.vertical.value] + YEndTicks(g.vertical.value) else [];
    var vTexts := if g.vertical.Some? && g.annot then
      var v := g.vertical.value;
      [Label("0", Flat(v.start.x - EndLabelOffset, v.start.y)),
       Label(IntToString(g.bins), Flat(v.start.x - EndLabelOffset, v.end.y))]
    else [];
    (hLines + vLines, hTexts + vTexts)
  }
}
