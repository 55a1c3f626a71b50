/**
 * `MovableFunnel`: a funnel that dots fall through. Each dot is classified
 * by its x against the funnel's walls, gets up to three waypoints (on the
 * wall it hits, at the neck, on the stack at the bottom), and the stack
 * rises by the dot's radius plus the padding.
 */
module MovableFunnels {
  import opened Wrappers
  import opened Numbers
  import opened Geometry
  import opened HistogramDots
  import opened FunnelGeometry
  import opened ShapePoints

  /** The class attribute `dot_padding`. */
  const FunnelDotPadding: real := 0.22
  /** How far above the wall a falling dot's first waypoint sits. */
  const WallLift: real := 0.25
  /** How far above the end of the left slanted wall the neck waypoint sits. */
  const NeckLift: real := 0.1

  /** Where a dot's x lies, seen from above the funnel. */
  datatype Region = LeftWall | RightWall | Neck | Outside

  /**
   * The classification in `_get_next_dots_coords`: the left slanted wall
   * spans `[x_left, end of the left wall]`, the right one
   * `[end of the right wall, x_right]`, the neck is strictly between the
   * two ends, and everything else is outside. The tests are made in that
   * order.
   */
  function Classify(f: Funnel, x: real): (r: Region)
    ensures r == LeftWall <==> XLeft(f) <= x <= Lines(f).leftToBottomRight.end.x
    ensures r == RightWall <==>
      !(XLeft(f) <= x <= Lines(f).leftToBottomRight.end.x) && Lines(f).rightToBottomLeft.end.x <= x <= XRight(f)
    ensures r == Neck <==>
      && !(XLeft(f) <= x <= Lines(f).leftToBottomRight.end.x)
      && !(Lines(f).rightToBottomLeft.end.x <= x <= XRight(f))
      && Lines(f).leftToBottomRight.end.x < x < Lines(f).rightToBottomLeft.end.x
    ensures r == Outside <==>
      && !(XLeft(f) <= x <= Lines(f).leftToBottomRight.end.x)
      && !(Lines(f).rightToBottomLeft.end.x <= x <= XRight(f))
      && !(Lines(f).leftToBottomRight.end.x < x < Lines(f).rightToBottomLeft.end.x)
  {
    var leftEnd := Lines(f).leftToBottomRight.end.x;
    var rightEnd := Lines(f).rightToBottomLeft.end.x;
    if XLeft(f) <= x <= leftEnd then LeftWall
    else if rightEnd <= x <= XRight(f) then RightWall
    else if leftEnd < x < rightEnd then Neck
    else Outside
  }

  /**
   * A funnel is well shaped when its neck lies between its side walls:
   * `x_left <= centre - d` and `centre + d <= x_right`, with `d >= 0`.
   */
  predicate WellShaped(f: Funnel) {
    && f.pointRadius >= 0.0
    && XLeft(f) <= Centre(f) - PointDiameter(f)
    && Centre(f) + PointDiameter(f) <= XRight(f)
  }

  /** In a well-shaped funnel a dot is outside exactly when it is beyond a side wall. */
  lemma OutsideMeansBeyondTheWalls(f: Funnel, x: real)
    requires WellShaped(f)
    ensures Classify(f, x) == Outside <==> x < XLeft(f) || XRight(f) < x
  {
  }

  /**
   * The height of the wall `s` at `x`, by linear interpolation between its
   * endpoints; a wall with no horizontal extent is read at its start.
   */
  function WallY(s: Segment, x: real): (y: real)
    ensures s.start.x == s.end.x ==> y == s.start.y
    ensures s.start.x != s.end.x ==> (y - s.start.y) * (s.end.x - s.start.x) == (x - s.start.x) * (s.end.y - s.start.y)
  {
    if s.start.x == s.end.x then s.start.y
    else
      var t := (x - s.start.x) / (s.end.x - s.start.x);
      assert t * (s.end.x - s.start.x) == x - s.start.x;
      assert (t * (s.end.y - s.start.y)) * (s.end.x - s.start.x) == (t * (s.end.x - s.start.x)) * (s.end.y - s.start.y);
      s.start.y + t * (s.end.y - s.start.y)
  }

  lemma FractionInUnit(a: real, b: real)
    requires 0.0 < b && 0.0 <= a <= b
    ensures 0.0 <= a / b <= 1.0
  {
  }

  lemma ScaleBetween(t: real, d: real)
    requires 0.0 <= t <= 1.0
    ensures d >= 0.0 ==> 0.0 <= t * d <= d
    ensures d < 0.0 ==> d <= t * d <= 0.0
  {
  }

  /**
   * Interpolation reproduces the endpoints and, between them, stays
   * between their heights.
   */
  lemma WallYBetween(s: Segment, x: real)
    requires s.start.x <= x <= s.end.x || s.end.x <= x <= s.start.x
    ensures x == s.start.x ==> WallY(s, x) == s.start.y
    ensures x == s.end.x && s.start.x != s.end.x ==> WallY(s, x) == s.end.y
    ensures (s.start.y <= WallY(s, x) <= s.end.y) || (s.end.y <= WallY(s, x) <= s.start.y)
  {
    if s.start.x != s.end.x {
      var t := (x - s.start.x) / (s.end.x - s.start.x);
      if s.start.x < s.end.x {
        FractionInUnit(x - s.start.x, s.end.x - s.start.x);
      } else {
        assert t == (s.start.x - x) / (s.start.x - s.end.x);
        FractionInUnit(s.start.x - x, s.start.x - s.end.x);
      }
      var d := s.end.y - s.start.y;
      ScaleBetween(t, d);
      assert WallY(s, x) == s.start.y + t * d;
      if d >= 0.0 {
        assert s.start.y <= WallY(s, x) <= s.end.y;
      } else {
        assert s.end.y <= WallY(s, x) <= s.start.y;
      }
      if x == s.end.x {
        assert t == 1.0;
      }
    }
  }

  /** The (up to) three points a falling dot is moved through. */
  datatype Waypoints = Waypoints(first: Option<Point>, second: Option<Point>, third: Option<Point>)

  /**
   * `_get_next_dots_coords` on a value: the waypoints for `dot` and the
   * stack height afterwards, from the stack height `y`. An outside dot
   * gets no waypoints and leaves the stack alone; a dot over the neck
   * falls straight onto the stack; a dot over a wall first lands on the
   * wall, then goes to the neck.
   */
  function Fall(f: Funnel, y: real, dot: HistogramDot): (r: (Waypoints, real))
    ensures r.0.third.None? <==> Classify(f, dot.centre.x) == Outside
    ensures r.0.third.None? ==> r.0.first.None? && r.0.second.None? && r.1 == y
    ensures r.0.third.Some? ==>
      && r.0.third.value == Flat(Centre(f), y)
      && r.1 == y + dot.radius + FunnelDotPadding
    ensures Classify(f, dot.centre.x) == Neck ==> r.0.first.None? && r.0.second.None?
    ensures Classify(f, dot.centre.x) in {LeftWall, RightWall} ==>
      var wall := if Classify(f, dot.centre.x) == LeftWall then Lines(f).leftToBottomRight else Lines(f).rightToBottomLeft;
      && r.0.first == Some(Flat(dot.centre.x, WallY(wall, dot.centre.x) + WallLift))
      && r.0.second == Some(Flat(Centre(f), YTop(f) - NeckDrop + NeckLift))
  {
    var x := dot.centre.x;
    var region := Classify(f, x);
    if region == Outside then (Waypoints(None, None, None), y)
    else
      var o := Lines(f);
      var wall := if region == LeftWall then o.leftToBottomRight else o.rightToBottomLeft;
      var first := if region == Neck then None else Some(Flat(x, WallY(wall, x) + WallLift));
      var second := if region == Neck then None else Some(Flat(Centre(f), o.leftToBottomRight.end.y + NeckLift));
      (Waypoints(first, second, Some(Flat(Centre(f), y))), y + dot.radius + FunnelDotPadding)
  }

  /**
   * In a well-shaped funnel a dot over a wall first lands within a quarter
   * unit above that wall: between the wall's two heights, lifted by 0.25.
   */
  lemma FirstWaypointOnTheWall(f: Funnel, y: real, dot: HistogramDot)
    requires WellShaped(f)
    requires Classify(f, dot.centre.x) in {LeftWall, RightWall}
    ensures var p := Fall(f, y, dot).0.first.value;
      && p.x == dot.centre.x
      && YTop(f) - NeckDrop + WallLift <= p.y <= YTop(f) + WallLift
  {
    var o := Lines(f);
    if Classify(f, dot.centre.x) == LeftWall {
      WallYBetween(o.leftToBottomRight, dot.centre.x);
    } else {
      WallYBetween(o.rightToBottomLeft, dot.centre.x);
    }
  }

  /**
   * Dropping `dots[i..]` one after another from stack height `y`, with the
   * waypoints found so far: the waypoints of every dot and the final height.
   */
  function FallFrom(f: Funnel, y: real, paths: seq<Waypoints>, dots: seq<HistogramDot>, i: nat): (r: (seq<Waypoints>, real))
    requires i <= |dots|
    ensures |r.0| == |paths| + |dots| - i
    decreases |dots| - i
  {
    if i == |dots| then (paths, y)
    else
      var (w, next) := Fall(f, y, dots[i]);
      FallFrom(f, next, paths + [w], dots, i + 1)
  }

  /** Dropping all of `dots`, in order, from stack height `y`. */
  function Falls(f: Funnel, y: real, dots: seq<HistogramDot>): (r: (seq<Waypoints>, real))
    ensures |r.0| == |dots|
  {
    FallFrom(f, y, [], dots, 0)
  }

  /** How far the dots among `dots` that are not outside raise the stack. */
  function Rise(f: Funnel, dots: seq<HistogramDot>): real
    decreases |dots|
  {
    if dots == [] then 0.0
    else
      var last := dots[|dots| - 1];
      Rise(f, dots[..|dots| - 1]) + (if Classify(f, last.centre.x) == Outside then 0.0 else last.radius + FunnelDotPadding)
  }

  /** The state after the first `i` dots of a fall that started at height `y0`. */
  ghost predicate FallenUpTo(f: Funnel, y0: real, dots: seq<HistogramDot>, i: nat, y: real, paths: seq<Waypoints>)
    requires i <= |dots|
  {
    && y == y0 + Rise(f, dots[..i])
    && |paths| == i
    && forall k :: 0 <= k < i ==> paths[k] == PathAt(f, y0, dots, k)
  }

  /** The waypoints of `dots[k]` when the dots before it have fallen from `y0`. */
  function PathAt(f: Funnel, y0: real, dots: seq<HistogramDot>, k: nat): Waypoints
    requires k < |dots|
  {
    Fall(f, y0 + Rise(f, dots[..k]), dots[k]).0
  }

  lemma {:induction false} FallFromStacks(f: Funnel, y0: real, dots: seq<HistogramDot>, i: nat, y: real, paths: seq<Waypoints>)
    requires i <= |dots| && FallenUpTo(f, y0, dots, i, y, paths)
    ensures var r := FallFrom(f, y, paths, dots, i);
      FallenUpTo(f, y0, dots, |dots|, r.1, r.0)
    decreases |dots| - i
  {
    if i < |dots| {
      var (w, next) := Fall(f, y, dots[i]);
      assert dots[..i + 1][..i] == dots[..i];
      assert w == PathAt(f, y0, dots, i);
      assert FallenUpTo(f, y0, dots, i + 1, next, paths + [w]);
      FallFromStacks(f, y0, dots, i + 1, next, paths + [w]);
    }
  }

  /** Where `PathAt` puts a dot: nowhere when it is outside, otherwise on the stack at the centre. */
  lemma PathAtLands(f: Funnel, y0: real, dots: seq<HistogramDot>, k: nat)
    requires k < |dots|
    ensures PathAt(f, y0, dots, k).third.None? <==> Classify(f, dots[k].centre.x) == Outside
    ensures Classify(f, dots[k].centre.x) != Outside ==>
      PathAt(f, y0, dots, k).third == Some(Flat(Centre(f), y0 + Rise(f, dots[..k])))
  {
  }

  /** Dropping all the dots raises the stack by exactly their `Rise`. */
  lemma FallsRise(f: Funnel, y0: real, dots: seq<HistogramDot>)
    ensures Falls(f, y0, dots).1 == y0 + Rise(f, dots)
  {
    assert dots[..0] == [];
    FallFromStacks(f, y0, dots, 0, y0, []);
    assert dots[..|dots|] == dots;
  }

  /**
   * Dropping dots into a funnel: a dot is skipped exactly when it is
   * outside; every other dot lands at the centre, on top of the dots
   * before it that were not outside.
   */
  lemma FallsStack(f: Funnel, y0: real, dots: seq<HistogramDot>)
    ensures forall i :: 0 <= i < |dots| ==>
      (Falls(f, y0, dots).0[i].third.None? <==> Classify(f, dots[i].centre.x) == Outside)
    ensures forall i :: 0 <= i < |dots| && Classify(f, dots[i].centre.x) != Outside ==>
      Falls(f, y0, dots).0[i].third == Some(Flat(Centre(f), y0 + Rise(f, dots[..i])))
  {
    assert dots[..0] == [];
    FallFromStacks(f, y0, dots, 0, y0, []);
    var paths := Falls(f, y0, dots).0;
    forall i | 0 <= i < |dots|
      ensures paths[i].third.None? <==> Classify(f, dots[i].centre.x) == Outside
      ensures Classify(f, dots[i].centre.x) != Outside ==>
        paths[i].third == Some(Flat(Centre(f), y0 + Rise(f, dots[..i])))
    {
      PathAtLands(f, y0, dots, i);
    }
  }

  /** The stack never sinks: a longer prefix has raised it at least as far. */
  lemma {:induction false} RiseGrows(f: Funnel, dots: seq<HistogramDot>, i: nat, j: nat)
    requires i <= j <= |dots|
    requires forall k :: 0 <= k < |dots| ==> dots[k].radius >= 0.0
    ensures Rise(f, dots[..j]) >= Rise(f, dots[..i])
    decreases j - i
  {
    if i < j {
      RiseGrows(f, dots, i, j - 1);
      assert dots[..j][..j - 1] == dots[..j - 1];
    }
  }

  /** Two dots that fall in never land on the same spot: the later one sits higher by at least the earlier one's radius plus the padding. */
  lemma FallenDotsApart(f: Funnel, y0: real, dots: seq<HistogramDot>, i: int, j: int)
    requires forall k :: 0 <= k < |dots| ==> dots[k].radius >= 0.0
    requires 0 <= i < j < |dots|
    requires Classify(f, dots[i].centre.x) != Outside && Classify(f, dots[j].centre.x) != Outside
    ensures var t := Falls(f, y0, dots).0;
      && t[i].third.Some? && t[j].third.Some?
      && t[j].third.value.x == t[i].third.value.x
      && t[j].third.value.y >= t[i].third.value.y + dots[i].radius + FunnelDotPadding
  {
    FallsStack(f, y0, dots);
    RiseGrows(f, dots, i + 1, j);
    assert dots[..i + 1][..i] == dots[..i];
  }

  /** How many of `paths` end on the stack. */
  function Inside(paths: seq<Waypoints>): (n: nat)
    ensures n <= |paths|
    decreases |paths|
  {
    if paths == [] then 0
    else Inside(paths[..|paths| - 1]) + (if paths[|paths| - 1].third.Some? then 1 else 0)
  }

  lemma InsideOneMore(paths: seq<Waypoints>, w: Waypoints)
    ensures Inside(paths + [w]) == Inside(paths) + (if w.third.Some? then 1 else 0)
  {
    assert (paths + [w])[..|paths|] == paths;
  }

  /** `dots` with those among the first `n` that have a third waypoint moved there. */
  function Landed(dots: seq<HistogramDot>, paths: seq<Waypoints>, n: int): (moved: seq<HistogramDot>)
    ensures |moved| == |dots|
  {
    seq(|dots|, k requires 0 <= k < |dots| =>
      if k < n && k < |paths| && paths[k].third.Some? then MoveTo(dots[k], paths[k].third.value) else dots[k])
  }

  /** A dot with a third waypoint ends up there; every other dot is left where it was. */
  lemma LandedMeaning(dots: seq<HistogramDot>, paths: seq<Waypoints>, n: int, k: int)
    requires 0 <= k < |dots|
    ensures k < n && k < |paths| && paths[k].third.Some? ==> Landed(dots, paths, n)[k].centre == paths[k].third.value
    ensures !(k < n && k < |paths| && paths[k].third.Some?) ==> Landed(dots, paths, n)[k] == dots[k]
    ensures Landed(dots, paths, n)[k].(centre := dots[k].centre) == dots[k]
  {
  }

  lemma LandedOneMore(dots: seq<HistogramDot>, paths: seq<Waypoints>, w: Waypoints)
    requires |paths| < |dots|
    ensures w.third.Some? ==>
      Landed(dots, paths + [w], |paths| + 1) == Landed(dots, paths, |paths|)[|paths| := MoveTo(dots[|paths|], w.third.value)]
    ensures w.third.None? ==> Landed(dots, paths + [w], |paths| + 1) == Landed(dots, paths, |paths|)
  {
  }

  lemma LandedKeepsPrefix(dots: seq<HistogramDot>, paths: seq<Waypoints>, more: seq<Waypoints>, n: int)
    requires n <= |paths| <= |more| && paths == more[..|paths|]
    ensures Landed(dots, more, n) == Landed(dots, paths, n)
  {
  }

  /** `animate_slow` after clamping to the number of dots. */
  function Clamp(animateSlow: int, n: nat): int {
    if animateSlow > n then n else animateSlow
  }

  class MovableFunnel {
    const shape: Funnel
    /** `run_time`; it only paces the animation. */
    const runTime: real
    /** `_next_dots_coords["y"]`: the height the next dot lands at. */
    var nextY: real
    /** `animated_slowly`: `None` until the first `drag_in_dots`. */
    var animatedSlowly: Option<int>

    /** A movable funnel over an outline whose corners have been validated; the stack starts two bottom shifts above the bottom. */
    constructor Build(shape: Funnel, runTime: real)
      ensures this.shape == shape && this.runTime == runTime
      ensures nextY == YBottom(shape) + BottomShift * 2.0
      ensures animatedSlowly.None?
    {
      this.shape := shape;
      this.runTime := runTime;
      nextY := YBottom(shape) + BottomShift * 2.0;
      animatedSlowly := None;
    }

    /**
     * `MovableFunnel(start_end_points, run_time, height, point_radius, ...)`:
     * `Funnel.__init__` validates the corners and may raise; otherwise the
     * funnel is built over them with its stack at the start height.
     */
    static method New(first: CoordsValue, second: CoordsValue, runTime: real, height: real, pointRadius: real,
                      annot: bool, annotText: string)
      returns (r: Result<MovableFunnel, ShapePointError>)
      ensures r.Err? <==> NewFunnel(first, second, height, pointRadius, annot, annotText).Err?
      ensures r.Err? ==> r.error == NewFunnel(first, second, height, pointRadius, annot, annotText).error
      ensures r.Ok? ==>
        && fresh(r.value)
        && r.value.shape == NewFunnel(first, second, height, pointRadius, annot, annotText).value
        && r.value.runTime == runTime
        && r.value.nextY == YBottom(r.value.shape) + BottomShift * 2.0
        && r.value.animatedSlowly.None?
    {
      var shape := NewFunnel(first, second, height, pointRadius, annot, annotText);
      if shape.Err? {
        return Err(shape.error);
      }
      var f := new MovableFunnel.Build(shape.value, runTime);
      r := Ok(f);
    }

    /** `_get_next_dots_coords`: the waypoints for `dot`; the stack rises unless the dot is outside. */
    method GetNextDotsCoords(dot: HistogramDot) returns (w: Waypoints)
      modifies this
      ensures (w, nextY) == Fall(shape, old(nextY), dot)
    {
      var current := nextY;
      var o := Lines(shape);
      var xLeftEnd := o.leftToBottomRight.end.x;
      var xRightEnd := o.rightToBottomLeft.end.x;
      var neckY := o.leftToBottomRight.end.y + NeckLift;
      var x := dot.centre.x;
      var first: Option<Point> := None;
      var second: Option<Point> := None;
      var line: Option<Segment>;
      if XLeft(shape) <= x <= xLeftEnd {
        line := Some(o.leftToBottomRight);
      } else if xRightEnd <= x <= XRight(shape) {
        line := Some(o.rightToBottomLeft);
      } else if xLeftEnd < x < xRightEnd {
        line := None;
      } else {
        return Waypoints(None, None, None);
      }
      if line.Some? {
        first := Some(Flat(x, WallY(line.value, x) + WallLift));
        second := Some(Flat(Centre(shape), neckY));
      }
      var third := Flat(Centre(shape), current);
      nextY := current + dot.radius + FunnelDotPadding;
      w := Waypoints(first, second, Some(third));
    }

    /**
     * `drag_in_dots`: `animate_slow` is clamped to the number of dots; the
     * slow prefix (a Python slice, so a negative bound counts from the
     * end) is moved through all its waypoints and counted, skipping dots
     * that are outside; the rest are moved onto the stack as copies, which
     * replace the originals only with `animate_rest`. Every dot that is
     * not outside takes a slot on the stack either way.
     */
    method DragInDots(dots: seq<HistogramDot>, animateSlow: int, animateRest: bool)
      returns (moved: seq<HistogramDot>, paths: seq<Waypoints>)
      modifies this
      ensures var s := SliceLength(|dots|, Clamp(animateSlow, |dots|));
        && (paths, nextY) == Falls(shape, old(nextY), dots)
        && animatedSlowly == Some(Inside(paths[..s]))
        && moved == Landed(dots, paths, if animateRest then |dots| else s)
      ensures animatedSlowly.Some? && 0 <= animatedSlowly.value <= SliceLength(|dots|, Clamp(animateSlow, |dots|))
      ensures animateSlow >= 0 ==> animatedSlowly.Some? && animatedSlowly.value <= animateSlow
    {
      var k := animateSlow;
      if k > |dots| {
        k := |dots|;
      }
      var s := SliceLength(|dots|, k);
      ghost var y0 := nextY;
      var count := 0;
      paths := [];
      moved := dots;
      var i := 0;
      while i < s
        invariant 0 <= i <= s
        invariant FallFrom(shape, nextY, paths, dots, i) == Falls(shape, y0, dots)
        invariant |paths| == i && count == Inside(paths)
        invariant moved == Landed(dots, paths, i)
      {
        var w := GetNextDotsCoords(dots[i]);
        InsideOneMore(paths, w);
        LandedOneMore(dots, paths, w);
        paths := paths + [w];
        if !(w.first.None? && w.second.None? && w.third.None?) {
          var d := dots[i];
          if w.first.Some? {
            d := MoveTo(d, w.first.value);
            d := MoveTo(d, w.second.value);
          }
          d := MoveTo(d, w.third.value);
          moved := moved[i := d];
          count := count + 1;
        }
        i := i + 1;
      }
      var rest: seq<HistogramDot>;
      ghost var slow := paths;
      paths, rest := DragRest(dots, s, y0, paths, moved);
      LandedKeepsPrefix(dots, slow, paths, s);
      if s < |dots| && animateRest {
        moved := rest;
      }
      animatedSlowly := Some(count);
    }

    /**
     * The second half of `drag_in_dots`: every dot from `from` on is moved
     * onto the stack as a copy, unless it is outside.
     */
    method DragRest(dots: seq<HistogramDot>, from: nat, ghost y0: real, paths0: seq<Waypoints>, rest0: seq<HistogramDot>)
      returns (paths: seq<Waypoints>, rest: seq<HistogramDot>)
      modifies this
      requires from <= |dots| && |paths0| == from
      requires FallFrom(shape, nextY, paths0, dots, from) == Falls(shape, y0, dots)
      requires rest0 == Landed(dots, paths0, from)
      ensures (paths, nextY) == Falls(shape, y0, dots)
      ensures paths0 == paths[..from]
      ensures rest == Landed(dots, paths, |dots|)
    {
      paths := paths0;
      rest := rest0;
      var i := from;
      while i < |dots|
        invariant from <= i <= |dots| && |paths| == i
        invariant FallFrom(shape, nextY, paths, dots, i) == Falls(shape, y0, dots)
        invariant paths0 == paths[..from]
        invariant rest == Landed(dots, paths, i)
      {
        var w := GetNextDotsCoords(dots[i]);
        LandedOneMore(dots, paths, w);
        assert (paths + [w])[..from] == paths[..from];
        paths := paths + [w];
        if w.third.Some? {
          rest := rest[i := MoveTo(dots[i], w.third.value)];
        }
        i := i + 1;
      }
    }
  }
}
