/**
 * `Funnels`: a row of equally wide funnels side by side, each annotated
 * with the range of bins it collects, and the drop of one sorted set of
 * dots through all of them. The list of funnels is a class attribute in
 * the source, so it is shared by every row ever built: it is modelled as
 * one `FunnelList` object that every row refers to.
 */
module FunnelRows {
  import opened Wrappers
  import opened Numbers
  import opened Geometry
  import opened ShapePoints
  import opened HistogramDots
  import opened FunnelGeometry
  import opened MovableFunnels

  /** The character between the two bounds of an annotation. */
  const EnDash: char := '–'

  /** Why building a row raises: a bad corner, `count == 0`, or a `range` step of zero. */
  datatype FunnelsError = BadCorner(cause: ShapePointError) | ZeroDivision | RangeStepZero

  /** `annot_step = int(bins / count)`. */
  function AnnotStep(bins: Number, count: int): (s: int)
    requires count != 0
    ensures var q := bins.AsReal() / count as real;
      && Abs(s as real) <= Abs(q) < Abs(s as real) + 1.0
      && (s > 0 ==> q > 0.0) && (s < 0 ==> q < 0.0)
  {
    Trunc(bins.AsReal() / count as real)
  }

  /** `range(0, int(bins) + annot_step, annot_step)`: the bin boundaries of the annotations. */
  function AnnotBins(bins: Number, step: int): (r: seq<int>)
    requires step != 0
    ensures forall k :: 0 <= k < |r| ==> r[k] == k * step
  {
    Range(0, bins.ToInt() + step, step)
  }

  /** One text per pair of consecutive boundaries `x`, `y`: `"{x+1}–{y}"`. */
  function AnnotTexts(edges: seq<int>): (t: seq<string>)
    ensures |t| == if edges == [] then 0 else |edges| - 1
  {
    if edges == [] then []
    else
      seq(|edges| - 1, k requires 0 <= k < |edges| - 1 =>
        IntToString(edges[k] + 1) + [EnDash] + IntToString(edges[k + 1]))
  }

  /**
   * While `k * step` falls short of `int(bins)`, there is a `k`-th
   * annotation, and it names the bins `k * step + 1` to `(k + 1) * step`.
   */
  lemma AnnotNamesItsBins(bins: Number, step: int, k: nat)
    requires step > 0 ==> k * step < bins.ToInt()
    requires step < 0 ==> k * step > bins.ToInt()
    requires step != 0
    ensures k < |AnnotTexts(AnnotBins(bins, step))|
    ensures AnnotTexts(AnnotBins(bins, step))[k] == IntToString(k * step + 1) + [EnDash] + IntToString((k + 1) * step)
  {
    assert (k + 1) * step == k * step + step;
    RangeLongEnough(0, bins.ToInt() + step, step, k + 1);
    var edges := AnnotBins(bins, step);
    var lo, hi := edges[k], edges[k + 1];
    assert lo == k * step && hi == (k + 1) * step;
    assert AnnotTexts(edges)[k] == IntToString(lo + 1) + [EnDash] + IntToString(hi);
  }

  /** `int(bins)` is the truncation of the number's value, whatever its type. */
  lemma ToIntIsTrunc(n: Number)
    ensures n.ToInt() == Trunc(n.AsReal())
  {
  }

  /** An integer at most `r` is at most `int(r)`, for `r >= 0`; at least `r` is at least `int(r)`, for `r < 0`. */
  lemma TruncBounds(n: int, r: real)
    ensures 0.0 <= r && n as real <= r ==> n <= Trunc(r)
    ensures r < 0.0 && r <= n as real ==> Trunc(r) <= n
  {
  }

  lemma CastMul(a: int, b: int)
    ensures (a * b) as real == (a as real) * (b as real)
  {
  }

  /** Multiplying both sides of `a <= b` by a positive `c`. */
  lemma ScaleLe(c: real, a: real, b: real)
    requires c > 0.0 && a <= b
    ensures c * a <= c * b
  {
  }

  lemma DivThenMul(b: real, c: real)
    requires c != 0.0
    ensures c * (b / c) == b
  {
  }

  /** `count * step` does not overshoot `bins`: truncating the quotient moves it toward zero. */
  lemma StepTimesCount(bins: Number, count: int)
    requires count > 0
    ensures var s := AnnotStep(bins, count);
      && (s > 0 ==> count * s <= bins.ToInt())
      && (s < 0 ==> count * s >= bins.ToInt())
  {
    var b := bins.AsReal();
    var c := count as real;
    var q := b / c;
    var s := AnnotStep(bins, count);
    DivThenMul(b, c);
    ToIntIsTrunc(bins);
    CastMul(count, s);
    if s > 0 {
      assert q >= 0.0 && s as real <= q;
      ScaleLe(c, s as real, q);
      TruncBounds(count * s, b);
    } else if s < 0 {
      assert q < 0.0 && q <= s as real;
      ScaleLe(c, q, s as real);
      TruncBounds(count * s, b);
    }
  }

  /**
   * There is an annotation for every funnel, whichever the signs of `bins`
   * and `count`, so `annots[i]` in the loop never raises.
   */
  lemma EnoughAnnots(bins: Number, count: int)
    requires count > 0 && AnnotStep(bins, count) != 0
    ensures |AnnotTexts(AnnotBins(bins, AnnotStep(bins, count)))| >= count
  {
    var s := AnnotStep(bins, count);
    var b := bins.ToInt();
    StepTimesCount(bins, count);
    assert count * s == (count - 1) * s + s;
    RangeLongEnough(0, b + s, s, count);
  }

  /** `int(q)` is zero exactly on the open interval `(-1, 1)`. */
  lemma TruncZero(q: real)
    ensures Trunc(q) == 0 <==> -1.0 < q < 1.0
  {
  }

  /** Multiplying both sides of `a < b` by a positive `c`. */
  lemma ScaleLt(c: real, a: real, b: real)
    requires c > 0.0 && a < b
    ensures c * a < c * b
  {
  }

  /** For a positive `c`, `q` is below one exactly when `c * q` is below `c`, and above minus one exactly when `c * q` is above `-c`. */
  lemma UnitScaled(c: real, q: real)
    requires c > 0.0
    ensures q < 1.0 <==> c * q < c
    ensures -1.0 < q <==> -c < c * q
  {
    if q < 1.0 { ScaleLt(c, q, 1.0); } else { ScaleLe(c, 1.0, q); }
    if -1.0 < q { ScaleLt(c, -1.0, q); } else { ScaleLe(c, q, -1.0); }
  }

  /** Where `b / c` lies against `-1` and `1`, read off `b` and `c`. */
  lemma QuotientInUnit(b: real, c: real)
    requires c != 0.0
    ensures -1.0 < b / c < 1.0 <==> Abs(b) < Abs(c)
  {
    var q := b / c;
    var m := Abs(c);
    var p := if c > 0.0 then q else -q;
    assert m * p == b;
    UnitScaled(m, p);
    assert (-1.0 < q < 1.0) == (-1.0 < p < 1.0);
    assert Abs(b) < m <==> -m < b < m;
  }

  /** The step is zero, and `range` raises, exactly when there are fewer bins than funnels. */
  lemma RangeStepZeroIff(bins: Number, count: int)
    requires count != 0
    ensures AnnotStep(bins, count) == 0 <==> Abs(bins.AsReal()) < Abs(count as real)
  {
    TruncZero(bins.AsReal() / count as real);
    QuotientInUnit(bins.AsReal(), count as real);
  }

  /** `abs((right_x - left_x) / count)`: the width of every funnel. */
  function Step(left: Point, right: Point, count: int): (s: real)
    requires count != 0
    ensures s >= 0.0 && s * Abs(count as real) == Abs(right.x - left.x)
  {
    var c := count as real;
    var d := right.x - left.x;
    DivThenMul(d, c);
    assert Abs(d / c) * Abs(c) == Abs(d / c * c);
    Abs(d / c)
  }

  /** The top corners of the `i`-th funnel of the row. */
  function SpanOf(left: Point, step: real, i: int): EndPoints {
    EndPoints(XY(left.x + i as real * step, left.y), XY(left.x + (i + 1) as real * step, left.y))
  }

  /** The span after span `i` starts where it ends and is one step wide. */
  lemma SpanNext(left: Point, step: real, i: int)
    ensures var span := SpanOf(left, step, i);
      SpanOf(left, step, i + 1) == EndPoints(span.second, XY(span.second.x + step, left.y))
  {
    StepForward(left.x, i + 1, step);
  }

  /** The funnels of a row are equally wide, share their top height, and each starts where the previous one ends. */
  lemma SpansAdjoin(left: Point, step: real, i: int)
    ensures SpanOf(left, step, i).second == SpanOf(left, step, i + 1).first
    ensures SpanOf(left, step, i).second.x - SpanOf(left, step, i).first.x == step
    ensures SpanOf(left, step, i).first.y == SpanOf(left, step, i).second.y == left.y
  {
  }

  /** With the right corner to the right of the left one, the last funnel ends at the right corner. */
  lemma RowEndsAtRightCorner(left: Point, right: Point, count: int)
    requires count > 0 && left.x <= right.x
    ensures SpanOf(left, Step(left, right, count), count - 1).second.x == right.x
  {
    var c := count as real;
    var w := (right.x - left.x) / c;
    assert c * w == right.x - left.x;
    assert w >= 0.0;
  }

  /**
   * The corner handed to a funnel, as plain floats: `ShapePoint` accepts
   * it and stores exactly that point.
   */
  function FloatCorner(p: XY): CoordsValue {
    Tuple([Num(Float(p.x)), Num(Float(p.y))])
  }

  lemma FloatCornerAccepted(p: XY)
    ensures Validate(FloatCorner(p)) == Ok(Flat(p.x, p.y))
  {
  }

  /** The funnel over `span` with the given dimensions and label. */
  function FloatFunnel(span: EndPoints, height: real, pointRadius: real, annot: bool, text: string): Funnel {
    Funnel(Flat(span.first.x, span.first.y), Flat(span.second.x, span.second.y), height, pointRadius, annot, text)
  }

  /** `Funnel` over plain float corners raises nothing and builds `FloatFunnel`. */
  lemma FloatCornersBuild(span: EndPoints, height: real, pointRadius: real, annot: bool, text: string)
    ensures NewFunnel(FloatCorner(span.first), FloatCorner(span.second), height, pointRadius, annot, text)
      == Ok(FloatFunnel(span, height, pointRadius, annot, text))
  {
    FloatCornerAccepted(span.first);
    FloatCornerAccepted(span.second);
  }

  /**
   * numpy stores a validated point `array([x, y, 0])` with an integer dtype
   * exactly when both coordinates are Python `int`s.
   */
  predicate IntArray(value: CoordsValue): (r: bool)
    requires Validate(value).Ok?
    ensures r ==>
      && value.items[0].n.Int? && value.items[1].n.Int?
      && Validate(value).value == Flat(value.items[0].n.i as real, value.items[1].n.i as real)
  {
    value.items[0].n.Int? && value.items[1].n.Int?
  }

  /**
   * A coordinate read back from a stored point: an `np.int64` from an
   * integer array, which is not an `int`, otherwise an `np.float64`, which
   * is a `float`.
   */
  function ReadBack(intArray: bool, x: real): (r: Scalar)
    ensures r.Num? <==> !intArray
    ensures r.Num? ==> r.n.AsReal() == x
  {
    if intArray then NotNumber else Num(Float(x))
  }

  /**
   * The corners the constructor's loop hands to funnel `i` as written:
   * `y_point`, and for the first funnel `x_start_point`, are read back
   * from the left corner; every other x is a sum with the float `step`.
   */
  function SourceCorners(first: CoordsValue, step: real, i: nat): (r: (CoordsValue, CoordsValue))
    requires Validate(first).Ok?
    ensures Validate(r.0).Ok? <==> !IntArray(first)
    ensures Validate(r.1).Ok? <==> !IntArray(first)
    ensures var span := SpanOf(Validate(first).value, step, i);
      !IntArray(first) ==> Validate(r.0).value == Flat(span.first.x, span.first.y) && Validate(r.1).value == Flat(span.second.x, span.second.y)
  {
    var ints := IntArray(first);
    var span := SpanOf(Validate(first).value, step, i);
    (Tuple([if i == 0 then ReadBack(ints, span.first.x) else Num(Float(span.first.x)), ReadBack(ints, span.first.y)]),
     Tuple([Num(Float(span.second.x)), ReadBack(ints, span.second.y)]))
  }

  /** As written, an all-`int` left corner makes every funnel of the row reject its own left corner. */
  lemma IntCornerRejected(first: CoordsValue, step: real, i: nat)
    requires Validate(first).Ok? && IntArray(first)
    ensures Validate(SourceCorners(first, step, i).0) == Err(ShapePointTypeError(CoordNotNumber(if i == 0 then 0 else 1)))
  {
  }

  /** Any other left corner reaches the funnels as the plain floats of `FloatCorner`. */
  lemma OtherCornersAsFloats(first: CoordsValue, step: real, i: nat)
    requires Validate(first).Ok? && !IntArray(first)
    ensures var span := SpanOf(Validate(first).value, step, i);
      SourceCorners(first, step, i) == (FloatCorner(span.first), FloatCorner(span.second))
  {
  }

  /** `Funnels(((-6, 2), (6, 2)), MovableFunnel, 2, 10, run_time=1, height=3, point_radius=0.2)`: every check passes, yet as written the first funnel raises. */
  lemma IntCornerExample()
    ensures var first := Tuple([Num(Int(-6)), Num(Int(2))]);
      var second := Tuple([Num(Int(6)), Num(Int(2))]);
      && CreateError(first, second, 2, Int(10)).None?
      && Validate(SourceCorners(first, Step(Flat(-6.0, 2.0), Flat(6.0, 2.0), 2), 0).0).Err?
  {
    var first := Tuple([Num(Int(-6)), Num(Int(2))]);
    var second := Tuple([Num(Int(6)), Num(Int(2))]);
    assert Validate(first) == Ok(Flat(-6.0, 2.0));
    assert Validate(second) == Ok(Flat(6.0, 2.0));
    assert AnnotStep(Int(10), 2) == 5;
    IntCornerRejected(first, Step(Flat(-6.0, 2.0), Flat(6.0, 2.0), 2), 0);
  }

  /** The errors of the constructor, in the order it meets them. */
  function CreateError(first: CoordsValue, second: CoordsValue, count: int, bins: Number): (r: Option<FunnelsError>)
    ensures ValidateBoth(first, second).Err? ==> r == Some(BadCorner(ValidateBoth(first, second).error))
    ensures ValidateBoth(first, second).Ok? ==> (r == Some(ZeroDivision) <==> count == 0)
    ensures ValidateBoth(first, second).Ok? && count != 0 ==>
      (r == Some(RangeStepZero) <==> Abs(bins.AsReal()) < Abs(count as real))
  {
    if Validate(first).Err? then Some(BadCorner(Validate(first).error))
    else if Validate(second).Err? then Some(BadCorner(Validate(second).error))
    else if count == 0 then Some(ZeroDivision)
    else
      RangeStepZeroIff(bins, count);
      if AnnotStep(bins, count) == 0 then Some(RangeStepZero)
      else None
  }

  /** A building row fails exactly on a bad corner, no funnels, or fewer bins than funnels. */
  lemma CreateErrorCases(first: CoordsValue, second: CoordsValue, count: int, bins: Number)
    requires Validate(first).Ok? && Validate(second).Ok?
    ensures CreateError(first, second, count, bins).None? <==> count != 0 && Abs(bins.AsReal()) >= Abs(count as real)
  {
    if count != 0 {
      RangeStepZeroIff(bins, count);
    }
  }

  /** Python's `sorted(dots, key=lambda x: x.value)` compares the values numerically. */
  function SortKey(d: HistogramDot): real {
    d.value.AsReal()
  }

  /** `d` put before the first element of `t` whose key is not smaller. */
  function Insert(d: HistogramDot, t: seq<HistogramDot>): (r: seq<HistogramDot>)
    ensures multiset(r) == multiset(t) + multiset{d}
  {
    if t == [] || SortKey(d) <= SortKey(t[0]) then [d] + t
    else
      assert t == [t[0]] + t[1..];
      [t[0]] + Insert(d, t[1..])
  }

  /** `sorted(dots, key=value)`, as a stable insertion sort. */
  function SortByValue(dots: seq<HistogramDot>): (r: seq<HistogramDot>)
    ensures multiset(r) == multiset(dots)
  {
    if dots == [] then []
    else
      assert dots == [dots[0]] + dots[1..];
      Insert(dots[0], SortByValue(dots[1..]))
  }

  predicate SortedByValue(s: seq<HistogramDot>) {
    forall i, j :: 0 <= i < j < |s| ==> SortKey(s[i]) <= SortKey(s[j])
  }

  /** Every dot of `s` has a value of at least `m`. */
  predicate AtLeast(s: seq<HistogramDot>, m: real) {
    forall i :: 0 <= i < |s| ==> m <= SortKey(s[i])
  }

  lemma {:induction false} InsertAtLeast(d: HistogramDot, t: seq<HistogramDot>, m: real)
    requires AtLeast(t, m) && m <= SortKey(d)
    ensures AtLeast(Insert(d, t), m)
  {
    if t != [] && SortKey(d) > SortKey(t[0]) {
      InsertAtLeast(d, t[1..], m);
    }
  }

  lemma SortedCons(x: HistogramDot, s: seq<HistogramDot>)
    requires AtLeast(s, SortKey(x)) && SortedByValue(s)
    ensures SortedByValue([x] + s)
  {
    var r := [x] + s;
    forall i, j | 0 <= i < j < |r|
      ensures SortKey(r[i]) <= SortKey(r[j])
    {
      assert r[j] == s[j - 1];
      if i > 0 {
        assert r[i] == s[i - 1];
      }
    }
  }

  lemma {:induction false} InsertSorted(d: HistogramDot, t: seq<HistogramDot>)
    requires SortedByValue(t)
    ensures SortedByValue(Insert(d, t))
  {
    if t == [] || SortKey(d) <= SortKey(t[0]) {
      SortedCons(d, t);
    } else {
      InsertSorted(d, t[1..]);
      InsertAtLeast(d, t[1..], SortKey(t[0]));
      SortedCons(t[0], Insert(d, t[1..]));
    }
  }

  /** The dots come out in non-decreasing order of value. */
  lemma {:induction false} SortByValueSorted(dots: seq<HistogramDot>)
    ensures SortedByValue(SortByValue(dots))
  {
    if dots != [] {
      SortByValueSorted(dots[1..]);
      InsertSorted(dots[0], SortByValue(dots[1..]));
    }
  }

  /** The dots of `s` whose value equals `v`, in their order in `s`. */
  function WithValue(s: seq<HistogramDot>, v: real): seq<HistogramDot> {
    if s == [] then []
    else (if SortKey(s[0]) == v then [s[0]] else []) + WithValue(s[1..], v)
  }

  /** Filtering a sequence by value looks at its first dot, then at the rest. */
  lemma WithValueCons(x: HistogramDot, s: seq<HistogramDot>, v: real)
    ensures WithValue([x] + s, v) == (if SortKey(x) == v then [x] else []) + WithValue(s, v)
  {
    assert ([x] + s)[1..] == s;
  }

  /** Inserting a dot adds it to the dots of its own value, ahead of them, and leaves the others. */
  lemma {:induction false} WithValueInsert(d: HistogramDot, t: seq<HistogramDot>, v: real)
    ensures WithValue(Insert(d, t), v) == (if SortKey(d) == v then [d] else []) + WithValue(t, v)
  {
    if t == [] || SortKey(d) <= SortKey(t[0]) {
      WithValueCons(d, t, v);
    } else {
      var rest := Insert(d, t[1..]);
      assert Insert(d, t) == [t[0]] + rest;
      WithValueInsert(d, t[1..], v);
      WithValueCons(t[0], rest, v);
      assert t == [t[0]] + t[1..];
      WithValueCons(t[0], t[1..], v);
      var tail := WithValue(t[1..], v);
      if SortKey(t[0]) == v {
        assert SortKey(d) != v;
        assert WithValue(Insert(d, t), v) == [t[0]] + tail == WithValue(t, v);
      } else {
        assert WithValue(t, v) == tail;
      }
    }
  }

  /** Sorting is stable: dots of equal value keep their relative order. */
  lemma {:induction false} SortByValueStable(dots: seq<HistogramDot>, v: real)
    ensures WithValue(SortByValue(dots), v) == WithValue(dots, v)
  {
    if dots != [] {
      SortByValueStable(dots[1..], v);
      WithValueInsert(dots[0], SortByValue(dots[1..]), v);
    }
  }

  /**
   * What one funnel's `drag_in_dots` did with the dots `dots` and the slow
   * budget `budget`, starting from the stack height `y0`: its new state,
   * the budget left for the next funnel, and the dots as the next funnel
   * sees them.
   */
  ghost predicate DraggedThrough(f: MovableFunnel, y0: real, dots: seq<HistogramDot>, budget: int, animateRest: bool,
                                 after: seq<HistogramDot>, next: int)
    reads f
  {
    var s := SliceLength(|dots|, Clamp(budget, |dots|));
    var run := Falls(f.shape, y0, dots);
    && f.nextY == run.1
    && f.animatedSlowly == Some(Inside(run.0[..s]))
    && next == budget - Inside(run.0[..s])
    && after == Landed(dots, run.0, if animateRest then |dots| else s)
  }

  /** `f` is the funnel the constructor builds over `span`, fresh from its own constructor. */
  ghost predicate BuiltAs(f: MovableFunnel, span: EndPoints, text: string, annot: bool, runTime: real, height: real, pointRadius: real)
    reads f
  {
    && f.shape == FloatFunnel(span, height, pointRadius, annot, text)
    && f.runTime == runTime
    && f.nextY == YBottom(f.shape) + BottomShift * 2.0
    && f.animatedSlowly.None?
  }

  /** `made` is a row: its `i`-th funnel spans the `i`-th step from `left` and carries the `i`-th annotation. */
  ghost predicate RowBuilt(made: seq<MovableFunnel>, left: Point, step: real, annots: seq<string>,
                           annot: bool, runTime: real, height: real, pointRadius: real)
    reads made
  {
    && |made| <= |annots|
    && forall i :: 0 <= i < |made| ==> BuiltAs(made[i], SpanOf(left, step, i), annots[i], annot, runTime, height, pointRadius)
  }

  /** A row grows by the funnel built over the next span with the next annotation. */
  lemma RowBuiltGrow(made: seq<MovableFunnel>, f: MovableFunnel, left: Point, step: real, annots: seq<string>,
                     annot: bool, runTime: real, height: real, pointRadius: real)
    requires RowBuilt(made, left, step, annots, annot, runTime, height, pointRadius) && |made| < |annots|
    requires BuiltAs(f, SpanOf(left, step, |made|), annots[|made|], annot, runTime, height, pointRadius)
    ensures RowBuilt(made + [f], left, step, annots, annot, runTime, height, pointRadius)
  {
    assert (made + [f])[..|made|] == made;
  }

  /**
   * `row` is the row built over the corners `left` and `right`, and the
   * shared list, which held `before`, now also holds its funnels.
   */
  ghost predicate RowOf(row: Funnels, before: seq<MovableFunnel>, registry: FunnelList, left: Point, right: Point,
                        count: int, bins: Number, annot: bool, runTime: real, height: real, pointRadius: real)
    reads row, registry, registry.funnels
  {
    var n := |before|;
    && count != 0 && AnnotStep(bins, count) != 0
    && row.leftTop == left && row.rightTop == right && row.bins == bins && row.count == count
    && row.registry == registry && row.members == registry.funnels
    && |registry.funnels| == n + (if count > 0 then count else 0)
    && registry.funnels[..n] == before
    && RowBuilt(registry.funnels[n..], left, Step(left, right, count), AnnotTexts(AnnotBins(bins, AnnotStep(bins, count))),
                annot, runTime, height, pointRadius)
  }

  /** A row whose funnels were appended after `before` is the row `RowOf` describes. */
  lemma RowOfIntro(row: Funnels, before: seq<MovableFunnel>, made: seq<MovableFunnel>, registry: FunnelList,
                   left: Point, right: Point, count: int, bins: Number,
                   annot: bool, runTime: real, height: real, pointRadius: real)
    requires count != 0 && AnnotStep(bins, count) != 0
    requires row.leftTop == left && row.rightTop == right && row.bins == bins && row.count == count
    requires row.registry == registry && row.members == registry.funnels
    requires registry.funnels == before + made && |made| == if count > 0 then count else 0
    requires RowBuilt(made, left, Step(left, right, count), AnnotTexts(AnnotBins(bins, AnnotStep(bins, count))),
                      annot, runTime, height, pointRadius)
    ensures RowOf(row, before, registry, left, right, count, bins, annot, runTime, height, pointRadius)
  {
    assert registry.funnels[..|before|] == before;
    assert registry.funnels[|before|..] == made;
  }

  /** The class attribute `funnels`: one list shared by every row. */
  class FunnelList {
    var funnels: seq<MovableFunnel>

    /** No funnel is in the list twice. */
    ghost predicate Valid()
      reads this
    {
      forall i, j :: 0 <= i < j < |funnels| ==> funnels[i] != funnels[j]
    }

    constructor ()
      ensures funnels == [] && Valid()
    {
      funnels := [];
    }
  }

  class Funnels {
    const leftTop: Point
    const rightTop: Point
    const bins: Number
    const count: int
    /** The shared list the row appended its funnels to. */
    const registry: FunnelList
    /** The members of the group: every funnel in the shared list when the row was built. */
    const members: seq<MovableFunnel>

    constructor Build(leftTop: Point, rightTop: Point, bins: Number, count: int, registry: FunnelList, members: seq<MovableFunnel>)
      ensures this.leftTop == leftTop && this.rightTop == rightTop && this.bins == bins && this.count == count
      ensures this.registry == registry && this.members == members
    {
      this.leftTop := leftTop;
      this.rightTop := rightTop;
      this.bins := bins;
      this.count := count;
      this.registry := registry;
      this.members := members;
    }

    /**
     * `Funnels(start_end_points, funnel, count, bins, annot, ...)`: `count`
     * funnels of width `abs((x_right - x_left) / count)` from the left
     * corner rightwards at its height, the `i`-th annotated with the `i`-th
     * bin range, are appended to the shared list. `runTime`, `height` and
     * `pointRadius` are the arguments passed on to each funnel.
     */
    static method Create(registry: FunnelList, first: CoordsValue, second: CoordsValue, count: int, bins: Number,
                         annot: bool, runTime: real, height: real, pointRadius: real)
      returns (r: Result<Funnels, FunnelsError>)
      requires registry.Valid()
      modifies registry
      ensures registry.Valid()
      ensures r.Err? <==> CreateError(first, second, count, bins).Some?
      ensures r.Err? ==> r.error == CreateError(first, second, count, bins).value && registry.funnels == old(registry.funnels)
      ensures r.Ok? ==>
        && fresh(r.value)
        && (forall i :: |old(registry.funnels)| <= i < |registry.funnels| ==> fresh(registry.funnels[i]))
        && RowOf(r.value, old(registry.funnels), registry, Validate(first).value, Validate(second).value, count, bins,
                 annot, runTime, height, pointRadius)
    {
      var l := Validate(first);
      if l.Err? {
        return Err(BadCorner(l.error));
      }
      var rt := Validate(second);
      if rt.Err? {
        return Err(BadCorner(rt.error));
      }
      if count == 0 {
        return Err(ZeroDivision);
      }
      if AnnotStep(bins, count) == 0 {
        return Err(RangeStepZero);
      }
      var row := BuildRow(registry, l.value, rt.value, count, bins, annot, runTime, height, pointRadius);
      r := Ok(row);
    }

    /** The constructor once the corners are validated and the steps known to be non-zero. */
    static method BuildRow(registry: FunnelList, left: Point, right: Point, count: int, bins: Number,
                           annot: bool, runTime: real, height: real, pointRadius: real)
      returns (row: Funnels)
      requires registry.Valid() && count != 0 && AnnotStep(bins, count) != 0
      modifies registry
      ensures registry.Valid() && fresh(row)
      ensures forall i :: |old(registry.funnels)| <= i < |registry.funnels| ==> fresh(registry.funnels[i])
      ensures RowOf(row, old(registry.funnels), registry, left, right, count, bins, annot, runTime, height, pointRadius)
    {
      ghost var before := registry.funnels;
      var step := Step(left, right, count);
      var annotStep := AnnotStep(bins, count);
      var annots := AnnotTexts(AnnotBins(bins, annotStep));
      if count > 0 {
        EnoughAnnots(bins, count);
      }
      ghost var made := AppendRow(registry, left, step, count, annots, annot, runTime, height, pointRadius);
      row := new Funnels.Build(left, right, bins, count, registry, registry.funnels);
      RowOfIntro(row, before, made, registry, left, right, count, bins, annot, runTime, height, pointRadius);
    }

    /**
     * The loop of the constructor: funnel after funnel, from `left`
     * rightwards by `step`, each with its annotation, appended to the
     * shared list.
     */
    static method AppendRow(registry: FunnelList, left: Point, step: real, count: int, annots: seq<string>,
                            annot: bool, runTime: real, height: real, pointRadius: real)
      returns (ghost made: seq<MovableFunnel>)
      requires registry.Valid() && count <= |annots|
      modifies registry
      ensures registry.Valid() && registry.funnels == old(registry.funnels) + made
      ensures |made| == if count > 0 then count else 0
      ensures forall j :: 0 <= j < |made| ==> fresh(made[j])
      ensures RowBuilt(made, left, step, annots, annot, runTime, height, pointRadius)
    {
      var xStart := left.x;
      var xEnd := xStart + step;
      var y := left.y;
      made := [];
      var i := 0;
      while i < count
        invariant 0 <= i && (count > 0 ==> i <= count) && (count <= 0 ==> i == 0)
        invariant EndPoints(XY(xStart, y), XY(xEnd, y)) == SpanOf(left, step, i)
        invariant |made| == i && registry.funnels == old(registry.funnels) + made
        invariant registry.Valid()
        invariant forall j :: 0 <= j < i ==> fresh(made[j])
        invariant RowBuilt(made, left, step, annots, annot, runTime, height, pointRadius)
      {
        SpanNext(left, step, i);
        ghost var f := AppendOne(registry, EndPoints(XY(xStart, y), XY(xEnd, y)), annots[i], annot, runTime, height, pointRadius);
        RowBuiltGrow(made, f, left, step, annots, annot, runTime, height, pointRadius);
        made := made + [f];
        xStart, xEnd := xEnd, xEnd + step;
        i := i + 1;
      }
    }

    /** One turn of the constructor's loop: a new funnel over `span`, appended to the shared list. */
    static method AppendOne(registry: FunnelList, span: EndPoints, text: string,
                            annot: bool, runTime: real, height: real, pointRadius: real)
      returns (ghost f: MovableFunnel)
      requires registry.Valid()
      modifies registry
      ensures registry.Valid() && registry.funnels == old(registry.funnels) + [f]
      ensures fresh(f) && BuiltAs(f, span, text, annot, runTime, height, pointRadius)
    {
      FloatCornersBuild(span, height, pointRadius, annot, text);
      var made := MovableFunnel.New(FloatCorner(span.first), FloatCorner(span.second), runTime, height, pointRadius, annot, text);
      var g := made.value;
      registry.funnels := registry.funnels + [g];
      f := g;
    }

    /**
     * `drag_in_dots`: the dots, sorted by value, are dragged into every
     * funnel of the shared list in turn. Each funnel sees the dots as the
     * previous one left them, and the slow budget shrinks by the number of
     * dots the previous funnel animated slowly. Returns the dots before
     * each funnel and after the last, and the budget each funnel got.
     */
    method DragInDots(dots: seq<HistogramDot>, animateSlow: int, animateRest: bool)
      returns (stages: seq<seq<HistogramDot>>, budgets: seq<int>)
      requires registry.Valid()
      modifies registry.funnels
      ensures |stages| == |budgets| == |registry.funnels| + 1
      ensures stages[0] == SortByValue(dots) && budgets[0] == animateSlow
      ensures forall k :: 0 <= k < |registry.funnels| ==>
        DraggedThrough(registry.funnels[k], old(registry.funnels[k].nextY), stages[k], budgets[k], animateRest,
                       stages[k + 1], budgets[k + 1])
      ensures animateSlow >= 0 ==> forall i, j :: 0 <= i <= j < |budgets| ==> 0 <= budgets[j] <= budgets[i]
    {
      var fs := registry.funnels;
      var current := SortByValue(dots);
      var budget := animateSlow;
      stages, budgets := [current], [budget];
      var k := 0;
      while k < |fs|
        invariant 0 <= k <= |fs| && |stages| == |budgets| == k + 1
        invariant stages[0] == SortByValue(dots) && budgets[0] == animateSlow
        invariant stages[k] == current && budgets[k] == budget
        invariant forall j :: k <= j < |fs| ==> fs[j].nextY == old(fs[j].nextY)
        invariant forall j :: 0 <= j < k ==>
          DraggedThrough(fs[j], old(fs[j].nextY), stages[j], budgets[j], animateRest, stages[j + 1], budgets[j + 1])
        invariant animateSlow >= 0 ==> forall i, j :: 0 <= i <= j <= k ==> 0 <= budgets[j] <= budgets[i]
      {
        current, budget := DragThrough(fs[k], current, budget, animateRest);
        stages, budgets := stages + [current], budgets + [budget];
        k := k + 1;
      }
    }

    /** One turn of the loop: `funnel.drag_in_dots(...)`, then `animate_slow -= funnel.animated_slowly`. */
    static method DragThrough(f: MovableFunnel, dots: seq<HistogramDot>, budget: int, animateRest: bool)
      returns (after: seq<HistogramDot>, next: int)
      modifies f
      ensures DraggedThrough(f, old(f.nextY), dots, budget, animateRest, after, next)
      ensures budget >= 0 ==> 0 <= next <= budget
    {
      var paths;
      after, paths := f.DragInDots(dots, budget, animateRest);
      next := budget - f.animatedSlowly.value;
    }
  }
}
