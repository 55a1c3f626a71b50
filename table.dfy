/**
 * `Table` and `CustomersTable`: a grid of lines under a top edge, and a
 * table of customers with one labelled dot per row.
 */
module Tables {
  import opened Wrappers
  import opened Numbers
  import opened Geometry
  import opened ShapePoints
  import opened HistogramDots

  /**
   * Why building a table raises: `TableLineEmptyException`, the
   * `AssertionError`s on the column widths, a bad or missing corner
   * point, an empty `randrange`, or an `IndexError` on the colour list.
   */
  datatype TableError =
    | LineEmpty
    | WidthsCountMismatch
    | BadCorner(cause: ShapePointError)
    | MissingPoint
    | WidthNotFloat(column: nat)
    | WidthOutOfRange(column: nat)
    | RandrangeEmpty
    | ColorIndex(index: int)

  /**
   * The arguments `_create_table` reads: the top corners, the row count
   * and height, the column count and the column widths. An empty tuple of
   * widths is falsy, exactly like `None`, so both are `[]` here.
   */
  datatype Layout = Layout(left: Point, right: Point, rowCount: int, rowHeight: real, columnCount: int, widths: seq<Number>)

  /** The constructor's assertion: given widths come one per column. */
  predicate WidthsMatch(t: Layout) {
    t.widths == [] || |t.widths| == t.columnCount
  }

  /** `abs(x_right_point - x_left_point)`. */
  function Distance(t: Layout): real {
    Abs(t.right.x - t.left.x)
  }

  /** How many vertical lines a row gets: `range(column_count + 1)`. */
  function VertCount(columnCount: int): nat {
    if columnCount >= 0 then columnCount + 1 else 0
  }

  /** The sum of the first `j` widths. */
  function SumTo(ws: seq<Number>, j: nat): real
    requires j <= |ws|
  {
    if j == 0 then 0.0 else SumTo(ws, j - 1) + ws[j - 1].AsReal()
  }

  /**
   * Where the running `x_point` stands at the `j`-th vertical line: each
   * column adds `distance * width`, or `distance / column_count` when no
   * widths are given.
   */
  function BoundaryX(t: Layout, j: nat): real
    requires WidthsMatch(t) && (j == 0 || j <= t.columnCount)
  {
    if j == 0 then t.left.x
    else BoundaryX(t, j - 1) + (if t.widths != [] then Distance(t) * t.widths[j - 1].AsReal() else Distance(t) / t.columnCount as real)
  }

  /** The running sum in closed form: `x_left + j * distance / column_count`, or `x_left + distance * (w_0 + ... + w_{j-1})`. */
  lemma {:induction false} BoundaryClosedForm(t: Layout, j: nat)
    requires WidthsMatch(t) && (j == 0 || j <= t.columnCount)
    ensures t.widths == [] && j > 0 ==> BoundaryX(t, j) == t.left.x + (j as real) * (Distance(t) / t.columnCount as real)
    ensures t.widths != [] ==> BoundaryX(t, j) == t.left.x + Distance(t) * SumTo(t.widths, j)
  {
    if j > 0 {
      BoundaryClosedForm(t, j - 1);
      if t.widths == [] {
        StepForward(t.left.x, j - 1, Distance(t) / t.columnCount as real);
      } else {
        var d := Distance(t);
        assert d * SumTo(t.widths, j - 1) + d * t.widths[j - 1].AsReal() == d * SumTo(t.widths, j);
      }
    }
  }

  /** Without widths, the last vertical line is the right end of the top edge. */
  lemma EvenColumnsEndAtTheRight(t: Layout)
    requires t.widths == [] && t.columnCount >= 1 && t.left.x <= t.right.x
    ensures BoundaryX(t, t.columnCount) == t.right.x
  {
    BoundaryClosedForm(t, t.columnCount);
    var c := t.columnCount as real;
    assert c * (Distance(t) / c) == Distance(t);
  }

  /** A width that passes both assertions: a `float` in `(0, 1]`. */
  predicate WidthOk(w: Number) {
    w.Float? && 0.0 < w.f <= 1.0
  }

  /** The first failing width assertion at or after column `j`, as the loop meets it. */
  function WidthErrorFrom(ws: seq<Number>, j: nat): (r: Option<TableError>)
    requires j <= |ws|
    ensures r.None? <==> forall k :: j <= k < |ws| ==> WidthOk(ws[k])
    decreases |ws| - j
  {
    if j == |ws| then None
    else if !WidthOk(ws[j]) then Some(if ws[j].Float? then WidthOutOfRange(j) else WidthNotFloat(j))
    else WidthErrorFrom(ws, j + 1)
  }

  /** The error names the first bad column, and the kind of its fault. */
  lemma {:induction false} WidthErrorNamesFirstBad(ws: seq<Number>, j: nat)
    requires j <= |ws| && WidthErrorFrom(ws, j).Some?
    ensures var e := WidthErrorFrom(ws, j).value;
      && (e.WidthNotFloat? || e.WidthOutOfRange?)
      && j <= e.column < |ws| && !WidthOk(ws[e.column])
      && (e.WidthNotFloat? <==> !ws[e.column].Float?)
      && forall k :: j <= k < e.column ==> WidthOk(ws[k])
    decreases |ws| - j
  {
    if WidthOk(ws[j]) {
      WidthErrorNamesFirstBad(ws, j + 1);
    }
  }

  /** With every width a float in `(0, 1]` and a top edge of positive length, the vertical lines go strictly rightwards. */
  lemma BoundariesIncrease(t: Layout, j: nat)
    requires WidthsMatch(t) && 0 <= j < t.columnCount && Distance(t) > 0.0
    requires t.widths != [] ==> WidthOk(t.widths[j])
    ensures BoundaryX(t, j) < BoundaryX(t, j + 1)
  {
    if t.widths == [] {
      var c := t.columnCount as real;
      assert Distance(t) / c > 0.0;
    } else {
      assert Distance(t) * t.widths[j].AsReal() > 0.0;
    }
  }

  /** The height of horizontal line `r`: `y_point -= y_step` once per row. */
  function RowY(t: Layout, r: int): real {
    t.left.y - (r as real) * t.rowHeight
  }

  /** Horizontal line `r`: at height `RowY(t, r)`, from the left corner's x to the right corner's x. */
  function Horizontal(t: Layout, r: int): Segment {
    Segment(Flat(t.left.x, RowY(t, r)), Flat(t.right.x, RowY(t, r)))
  }

  function Vertical(t: Layout, r: int, j: nat): Segment
    requires WidthsMatch(t) && (j == 0 || j <= t.columnCount)
  {
    var x := BoundaryX(t, j);
    Segment(Flat(x, RowY(t, r)), Flat(x, RowY(t, r) - t.rowHeight))
  }

  /** The first `n` vertical lines of row `r`. */
  function Verticals(t: Layout, r: int, n: nat): (s: seq<Segment>)
    requires WidthsMatch(t) && n <= VertCount(t.columnCount)
    ensures |s| == n
  {
    if n == 0 then [] else Verticals(t, r, n - 1) + [Vertical(t, r, n - 1)]
  }

  /** How many lines a row adds: its horizontal line and its vertical lines. */
  function RowWidth(t: Layout): nat {
    VertCount(t.columnCount) + 1
  }

  /** Row `r`: its horizontal line followed by its vertical lines. */
  function RowLines(t: Layout, r: int): (s: seq<Segment>)
    requires WidthsMatch(t)
    ensures |s| == RowWidth(t)
  {
    [Horizontal(t, r)] + Verticals(t, r, VertCount(t.columnCount))
  }

  /** Rows `0 .. k-1`. */
  function GridRows(t: Layout, k: nat): seq<Segment>
    requires WidthsMatch(t)
  {
    if k == 0 then [] else GridRows(t, k - 1) + RowLines(t, k - 1)
  }

  /** All lines of the table, in the order `_create_table` appends them: the last horizontal line closes the grid. */
  function Grid(t: Layout): (r: seq<Segment>)
    requires WidthsMatch(t)
    ensures t.rowCount < 0 ==> r == []
    ensures t.rowCount >= 0 ==> |r| > 0 && r[|r| - 1] == Horizontal(t, t.rowCount)
    ensures t.rowCount >= 0 && t.columnCount >= 0 ==> |r| == (t.rowCount + 1) + t.rowCount * (t.columnCount + 1)
  {
    if t.rowCount < 0 then []
    else
      GridRowsLength(t, t.rowCount);
      assert t.rowCount * (t.columnCount + 2) == t.rowCount + t.rowCount * (t.columnCount + 1);
      GridRows(t, t.rowCount) + [Horizontal(t, t.rowCount)]
  }

  lemma {:induction false} VerticalsAt(t: Layout, r: int, n: nat, j: nat)
    requires WidthsMatch(t) && n <= VertCount(t.columnCount) && j < n
    ensures Verticals(t, r, n)[j] == Vertical(t, r, j)
  {
    if j < n - 1 {
      VerticalsAt(t, r, n - 1, j);
    }
  }

  lemma {:induction false} GridRowsLength(t: Layout, k: nat)
    requires WidthsMatch(t)
    ensures |GridRows(t, k)| == k * RowWidth(t)
  {
    if k > 0 {
      GridRowsLength(t, k - 1);
      MulStep(k - 1, RowWidth(t));
    }
  }

  lemma MulStep(a: nat, w: nat)
    ensures a * w + w == (a + 1) * w
  {
  }

  lemma {:induction false} MulMono(a: nat, b: nat, w: nat)
    requires a <= b
    ensures a * w <= b * w
  {
    if a < b {
      MulMono(a, b - 1, w);
      MulStep(b - 1, w);
    }
  }

  /** The first `m` rows are a prefix of the first `k`. */
  lemma {:induction false} GridRowsPrefix(t: Layout, m: nat, k: nat)
    requires WidthsMatch(t) && m <= k
    ensures |GridRows(t, m)| <= |GridRows(t, k)| && GridRows(t, k)[..|GridRows(t, m)|] == GridRows(t, m)
  {
    if m < k {
      GridRowsPrefix(t, m, k - 1);
      assert GridRows(t, k) == GridRows(t, k - 1) + RowLines(t, k - 1);
    }
  }

  /** Line `x` of row `r` is line `r * RowWidth + x` of the grid. */
  lemma GridRowsAt(t: Layout, k: nat, r: nat, x: nat)
    requires WidthsMatch(t) && r < k && x < RowWidth(t)
    ensures r * RowWidth(t) + x < |GridRows(t, k)|
    ensures GridRows(t, k)[r * RowWidth(t) + x] == RowLines(t, r)[x]
  {
    var before := GridRows(t, r);
    var upTo := GridRows(t, r + 1);
    assert upTo == before + RowLines(t, r);
    GridRowsLength(t, r);
    GridRowsPrefix(t, r + 1, k);
    ConcatAt(before, RowLines(t, r), x);
    PrefixAt(GridRows(t, k), upTo, |before| + x);
  }

  /** Past the first sequence, a concatenation is the second. */
  lemma ConcatAt<T>(a: seq<T>, b: seq<T>, x: nat)
    requires x < |b|
    ensures |a| + x < |a + b| && (a + b)[|a| + x] == b[x]
  {
  }

  /** A sequence agrees with each of its prefixes. */
  lemma PrefixAt<T>(s: seq<T>, p: seq<T>, i: nat)
    requires |p| <= |s| && s[..|p|] == p && i < |p|
    ensures s[i] == p[i]
  {
    assert s[..|p|][i] == s[i];
  }

  /** The table has `(row_count + 1) + row_count * (column_count + 1)` lines. */
  lemma GridLength(t: Layout)
    requires WidthsMatch(t) && t.rowCount >= 0 && t.columnCount >= 0
    ensures |Grid(t)| == (t.rowCount + 1) + t.rowCount * (t.columnCount + 1)
  {
    GridRowsLength(t, t.rowCount);
    assert t.rowCount * (t.columnCount + 2) == t.rowCount + t.rowCount * (t.columnCount + 1);
  }

  /**
   * Every `column_count + 2` lines comes a horizontal one: line `r` of
   * them lies at `y_0 - r * row_height` and spans the top edge's x range.
   */
  lemma GridHorizontal(t: Layout, r: nat)
    requires WidthsMatch(t) && t.columnCount >= 0 && r <= t.rowCount
    ensures r * (t.columnCount + 2) < |Grid(t)|
    ensures Grid(t)[r * (t.columnCount + 2)] == Horizontal(t, r)
  {
    var w := RowWidth(t);
    assert w == t.columnCount + 2;
    var i := r * w;
    GridRowsLength(t, t.rowCount);
    if r < t.rowCount {
      GridRowsAt(t, t.rowCount, r, 0);
      GridAtRows(t, i);
    } else {
      GridClosingLine(t);
    }
  }

  /** The last line of the grid is the horizontal line under the last row. */
  lemma GridClosingLine(t: Layout)
    requires WidthsMatch(t) && t.rowCount >= 0
    ensures |Grid(t)| == |GridRows(t, t.rowCount)| + 1
    ensures Grid(t)[|GridRows(t, t.rowCount)|] == Horizontal(t, t.rowCount)
  {
  }

  /**
   * The horizontal line of each of the first `row_count` rows is followed
   * by that row's vertical lines, one row high, at the column boundaries.
   */
  lemma GridVertical(t: Layout, r: nat, j: nat)
    requires WidthsMatch(t) && r < t.rowCount && j <= t.columnCount
    ensures r * (t.columnCount + 2) + 1 + j < |Grid(t)|
    ensures var x := BoundaryX(t, j);
      Grid(t)[r * (t.columnCount + 2) + 1 + j] == Segment(Flat(x, RowY(t, r)), Flat(x, RowY(t, r) - t.rowHeight))
  {
    var w := RowWidth(t);
    assert w == t.columnCount + 2;
    GridRowsAt(t, t.rowCount, r, 1 + j);
    GridAtRows(t, r * w + 1 + j);
    RowLinesVertical(t, r, j);
  }

  /** Below the closing line, the grid is its rows. */
  lemma GridAtRows(t: Layout, i: nat)
    requires WidthsMatch(t) && t.rowCount >= 0 && i < |GridRows(t, t.rowCount)|
    ensures i < |Grid(t)| && Grid(t)[i] == GridRows(t, t.rowCount)[i]
  {
  }

  /** After its horizontal line, a row lists its vertical lines. */
  lemma RowLinesVertical(t: Layout, r: nat, j: nat)
    requires WidthsMatch(t) && j <= t.columnCount
    ensures 1 + j < |RowLines(t, r)| && RowLines(t, r)[1 + j] == Vertical(t, r, j)
  {
    VerticalsAt(t, r, VertCount(t.columnCount), j);
  }

  /**
   * One row's vertical lines, from `x_left` rightwards; the width
   * assertions are made as the loop reaches each column.
   */
  method RowVerticals(t: Layout, r: int, y: real) returns (res: Result<seq<Segment>, TableError>)
    requires WidthsMatch(t) && y == RowY(t, r)
    ensures t.widths != [] && WidthErrorFrom(t.widths, 0).Some? ==> res == Err(WidthErrorFrom(t.widths, 0).value)
    ensures !(t.widths != [] && WidthErrorFrom(t.widths, 0).Some?) ==> res == Ok(Verticals(t, r, VertCount(t.columnCount)))
  {
    var vs: seq<Segment> := [];
    var x := t.left.x;
    var j := 0;
    while j < t.columnCount + 1
      invariant 0 <= j <= VertCount(t.columnCount) && (t.columnCount >= 0 ==> j <= t.columnCount)
      invariant vs == Verticals(t, r, j)
      invariant x == BoundaryX(t, j)
      invariant t.widths != [] ==> WidthErrorFrom(t.widths, 0) == WidthErrorFrom(t.widths, j)
    {
      vs := vs + [Segment(Flat(x, y), Flat(x, y - t.rowHeight))];
      if j == t.columnCount {
        return Ok(vs);
      }
      if t.widths != [] {
        var w := t.widths[j];
        if !w.Float? {
          return Err(WidthNotFloat(j));
        }
        if !(0.0 < w.f <= 1.0) {
          return Err(WidthOutOfRange(j));
        }
        x := x + Distance(t) * w.f;
      } else {
        x := x + Distance(t) / t.columnCount as real;
      }
      j := j + 1;
    }
    return Ok(vs);
  }

  /** `_create_table`: the lines of the grid, or the first failing width assertion when there is a row to draw. */
  method CreateLines(t: Layout) returns (res: Result<seq<Segment>, TableError>)
    requires WidthsMatch(t)
    ensures t.rowCount >= 1 && t.widths != [] && WidthErrorFrom(t.widths, 0).Some? ==> res == Err(WidthErrorFrom(t.widths, 0).value)
    ensures !(t.rowCount >= 1 && t.widths != [] && WidthErrorFrom(t.widths, 0).Some?) ==> res == Ok(Grid(t))
  {
    var lines: seq<Segment> := [];
    var y := t.left.y;
    var i := 0;
    while i < t.rowCount + 1
      invariant 0 <= i && (t.rowCount >= 0 ==> i <= t.rowCount) && (t.rowCount < 0 ==> i == 0)
      invariant y == RowY(t, i)
      invariant lines == GridRows(t, i)
      invariant i > 0 ==> !(t.widths != [] && WidthErrorFrom(t.widths, 0).Some?)
    {
      lines := lines + [Segment(Flat(t.left.x, y), Flat(t.right.x, y))];
      if i == t.rowCount {
        return Ok(lines);
      }
      var vs := RowVerticals(t, i, y);
      if vs.Err? {
        return Err(vs.error);
      }
      lines := lines + vs.value;
      StepBackward(t.left.y, i, t.rowHeight);
      y := y - t.rowHeight;
      i := i + 1;
    }
    return Ok(lines);
  }

  /** The constructor's checks, in their order, and then those of `_create_table`. */
  function InitError(ends: seq<CoordsValue>, rowCount: int, columnCount: int, widths: seq<Number>): (r: Option<TableError>)
    ensures r.None? <==>
      && ends != []
      && (widths == [] || |widths| == columnCount)
      && |ends| >= 2 && ValidateBoth(ends[0], ends[1]).Ok?
      && (rowCount >= 1 ==> forall k :: 0 <= k < |widths| ==> WidthOk(widths[k]))
  {
    if ends == [] then Some(LineEmpty)
    else if widths != [] && |widths| != columnCount then Some(WidthsCountMismatch)
    else if Validate(ends[0]).Err? then Some(BadCorner(Validate(ends[0]).error))
    else if |ends| < 2 then Some(MissingPoint)
    else if Validate(ends[1]).Err? then Some(BadCorner(Validate(ends[1]).error))
    else if rowCount >= 1 && widths != [] then WidthErrorFrom(widths, 0)
    else None
  }

  class Table {
    /** The validated top corners, `horizontal_line`. */
    const layout: Layout
    const visibleRowCount: int
    /** The group's lines. */
    const lines: seq<Segment>

    constructor Build(layout: Layout, visibleRowCount: int, lines: seq<Segment>)
      ensures this.layout == layout && this.visibleRowCount == visibleRowCount && this.lines == lines
    {
      this.layout := layout;
      this.visibleRowCount := visibleRowCount;
      this.lines := lines;
    }

    /** `Table(start_end_points, row_count, row_height, column_count, visible_row_count, columns_width)`. */
    static method New(ends: seq<CoordsValue>, rowCount: int, rowHeight: real, columnCount: int, visibleRowCount: int, widths: seq<Number>)
      returns (r: Result<Table, TableError>)
      ensures r.Err? <==> InitError(ends, rowCount, columnCount, widths).Some?
      ensures r.Err? ==> r.error == InitError(ends, rowCount, columnCount, widths).value
      ensures r.Ok? ==>
        var t := Layout(Validate(ends[0]).value, Validate(ends[1]).value, rowCount, rowHeight, columnCount, widths);
        && fresh(r.value)
        && WidthsMatch(t)
        && r.value.layout == t && r.value.visibleRowCount == visibleRowCount
        && r.value.lines == Grid(t)
    {
      if ends == [] {
        return Err(LineEmpty);
      }
      if widths != [] && |widths| != columnCount {
        return Err(WidthsCountMismatch);
      }
      var l := Validate(ends[0]);
      if l.Err? {
        return Err(BadCorner(l.error));
      }
      if |ends| < 2 {
        return Err(MissingPoint);
      }
      var rt := Validate(ends[1]);
      if rt.Err? {
        return Err(BadCorner(rt.error));
      }
      var t := Layout(l.value, rt.value, rowCount, rowHeight, columnCount, widths);
      var lines := CreateLines(t);
      if lines.Err? {
        return Err(lines.error);
      }
      var table := new Table.Build(t, visibleRowCount, lines.value);
      r := Ok(table);
    }
  }

  /** `CustomersTable`'s fixed layout: two columns of widths 0.8 and 0.2. */
  const CustomerColumns: int := 2
  const CustomerWidths: seq<Number> := [Float(0.8), Float(0.2)]
  const CustomerTextScale: real := 0.6
  const DefaultColor: string := "red"
  /** How far right of the left edge a customer's label sits, and how far right of the first column a dot sits. */
  const LabelInset: real := 0.2
  const DotInset: real := 0.3

  /**
   * The arguments the customer rows are built from. `draw(i)` is the value
   * `random` yields after `random.seed(i + 1)`: `randrange(1, bins + 1)`
   * for an int `bins`, `round(uniform(1.0, bins + 1.0), 1)` otherwise.
   */
  datatype Customers = Customers(
    left: Point,
    right: Point,
    rowHeight: real,
    text: string,
    startValues: seq<Number>,
    colors: seq<string>,
    bins: Number,
    draw: nat -> Number)

  /** Row `i`'s value: the given start value if there is one, else a drawn one; `randrange(1, bins + 1)` raises on an int `bins` below 1. */
  function RowValue(c: Customers, i: nat): (r: Result<Number, TableError>)
    ensures i < |c.startValues| ==> r == Ok(c.startValues[i])
    ensures i >= |c.startValues| && c.bins.Int? && c.bins.i < 1 ==> r == Err(RandrangeEmpty)
    ensures i >= |c.startValues| && !(c.bins.Int? && c.bins.i < 1) ==> r == Ok(c.draw(i))
  {
    if c.startValues != [] && i < |c.startValues| then Ok(c.startValues[i])
    else if c.bins.Int? && c.bins.i < 1 then Err(RandrangeEmpty)
    else Ok(c.draw(i))
  }

  /** `"red"` when there are fewer colours than the value, else `colors[int(value) - 1]`, where a negative index counts from the end. */
  function RowColor(colors: seq<string>, v: Number): (r: Result<string, TableError>)
    ensures r.Ok? ==> r.value == DefaultColor || r.value in colors
    ensures r.Err? ==> r.error == ColorIndex(v.ToInt() - 1)
  {
    if (|colors| as real) < v.AsReal() then Ok(DefaultColor)
    else match PyIndex(colors, v.ToInt() - 1)
      case None => Err(ColorIndex(v.ToInt() - 1))
      case Some(s) => Ok(s)
  }

  /**
   * A value of at least one picks a colour without error: the `v`-th
   * colour, counting from one and truncating, or red past the end. Only a
   * value below one can raise, and only when it reaches before the start.
   */
  lemma ColorChoice(colors: seq<string>, v: Number)
    ensures 1.0 <= v.AsReal() <= |colors| as real ==>
      1 <= v.ToInt() <= |colors| && RowColor(colors, v) == Ok(colors[v.ToInt() - 1])
    ensures |colors| as real < v.AsReal() ==> RowColor(colors, v) == Ok(DefaultColor)
    ensures RowColor(colors, v).Err? ==> v.AsReal() < 1.0 && v.ToInt() - 1 < -|colors|
  {
  }

  /** `y_point` at row `i`. */
  function CustomerY(c: Customers, i: nat): real {
    c.left.y - (i as real) * c.rowHeight
  }

  lemma NextCustomerY(c: Customers, i: nat)
    ensures CustomerY(c, i) - c.rowHeight == CustomerY(c, i + 1)
  {
    StepBackward(c.left.y, i, c.rowHeight);
  }

  /** The x of the dots: the first column's width past the left edge, plus the inset. */
  function DotX(c: Customers): (x: real)
    ensures x >= c.left.x + DotInset > c.left.x + LabelInset
    ensures c.left.x <= c.right.x ==> x <= c.right.x + DotInset
  {
    c.left.x + Abs(c.right.x - c.left.x) * 0.8 + DotInset
  }

  /** The point handed to `HistogramDot` for row `i`: an ndarray of floats. */
  function DotPoint(c: Customers, i: nat): (p: CoordsValue)
    ensures Validate(p) == Ok(Flat(DotX(c), CustomerY(c, i) - c.rowHeight / 2.0))
  {
    LongArrayAccepted(Float(DotX(c)), Float(CustomerY(c, i) - c.rowHeight / 2.0), [Num(Float(0.0))]);
    NdArray([Num(Float(DotX(c))), Num(Float(CustomerY(c, i) - c.rowHeight / 2.0)), Num(Float(0.0))])
  }

  /**
   * Row `i`: the label `"{text} {i+1}"` in the first column, and a dot
   * with the row's value and colour in the second, both at the row's
   * vertical middle.
   */
  function CustomerRow(c: Customers, i: nat): (r: Result<(Label, HistogramDot), TableError>)
    ensures r.Ok? ==> r.value.0.at.y == r.value.1.centre.y && r.value.0.at.x < r.value.1.centre.x
  {
    var y := CustomerY(c, i);
    var caption := Label(c.text + " " + IntToString(i + 1), Flat(c.left.x + LabelInset, y - c.rowHeight / 2.0));
    match RowValue(c, i)
    case Err(e) => Err(e)
    case Ok(v) =>
      match RowColor(c.colors, v)
      case Err(e) => Err(e)
      case Ok(color) =>
        var d := NewDot(v, DotPoint(c, i), None, Some(color));
        Ok((caption, d.value))
  }

  /**
   * Row `i` raises exactly when its value or its colour does; otherwise
   * its label reads `"{text} {i+1}"` near the left edge and its dot
   * carries the row's value and colour (or the palette's colour for an
   * empty one) at the row's vertical middle.
   */
  lemma CustomerRowMeaning(c: Customers, i: nat)
    ensures var r := CustomerRow(c, i);
      && (r.Err? <==> RowValue(c, i).Err? || RowColor(c.colors, RowValue(c, i).value).Err?)
      && (r.Ok? ==>
        && r.value.0 == Label(c.text + " " + IntToString(i + 1), Flat(c.left.x + LabelInset, CustomerY(c, i) - c.rowHeight / 2.0))
        && r.value.1.value == RowValue(c, i).value
        && r.value.1.color == (if RowColor(c.colors, RowValue(c, i).value).value != "" then RowColor(c.colors, RowValue(c, i).value).value
                               else PaletteColor(RowValue(c, i).value))
        && r.value.1.centre == Flat(DotX(c), CustomerY(c, i) - c.rowHeight / 2.0)
        && r.value.1.radius == DefaultRadius)
  {
  }

  /** A row of the customers table: its label and its dot. */
  type Row = (Label, HistogramDot)

  /** Rows `0 .. n-1` of `row`, labels and dots apart, or the first row that raises. */
  function Collect(row: nat -> Result<Row, TableError>, n: nat): (r: Result<(seq<Label>, seq<HistogramDot>), TableError>)
    ensures r.Ok? ==> |r.value.0| == n && |r.value.1| == n
  {
    if n == 0 then Ok(([], []))
    else match Collect(row, n - 1)
      case Err(e) => Err(e)
      case Ok(rows) =>
        match row(n - 1)
        case Err(e) => Err(e)
        case Ok(next) => Ok((rows.0 + [next.0], rows.1 + [next.1]))
  }

  /** The first `n` customer rows. */
  function CustomerRows(c: Customers, n: nat): (r: Result<(seq<Label>, seq<HistogramDot>), TableError>)
    ensures r.Ok? <==> forall i :: 0 <= i < n ==> CustomerRow(c, i).Ok?
    ensures r.Ok? ==> |r.value.0| == n && |r.value.1| == n
  {
    var row := (i: nat) => CustomerRow(c, i);
    CollectAt(row, n);
    assert forall i :: 0 <= i < n ==> row(i) == CustomerRow(c, i);
    Collect(row, n)
  }

  /** The rows succeed exactly when each of them does, and come out in order. */
  lemma {:induction false} CollectAt(row: nat -> Result<Row, TableError>, n: nat)
    ensures Collect(row, n).Ok? <==> forall i :: 0 <= i < n ==> row(i).Ok?
    ensures Collect(row, n).Ok? ==> forall i :: 0 <= i < n ==>
      Collect(row, n).value.0[i] == row(i).value.0 && Collect(row, n).value.1[i] == row(i).value.1
  {
    if n > 0 {
      CollectAt(row, n - 1);
    }
  }

  lemma CollectStep(row: nat -> Result<Row, TableError>, n: nat, labels: seq<Label>, dots: seq<HistogramDot>, next: Row)
    requires Collect(row, n) == Ok((labels, dots)) && row(n) == Ok(next)
    ensures Collect(row, n + 1) == Ok((labels + [next.0], dots + [next.1]))
  {
  }

  /** When rows fail, the error is that of the first failing row. */
  lemma {:induction false} CollectFirstError(row: nat -> Result<Row, TableError>, n: nat, i: nat)
    requires i < n && row(i).Err? && forall k :: 0 <= k < i ==> row(k).Ok?
    ensures Collect(row, n) == Err(row(i).error)
  {
    if i < n - 1 {
      CollectFirstError(row, n - 1, i);
    } else {
      CollectAt(row, i);
    }
  }

  /** Once a row fails, later prefixes fail with the same error. */
  lemma {:induction false} CollectErrorSticks(row: nat -> Result<Row, TableError>, n: nat, m: nat)
    requires n <= m && Collect(row, n).Err?
    ensures Collect(row, m) == Collect(row, n)
  {
    if n < m {
      CollectErrorSticks(row, n, m - 1);
    }
  }

  /** Row `i`'s value, as the `if` chain picks it. */
  method PickValue(c: Customers, i: nat) returns (r: Result<Number, TableError>)
    ensures r == RowValue(c, i)
  {
    if c.startValues != [] && i < |c.startValues| {
      r := Ok(c.startValues[i]);
    } else if c.bins.Int? && c.bins.i < 1 {
      r := Err(RandrangeEmpty);
    } else {
      r := Ok(c.draw(i));
    }
  }

  /** The colour for value `v`, as the `if` picks it. */
  method PickColor(colors: seq<string>, v: Number) returns (r: Result<string, TableError>)
    ensures r == RowColor(colors, v)
  {
    if (|colors| as real) < v.AsReal() {
      r := Ok(DefaultColor);
    } else {
      var k := v.ToInt() - 1;
      if 0 <= k < |colors| {
        r := Ok(colors[k]);
      } else if -|colors| <= k < 0 {
        r := Ok(colors[|colors| + k]);
      } else {
        r := Err(ColorIndex(k));
      }
    }
  }

  /** One pass of the loop: the label, the value, the colour and the dot of row `i`. */
  method AddRow(c: Customers, i: nat, y: real) returns (r: Result<(Label, HistogramDot), TableError>)
    requires y == CustomerY(c, i)
    ensures r == CustomerRow(c, i)
  {
    var h := c.rowHeight;
    var xl := c.left.x;
    var stepX := Abs(c.right.x - c.left.x) * 0.8;
    var customer := Label(c.text + " " + IntToString(i + 1), Flat(xl + LabelInset, y - h / 2.0));
    var value := PickValue(c, i);
    if value.Err? {
      return Err(value.error);
    }
    var color := PickColor(c.colors, value.value);
    if color.Err? {
      return Err(color.error);
    }
    var point := NdArray([Num(Float(xl + stepX + DotInset)), Num(Float(y - h / 2.0)), Num(Float(0.0))]);
    assert point == DotPoint(c, i);
    var dot := NewDot(value.value, point, None, Some(color.value));
    r := Ok((customer, dot.value));
  }

  /** `_add_dots_and_customers_to_table`: one label and one dot per row, top row first. */
  method AddDotsAndCustomers(c: Customers, rowCount: int) returns (r: Result<(seq<Label>, seq<HistogramDot>), TableError>)
    ensures r == CustomerRows(c, if rowCount > 0 then rowCount else 0)
  {
    var customers: seq<Label> := [];
    var dots: seq<HistogramDot> := [];
    var y := c.left.y;
    var i := 0;
    while i < rowCount
      invariant 0 <= i && (rowCount > 0 ==> i <= rowCount) && (rowCount <= 0 ==> i == 0)
      invariant y == CustomerY(c, i)
      invariant CustomerRows(c, i) == Ok((customers, dots))
    {
      var next := AddRow(c, i, y);
      CustomerRowsStep(c, i, customers, dots);
      if next.Err? {
        CustomerRowsErrorSticks(c, i + 1, rowCount);
        return Err(next.error);
      }
      customers := customers + [next.value.0];
      dots := dots + [next.value.1];
      NextCustomerY(c, i);
      y := y - c.rowHeight;
      i := i + 1;
    }
    return Ok((customers, dots));
  }

  /** One more customer row: its error, or its label and dot appended. */
  lemma CustomerRowsStep(c: Customers, i: nat, customers: seq<Label>, dots: seq<HistogramDot>)
    requires CustomerRows(c, i) == Ok((customers, dots))
    ensures CustomerRow(c, i).Err? ==> CustomerRows(c, i + 1) == Err(CustomerRow(c, i).error)
    ensures CustomerRow(c, i).Ok? ==>
      CustomerRows(c, i + 1) == Ok((customers + [CustomerRow(c, i).value.0], dots + [CustomerRow(c, i).value.1]))
  {
    var row := (j: nat) => CustomerRow(c, j);
    assert row(i) == CustomerRow(c, i);
    if row(i).Ok? {
      CollectStep(row, i, customers, dots, row(i).value);
    }
  }

  /** Once a customer row fails, every longer table fails with the same error. */
  lemma CustomerRowsErrorSticks(c: Customers, n: nat, m: int)
    requires n <= m && CustomerRows(c, n).Err?
    ensures CustomerRows(c, m) == CustomerRows(c, n)
  {
    CollectErrorSticks((j: nat) => CustomerRow(c, j), n, m);
  }

  /** The layout `CustomersTable` hands to `Table`. */
  function CustomerLayout(c: Customers, rowCount: int): Layout {
    Layout(c.left, c.right, rowCount, c.rowHeight, CustomerColumns, CustomerWidths)
  }

  /**
   * The table under the customers is always accepted: two widths for two
   * columns, both floats in `(0, 1]`, and corners already validated.
   */
  lemma CustomerLayoutAccepted(ends: seq<CoordsValue>, rowCount: int)
    requires |ends| >= 2 && Validate(ends[0]).Ok? && Validate(ends[1]).Ok?
    ensures InitError(ends, rowCount, CustomerColumns, CustomerWidths).None?
  {
    assert WidthOk(CustomerWidths[0]) && WidthOk(CustomerWidths[1]);
  }

  /**
   * Each customer's dot sits in the second column, `0.3` right of the
   * boundary between the columns, and, with rows of positive height,
   * strictly between the horizontal lines above and below its row.
   */
  lemma DotInItsCell(c: Customers, rowCount: int, i: nat)
    requires CustomerRow(c, i).Ok? && c.rowHeight > 0.0
    ensures var t := CustomerLayout(c, rowCount);
      var p := CustomerRow(c, i).value.1.centre;
      && p.x == BoundaryX(t, 1) + DotInset
      && Horizontal(t, i + 1).start.y < p.y < Horizontal(t, i).start.y
  {
    var t := CustomerLayout(c, rowCount);
    RowLinesAround(c, rowCount, i);
    CustomerRowMeaning(c, i);
  }

  lemma RowLinesAround(c: Customers, rowCount: int, i: nat)
    ensures var t := CustomerLayout(c, rowCount);
      && BoundaryX(t, 1) == c.left.x + Abs(c.right.x - c.left.x) * 0.8
      && Horizontal(t, i).start.y == CustomerY(c, i)
      && Horizontal(t, i + 1).start.y == CustomerY(c, i) - c.rowHeight
  {
    StepBackward(c.left.y, i, c.rowHeight);
  }

  class CustomersTable {
    const table: Table
    const colors: seq<string>
    const bins: Number
    const text: string
    const textScale: real
    const startValues: seq<Number>
    const defaultColor: string
    const customers: seq<Label>
    const dots: seq<HistogramDot>

    constructor Build(table: Table, c: Customers, customers: seq<Label>, dots: seq<HistogramDot>)
      ensures this.table == table && this.colors == c.colors && this.bins == c.bins && this.text == c.text
      ensures this.startValues == c.startValues && this.customers == customers && this.dots == dots
      ensures this.textScale == CustomerTextScale && this.defaultColor == DefaultColor
    {
      this.table := table;
      this.colors := c.colors;
      this.bins := c.bins;
      this.text := c.text;
      this.textScale := CustomerTextScale;
      this.startValues := c.startValues;
      this.defaultColor := DefaultColor;
      this.customers := customers;
      this.dots := dots;
    }

    /**
     * `CustomersTable(start_end_points, row_count, row_height, visible_row_count,
     * colors, bins, text, start_dots_values)`: the corners are validated,
     * the rows built, then the two-column table underneath. `colors` and
     * `startValues` are `[]` for `None`.
     */
    static method New(ends: seq<CoordsValue>, rowCount: int, rowHeight: real, visibleRowCount: int,
                      colors: seq<string>, bins: Number, text: string, startValues: seq<Number>, draw: nat -> Number)
      returns (r: Result<CustomersTable, TableError>)
      ensures |ends| == 0 ==> r == Err(MissingPoint)
      ensures |ends| >= 1 && Validate(ends[0]).Err? ==> r == Err(BadCorner(Validate(ends[0]).error))
      ensures |ends| == 1 && Validate(ends[0]).Ok? ==> r == Err(MissingPoint)
      ensures |ends| >= 2 && Validate(ends[0]).Ok? && Validate(ends[1]).Err? ==> r == Err(BadCorner(Validate(ends[1]).error))
      ensures |ends| >= 2 && Validate(ends[0]).Ok? && Validate(ends[1]).Ok? ==>
        var c := Customers(Validate(ends[0]).value, Validate(ends[1]).value, rowHeight, text, startValues, colors, bins, draw);
        var rows := CustomerRows(c, if rowCount > 0 then rowCount else 0);
        && (r.Err? <==> rows.Err?)
        && (r.Err? ==> r.error == rows.error)
        && (r.Ok? ==>
          && fresh(r.value) && fresh(r.value.table)
          && r.value.customers == rows.value.0 && r.value.dots == rows.value.1
          && r.value.colors == colors && r.value.bins == bins && r.value.text == text && r.value.startValues == startValues
          && r.value.table.layout == CustomerLayout(c, rowCount)
          && r.value.table.lines == Grid(CustomerLayout(c, rowCount))
          && r.value.table.visibleRowCount == visibleRowCount)
    {
      if |ends| == 0 {
        return Err(MissingPoint);
      }
      var l := Validate(ends[0]);
      if l.Err? {
        return Err(BadCorner(l.error));
      }
      if |ends| < 2 {
        return Err(MissingPoint);
      }
      var rt := Validate(ends[1]);
      if rt.Err? {
        return Err(BadCorner(rt.error));
      }
      var c := Customers(l.value, rt.value, rowHeight, text, startValues, colors, bins, draw);
      var rows := AddDotsAndCustomers(c, rowCount);
      if rows.Err? {
        return Err(rows.error);
      }
      var t := CustomerLayout(c, rowCount);
      assert WidthOk(CustomerWidths[0]) && WidthOk(CustomerWidths[1]);
      var lines := CreateLines(t);
      var table := new Table.Build(t, visibleRowCount, lines.value);
      var ct := new CustomersTable.Build(table, c, rows.value.0, rows.value.1);
      r := Ok(ct);
    }
  }
}
