# Histogram and funnel scene objects, modelled in Dafny

This project models the scene objects of a set of animated explainer
scripts: histogram dots, screen points, categorical and continuous graphs,
funnels that dots fall through, rows of funnels, and tables of customers
with one dot per row. The model covers the geometry each object computes
when it is built, the error checks its constructor makes, and how the
"movable" objects route dots: onto a bin's stack in a graph, or through a
funnel onto the funnel's stack. Rendering is not modelled.

Modules, one per source file, plus three helpers:

- `Wrappers` (`Option`, `Result`), `Geometry` (points, segments, labels),
  `Numbers` (a Python `int`/`float` tagged number, `int()`, `str()`,
  `range`, negative indexing, slice bounds);
- `ShapePoints`: `classes/shape_point.py`;
- `HistogramDots`: `classes/histogram_dot.py`;
- `Graphs`: `classes/graph.py`;
- `MovableGraphs`: `classes/movable_graph.py`;
- `FunnelGeometry`: `classes/funnel.py`;
- `MovableFunnels`: `classes/movable_funnel.py`;
- `FunnelRows`: `classes/funnels.py`;
- `Tables`: `classes/table.py`.

Conventions. Coordinates are `real`. An exception becomes the `Err` side
of a `Result`; a constructor that can raise becomes a static `New`/`Create`
method returning a `Result`. Objects whose fields the source updates in
place (`ShapePoint`, the movable graph, the movable funnel, the shared list
of funnels) are classes; objects that are only built are datatypes, or
classes with `const` fields when the source shares them by reference.
Loops the source runs are `while` loops proved against a specification
function; the properties are then proved about that function.

## Model

| member | source | states |
|---|---|---|
| Numbers.Number.ToInt | classes/funnels.py:34 | `int(x)`: an int is kept, a float is truncated toward zero |
| Numbers.Trunc | classes/movable_graph.py:32 | truncation toward zero: within one of the value, on the side of zero |
| Numbers.IntToString | classes/graph.py:143 | `str(n)`: a non-empty run of digits, with a leading minus for negatives |
| Numbers.NatToStringRoundTrip | classes/graph.py:143 | reading the digits of `str(n)` back gives `n` |
| Numbers.IntToStringInjective | classes/graph.py:143 | distinct integers print differently |
| Numbers.Range | classes/funnels.py:35 | element `k` of `range(start, stop, step)` is `start + k*step`; every element lies before `stop` in the step's direction, and one more step would reach or pass it |
| Numbers.RangeLongEnough | classes/funnels.py:35 | `range` has at least `m+1` elements when its `m`-th step is still before `stop` |
| Numbers.PyIndex | classes/table.py:256 | `s[k]` succeeds exactly for `-len(s) <= k < len(s)` and yields an element of `s` |
| Numbers.SliceLength | classes/movable_graph.py:61 | `s[:k]` keeps `k` elements for `0 <= k < len`, all of them past the end, and drops `-k` from the end for negative `k` |
| ShapePoints.Candidates | classes/shape_point.py:46-47 | the values checked are a prefix of those given: an ndarray longer than two is cut to its first two, a tuple is kept whole |
| ShapePoints.FirstNonNumber | classes/shape_point.py:53-56 | finds the first element that is neither `int` nor `float`, and none exactly when all are numbers |
| ShapePoints.Validate | classes/shape_point.py:42-58 | the setter's checks in order: not a tuple or ndarray raises `ShapePointTypeError`; not two values `ShapePointTooManyValuesException`; a non-number among the two `ShapePointTypeError` naming the first one; on success the point `(x, y, 0)` |
| ShapePoints.ValidateBoth | classes/funnel.py:36-37 | two points validated in order: the first one's error, else the second one's, else both validated points |
| ShapePoints.LongArrayAccepted | classes/shape_point.py:46-47 | an ndarray longer than two is accepted with its first two entries |
| ShapePoints.TupleNeedsTwo | classes/shape_point.py:49-51 | a tuple of any length other than two raises `ShapePointTooManyValuesException` |
| ShapePoints.ShapePoint.New | classes/shape_point.py:23-24 | construction succeeds exactly when the setter accepts the value, and stores that point |
| ShapePoints.ShapePoint.FromPoint | classes/shape_point.py:58 | stores a point whose z is 0 |
| ShapePoints.ShapePoint.SetCoords | classes/shape_point.py:30-58 | a rejected value raises and leaves the stored point unchanged; an accepted one replaces it |
| ShapePoints.ShapePoint.Get | classes/shape_point.py:60-61 | `p[i]` reads x, y, 0 for `i` in `0..2` or `-3..-1`, and raises outside |
| ShapePoints.SetThenRead | classes/shape_point.py:30-61 | setting `(x, y)` and reading indices 0, 1, 2 gives `x, y, 0` |
| HistogramDots.PaletteColor | classes/histogram_dot.py:12-17 | values 1 to 4 (compared numerically) get their palette colour, every other value white |
| HistogramDots.NewDot | classes/histogram_dot.py:19-60 | a dot is built exactly when no non-zero radius is passed and the point is valid; a non-zero radius fails first, then a bad point fails with `ShapePoint`'s own error; radius 0.2, the given or palette colour, text scale 0.25 for floats and 0.4 otherwise |
| HistogramDots.MoveTo | classes/movable_graph.py:63-82 | `move_to` puts the dot's centre at the target and changes nothing else about it |
| HistogramDots.BuiltDotShape | classes/histogram_dot.py:39-43 | a built dot has radius 0.2 and a non-empty colour |
| Graphs.Axis | classes/graph.py:58-71 | an absent axis is skipped; a given one raises `ShapePoint`'s error for its first point, `IndexError` when it has no second point, `ShapePoint`'s error for the second, then `ZeroDivisionError` for `bins == 0`, and otherwise yields its two validated ends |
| Graphs.StepOf | classes/graph.py:64 | the step times `bins` is the axis length along x for the horizontal axis and along y for the vertical one; no axis, no step |
| Graphs.NewGraph | classes/graph.py:53-77 | raises when neither axis is given; then the horizontal axis's errors, then the vertical one's; succeeds exactly when every given axis has two valid points and `bins != 0`, with each given axis between its validated ends and its step the axis length over `bins` |
| Graphs.RangeCount | classes/graph.py:91 | `range(0, n)` yields `n` values for `n >= 0` and none otherwise |
| Graphs.CentresIncrease | classes/graph.py:93-96 | with a positive step, a later bin's centre lies further right |
| Graphs.SlotsOfBins | classes/graph.py:83-98 | one slot per bin `1..bins` at its centre, 0.25 above the axis; with a positive step the slots run left to right in bin order |
| Graphs.PrepareNextDotCoords | classes/graph.py:83-98 | one slot per bin `1..bins`, at the bin's centre and 0.25 above the axis; a missing horizontal axis raises |
| Graphs.BinCentresEvenlySpaced | classes/graph.py:93-96 | neighbouring bin centres are one step apart |
| Graphs.BinsTileAxis | classes/graph.py:64 | for a left-to-right axis the bins end exactly at its right end and each centre lies strictly inside its bin |
| Graphs.XTick | classes/graph.py:132-139 | a vertical tick 0.6 long at `x`, centred on the axis height |
| Graphs.YTick | classes/graph.py:166-173 | a horizontal tick 0.6 long at height `y`, centred on the axis |
| Graphs.CategoricalXTicks | classes/graph.py:131-139 | `bins + 1` ticks along the horizontal axis |
| Graphs.CategoricalXLabels | classes/graph.py:142-146 | with `annot`, one label per bin and none after the last tick |
| Graphs.CategoricalYTicks | classes/graph.py:165-173 | `bins + 1` ticks along the vertical axis |
| Graphs.CategoricalYLabels | classes/graph.py:175-179 | with `annot`, one label per bin beside the vertical axis |
| Graphs.CategoricalXPart | classes/graph.py:129-148 | the horizontal tick loop produces exactly those ticks and labels |
| Graphs.XStep | classes/graph.py:129-148 | one pass of the horizontal loop extends the ticks by the tick at `start_x`; with `annot`, and unless it is the pass after the last bin, it extends the labels by bin `i`'s label half a step right of that tick |
| Graphs.YStep | classes/graph.py:165-181 | one pass of the vertical loop extends the ticks and labels by the next one |
| Graphs.CategoricalYPart | classes/graph.py:162-181 | the vertical tick loop produces exactly those ticks and labels |
| Graphs.CategoricalCreateGraph | classes/graph.py:108-183 | the horizontal axis and its ticks, then the vertical axis and its ticks only when a horizontal axis exists; the labels likewise |
| Graphs.CategoricalLabelAtBinCentre | classes/graph.py:143-145 | bin label `k` reads `k+1` and sits at that bin's centre, at the tick ends' height |
| Graphs.CategoricalLabelsDistinct | classes/graph.py:143 | no two bin labels read the same |
| Graphs.XEndTicks | classes/graph.py:208-221 | two vertical ticks, through the start and the end of the horizontal axis, centred on its height |
| Graphs.YEndTicks | classes/graph.py:248-261 | two horizontal ticks, at the heights of the vertical axis's two ends, centred on it |
| Graphs.ContinuousCreateGraph | classes/graph.py:187-276 | each given axis, then a tick at each of its ends; with `annot` the labels `0` and `bins` 0.55 beyond the ends, horizontal labels below the axis and vertical ones to its left |
| MovableGraphs.LookUp | classes/movable_graph.py:16 | attribute lookup returns the first definition along the resolution order |
| MovableGraphs.MovableGraphPadding | classes/movable_graph.py:85-90 | the movable graphs pad dots by `Graph`'s 0.25, not `Movable`'s 0 |
| MovableGraphs.Key | classes/movable_graph.py:32 | a dot's bin is `int(value)`: within one of the value, on the side of zero; a non-zero bin has the value's sign |
| MovableGraphs.Place | classes/movable_graph.py:23-37 | a dot goes to its bin's slot and raises that slot by its radius plus the padding; a missing bin raises `KeyError` and changes nothing |
| MovableGraphs.DropFrom | classes/movable_graph.py:61-82 | placing the rest of the dots adds at most one target per dot |
| MovableGraphs.Run | classes/movable_graph.py:61-82 | placing all dots yields at most one target per dot |
| MovableGraphs.DropFromKeepsBins | classes/movable_graph.py:35 | a run never adds or removes a bin |
| MovableGraphs.RunKeepsBins | classes/movable_graph.py:32-35 | a run keeps the bins, fails exactly when some dot's bin is missing, at the first such dot, and places every dot otherwise |
| MovableGraphs.DropFromStacks | classes/movable_graph.py:32-37 | each further dot lands on its bin's stack |
| MovableGraphs.RunStacks | classes/movable_graph.py:32-37 | every dot lands over its bin, above the earlier dots of that bin, and each slot ends raised by exactly the dots of its bin |
| MovableGraphs.LiftGrows | classes/movable_graph.py:35 | a bin's slot never sinks |
| MovableGraphs.StackedDotsApart | classes/movable_graph.py:35 | a later dot of the same bin sits at least the earlier one's radius plus the padding higher |
| MovableGraphs.MovableGraph.Build | classes/movable_graph.py:18-21 | stores the graph, its lines and labels, and the slots |
| MovableGraphs.MovableGraph.Create | classes/movable_graph.py:18-21 | the graph's own errors first, as `NewGraph` says; then slots need a horizontal axis; on success the drawn graph and one slot per bin |
| MovableGraphs.MovableGraph.FromGraph | classes/movable_graph.py:18-21 | drawing a checked graph succeeds exactly when it has a horizontal axis, and then holds its lines, labels and one slot per bin |
| MovableGraphs.MovableGraph.GetNextDotCoords | classes/movable_graph.py:23-37 | returns the target and updates the slots as `Place` says, or raises and changes nothing |
| MovableGraphs.MovableGraph.DragInDots | classes/movable_graph.py:39-82 | moves the dots in order onto their stacks as `Run` says; on a missing bin the dots before it have moved and, with `animate_rest`, none of the rest |
| MovableGraphs.MovableGraph.MoveEach | classes/movable_graph.py:61-82 | one loop moves its range of dots onto their stacks, stopping at the first missing bin |
| MovableGraphs.Dragged | classes/movable_graph.py:74-82 | the dots with the first `n` moved to their targets |
| MovableGraphs.DraggedMovesPrefix | classes/movable_graph.py:74-82 | exactly the first `n` dots moved, each to its own target, and nothing else about them changed |
| MovableGraphs.DraggedOneMore | classes/movable_graph.py:82 | moving one more dot changes only that dot |
| MovableGraphs.DraggedKeepsPrefix | classes/movable_graph.py:82 | later targets do not affect the dots already moved |
| MovableGraphs.DotsLandOverTheirBins | classes/movable_graph.py:19-37 | in a fresh graph a dot of bin `1..bins` lands over its bin's centre, stacked above the earlier dots of that bin |
| FunnelGeometry.NewFunnel | classes/funnel.py:36-45 | the left corner, then the right one, go through `ShapePoint`, whose first error is raised; otherwise the funnel keeps the validated corners, height, point radius and annotation |
| FunnelGeometry.Lines | classes/funnel.py:47-102 | vertical side walls of the given height; slanted walls from the corners to a neck 0.5 down, `3 * point_radius` wide around the centre; appendices 0.2 long; the bottom line 0.2 up and 0.2 past each wall |
| FunnelGeometry.Members | classes/funnel.py:104-120 | the seven lines in order, then the annotation at the bottom centre when `annot` is set |
| FunnelGeometry.CentreIsMidway | classes/funnel.py:53 | the centre is halfway between the side walls |
| FunnelGeometry.RightTopHeightIgnored | classes/funnel.py:47-50 | the right corner's height changes nothing |
| MovableFunnels.Classify | classes/movable_funnel.py:74-84 | left wall, right wall, neck, outside: each exactly when its own test, with the source's inclusive and strict bounds, holds and the earlier ones fail |
| MovableFunnels.WallY | classes/movable_funnel.py:88-92 | the point `(x, WallY(x))` lies on the line through the wall's two ends; a wall with no horizontal extent gives its start height |
| MovableFunnels.OutsideMeansBeyondTheWalls | classes/movable_funnel.py:74-84 | in a well-shaped funnel a dot is outside exactly when it is beyond a side wall |
| MovableFunnels.WallYBetween | classes/movable_funnel.py:88-92 | the wall height reproduces the endpoints and stays between them |
| MovableFunnels.Fall | classes/movable_funnel.py:63-104 | an outside dot gets no waypoints and leaves the stack alone; otherwise it ends at the centre on the stack, which rises by its radius plus 0.22; over a wall it first touches the wall 0.25 up, then the neck 0.1 above its end |
| MovableFunnels.FirstWaypointOnTheWall | classes/movable_funnel.py:86-95 | the first waypoint lies between the wall's heights, lifted by 0.25 |
| MovableFunnels.FallFrom | classes/movable_funnel.py:119-142 | one path per remaining dot |
| MovableFunnels.Falls | classes/movable_funnel.py:119-142 | one path per dot |
| MovableFunnels.FallFromStacks | classes/movable_funnel.py:99-102 | each further dot falls on the stack left by the dots before it |
| MovableFunnels.PathAtLands | classes/movable_funnel.py:84-99 | a dot has no final point exactly when it is outside; otherwise it lands at the centre |
| MovableFunnels.FallsRise | classes/movable_funnel.py:102 | the stack ends raised by exactly the dots that fell in |
| MovableFunnels.FallsStack | classes/movable_funnel.py:84-102 | a dot is skipped exactly when outside; every other dot lands at the centre above the earlier dots that fell in |
| MovableFunnels.RiseGrows | classes/movable_funnel.py:102 | the stack never sinks |
| MovableFunnels.FallenDotsApart | classes/movable_funnel.py:102 | a later dot that falls in sits at least the earlier one's radius plus 0.22 higher |
| MovableFunnels.Inside | classes/movable_funnel.py:133 | the slow count never exceeds the number of dots |
| MovableFunnels.InsideOneMore | classes/movable_funnel.py:123-133 | the count goes up exactly for a dot with waypoints |
| MovableFunnels.Landed | classes/movable_funnel.py:131-142 | the moved dots, one per dot |
| MovableFunnels.LandedMeaning | classes/movable_funnel.py:131-142 | a dot with a final point ends there; any other dot stays put |
| MovableFunnels.LandedOneMore | classes/movable_funnel.py:139-142 | handling one more dot changes only that dot |
| MovableFunnels.LandedKeepsPrefix | classes/movable_funnel.py:137-142 | later paths do not affect the dots already handled |
| MovableFunnels.MovableFunnel.Build | classes/movable_funnel.py:39-46 | the funnel's shape and run time, the stack starting two bottom shifts above the bottom, and no slow count yet |
| MovableFunnels.MovableFunnel.New | classes/movable_funnel.py:26-46 | raises exactly the errors of `Funnel.__init__`, and otherwise is a fresh movable funnel over that shape |
| MovableFunnels.MovableFunnel.GetNextDotsCoords | classes/movable_funnel.py:63-104 | returns the waypoints and updates the stack as `Fall` says |
| MovableFunnels.MovableFunnel.DragInDots | classes/movable_funnel.py:106-153 | the stack and paths follow `Falls`; `animated_slowly` counts the slow dots that fell in; the slow dots and, with `animate_rest`, the rest end on their final points |
| MovableFunnels.MovableFunnel.DragRest | classes/movable_funnel.py:135-142 | the rest of the dots fall as `Falls` says, moved as copies |
| FunnelRows.AnnotStep | classes/funnels.py:34 | `int(bins / count)`: within one of the quotient, on the side of zero, with its sign |
| FunnelRows.Step | classes/funnels.py:28 | the non-negative funnel width: `count` widths make the distance between the corners |
| FunnelRows.AnnotBins | classes/funnels.py:35 | the annotation boundaries `0, step, 2*step, ...` |
| FunnelRows.AnnotTexts | classes/funnels.py:36 | one text per consecutive pair of boundaries |
| FunnelRows.AnnotNamesItsBins | classes/funnels.py:34-36 | while `k*step` falls short of `int(bins)`, annotation `k` exists and reads `k*step + 1`, a dash, `(k+1)*step` |
| FunnelRows.ToIntIsTrunc | classes/funnels.py:34 | `int()` of a number is its truncation |
| FunnelRows.StepTimesCount | classes/funnels.py:34 | `count * step` does not overshoot `bins` |
| FunnelRows.EnoughAnnots | classes/funnels.py:34-44 | there is an annotation for every funnel, so `annots[i]` never raises |
| FunnelRows.TruncZero | classes/funnels.py:34 | `int(q)` is zero exactly on `(-1, 1)` |
| FunnelRows.QuotientInUnit | classes/funnels.py:34 | a quotient lies strictly between -1 and 1 exactly when the dividend is smaller in size than the divisor |
| FunnelRows.RangeStepZeroIff | classes/funnels.py:34-35 | `range` raises on a zero step exactly when there are fewer bins than funnels |
| FunnelRows.SpansAdjoin | classes/funnels.py:28-49 | the funnels are equally wide, share their height, and each starts where the previous ends |
| FunnelRows.RowEndsAtRightCorner | classes/funnels.py:28-49 | with the right corner to the right, the last funnel ends there |
| FunnelRows.CreateError | classes/funnels.py:23-35 | the left, then the right corner's `ShapePoint` error; then `ZeroDivisionError` exactly when `count == 0`; then `range`'s zero step exactly when there are fewer bins than funnels |
| FunnelRows.CreateErrorCases | classes/funnels.py:23-35 | a row fails exactly on a bad corner, `count == 0`, or fewer bins than funnels |
| FunnelRows.Insert | classes/funnels.py:55 | inserting keeps the same dots |
| FunnelRows.SortByValue | classes/funnels.py:55 | sorting keeps the same dots |
| FunnelRows.InsertSorted | classes/funnels.py:55 | inserting into sorted dots keeps them sorted |
| FunnelRows.SortByValueSorted | classes/funnels.py:55 | the dots come out in non-decreasing order of value |
| FunnelRows.SortByValueStable | classes/funnels.py:55 | dots of equal value keep their order |
| FunnelRows.WithValueInsert | classes/funnels.py:55 | inserting a dot puts it ahead of the dots of its own value and leaves the dots of other values as they were |
| FunnelRows.FunnelList.constructor | classes/funnels.py:9 | the shared list starts empty |
| FunnelRows.FloatCornerAccepted | classes/funnels.py:42 | a corner of two floats passes `ShapePoint` as that point |
| FunnelRows.FloatCornersBuild | classes/funnels.py:39-47 | a funnel over float corners raises nothing and spans exactly those corners |
| FunnelRows.IntArray | classes/shape_point.py:58 | an integer array is stored exactly for a corner of two `int`s, whose coordinates are then integers |
| FunnelRows.ReadBack | classes/funnels.py:29-31 | a read-back coordinate passes the number check exactly when it comes from a float array, and then keeps its value |
| FunnelRows.SourceCorners | classes/funnels.py:28-31 | the corners as written pass `ShapePoint` exactly when the left corner was not all `int`, and then are the ends of the funnel's span |
| FunnelRows.IntCornerRejected | classes/funnels.py:29-31 | with an all-`int` left corner, every funnel's left corner as written holds a numpy integer, which `ShapePoint` rejects |
| FunnelRows.OtherCornersAsFloats | classes/funnels.py:28-31 | any other left corner reaches the funnels as plain floats |
| FunnelRows.IntCornerExample | classes/funnels.py:23-42 | the row `((-6, 2), (6, 2))`, 2 funnels, 10 bins (with any run time, height and point radius) passes every check the row makes, yet its first funnel's left corner is rejected |
| FunnelRows.Funnels.Build | classes/funnels.py:23-26 | stores the corners, bins, count and members |
| FunnelRows.Funnels.Create | classes/funnels.py:11-51 | fails exactly as `CreateError` says and then changes nothing; otherwise `count` fresh funnels over the steps, built from float corners, with their annotations, appended to the shared list |
| FunnelRows.Funnels.BuildRow | classes/funnels.py:28-51 | the row once the checks have passed |
| FunnelRows.Funnels.AppendRow | classes/funnels.py:38-49 | the loop appends funnel after funnel over consecutive steps |
| FunnelRows.Funnels.AppendOne | classes/funnels.py:39-47 | one fresh funnel over its span, appended |
| FunnelRows.Funnels.DragInDots | classes/funnels.py:53-60 | the sorted dots go through every funnel in turn, each seeing them as the previous left them, and the slow budget shrinks by each funnel's slow count; from a non-negative start it stays non-negative and never grows |
| FunnelRows.Funnels.DragThrough | classes/funnels.py:58-60 | one funnel's `drag_in_dots` and the budget left after it |
| Tables.BoundaryClosedForm | classes/table.py:104-126 | vertical line `j` is at `x_left + j*distance/column_count`, or `x_left + distance*(w_0 + ... + w_{j-1})` with widths |
| Tables.EvenColumnsEndAtTheRight | classes/table.py:126 | without widths the last vertical line is at the right end |
| Tables.BoundariesIncrease | classes/table.py:118-126 | with valid widths and a non-empty edge the vertical lines go strictly rightwards |
| Tables.WidthErrorFrom | classes/table.py:118-122 | no error exactly when every width is a float in `(0, 1]` |
| Tables.WidthErrorNamesFirstBad | classes/table.py:118-122 | the error names the first bad column and whether it failed the float check or the range check |
| Tables.Verticals | classes/table.py:105-116 | one vertical line per column boundary |
| Tables.RowLines | classes/table.py:89-116 | a row is its horizontal line and its vertical lines |
| Tables.Grid | classes/table.py:89-132 | no lines for a negative row count; otherwise `(row_count+1) + row_count*(column_count+1)` lines, the last being the horizontal line under the last row |
| Tables.GridRowsLength | classes/table.py:89-116 | each row adds `column_count + 2` lines |
| Tables.GridRowsPrefix | classes/table.py:89-128 | the lines of fewer rows are a prefix of those of more rows |
| Tables.GridRowsAt | classes/table.py:89-128 | line `x` of row `r` is line `r*(column_count+2) + x` |
| Tables.GridLength | classes/table.py:89-116 | a table has `(row_count+1) + row_count*(column_count+1)` lines |
| Tables.GridClosingLine | classes/table.py:89-101 | the last line is the horizontal line under the last row: the loop breaks right after it |
| Tables.GridHorizontal | classes/table.py:89-98 | horizontal line `r` is at `y_0 - r*row_height`, spanning the top edge's x range |
| Tables.GridVertical | classes/table.py:104-113 | the vertical lines of row `r` are one row high, at the column boundaries |
| Tables.RowVerticals | classes/table.py:104-126 | the inner loop gives the row's vertical lines, or the first failing width assertion |
| Tables.CreateLines | classes/table.py:76-132 | `_create_table` gives the grid, or the first failing width assertion when there is a row to draw |
| Tables.InitError | classes/table.py:50-62 | no error exactly when there are points, the widths (if any) come one per column, the first two points are valid, and, when a row is drawn, every width is a float in `(0, 1]` |
| Tables.Table.Build | classes/table.py:59-72 | stores the layout and the lines |
| Tables.Table.New | classes/table.py:50-74 | the checks in order: empty points, width count, first corner, a missing second corner, second corner, widths; on success the validated layout and its grid |
| Tables.RowValue | classes/table.py:245-251 | the given start value if there is one; else an int `bins` below one raises, and otherwise a drawn value |
| Tables.RowColor | classes/table.py:253-256 | the colour is one of the given colours or red; an error names the index `int(value) - 1` |
| Tables.ColorChoice | classes/table.py:253-256 | a value from one to the number of colours picks that colour, a larger one red, and only a value below one can raise |
| Tables.NextCustomerY | classes/table.py:266 | each row is one row height below the previous |
| Tables.DotX | classes/table.py:260 | the dots' x lies 0.3 right of the left edge or further, right of the labels, and at most 0.3 past the right edge |
| Tables.DotPoint | classes/table.py:260 | the dot's point passes `ShapePoint` as the row's middle at the dots' x |
| Tables.CustomerRow | classes/table.py:223-266 | a row's label and dot sit at the same height, the label left of the dot |
| Tables.CustomerRowMeaning | classes/table.py:223-264 | a row fails exactly when its value or colour does; otherwise the label `"{text} {i+1}"` 0.2 right of the edge and a dot with the row's value and colour, both at the row's middle |
| Tables.Collect | classes/table.py:223-271 | one label and one dot per row |
| Tables.CollectAt | classes/table.py:223-271 | the rows succeed exactly when each row does, and come out in order |
| Tables.CollectStep | classes/table.py:239-264 | a row that succeeds adds its label and its dot |
| Tables.CollectFirstError | classes/table.py:223-271 | the error is that of the first failing row |
| Tables.CollectErrorSticks | classes/table.py:223-271 | once a row fails, later rows change nothing |
| Tables.CustomerRows | classes/table.py:223-271 | the first `n` rows succeed exactly when each of them does, giving `n` labels and `n` dots |
| Tables.PickValue | classes/table.py:245-251 | the value chosen as `RowValue` says |
| Tables.PickColor | classes/table.py:253-256 | the colour chosen as `RowColor` says |
| Tables.AddRow | classes/table.py:226-264 | one pass of the loop builds row `i` |
| Tables.AddDotsAndCustomers | classes/table.py:202-271 | the loop builds the rows in order, or stops at the first that raises |
| Tables.CustomerLayoutAccepted | classes/table.py:173-174 | the two-column table under the customers always passes the table's checks |
| Tables.DotInItsCell | classes/table.py:220-266 | a dot sits 0.3 right of the column boundary and strictly between its row's horizontal lines |
| Tables.RowLinesAround | classes/table.py:215-220 | the first column boundary and the row's horizontal lines, in the customers' terms |
| Tables.CustomersTable.Build | classes/table.py:171-178 | stores the table, the rows and the settings, text scale 0.6 and red as the default colour |
| Tables.CustomersTable.New | classes/table.py:138-200 | validates both corners first, then builds the rows, then the two-column table; errors in that order |

## Left out

- Rendering, animation and scene calls (`scene.play`, `wait`, `add`, `remove`, `Transform`, colours of lines, stroke widths, text scaling) are not modelled: they draw, they do not compute positions.
- The scene scripts that use these objects are not part of this model.
- Floating point is modelled by exact reals; rounding is not modelled.
- numpy scalar types are modelled only where a row of funnels reads a corner back from a stored point (`FunnelRows.ReadBack`); elsewhere a number is a Python `int` or `float`.
- `HistogramText` is modelled as a label (its text and where it is moved), not as a shape.
- Randomness: in the customers table, the value `random` yields after `random.seed(i + 1)` is an input `draw(i)`; its range is not modelled.
- `run_time` and `delay` only pace animations; they are stored or left out.
- Tables.CustomerRowMeaning: the label's position is the point it is moved to; `aligned_edge=LEFT_SIDE` is not modelled.
- MovableFunnels.WallY: numpy's `interp` with `period=10` is modelled as plain linear interpolation between the wall's two endpoints; the periodic wrap-around only matters for ends 10 or more units apart, and a wall with no horizontal extent is read at its start.
- MovableFunnels.MovableFunnel.DragInDots: with `animate_rest` off, the moved copies are added to the scene and removed again at once, and the originals are not moved; the model returns the copies' positions either way and says which ones replace the originals.
- Dots are values, not shared objects: a funnel row threads the dots from funnel to funnel explicitly, which is what the shared objects achieve in the source.
- FunnelRows.Funnels.Create: the `funnel` argument is always `MovableFunnel`; the row is never built from plain funnels.
- FunnelRows.Funnels.Create: builds every funnel from float corners; as written, an all-`int` left corner makes the first funnel raise (see Findings), which the row does not model.
- The class attribute `Funnels.funnels` is one list shared by every row; the model passes it in as a `FunnelList` object instead of a global.
- Graphs.CategoricalCreateGraph: the source returns `(texts, lines)` in that order where the caller expects `(lines, texts)`; only the order of the group's members changes, and the model returns both lists.
- Tables.Table.New: `columns_width=None` and the empty tuple are both falsy and both modelled as `[]`.
- Tables.CustomersTable.New: the members of the group (lines, then customers, then dots) are kept as separate fields.

## Findings

| source | as written | input that shows it | evidently intended | confidence | as-written member | corrected member |
|---|---|---|---|---|---|---|
| classes/funnels.py:29-31 | the first funnel's `x` and every funnel's `y` are read back from the stored left corner, a numpy array of integers when both coordinates were `int`, so they are `np.int64`, which `ShapePoint` rejects as neither `int` nor `float` | `Funnels(((-6, 2), (6, 2)), MovableFunnel, 2, 10, run_time=1, height=3, point_radius=0.2)` | funnels are built from plain numbers whatever the corner's types | not executed; medium | FunnelRows.IntCornerExample | FunnelRows.FloatCornerAccepted |
