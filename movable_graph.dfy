/**
 * `Movable`, `MovableCategoricalGraph` and `MovableContinuousGraph`: a
 * graph that keeps, per bin, where the next dot dropped into that bin
 * goes, and moves dots there one after another so that they stack up.
 */
module MovableGraphs {
  import opened Wrappers
  import opened Numbers
  import opened Geometry
  import opened HistogramDots
  import opened Graphs

  /** `Movable.dot_padding`; it is shadowed by `Graph.dot_padding` in both movable graphs. */
  const MovableDotPadding: real := 0.0

  /**
   * Attribute lookup along the method resolution order: the first class
   * in `mro` that defines the attribute wins.
   */
  function LookUp(mro: seq<Option<real>>): (r: Option<real>)
    ensures r.None? <==> forall i :: 0 <= i < |mro| ==> mro[i].None?
    ensures r.Some? ==> exists i :: 0 <= i < |mro| && mro[i] == r && forall j :: 0 <= j < i ==> mro[j].None?
  {
    if mro == [] then None
    else if mro[0].Some? then mro[0]
    else
      var r := LookUp(mro[1..]);
      assert r.Some? ==> exists i :: 0 <= i < |mro[1..]| && mro[1..][i] == r && forall j :: 0 <= j < i ==> mro[1..][j].None?;
      assert r.Some? ==> exists i :: 0 <= i < |mro| && mro[i] == r && forall j :: 0 <= j < i ==> mro[j].None? by {
        if r.Some? {
          var i :| 0 <= i < |mro[1..]| && mro[1..][i] == r && forall j :: 0 <= j < i ==> mro[1..][j].None?;
          assert mro[i + 1] == r;
          assert forall j :: 0 <= j < i + 1 ==> mro[j].None? by {
            forall j | 0 <= j < i + 1
              ensures mro[j].None?
            {
              if j > 0 {
                assert mro[j] == mro[1..][j - 1];
              }
            }
          }
        }
      }
      r
  }

  /**
   * The `dot_padding` each class of `MovableCategoricalGraph`'s resolution
   * order defines: the class itself, `CategoricalGraph`, `Graph`, `Movable`.
   * (`MovableContinuousGraph` has the same shape.)
   */
  const DotPaddingAlongMro: seq<Option<real>> := [None, None, Some(GraphDotPadding), Some(MovableDotPadding)]

  /** `Graph` comes before `Movable`, so a movable graph pads dots by 0.25, not 0. */
  lemma MovableGraphPadding()
    ensures LookUp(DotPaddingAlongMro) == Some(0.25)
  {
    var mro := DotPaddingAlongMro;
    assert mro[1..][1..] == [Some(GraphDotPadding), Some(MovableDotPadding)];
    assert LookUp(mro[1..][1..]) == Some(GraphDotPadding);
    assert LookUp(mro[1..]) == Some(GraphDotPadding);
  }

  /** The padding the movable graphs use. */
  const DotPadding: real := GraphDotPadding

  /** The dictionary key of a dot: `int(dot.value)`, which truncates a float value. */
  function Key(dot: HistogramDot): (k: int)
    ensures Abs(k as real) <= Abs(dot.value.AsReal()) < Abs(k as real) + 1.0
    ensures k > 0 ==> dot.value.AsReal() > 0.0
    ensures k < 0 ==> dot.value.AsReal() < 0.0
  {
    dot.value.ToInt()
  }

  /** The `KeyError` raised when a dot's bin has no slot. */
  datatype KeyError = KeyError(key: int)

  /**
   * `_get_next_dot_coords` on a value: where the dot goes and the slots
   * afterwards. Reading uses `.get` with defaults, but the write-back
   * indexes the dictionary, so a missing bin raises before anything changes.
   */
  function Place(slots: map<int, Slot>, dot: HistogramDot): (r: Result<(Point, map<int, Slot>), KeyError>)
    ensures r.Err? <==> Key(dot) !in slots
    ensures r.Err? ==> r.error == KeyError(Key(dot))
    ensures r.Ok? ==>
      var (p, after) := r.value;
      && p == Flat(slots[Key(dot)].x, slots[Key(dot)].y)
      && (forall b :: b in after <==> b in slots)
      && after[Key(dot)].x == slots[Key(dot)].x
      && after[Key(dot)].y == slots[Key(dot)].y + dot.radius + DotPadding
      && (forall b :: b in slots && b != Key(dot) ==> after[b] == slots[b])
  {
    var k := Key(dot);
    if k !in slots then Err(KeyError(k))
    else
      var s := slots[k];
      Ok((Flat(s.x, s.y), slots[k := Slot(s.x, s.y + dot.radius + DotPadding)]))
  }

  /** The slots, the target of every dot placed so far, and the error that stopped the run, if any. */
  datatype RunState = RunState(slots: map<int, Slot>, targets: seq<Point>, error: Option<KeyError>)

  /**
   * Placing `dots[i..]` one after another, starting from `slots` with the
   * targets found so far; the first missing bin stops the run.
   */
  function DropFrom(slots: map<int, Slot>, targets: seq<Point>, dots: seq<HistogramDot>, i: nat): (r: RunState)
    requires i <= |dots|
    ensures |targets| <= |r.targets| <= |targets| + |dots| - i
    decreases |dots| - i
  {
    if i == |dots| then RunState(slots, targets, None)
    else
      match Place(slots, dots[i])
      case Err(e) => RunState(slots, targets, Some(e))
      case Ok((p, after)) => DropFrom(after, targets + [p], dots, i + 1)
  }

  /** Placing all of `dots`, in order, from `slots`. */
  function Run(slots: map<int, Slot>, dots: seq<HistogramDot>): (r: RunState)
    ensures |r.targets| <= |dots|
  {
    DropFrom(slots, [], dots, 0)
  }

  /** How far the dots of bin `b` among `dots` have raised that bin's slot. */
  function Lift(dots: seq<HistogramDot>, b: int): real
    decreases |dots|
  {
    if dots == [] then 0.0
    else
      var last := dots[|dots| - 1];
      Lift(dots[..|dots| - 1], b) + (if Key(last) == b then last.radius + DotPadding else 0.0)
  }

  lemma {:induction false} DropFromKeepsBins(slots: map<int, Slot>, targets: seq<Point>, dots: seq<HistogramDot>, i: nat)
    requires i <= |dots|
    ensures var r := DropFrom(slots, targets, dots, i);
      && targets <= r.targets
      && (forall b :: b in r.slots <==> b in slots)
      && (r.error.None? <==> forall k :: i <= k < |dots| ==> Key(dots[k]) in slots)
      && (r.error.None? ==> |r.targets| == |targets| + |dots| - i)
      && (r.error.Some? ==>
            var n := i + |r.targets| - |targets|;
            && i <= n < |dots|
            && r.error.value == KeyError(Key(dots[n]))
            && Key(dots[n]) !in slots
            && forall k :: i <= k < n ==> Key(dots[k]) in slots)
    decreases |dots| - i
  {
    if i < |dots| && Key(dots[i]) in slots {
      var (p, after) := Place(slots, dots[i]).value;
      DropFromKeepsBins(after, targets + [p], dots, i + 1);
    }
  }

  /**
   * A run never adds or removes bins, and it fails exactly when some dot's
   * bin is missing, reporting the first such dot; until then every dot
   * has been placed.
   */
  lemma RunKeepsBins(slots: map<int, Slot>, dots: seq<HistogramDot>)
    ensures forall b :: b in Run(slots, dots).slots <==> b in slots
    ensures Run(slots, dots).error.None? <==> forall i :: 0 <= i < |dots| ==> Key(dots[i]) in slots
    ensures Run(slots, dots).error.None? ==> |Run(slots, dots).targets| == |dots|
    ensures Run(slots, dots).error.Some? ==>
      var n := |Run(slots, dots).targets|;
      && n < |dots|
      && Run(slots, dots).error.value == KeyError(Key(dots[n]))
      && Key(dots[n]) !in slots
      && forall i :: 0 <= i < n ==> Key(dots[i]) in slots
  {
    DropFromKeepsBins(slots, [], dots, 0);
  }

  /** Where dot `i` lands: its bin's slot, raised by the dots of that bin before it. */
  function StackedAt(slots: map<int, Slot>, dots: seq<HistogramDot>, i: int): Point
    requires 0 <= i < |dots| && Key(dots[i]) in slots
  {
    var s := slots[Key(dots[i])];
    Flat(s.x, s.y + Lift(dots[..i], Key(dots[i])))
  }

  /** The state after the first `i` dots of a run in which every dot has a bin. */
  ghost predicate StackedUpTo(start: map<int, Slot>, dots: seq<HistogramDot>, i: nat, slots: map<int, Slot>, targets: seq<Point>)
    requires i <= |dots| && forall k :: 0 <= k < |dots| ==> Key(dots[k]) in start
  {
    && (forall b :: b in slots <==> b in start)
    && (forall b :: b in start ==> slots[b] == Slot(start[b].x, start[b].y + Lift(dots[..i], b)))
    && |targets| == i
    && (forall k :: 0 <= k < i ==> targets[k] == StackedAt(start, dots, k))
  }

  lemma {:induction false} DropFromStacks(start: map<int, Slot>, dots: seq<HistogramDot>, i: nat, slots: map<int, Slot>, targets: seq<Point>)
    requires i <= |dots| && forall k :: 0 <= k < |dots| ==> Key(dots[k]) in start
    requires StackedUpTo(start, dots, i, slots, targets)
    ensures var r := DropFrom(slots, targets, dots, i);
      r.error.None? && StackedUpTo(start, dots, |dots|, r.slots, r.targets)
    decreases |dots| - i
  {
    if i < |dots| {
      var k := Key(dots[i]);
      var (p, after) := Place(slots, dots[i]).value;
      assert dots[..i + 1][..i] == dots[..i];
      assert p == StackedAt(start, dots, i);
      assert StackedUpTo(start, dots, i + 1, after, targets + [p]);
      DropFromStacks(start, dots, i + 1, after, targets + [p]);
    } else {
      assert dots[..i] == dots;
    }
  }

  /**
   * A run in which every dot has a bin: every dot lands on top of the dots
   * of its bin that came before it, and every bin's slot ends up raised by
   * the dots that went into it.
   */
  lemma RunStacks(slots: map<int, Slot>, dots: seq<HistogramDot>)
    requires forall i :: 0 <= i < |dots| ==> Key(dots[i]) in slots
    ensures Run(slots, dots).error.None?
    ensures |Run(slots, dots).targets| == |dots|
    ensures forall i :: 0 <= i < |dots| ==> Run(slots, dots).targets[i] == StackedAt(slots, dots, i)
    ensures forall b :: b in slots ==> b in Run(slots, dots).slots && Run(slots, dots).slots[b] == Slot(slots[b].x, slots[b].y + Lift(dots, b))
  {
    assert dots[..0] == [];
    assert StackedUpTo(slots, dots, 0, slots, []);
    DropFromStacks(slots, dots, 0, slots, []);
    assert dots[..|dots|] == dots;
  }

  /** Dots never lower a bin's slot: a longer prefix has lifted each bin at least as far. */
  lemma {:induction false} LiftGrows(dots: seq<HistogramDot>, b: int, i: nat, j: nat)
    requires i <= j <= |dots|
    requires forall k :: 0 <= k < |dots| ==> dots[k].radius >= 0.0
    ensures Lift(dots[..j], b) >= Lift(dots[..i], b)
    decreases j - i
  {
    if i < j {
      LiftGrows(dots, b, i, j - 1);
      assert dots[..j][..j - 1] == dots[..j - 1];
    }
  }

  /**
   * Two dots of the same bin never land on the same spot: a later one sits
   * at least the earlier one's radius plus the padding above it.
   */
  lemma StackedDotsApart(slots: map<int, Slot>, dots: seq<HistogramDot>, i: int, j: int)
    requires forall k :: 0 <= k < |dots| ==> Key(dots[k]) in slots && dots[k].radius >= 0.0
    requires 0 <= i < j < |dots| && Key(dots[i]) == Key(dots[j])
    ensures var t := Run(slots, dots).targets;
      && |t| == |dots|
      && t[j].x == t[i].x
      && t[j].y >= t[i].y + dots[i].radius + DotPadding
  {
    RunStacks(slots, dots);
    LiftGrows(dots, Key(dots[i]), i + 1, j);
    assert dots[..i + 1][..i] == dots[..i];
  }

  /** Both movable graphs. */
  datatype GraphKind = Categorical | Continuous

  /** `m` holds graph `g` drawn as a `kind` graph, with one slot per bin. */
  ghost predicate Drawn(m: MovableGraph, g: Graph, kind: GraphKind)
    reads m
  {
    && m.graph == g
    && g.horizontal.Some?
    && SlotsOfBins(g, m.nextDotCoords)
    && (kind == Continuous ==> (m.lines, m.texts) == ContinuousCreateGraph(g))
    && (kind == Categorical ==>
          && m.lines == [g.horizontal.value] + CategoricalXTicks(g) + (if g.vertical.Some? then [g.vertical.value] + CategoricalYTicks(g) else [])
          && m.texts == CategoricalXLabels(g) + (if g.vertical.Some? then CategoricalYLabels(g) else []))
  }

  class MovableGraph {
    const graph: Graph
    /** The axis lines and tick marks the graph was built from. */
    const lines: seq<Segment>
    /** The bin labels. */
    const texts: seq<Label>
    /** `_next_dots_coords`: for every bin, where its next dot goes. */
    var nextDotCoords: map<int, Slot>

    constructor Build(g: Graph, lines: seq<Segment>, texts: seq<Label>, slots: map<int, Slot>)
      ensures graph == g && this.lines == lines && this.texts == texts && nextDotCoords == slots
    {
      graph := g;
      this.lines := lines;
      this.texts := texts;
      nextDotCoords := slots;
    }

    /**
     * `MovableCategoricalGraph(...)` / `MovableContinuousGraph(...)`:
     * `Graph.__init__` checks its arguments and draws the graph, then
     * `Movable.__init__` prepares one slot per bin, which needs the
     * horizontal line.
     */
    static method Create(h: AxisArg, v: AxisArg, bins: int, annot: bool, kind: GraphKind)
      returns (r: Result<MovableGraph, GraphError>)
      ensures NewGraph(h, v, bins, annot).Err? ==> r == Err(NewGraph(h, v, bins, annot).error)
      ensures NewGraph(h, v, bins, annot).Ok? ==> (r.Ok? <==> h != [])
      ensures NewGraph(h, v, bins, annot).Ok? && h == [] ==> r == Err(NoHorizontalLine)
      ensures r.Ok? ==> fresh(r.value) && Drawn(r.value, NewGraph(h, v, bins, annot).value, kind)
    {
      var made := NewGraph(h, v, bins, annot);
      if made.Err? {
        return Err(made.error);
      }
      r := FromGraph(made.value, kind);
    }

    /** The part of `Create` after the argument checks: drawing, then the slots. */
    static method FromGraph(g: Graph, kind: GraphKind) returns (r: Result<MovableGraph, GraphError>)
      ensures r.Ok? <==> g.horizontal.Some?
      ensures r.Err? ==> r.error == NoHorizontalLine
      ensures r.Ok? ==> fresh(r.value) && Drawn(r.value, g, kind)
    {
      var lines, texts;
      if kind == Categorical {
        texts, lines := CategoricalCreateGraph(g);
      } else {
        lines, texts := ContinuousCreateGraph(g).0, ContinuousCreateGraph(g).1;
      }
      var slots := PrepareNextDotCoords(g);
      if slots.Err? {
        return Err(slots.error);
      }
      var m := new MovableGraph.Build(g, lines, texts, slots.value);
      r := Ok(m);
    }

    /**
     * `_get_next_dot_coords`: where `dot` goes; that bin's slot rises by
     * the dot's radius plus the padding. A dot whose bin has no slot
     * raises `KeyError` and changes nothing.
     */
    method GetNextDotCoords(dot: HistogramDot) returns (r: Result<Point, KeyError>)
      modifies this
      ensures Place(old(nextDotCoords), dot).Err? ==>
        r == Err(Place(old(nextDotCoords), dot).error) && nextDotCoords == old(nextDotCoords)
      ensures Place(old(nextDotCoords), dot).Ok? ==>
        r == Ok(Place(old(nextDotCoords), dot).value.0) && nextDotCoords == Place(old(nextDotCoords), dot).value.1
    {
      var k := Key(dot);
      if k !in nextDotCoords {
        return Err(KeyError(k));
      }
      var current := nextDotCoords[k];
      nextDotCoords := nextDotCoords[k := Slot(current.x, current.y + dot.radius + DotPadding)];
      r := Ok(Flat(current.x, current.y));
    }

    /**
     * `drag_in_dots`: the first `animate_slow` dots (a Python slice bound,
     * so negative counts from the end), then the rest, each moved onto its
     * bin's stack. A missing bin raises `KeyError` and stops the run. With
     * `animate_rest` the rest are moved as copies and only transformed
     * onto the originals at the end, so if the error comes among the rest,
     * none of the rest has moved.
     */
    method DragInDots(dots: seq<HistogramDot>, animateSlow: int, animateRest: bool)
      returns (moved: seq<HistogramDot>, err: Option<KeyError>)
      modifies this
      ensures var run := Run(old(nextDotCoords), dots);
        && nextDotCoords == run.slots
        && err == run.error
        && moved == Dragged(dots, run.targets,
             if err.Some? && animateRest then Min(|run.targets|, SliceLength(|dots|, animateSlow)) else |run.targets|)
    {
      ghost var start := nextDotCoords;
      var slow := SliceLength(|dots|, animateSlow);
      assert Dragged(dots, [], 0) == dots;
      var targets;
      targets, moved, err := MoveEach(dots, 0, slow, start, [], dots);
      if err.Some? {
        return;
      }
      // With `animate_rest` the rest are moved as deep copies; the originals
      // only follow once every copy has been placed.
      var all, rest;
      all, rest, err := MoveEach(dots, slow, |dots|, start, targets, moved);
      DraggedKeepsPrefix(dots, targets, all, slow);
      if err.None? || !animateRest {
        moved := rest;
      }
    }

    /**
     * One `for dot in ...` loop of `drag_in_dots`: moves `dots[from..to]`
     * in order onto their bins' stacks, stopping at the first missing bin.
     * `targets` and `moved` carry on from the dots handled before `from`.
     */
    method MoveEach(dots: seq<HistogramDot>, from: nat, to: nat, ghost start: map<int, Slot>,
                    targets0: seq<Point>, moved0: seq<HistogramDot>)
      returns (targets: seq<Point>, moved: seq<HistogramDot>, err: Option<KeyError>)
      requires from <= to <= |dots|
      requires DropFrom(nextDotCoords, targets0, dots, from) == Run(start, dots)
      requires |targets0| == from && moved0 == Dragged(dots, targets0, from)
      modifies this
      ensures targets0 <= targets
      ensures err.None? ==>
        && |targets| == to
        && DropFrom(nextDotCoords, targets, dots, to) == Run(start, dots)
        && moved == Dragged(dots, targets, to)
      ensures err.Some? ==>
        && Run(start, dots) == RunState(nextDotCoords, targets, err)
        && from <= |targets| < to
        && moved == Dragged(dots, targets, |targets|)
    {
      targets, moved, err := targets0, moved0, None;
      var i := from;
      while i < to
        invariant from <= i <= to
        invariant DropFrom(nextDotCoords, targets, dots, i) == Run(start, dots)
        invariant |targets| == i && targets0 <= targets
        invariant moved == Dragged(dots, targets, i)
      {
        var p := GetNextDotCoords(dots[i]);
        if p.Err? {
          err := Some(p.error);
          return;
        }
        DraggedOneMore(dots, targets, p.value);
        targets := targets + [p.value];
        moved := moved[i := MoveTo(dots[i], p.value)];
        i := i + 1;
      }
    }
  }

  /** `dots` with the first `n` of them moved to their targets and the others untouched. */
  function Dragged(dots: seq<HistogramDot>, targets: seq<Point>, n: int): (moved: seq<HistogramDot>)
    requires 0 <= n <= |targets| && n <= |dots|
    ensures |moved| == |dots|
  {
    seq(|dots|, k requires 0 <= k < |dots| => if k < n then MoveTo(dots[k], targets[k]) else dots[k])
  }

  /** Exactly the first `n` dots have moved, each to its own target, and nothing else about them changed. */
  lemma DraggedMovesPrefix(dots: seq<HistogramDot>, targets: seq<Point>, n: int, k: int)
    requires 0 <= n <= |targets| && n <= |dots| && 0 <= k < |dots|
    ensures k < n ==> Dragged(dots, targets, n)[k].centre == targets[k]
    ensures k >= n ==> Dragged(dots, targets, n)[k] == dots[k]
    ensures Dragged(dots, targets, n)[k].(centre := dots[k].centre) == dots[k]
  {
  }

  lemma DraggedOneMore(dots: seq<HistogramDot>, targets: seq<Point>, p: Point)
    requires |targets| < |dots|
    ensures Dragged(dots, targets + [p], |targets| + 1) == Dragged(dots, targets, |targets|)[|targets| := MoveTo(dots[|targets|], p)]
  {
  }

  lemma DraggedKeepsPrefix(dots: seq<HistogramDot>, targets: seq<Point>, more: seq<Point>, n: int)
    requires 0 <= n <= |targets| && n <= |dots| && targets <= more
    ensures Dragged(dots, more, n) == Dragged(dots, targets, n)
  {
  }

  /**
   * Dropping dots into a freshly built movable graph: a dot whose value
   * truncates to a bin `1..bins` lands over that bin's centre, stacked
   * above the dots of the same bin that came before it.
   */
  lemma DotsLandOverTheirBins(g: Graph, slots: map<int, Slot>, dots: seq<HistogramDot>, i: int)
    requires g.horizontal.Some? && SlotsOfBins(g, slots)
    requires forall k :: 0 <= k < |dots| ==> 1 <= Key(dots[k]) <= g.bins
    requires 0 <= i < |dots|
    ensures Run(slots, dots).error.None?
    ensures var t := Run(slots, dots).targets;
      |t| == |dots| && t[i].x == BinCentreX(g, Key(dots[i]))
    ensures var t := Run(slots, dots).targets;
      |t| == |dots| && t[i].y == g.horizontal.value.start.y + SlotLift + Lift(dots[..i], Key(dots[i]))
  {
    RunStacks(slots, dots);
  }
}
