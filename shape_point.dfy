/**
 * `ShapePoint`: validates a 2-D screen point and stores it as `(x, y, 0)`.
 * The value handed to the `coords` setter is described by its Python type:
 * a tuple, an ndarray, or anything else; each element is an `int`, a
 * `float`, or something else.
 */
module ShapePoints {
  import opened Wrappers
  import opened Numbers
  import opened Geometry

  /** One element of the value given to the setter. */
  datatype Scalar = Num(n: Number) | NotNumber

  /** The value given to the setter. */
  datatype CoordsValue = Tuple(items: seq<Scalar>) | NdArray(items: seq<Scalar>) | Other

  /** Why a `ShapePointTypeError` was raised. */
  datatype TypeErrorCause = NotTupleOrArray | CoordNotNumber(index: nat)

  /** `ShapePointTypeError` and `ShapePointTooManyValuesException`. */
  datatype ShapePointError = ShapePointTypeError(cause: TypeErrorCause) | ShapePointTooManyValues

  /** The elements the length check sees: an ndarray is first cut to `value[:2]`. */
  function Candidates(value: CoordsValue): (s: seq<Scalar>)
    requires !value.Other?
    ensures s <= value.items
    ensures |s| == if value.NdArray? && |value.items| > 2 then 2 else |value.items|
  {
    if value.NdArray? then value.items[..SliceLength(|value.items|, 2)] else value.items
  }

  /** Index of the first element that is neither an `int` nor a `float`, as the check loop meets it. */
  function FirstNonNumber(s: seq<Scalar>): (r: Option<nat>)
    ensures r.None? <==> forall k :: 0 <= k < |s| ==> s[k].Num?
    ensures r.Some? ==> r.value < |s| && s[r.value].NotNumber? && forall k :: 0 <= k < r.value ==> s[k].Num?
  {
    if |s| == 0 then None
    else if s[0].NotNumber? then Some(0)
    else match FirstNonNumber(s[1..])
      case None => None
      case Some(k) => Some(k + 1)
  }

  /** The `coords` setter's checks, in their order; on success the point to store. */
  function Validate(value: CoordsValue): (r: Result<Point, ShapePointError>)
    ensures value.Other? ==> r == Err(ShapePointTypeError(NotTupleOrArray))
    ensures value.Tuple? && |value.items| != 2 ==> r == Err(ShapePointTooManyValues)
    ensures value.NdArray? && |value.items| < 2 ==> r == Err(ShapePointTooManyValues)
    ensures r.Ok? <==>
      && !value.Other?
      && |value.items| >= 2
      && (value.Tuple? ==> |value.items| == 2)
      && value.items[0].Num? && value.items[1].Num?
    ensures r.Ok? ==> r.value == Flat(value.items[0].n.AsReal(), value.items[1].n.AsReal())
    ensures !value.Other? && |value.items| >= 2 && (value.Tuple? ==> |value.items| == 2)
            && !(value.items[0].Num? && value.items[1].Num?) ==>
      r == Err(ShapePointTypeError(CoordNotNumber(if value.items[0].NotNumber? then 0 else 1)))
    ensures r.Err? && r.error.ShapePointTypeError? && r.error.cause.CoordNotNumber? ==>
      var k := r.error.cause.index;
      k < 2 && value.items[k].NotNumber? && forall j :: 0 <= j < k ==> value.items[j].Num?
  {
    if value.Other? then Err(ShapePointTypeError(NotTupleOrArray))
    else
      var s := Candidates(value);
      if |s| != 2 then Err(ShapePointTooManyValues)
      else match FirstNonNumber(s)
        case Some(k) => Err(ShapePointTypeError(CoordNotNumber(k)))
        case None => Ok(Flat(s[0].n.AsReal(), s[1].n.AsReal()))
  }

  /**
   * Two `ShapePoint`s built one after the other, as every constructor
   * builds the two ends of a line: the first error raised, or both points.
   */
  function ValidateBoth(first: CoordsValue, second: CoordsValue): (r: Result<(Point, Point), ShapePointError>)
    ensures r.Ok? <==> Validate(first).Ok? && Validate(second).Ok?
    ensures Validate(first).Err? ==> r == Err(Validate(first).error)
    ensures Validate(first).Ok? && Validate(second).Err? ==> r == Err(Validate(second).error)
    ensures r.Ok? ==> r.value == (Validate(first).value, Validate(second).value)
  {
    match Validate(first)
    case Err(e) => Err(e)
    case Ok(p) =>
      match Validate(second)
      case Err(e) => Err(e)
      case Ok(q) => Ok((p, q))
  }

  /** An `IndexError` from ndarray indexing. */
  datatype IndexError = IndexError(item: int)

  class ShapePoint {
    /** `_coords`, the validated point. */
    var coords: Point

    ghost predicate Valid()
      reads this
    {
      coords.z == 0.0
    }

    /** Stores an already validated point. */
    constructor FromPoint(p: Point)
      requires p.z == 0.0
      ensures Valid() && coords == p
    {
      coords := p;
    }

    /** `ShapePoint(coords)`: construction runs the setter, which raises on a bad value. */
    static method New(value: CoordsValue) returns (r: Result<ShapePoint, ShapePointError>)
      ensures r.Ok? <==> Validate(value).Ok?
      ensures r.Err? ==> r.error == Validate(value).error
      ensures r.Ok? ==> fresh(r.value) && r.value.Valid() && r.value.coords == Validate(value).value
    {
      var v := Validate(value);
      if v.Err? {
        r := Err(v.error);
      } else {
        var sp := new ShapePoint.FromPoint(v.value);
        r := Ok(sp);
      }
    }

    /**
     * The `coords` setter. The store is its last step, so a rejected value
     * leaves the previous point in place.
     */
    method SetCoords(value: CoordsValue) returns (err: Option<ShapePointError>)
      requires Valid()
      modifies this
      ensures Valid()
      ensures err.None? <==> Validate(value).Ok?
      ensures err.Some? ==> err.value == Validate(value).error && coords == old(coords)
      ensures err.None? ==> coords == Validate(value).value
    {
      match Validate(value)
      case Err(e) => err := Some(e);
      case Ok(p) =>
        coords := p;
        err := None;
    }

    /** `p[item]`: integer indexing of the stored 3-element array. */
    function Get(item: int): (r: Result<real, IndexError>)
      reads this
      requires Valid()
      ensures r.Ok? <==> -3 <= item < 3
      ensures item == 0 || item == -3 ==> r == Ok(coords.x)
      ensures item == 1 || item == -2 ==> r == Ok(coords.y)
      ensures item == 2 || item == -1 ==> r == Ok(0.0)
    {
      var k := if item < 0 then item + 3 else item;
      if k == 0 then Ok(coords.x)
      else if k == 1 then Ok(coords.y)
      else if k == 2 then Ok(coords.z)
      else Err(IndexError(item))
    }
  }

  /** An ndarray longer than two is accepted: only its first two entries count. */
  lemma LongArrayAccepted(a: Number, b: Number, rest: seq<Scalar>)
    ensures Validate(NdArray([Num(a), Num(b)] + rest)) == Ok(Flat(a.AsReal(), b.AsReal()))
  {
  }

  /** A tuple must have exactly two elements, shorter ones included. */
  lemma TupleNeedsTwo(items: seq<Scalar>)
    requires |items| != 2
    ensures Validate(Tuple(items)) == Err(ShapePointTooManyValues)
  {
  }

  /** Setting a valid point and reading it back gives `(x, y, 0)`. */
  method SetThenRead(p: ShapePoint, x: Number, y: Number) returns (got: seq<real>)
    requires p.Valid()
    modifies p
    ensures got == [x.AsReal(), y.AsReal(), 0.0]
  {
    var err := p.SetCoords(Tuple([Num(x), Num(y)]));
    assert err.None?;
    var a := p.Get(0);
    var b := p.Get(1);
    var c := p.Get(2);
    got := [a.value, b.value, c.value];
  }
}
