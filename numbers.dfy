/**
 * The few pieces of Python arithmetic the core relies on: `int` and `float`
 * values, `int(x)`, `str(n)`, `range(start, stop, step)` and indexing with
 * negative positions. Floats are modelled as exact reals.
 */
module Numbers {
  import opened Wrappers

  /** A Python number together with its type: `int` or `float`. */
  datatype Number = Int(i: int) | Float(f: real) {

    /** The numeric value, as Python compares it (`2 == 2.0`). */
    function AsReal(): real {
      match this
      case Int(i) => i as real
      case Float(f) => f
    }

    /** Python's `int(x)`. */
    function ToInt(): (n: int)
      ensures Int? ==> n == i
      ensures Float? ==> n == Trunc(f)
    {
      match this
      case Int(i) => i
      case Float(f) => Trunc(f)
    }
  }

  /** Python's `int(r)` on a float: truncation toward zero. */
  function Trunc(r: real): (n: int)
    ensures 0.0 <= r ==> n as real <= r < n as real + 1.0
    ensures r < 0.0 ==> n as real - 1.0 < r <= n as real
  {
    if r >= 0.0 then r.Floor else -((-r).Floor)
  }

  function DigitChar(d: int): (c: char)
    requires 0 <= d < 10
    ensures '0' <= c <= '9'
  {
    "0123456789"[d]
  }

  function DigitValue(c: char): int {
    (c as int) - ('0' as int)
  }

  predicate IsDigits(s: string) {
    forall k :: 0 <= k < |s| ==> '0' <= s[k] <= '9'
  }

  /** Decimal notation of a natural number, without leading zeros. */
  function NatToString(n: nat): (s: string)
    ensures |s| >= 1 && IsDigits(s)
    ensures s[0] == '0' ==> n == 0
    decreases n
  {
    if n < 10 then [DigitChar(n)] else NatToString(n / 10) + [DigitChar(n % 10)]
  }

  /** Reads back a string of decimal digits. */
  function ParseNat(s: string): nat
    requires IsDigits(s)
  {
    if |s| == 0 then 0 else ParseNat(s[..|s| - 1]) * 10 + DigitValue(s[|s| - 1])
  }

  /** Python's `str(n)` for an `int`. */
  function IntToString(n: int): (s: string)
    ensures |s| >= 1
    ensures n >= 0 ==> IsDigits(s)
    ensures n < 0 ==> s[0] == '-' && IsDigits(s[1..])
  {
    if n < 0 then "-" + NatToString(-n) else NatToString(n)
  }

  /** Reading `str(n)` back gives `n`. */
  lemma {:induction false} NatToStringRoundTrip(n: nat)
    ensures ParseNat(NatToString(n)) == n
    decreases n
  {
    if n >= 10 {
      NatToStringRoundTrip(n / 10);
      var s := NatToString(n);
      assert s[..|s| - 1] == NatToString(n / 10);
    }
  }

  lemma NatToStringInjective(a: nat, b: nat)
    requires NatToString(a) == NatToString(b)
    ensures a == b
  {
    NatToStringRoundTrip(a);
    NatToStringRoundTrip(b);
  }

  /** Two strings that agree after a leading minus sign agree without it. */
  lemma DropSign(s: string, t: string)
    requires "-" + s == "-" + t
    ensures s == t
  {
    assert s == ("-" + s)[1..];
    assert t == ("-" + t)[1..];
  }

  /** Different integers are printed differently, so labels built from distinct numbers differ. */
  lemma {:induction false} IntToStringInjective(m: int, n: int)
    requires IntToString(m) == IntToString(n)
    ensures m == n
  {
    if m < 0 && n < 0 {
      DropSign(NatToString(-m), NatToString(-n));
      NatToStringInjective(-m, -n);
    } else if m >= 0 && n >= 0 {
      NatToStringInjective(m, n);
    }
  }

  /** Starting one step later is one step fewer. */
  lemma ShiftStep(start: int, n: int, step: int)
    ensures (start + step) + n * step == start + (n + 1) * step
  {
  }

  /** Python's `range(start, stop, step)` as a list. */
  function Range(start: int, stop: int, step: int): (r: seq<int>)
    requires step != 0
    ensures forall k :: 0 <= k < |r| ==> r[k] == start + k * step
    ensures forall k :: 0 <= k < |r| ==> (step > 0 ==> r[k] < stop) && (step < 0 ==> r[k] > stop)
    ensures step > 0 ==> start + |r| * step >= stop
    ensures step < 0 ==> start + |r| * step <= stop
    decreases if step > 0 then stop - start else start - stop
  {
    if (step > 0 && start < stop) || (step < 0 && start > stop) then
      var rest := Range(start + step, stop, step);
      var r := [start] + rest;
      assert forall k :: 0 <= k < |r| ==> r[k] == start + k * step by {
        forall k | 1 <= k < |r| ensures r[k] == start + k * step {
          ShiftStep(start, k - 1, step);
        }
      }
      ShiftStep(start, |rest|, step);
      r
    else
      []
  }

  /** `range` yields at least `m + 1` values when its `m`-th step still falls before `stop`. */
  lemma {:induction false} RangeLongEnough(start: int, stop: int, step: int, m: nat)
    requires step != 0
    requires step > 0 ==> start + m * step < stop
    requires step < 0 ==> start + m * step > stop
    ensures |Range(start, stop, step)| >= m + 1
    decreases m
  {
    if m > 0 {
      assert start + step + (m - 1) * step == start + m * step;
      if step > 0 {
        assert start < stop by {
          assert (m - 1) * step >= 0;
        }
      } else {
        assert start > stop by {
          assert (m - 1) * step <= 0;
        }
      }
      RangeLongEnough(start + step, stop, step, m - 1);
    } else {
      assert (step > 0 && start < stop) || (step < 0 && start > stop);
    }
  }

  /** Python's `s[k]`: a negative `k` counts from the end; `None` is an `IndexError`. */
  function PyIndex<T>(s: seq<T>, k: int): (r: Option<T>)
    ensures r.Some? <==> -|s| <= k < |s|
    ensures r.Some? && k >= 0 ==> r.value == s[k]
    ensures r.Some? && k < 0 ==> r.value == s[|s| + k]
  {
    if 0 <= k < |s| then Some(s[k])
    else if -|s| <= k < 0 then Some(s[|s| + k])
    else None
  }

  /** Python's slice bound `s[:k]` on a list of length `n`: how many elements it keeps. */
  function SliceLength(n: nat, k: int): (m: nat)
    ensures m <= n
    ensures 0 <= k ==> m == if k < n then k else n
    ensures k < 0 ==> m + (if -k < n then -k else n) == n
  {
    if k >= 0 then (if k < n then k else n)
    else if n + k >= 0 then n + k else 0
  }
}
