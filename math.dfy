/**
 * Numeric primitives shared by the indicators (src/common/math.rs).
 * Rust's f64 is modelled as `real`; the square root is a parameter of
 * type `Root`, of which only non-negativity is known.
 */
module CommonMath {
  import opened Wrappers

  /** f64::EPSILON, that is 2^-52. */
  const Epsilon: real := 1.0 / 4503599627370496.0

  type NonNegReal = r: real | r >= 0.0

  /** The square root as the model sees it: some function with non-negative results. */
  type Root = real -> NonNegReal

  function Abs(x: real): (r: real)
    ensures r >= 0.0 && (r == x || r == -x)
  {
    if x < 0.0 then -x else x
  }

  function Max(a: real, b: real): (r: real)
    ensures r >= a && r >= b && (r == a || r == b)
  {
    if a >= b then a else b
  }

  function Min(a: real, b: real): (r: real)
    ensures r <= a && r <= b && (r == a || r == b)
  {
    if a <= b then a else b
  }

  lemma ProductNonNegative(a: real, b: real)
    requires a >= 0.0 && b >= 0.0
    ensures a * b >= 0.0
  {
  }

  lemma ProductPositive(a: real, b: real)
    requires a > 0.0 && b > 0.0
    ensures a * b > 0.0
  {
  }

  /** A positive factor does not change the sign of a product. */
  lemma SignOfProduct(a: real, b: real)
    requires b > 0.0
    ensures a * b > 0.0 <==> a > 0.0
    ensures a * b < 0.0 <==> a < 0.0
  {
    if a > 0.0 {
      ProductPositive(a, b);
    } else if a < 0.0 {
      ProductPositive(-a, b);
    }
  }

  lemma SquareNonNegative(x: real)
    ensures x * x >= 0.0
  {
    if x < 0.0 {
      ProductNonNegative(-x, -x);
    } else {
      ProductNonNegative(x, x);
    }
  }

  lemma QuotientNonNegative(a: real, b: real)
    requires a >= 0.0 && b > 0.0
    ensures a / b >= 0.0
  {
    var q := a / b;
    assert q * b == a;
    if q < 0.0 {
      ProductNonNegative(-q, b);
      assert false;
    }
  }

  lemma QuotientPositive(a: real, b: real)
    requires a > 0.0 && b > 0.0
    ensures a / b > 0.0
  {
    var q := a / b;
    assert q * b == a;
    if q <= 0.0 {
      ProductNonNegative(-q, b);
      assert false;
    }
  }

  /** Scaling by a factor in [0, 1] moves a value towards zero. */
  lemma ScaleTowardsZero(m: real, d: real)
    requires 0.0 <= m <= 1.0
    ensures d >= 0.0 ==> 0.0 <= m * d <= d
    ensures d < 0.0 ==> d <= m * d <= 0.0
  {
    if d >= 0.0 {
      ProductNonNegative(m, d);
      ProductNonNegative(1.0 - m, d);
    } else {
      ProductNonNegative(m, -d);
      ProductNonNegative(1.0 - m, -d);
    }
  }

  function Sum(s: seq<real>): real
  {
    if |s| == 0 then 0.0 else Sum(s[..|s| - 1]) + s[|s| - 1]
  }

  /** Wilder's smoothing: the previous average weighted (period - 1) to one against the new value. */
  function Wilder(previous: real, value: real, period: nat): real
    requires period >= 1
  {
    (previous * (period - 1) as real + value) / period as real
  }

  /** Wilder's smoothing of non-negative values is non-negative. */
  lemma WilderNonNegative(previous: real, value: real, period: nat)
    requires period >= 1 && previous >= 0.0 && value >= 0.0
    ensures Wilder(previous, value, period) >= 0.0
  {
    ProductNonNegative(previous, (period - 1) as real);
    QuotientNonNegative(previous * (period - 1) as real + value, period as real);
  }

  /** Smoothing a positive value into a non-negative average gives a positive average. */
  lemma WilderPositive(previous: real, value: real, period: nat)
    requires period >= 1 && previous >= 0.0 && value > 0.0
    ensures Wilder(previous, value, period) > 0.0
  {
    ProductNonNegative(previous, (period - 1) as real);
    QuotientPositive(previous * (period - 1) as real + value, period as real);
  }

  predicate AllNonNegative(s: seq<real>)
  {
    forall i :: 0 <= i < |s| ==> s[i] >= 0.0
  }

  function Mean(s: seq<real>): real
    requires |s| > 0
  {
    Sum(s) / |s| as real
  }

  /** Sum of the squared distances of the values from `m`. */
  function SquaredDeviations(s: seq<real>, m: real): real
  {
    if |s| == 0 then 0.0
    else SquaredDeviations(s[..|s| - 1], m) + (s[|s| - 1] - m) * (s[|s| - 1] - m)
  }

  function PopulationVariance(s: seq<real>): real
    requires |s| > 0
  {
    SquaredDeviations(s, Mean(s)) / |s| as real
  }

  /**
   * The last `n` elements of `s`, oldest first. The source reads the same
   * window newest first (`rev().take(n)`); only its sum is used, so the order
   * does not matter.
   */
  function LastN<T>(s: seq<T>, n: nat): (r: seq<T>)
    requires n <= |s|
    ensures |r| == n && forall i :: 0 <= i < n ==> r[i] == s[|s| - n + i]
  {
    s[|s| - n..]
  }

  /**
   * Appending to a bounded window the way the trackers do it:
   * push, then remove the front element once if the window got longer than `cap`.
   */
  function SlideWindow<T>(w: seq<T>, x: T, cap: nat): (r: seq<T>)
    ensures |w| <= cap ==> |r| <= cap
    ensures cap >= 1 ==> |r| >= 1 && r[|r| - 1] == x
    ensures |w| < cap ==> r == w + [x]
  {
    var pushed := w + [x];
    if |pushed| > cap then pushed[1..] else pushed
  }

  /** Sliding a non-negative value into a non-negative window keeps it non-negative. */
  lemma SlideWindowNonNegative(w: seq<real>, x: real, cap: nat)
    requires AllNonNegative(w) && x >= 0.0
    ensures AllNonNegative(SlideWindow(w, x, cap))
  {
    var r := SlideWindow(w, x, cap);
    forall i | 0 <= i < |r| ensures r[i] >= 0.0 {
      if |w + [x]| > cap {
        assert r[i] == (w + [x])[i + 1];
      } else {
        assert r[i] == (w + [x])[i];
      }
    }
  }

  /** The window after sliding every element of `xs` into an initially empty window. */
  function SlideAll<T>(xs: seq<T>, cap: nat): seq<T>
  {
    if |xs| == 0 then [] else SlideWindow(SlideAll(xs[..|xs| - 1], cap), xs[|xs| - 1], cap)
  }

  /** A window fed one element at a time holds exactly the `cap` most recent elements. */
  lemma {:induction false} SlideAllKeepsMostRecent<T>(xs: seq<T>, cap: nat)
    ensures SlideAll(xs, cap) == xs[|xs| - (if |xs| < cap then |xs| else cap)..]
  {
    if |xs| > 0 {
      var init := xs[..|xs| - 1];
      var x := xs[|xs| - 1];
      SlideAllKeepsMostRecent(init, cap);
      var w := SlideAll(init, cap);
      assert SlideAll(xs, cap) == SlideWindow(w, x, cap);
      if |init| < cap {
        assert w == init;
        assert w + [x] == xs;
      } else {
        assert w == init[|init| - cap..];
        assert (w + [x])[1..] == xs[|xs| - cap..];
      }
    }
  }

  /** A mean lies between any bounds its values keep. */
  lemma MeanWithin(s: seq<real>, lo: real, hi: real)
    requires |s| > 0 && forall i :: 0 <= i < |s| ==> lo <= s[i] <= hi
    ensures lo <= Mean(s) <= hi
  {
    SumBounds(s, lo, hi);
    assert Mean(s) * |s| as real == Sum(s);
  }

  /** Simple moving average of the last `period` values. */
  function Sma(values: seq<real>, period: nat): (r: Option<real>)
    requires period > 0
    ensures r.None? <==> |values| < period
    ensures r.Some? ==> r.value == Mean(LastN(values, period))
  {
    if |values| < period then None else Some(Sum(LastN(values, period)) / period as real)
  }

  lemma {:induction false} SumBounds(s: seq<real>, lo: real, hi: real)
    requires forall i :: 0 <= i < |s| ==> lo <= s[i] <= hi
    ensures |s| as real * lo <= Sum(s) <= |s| as real * hi
  {
    if |s| > 0 {
      SumBounds(s[..|s| - 1], lo, hi);
    }
  }

  lemma {:induction false} SumOfConstant(s: seq<real>, c: real)
    requires forall i :: 0 <= i < |s| ==> s[i] == c
    ensures Sum(s) == |s| as real * c
  {
    if |s| > 0 {
      SumOfConstant(s[..|s| - 1], c);
    }
  }

  lemma {:induction false} SumNonNegative(s: seq<real>)
    requires forall i :: 0 <= i < |s| ==> s[i] >= 0.0
    ensures Sum(s) >= 0.0
  {
    if |s| > 0 {
      SumNonNegative(s[..|s| - 1]);
    }
  }

  /** The moving average lies between the smallest and the largest value of its window. */
  lemma SmaWithinWindow(values: seq<real>, period: nat, lo: real, hi: real)
    requires 0 < period <= |values|
    requires forall i :: |values| - period <= i < |values| ==> lo <= values[i] <= hi
    ensures lo <= Sma(values, period).value <= hi
  {
    var w := LastN(values, period);
    SumBounds(w, lo, hi);
    var p := period as real;
    assert Sma(values, period).value * p == Sum(w);
  }

  /** The unit tests of `sma` on [1, 2, 3, 4, 5]. */
  lemma SmaExamples()
    ensures Sma([1.0, 2.0, 3.0, 4.0, 5.0], 3) == Some(4.0)
    ensures Sma([1.0, 2.0, 3.0, 4.0, 5.0], 5) == Some(3.0)
    ensures Sma([1.0, 2.0, 3.0, 4.0, 5.0], 10) == None
  {
    var s := [1.0, 2.0, 3.0, 4.0, 5.0];
    assert LastN(s, 3) == [3.0, 4.0, 5.0];
    assert LastN(s, 5) == s;
    assert Sum([3.0, 4.0, 5.0]) == 12.0 by {
      assert [3.0, 4.0, 5.0][..2] == [3.0, 4.0];
      assert [3.0, 4.0][..1] == [3.0];
      assert [3.0][..0] == [];
    }
    assert Sum(s) == 15.0 by {
      assert s[..4] == [1.0, 2.0, 3.0, 4.0];
      assert [1.0, 2.0, 3.0, 4.0][..3] == [1.0, 2.0, 3.0];
      assert [1.0, 2.0, 3.0][..2] == [1.0, 2.0];
      assert [1.0, 2.0][..1] == [1.0];
      assert [1.0][..0] == [];
    }
  }

  /** 2 / (period + 1), the smoothing factor of every EMA in the code base. */
  function Multiplier(period: nat): (m: real)
    ensures 0.0 < m <= 2.0
    ensures period >= 1 ==> m <= 1.0
  {
    2.0 / (period as real + 1.0)
  }

  /**
   * One step of the EMA recurrence: move from `previous` towards `current`
   * by 2 / (period + 1) of the distance between them. A value equal to the
   * previous EMA leaves it in place, and a period of one forgets the past.
   */
  function EmaFromPrevious(current: real, previous: real, period: nat): (r: real)
    ensures (r - previous) * (period as real + 1.0) == 2.0 * (current - previous)
    ensures current == previous ==> r == previous
    ensures period == 1 ==> r == current
  {
    var m := Multiplier(period);
    assert m * (period as real + 1.0) == 2.0;
    (current - previous) * m + previous
  }

  /** For a period of at least one, an EMA step lands between the previous EMA and the new value. */
  lemma EmaFromPreviousBetween(current: real, previous: real, period: nat)
    requires period >= 1
    ensures Min(current, previous) <= EmaFromPrevious(current, previous, period) <= Max(current, previous)
  {
    var m := Multiplier(period);
    var d := current - previous;
    ScaleTowardsZero(m, d);
    assert d * m == m * d;
    assert EmaFromPrevious(current, previous, period) == d * m + previous;
  }

  /** EMA seeded with `seed` and then fed every value of `rest` in order. */
  function EmaFold(seed: real, rest: seq<real>, period: nat): real
  {
    if |rest| == 0 then seed
    else EmaFromPrevious(rest[|rest| - 1], EmaFold(seed, rest[..|rest| - 1], period), period)
  }

  /**
   * The batch EMA: seeded with the SMA of the first `period` values, then
   * the recurrence over the remaining values.
   */
  function EmaOf(values: seq<real>, period: nat): (r: Option<real>)
    ensures r.None? <==> |values| == 0 || period == 0 || |values| < period
  {
    if |values| == 0 || period == 0 || |values| < period then None
    else Some(EmaFold(Sma(values[..period], period).value, values[period..], period))
  }

  /** `ema` as the source computes it: a loop over the values after the seed window. */
  method Ema(values: seq<real>, period: nat) returns (r: Option<real>)
    ensures r == EmaOf(values, period)
  {
    if |values| == 0 || period == 0 {
      return None;
    }
    if |values| < period {
      return None;
    }
    var multiplier := 2.0 / (period as real + 1.0);
    var seed := Sma(values[..period], period).value;
    var e := seed;
    var i := period;
    while i < |values|
      invariant period <= i <= |values|
      invariant e == EmaFold(seed, values[period..i], period)
    {
      assert values[period..i + 1][..i - period] == values[period..i];
      e := (values[i] - e) * multiplier + e;
      i := i + 1;
    }
    assert values[period..i] == values[period..];
    r := Some(e);
  }

  /** With exactly `period` values the EMA is their simple average. */
  lemma EmaOfFullWindowIsSma(values: seq<real>, period: nat)
    requires 0 < period == |values|
    ensures EmaOf(values, period) == Sma(values, period)
  {
    assert values[..period] == values;
    assert values[period..] == [];
  }

  /** Extending the input by one value advances the batch EMA by exactly one `EmaFromPrevious` step. */
  lemma EmaOfExtendsByOneStep(values: seq<real>, v: real, period: nat)
    requires 0 < period <= |values|
    ensures EmaOf(values + [v], period) == Some(EmaFromPrevious(v, EmaOf(values, period).value, period))
  {
    var ext := values + [v];
    assert ext[..period] == values[..period];
    assert ext[period..][..|ext[period..]| - 1] == values[period..];
  }

  /** Standard deviation of the last `period` values; never negative. */
  function StandardDeviation(values: seq<real>, period: nat, root: Root): (r: Option<real>)
    requires period > 0
    ensures r.None? <==> |values| < period
    ensures r.Some? ==> r.value >= 0.0
  {
    if |values| < period then None
    else Some(root(PopulationVariance(LastN(values, period))))
  }

  lemma {:induction false} SquaredDeviationsNonNegative(s: seq<real>, m: real)
    ensures SquaredDeviations(s, m) >= 0.0
  {
    if |s| > 0 {
      SquaredDeviationsNonNegative(s[..|s| - 1], m);
      SquareNonNegative(s[|s| - 1] - m);
    }
  }

  /** The variance of any non-empty window is non-negative. */
  lemma VarianceNonNegative(s: seq<real>)
    requires |s| > 0
    ensures PopulationVariance(s) >= 0.0
  {
    SquaredDeviationsNonNegative(s, Mean(s));
  }

  lemma {:induction false} SquaredDeviationsOfConstant(s: seq<real>, c: real)
    requires forall i :: 0 <= i < |s| ==> s[i] == c
    ensures SquaredDeviations(s, c) == 0.0
  {
    if |s| > 0 {
      SquaredDeviationsOfConstant(s[..|s| - 1], c);
    }
  }

  /** A window of equal values has mean equal to that value and variance zero. */
  lemma ConstantWindow(s: seq<real>, c: real)
    requires |s| > 0
    requires forall i :: 0 <= i < |s| ==> s[i] == c
    ensures Mean(s) == c
    ensures PopulationVariance(s) == 0.0
  {
    SumOfConstant(s, c);
    SquaredDeviationsOfConstant(s, c);
  }

  /**
   * True range of a candle against the previous close: the largest of the
   * candle's span and its distances from the previous close.
   */
  function TrueRange(high: real, low: real, previousClose: real): (r: real)
    ensures r >= high - low && r >= Abs(high - previousClose) && r >= Abs(low - previousClose)
    ensures r == high - low || r == Abs(high - previousClose) || r == Abs(low - previousClose)
  {
    Max(Max(high - low, Abs(high - previousClose)), Abs(low - previousClose))
  }

  /** The unit tests of `true_range`. */
  lemma TrueRangeExamples()
    ensures TrueRange(10.0, 8.0, 9.0) == 2.0
    ensures TrueRange(10.0, 8.0, 7.0) == 3.0
  {
  }

  /** A candle whose high is not below its low has a non-negative true range. */
  lemma TrueRangeNonNegative(high: real, low: real, previousClose: real)
    requires low <= high
    ensures TrueRange(high, low, previousClose) >= 0.0
  {
  }

  /**
   * Rust's f64::round: to the nearest integer, halves away from zero.
   * (The source then casts to i64; the model keeps the unbounded integer.)
   */
  function RoundHalfAway(x: real): (r: int)
    ensures x >= 0.0 ==> r as real - 0.5 <= x < r as real + 0.5
    ensures x < 0.0 ==> r as real - 0.5 < x <= r as real + 0.5
  {
    if x >= 0.0 then (x + 0.5).Floor else -((-x + 0.5).Floor)
  }
}
