/** Average true range and the volatility regime derived from it (src/indicators/volatility/atr.rs). */
module AtrTracker {
  import opened Wrappers
  import opened CommonMath
  import opened Models

  /** What an ATR tracker remembers. */
  datatype AtrState = AtrState(period: nat, trueRanges: seq<real>, current: Option<real>, prevClose: Option<real>)

  /**
   * The tracker's invariant: a positive period, at most `period` true ranges
   * kept, and nothing remembered before the first update.
   */
  predicate AtrValid(s: AtrState)
  {
    && s.period >= 1
    && |s.trueRanges| <= s.period
    && (s.current.None? <==> |s.trueRanges| == 0)
    && (s.current.None? <==> s.prevClose.None?)
  }

  function AtrInit(period: nat): (s: AtrState)
    ensures period >= 1 ==> AtrValid(s)
  {
    AtrState(period, [], None, None)
  }

  /** The candle's span on the first update, its true range afterwards. */
  function TrueRangeAfter(prevClose: Option<real>, high: real, low: real): real
  {
    match prevClose
    case None => high - low
    case Some(pc) => TrueRange(high, low, pc)
  }

  /**
   * One ATR update. Until the window of true ranges is full the ATR is the
   * latest true range; on a full window it is Wilder's smoothing of the
   * previous ATR, or the plain mean when there is no previous ATR.
   */
  function AtrStep(s: AtrState, high: real, low: real, close: real): (r: (AtrState, real))
    requires AtrValid(s)
    ensures 1 <= |r.0.trueRanges| <= s.period
    ensures AtrValid(r.0) && r.0.period == s.period
    ensures r.0.current == Some(r.1) && r.0.prevClose == Some(close)
    ensures r.0.trueRanges == SlideWindow(s.trueRanges, TrueRangeAfter(s.prevClose, high, low), s.period)
  {
    var tr := TrueRangeAfter(s.prevClose, high, low);
    var window := SlideWindow(s.trueRanges, tr, s.period);
    assert |window| >= 1;
    var atr :=
      if s.current.Some? && |window| == s.period then Wilder(s.current.value, tr, s.period)
      else if |window| == s.period then Mean(window)
      else tr;
    (AtrState(s.period, window, Some(atr), Some(close)), atr)
  }

  /** Which value an update returns, by how full the window of true ranges is. */
  lemma AtrStepValue(s: AtrState, high: real, low: real, close: real)
    requires AtrValid(s)
    ensures var (next, atr) := AtrStep(s, high, low, close);
      var tr := TrueRangeAfter(s.prevClose, high, low);
      && (|next.trueRanges| < s.period ==> atr == tr)
      && (|next.trueRanges| == s.period && s.current.Some? ==>
            atr == (s.current.value * (s.period - 1) as real + tr) / s.period as real)
      && (|next.trueRanges| == s.period && s.current.None? ==> atr == Mean(next.trueRanges))
  {
  }

  /** The arithmetic-mean seed is used only when the period is one: every longer window is filled after the first ATR exists. */
  lemma MeanSeedOnlyForPeriodOne(s: AtrState, high: real, low: real, close: real)
    requires AtrValid(s)
    requires s.current.None? && |AtrStep(s, high, low, close).0.trueRanges| == s.period
    ensures s.period == 1
  {
  }

  /** All true ranges and the ATR stay non-negative as long as every candle's high is not below its low. */
  predicate NonNegativeAtr(s: AtrState)
  {
    && (forall i :: 0 <= i < |s.trueRanges| ==> s.trueRanges[i] >= 0.0)
    && (s.current.Some? ==> s.current.value >= 0.0)
  }

  lemma AtrStepNonNegative(s: AtrState, high: real, low: real, close: real)
    requires AtrValid(s) && NonNegativeAtr(s) && low <= high
    ensures NonNegativeAtr(AtrStep(s, high, low, close).0)
    ensures AtrStep(s, high, low, close).1 >= 0.0
  {
    var tr := TrueRangeAfter(s.prevClose, high, low);
    assert tr >= 0.0;
    var window := SlideWindow(s.trueRanges, tr, s.period);
    assert forall i :: 0 <= i < |window| ==> window[i] >= 0.0 by {
      forall i | 0 <= i < |window| ensures window[i] >= 0.0 {
        if |s.trueRanges + [tr]| > s.period {
          assert window[i] == (s.trueRanges + [tr])[i + 1];
        } else {
          assert window[i] == (s.trueRanges + [tr])[i];
        }
      }
    }
    var p := s.period as real;
    if s.current.Some? && |window| == s.period {
      ProductNonNegative(s.current.value, (s.period - 1) as real);
      QuotientNonNegative(s.current.value * (s.period - 1) as real + tr, p);
    } else if |window| == s.period {
      SumNonNegative(window);
      QuotientNonNegative(Sum(window), p);
    }
  }

  /** A tracker fed `candles` in order. */
  function AtrFeed(s: AtrState, candles: seq<Candle>): (r: AtrState)
    requires AtrValid(s)
    ensures AtrValid(r) && r.period == s.period
    ensures |candles| > 0 ==> r.current.Some?
  {
    if |candles| == 0 then s
    else
      var c := candles[|candles| - 1];
      AtrStep(AtrFeed(s, candles[..|candles| - 1]), c.high, c.low, c.close).0
  }

  /** Over candles whose highs are not below their lows the ATR is never negative. */
  lemma {:induction false} AtrFeedNonNegative(s: AtrState, candles: seq<Candle>)
    requires AtrValid(s) && NonNegativeAtr(s)
    requires forall i :: 0 <= i < |candles| ==> candles[i].low <= candles[i].high
    ensures NonNegativeAtr(AtrFeed(s, candles))
  {
    if |candles| > 0 {
      var c := candles[|candles| - 1];
      AtrFeedNonNegative(s, candles[..|candles| - 1]);
      AtrStepNonNegative(AtrFeed(s, candles[..|candles| - 1]), c.high, c.low, c.close);
    }
  }

  class Atr {
    const period: nat
    var trueRanges: seq<real>
    var currentAtr: Option<real>
    var prevClose: Option<real>

    ghost predicate Valid()
      reads this
    {
      AtrValid(State())
    }

    function State(): AtrState
      reads this
    {
      AtrState(period, trueRanges, currentAtr, prevClose)
    }

    constructor (period: nat)
      requires period >= 1
      ensures Valid() && State() == AtrInit(period)
    {
      this.period := period;
      trueRanges := [];
      currentAtr := None;
      prevClose := None;
    }

    method Update(high: real, low: real, close: real) returns (atr: real)
      requires Valid()
      modifies this
      ensures Valid() && (State(), atr) == AtrStep(old(State()), high, low, close)
    {
      ghost var s := State();
      var trueRange: real;
      if prevClose.Some? {
        var tr1 := high - low;
        var tr2 := Abs(high - prevClose.value);
        var tr3 := Abs(low - prevClose.value);
        trueRange := Max(Max(tr1, tr2), tr3);
      } else {
        trueRange := high - low;
      }
      assert trueRange == TrueRangeAfter(prevClose, high, low);
      trueRanges := trueRanges + [trueRange];
      if |trueRanges| > period {
        trueRanges := trueRanges[1..];
      }
      assert trueRanges == SlideWindow(s.trueRanges, trueRange, period) && |trueRanges| >= 1;
      if currentAtr.Some? && |trueRanges| == period {
        atr := (currentAtr.value * (period - 1) as real + trueRange) / period as real;
      } else if |trueRanges| == period {
        atr := Sum(trueRanges) / period as real;
      } else {
        atr := trueRange;
      }
      assert atr == AtrStep(s, high, low, close).1;
      currentAtr := Some(atr);
      prevClose := Some(close);
    }

    /** The latest ATR: none exactly until the first candle has been seen. */
    function Current(): (r: Option<real>)
      reads this
      ensures Valid() ==> (r.None? <==> |trueRanges| == 0) && (r.None? <==> prevClose.None?)
    {
      currentAtr
    }
  }

  datatype VolatilityRegime = High | Elevated | Normal | Low

  /** Position of a regime on the scale Low < Normal < Elevated < High. */
  function RegimeRank(r: VolatilityRegime): int
  {
    match r
    case Low => 0
    case Normal => 1
    case Elevated => 2
    case High => 3
  }

  /**
   * The regime of an ATR against its lookback average: Normal when the
   * average is not positive (within EPSILON); otherwise by the ratio, above
   * 1.5 High, above 1.0 Elevated, above 0.7 Normal, else Low.
   */
  function VolatilityRegimeOf(atr: real, lookbackAvg: real): (r: VolatilityRegime)
    ensures lookbackAvg <= Epsilon ==> r == Normal
    ensures lookbackAvg > Epsilon ==>
      && (r == High <==> atr > 1.5 * lookbackAvg)
      && (r == Elevated <==> lookbackAvg < atr <= 1.5 * lookbackAvg)
      && (r == Normal <==> 0.7 * lookbackAvg < atr <= lookbackAvg)
      && (r == Low <==> atr <= 0.7 * lookbackAvg)
  {
    if lookbackAvg <= Epsilon then Normal
    else
      var ratio := atr / lookbackAvg;
      RatioAbove(atr, lookbackAvg, 1.5);
      RatioAbove(atr, lookbackAvg, 1.0);
      RatioAbove(atr, lookbackAvg, 0.7);
      if ratio > 1.5 then High
      else if ratio > 1.0 then Elevated
      else if ratio > 0.7 then Normal
      else Low
  }

  lemma RatioAbove(atr: real, avg: real, k: real)
    requires avg > 0.0
    ensures atr / avg > k <==> atr > k * avg
  {
    var ratio := atr / avg;
    assert atr == ratio * avg;
    if ratio > k {
      assert (ratio - k) * avg > 0.0;
    } else {
      assert (k - ratio) * avg >= 0.0 by { ProductNonNegative(k - ratio, avg); }
    }
  }

  /** A larger ATR against the same average never gives a calmer regime. */
  lemma RegimeMonotone(atr1: real, atr2: real, avg: real)
    requires atr1 <= atr2
    ensures RegimeRank(VolatilityRegimeOf(atr1, avg)) <= RegimeRank(VolatilityRegimeOf(atr2, avg))
  {
    if avg > Epsilon {
      RatioAbove(atr1, avg, 1.5);
      RatioAbove(atr2, avg, 1.5);
      RatioAbove(atr1, avg, 1.0);
      RatioAbove(atr2, avg, 1.0);
      RatioAbove(atr1, avg, 0.7);
      RatioAbove(atr2, avg, 0.7);
    }
  }

  /** The unit test's case: an ATR twice its lookback average is High volatility. */
  lemma DoubleTheAverageIsHigh(atr: real)
    requires atr > 2.0 * Epsilon
    ensures VolatilityRegimeOf(atr, atr / 2.0) == High
  {
  }

  /**
   * The legacy helper: None when there are fewer candles than the period,
   * otherwise the ATR after feeding every candle, tagged with the period.
   */
  method CalculateAtr(candles: seq<Candle>, period: U32) returns (r: Option<AtrIndicator>)
    requires period >= 1
    ensures r.None? <==> |candles| < period
    ensures r.Some? ==> r.value.period == period && Some(r.value.value) == FiniteOf(AtrFeed(AtrInit(period), candles).current)
  {
    if |candles| < period {
      return None;
    }
    var atr := new Atr(period);
    var i := 0;
    while i < |candles|
      invariant 0 <= i <= |candles|
      invariant atr.Valid() && atr.State() == AtrFeed(AtrInit(period), candles[..i])
    {
      var c := candles[i];
      var _ := atr.Update(c.high, c.low, c.close);
      assert candles[..i + 1][..i] == candles[..i];
      i := i + 1;
    }
    assert candles[..i] == candles;
    var value := atr.Current();
    r := Some(AtrIndicator(Finite(value.value), period));
  }

  /** `calculate_atr` with the conventional period of 14. */
  method CalculateAtrDefault(candles: seq<Candle>) returns (r: Option<AtrIndicator>)
    ensures r.None? <==> |candles| < 14
    ensures r.Some? ==> r.value.period == 14 && Some(r.value.value) == FiniteOf(AtrFeed(AtrInit(14), candles).current)
  {
    r := CalculateAtr(candles, 14);
  }
}
