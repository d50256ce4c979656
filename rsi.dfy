/** The relative strength index with Wilder smoothing (src/indicators/momentum/rsi.rs). */
module RsiTracker {
  import opened Wrappers
  import opened CommonMath
  import opened Models

  datatype RsiSignal = Oversold | Overbought | BullishDivergence | BearishDivergence | Neutral

  /** A price change split into its gain and its loss: both non-negative, at most one of them non-zero. */
  function GainLoss(change: real): (r: (real, real))
    ensures r.0 >= 0.0 && r.1 >= 0.0 && r.0 - r.1 == change
    ensures r.0 == 0.0 || r.1 == 0.0
  {
    (if change > 0.0 then change else 0.0, if change < 0.0 then -change else 0.0)
  }

  /** The ratio of the average gain to the average loss, capped at 100 when there is no average loss. */
  function RelativeStrength(avgGain: real, avgLoss: real): (rs: real)
    requires avgGain >= 0.0 && avgLoss >= 0.0
    ensures rs >= 0.0
    ensures avgLoss > 0.0 ==> rs * avgLoss == avgGain
  {
    if avgLoss == 0.0 then 100.0 else QuotientNonNegative(avgGain, avgLoss); avgGain / avgLoss
  }

  /** The index from the average gain and loss, `100 - 100 / (1 + rs)`; it lies in [0, 100). */
  function RsiOf(avgGain: real, avgLoss: real): (r: real)
    requires avgGain >= 0.0 && avgLoss >= 0.0
    ensures 0.0 <= r < 100.0
  {
    var rs := RelativeStrength(avgGain, avgLoss);
    IndexOfRatioBounds(rs);
    100.0 - 100.0 / (1.0 + rs)
  }

  lemma IndexOfRatioBounds(rs: real)
    requires rs >= 0.0
    ensures 0.0 <= 100.0 - 100.0 / (1.0 + rs) < 100.0
  {
    var q := 100.0 / (1.0 + rs);
    assert q * (1.0 + rs) == 100.0;
    QuotientNonNegative(100.0, 1.0 + rs);
    ProductNonNegative(q, rs);
    assert q * (1.0 + rs) == q + q * rs;
  }

  /** With some average loss, the index is the gains' share of all movement, in percent. */
  lemma RsiIsGainShare(avgGain: real, avgLoss: real)
    requires avgGain >= 0.0 && avgLoss > 0.0
    ensures RsiOf(avgGain, avgLoss) * (avgGain + avgLoss) == 100.0 * avgGain
  {
    var rs := RelativeStrength(avgGain, avgLoss);
    var q := 100.0 / (1.0 + rs);
    assert q * (1.0 + rs) == 100.0;
    calc {
      (100.0 - q) * (avgGain + avgLoss);
      (100.0 - q) * ((1.0 + rs) * avgLoss);
      100.0 * (1.0 + rs) * avgLoss - q * (1.0 + rs) * avgLoss;
      100.0 * (1.0 + rs) * avgLoss - 100.0 * avgLoss;
      100.0 * rs * avgLoss;
    }
  }

  /** Without any average loss the ratio is capped at 100, so the index is 100 - 100/101, not 100. */
  lemma RsiWithoutLosses(avgGain: real)
    requires avgGain >= 0.0
    ensures RsiOf(avgGain, 0.0) == 100.0 - 100.0 / 101.0
    ensures RsiOf(avgGain, 0.0) > 99.0
  {
  }

  /** Without gains the index is 0. */
  lemma RsiWithoutGains(avgLoss: real)
    requires avgLoss > 0.0
    ensures RsiOf(0.0, avgLoss) == 0.0
  {
  }

  /** What an RSI tracker remembers. */
  datatype RsiState = RsiState(
    period: nat,
    gains: seq<real>,
    losses: seq<real>,
    avgGain: Option<real>,
    avgLoss: Option<real>,
    prevClose: Option<real>,
    prevRsi: Option<real>)

  /**
   * The tracker's invariant: equal-length windows of at most `period`
   * non-negative gains and losses; the averages exist exactly once the
   * window is full, are non-negative, and the remembered index is the one
   * they give.
   */
  predicate RsiValid(s: RsiState)
  {
    && s.period >= 1
    && |s.gains| == |s.losses| <= s.period
    && AllNonNegative(s.gains) && AllNonNegative(s.losses)
    && (s.avgGain.Some? <==> |s.gains| == s.period)
    && (s.avgLoss.Some? <==> s.avgGain.Some?)
    && (s.prevRsi.Some? <==> s.avgGain.Some?)
    && (s.avgGain.Some? ==>
          && s.avgGain.value >= 0.0 && s.avgLoss.value >= 0.0
          && s.prevRsi.value == RsiOf(s.avgGain.value, s.avgLoss.value))
    && (s.prevClose.None? ==> |s.gains| == 0)
  }

  function RsiInit(period: nat): (s: RsiState)
    ensures period >= 1 ==> RsiValid(s)
  {
    RsiState(period, [], [], None, None, None, None)
  }

  /**
   * The new average once the window is full: Wilder's smoothing of the
   * previous average, or the plain mean of the first full window.
   */
  function Smoothed(previous: Option<real>, window: seq<real>, latest: real, period: nat): real
    requires period >= 1
  {
    match previous
    case Some(p) => Wilder(p, latest, period)
    case None => Sum(window) / period as real
  }

  /** Averaging non-negative values gives a non-negative average. */
  lemma SmoothedNonNegative(previous: Option<real>, window: seq<real>, latest: real, period: nat)
    requires period >= 1 && AllNonNegative(window) && latest >= 0.0
    requires previous.Some? ==> previous.value >= 0.0
    ensures Smoothed(previous, window, latest, period) >= 0.0
  {
    match previous
    case Some(p) => WilderNonNegative(p, latest, period);
    case None => SumNonNegative(window); QuotientNonNegative(Sum(window), period as real);
  }

  /**
   * One update on a close. The first close only records itself; later
   * closes slide their gain and loss into the windows, and once the windows
   * hold `period` changes the averages and the index are updated and the
   * index returned.
   */
  function RsiStep(s: RsiState, close: real): (r: (RsiState, Option<real>))
    requires RsiValid(s)
    ensures RsiValid(r.0) && r.0.period == s.period && r.0.prevClose == Some(close)
    ensures r.1.Some? <==> s.prevClose.Some? && |s.gains| + 1 >= s.period
    ensures r.1.Some? ==> r.0.prevRsi == r.1 && 0.0 <= r.1.value < 100.0
    ensures r.1.None? ==> r.0.prevRsi == s.prevRsi
  {
    match s.prevClose
    case None => (s.(prevClose := Some(close)), None)
    case Some(prev) =>
      var gl := GainLoss(close - prev);
      var gains := SlideWindow(s.gains, gl.0, s.period);
      var losses := SlideWindow(s.losses, gl.1, s.period);
      SlideWindowNonNegative(s.gains, gl.0, s.period);
      SlideWindowNonNegative(s.losses, gl.1, s.period);
      if |gains| == s.period then
        var avgGain := Smoothed(s.avgGain, gains, gl.0, s.period);
        var avgLoss := Smoothed(s.avgLoss, losses, gl.1, s.period);
        SmoothedNonNegative(s.avgGain, gains, gl.0, s.period);
        SmoothedNonNegative(s.avgLoss, losses, gl.1, s.period);
        var rsi := RsiOf(avgGain, avgLoss);
        (RsiState(s.period, gains, losses, Some(avgGain), Some(avgLoss), Some(close), Some(rsi)), Some(rsi))
      else
        (s.(gains := gains, losses := losses, prevClose := Some(close)), None)
  }

  /**
   * The first full window is averaged arithmetically; every later update
   * smooths the previous average with the newest gain and loss.
   */
  lemma RsiStepAverages(s: RsiState, close: real)
    requires RsiValid(s) && RsiStep(s, close).1.Some?
    ensures var next := RsiStep(s, close).0;
      var gl := GainLoss(close - s.prevClose.value);
      && (s.avgGain.None? ==>
            next.avgGain == Some(Sum(next.gains) / s.period as real) && next.avgLoss == Some(Sum(next.losses) / s.period as real))
      && (s.avgGain.Some? ==>
            next.avgGain == Some(Wilder(s.avgGain.value, gl.0, s.period)) && next.avgLoss == Some(Wilder(s.avgLoss.value, gl.1, s.period)))
  {
  }

  /** A tracker fed `closes` in order. */
  function RsiFeed(s: RsiState, closes: seq<real>): (r: RsiState)
    requires RsiValid(s)
    ensures RsiValid(r) && r.period == s.period
    ensures |closes| > 0 ==> r.prevClose == Some(closes[|closes| - 1])
  {
    if |closes| == 0 then s else RsiStep(RsiFeed(s, closes[..|closes| - 1]), closes[|closes| - 1]).0
  }

  /**
   * Warm-up: after n closes the windows hold min(n - 1, period) changes, and
   * an index exists exactly when more than `period` closes have been seen.
   */
  lemma {:induction false} RsiWarmup(period: nat, closes: seq<real>)
    requires period >= 1
    ensures var r := RsiFeed(RsiInit(period), closes);
      && |r.gains| == (if |closes| == 0 then 0 else if |closes| - 1 < period then |closes| - 1 else period)
      && (r.prevRsi.Some? <==> |closes| > period)
      && (r.prevClose.Some? <==> |closes| > 0)
  {
    if |closes| > 0 {
      var before := closes[..|closes| - 1];
      RsiWarmup(period, before);
      var s := RsiFeed(RsiInit(period), before);
      var c := closes[|closes| - 1];
      assert RsiFeed(RsiInit(period), closes) == RsiStep(s, c).0;
      if s.prevClose.Some? {
        assert |RsiStep(s, c).0.gains| == |SlideWindow(s.gains, GainLoss(c - s.prevClose.value).0, period)|;
      }
    }
  }

  /** The update on the (n+1)-th close returns an index exactly when n >= period. */
  lemma RsiOutputAfter(period: nat, closes: seq<real>, close: real)
    requires period >= 1
    ensures RsiStep(RsiFeed(RsiInit(period), closes), close).1.Some? <==> |closes| >= period
  {
    RsiWarmup(period, closes);
  }

  /**
   * The signal for an index value: below 30 oversold, above 70 overbought,
   * each turned into a divergence when the price moved the other way from
   * the index since the last remembered one; neutral in between.
   */
  function RsiSignalOf(prevRsi: Option<real>, rsi: real, priceChange: real): (r: RsiSignal)
    ensures r == Neutral <==> 30.0 <= rsi <= 70.0
    ensures r == BullishDivergence <==> rsi < 30.0 && prevRsi.Some? && priceChange < 0.0 && rsi > prevRsi.value
    ensures r == Oversold <==> rsi < 30.0 && !(prevRsi.Some? && priceChange < 0.0 && rsi > prevRsi.value)
    ensures r == BearishDivergence <==> rsi > 70.0 && prevRsi.Some? && priceChange > 0.0 && rsi < prevRsi.value
    ensures r == Overbought <==> rsi > 70.0 && !(prevRsi.Some? && priceChange > 0.0 && rsi < prevRsi.value)
  {
    if rsi < 30.0 then
      (if prevRsi.Some? && priceChange < 0.0 && rsi > prevRsi.value then BullishDivergence else Oversold)
    else if rsi > 70.0 then
      (if prevRsi.Some? && priceChange > 0.0 && rsi < prevRsi.value then BearishDivergence else Overbought)
    else
      Neutral
  }

  /** Asked right after the update that produced `rsi`, the signal can never be a divergence. */
  lemma NoDivergenceRightAfterUpdate(s: RsiState, close: real, priceChange: real)
    requires RsiValid(s) && RsiStep(s, close).1.Some?
    ensures var (next, rsi) := RsiStep(s, close);
      RsiSignalOf(next.prevRsi, rsi.value, priceChange) !in {BullishDivergence, BearishDivergence}
  {
  }

  /** Feeding one more close steps the state reached so far. */
  lemma RsiFeedSnoc(s: RsiState, closes: seq<real>, close: real)
    requires RsiValid(s)
    ensures RsiFeed(s, closes + [close]) == RsiStep(RsiFeed(s, closes), close).0
  {
    assert (closes + [close])[..|closes|] == closes;
  }

  /** Closes that never fall. */
  predicate NeverFalling(closes: seq<real>)
  {
    forall i :: 0 < i < |closes| ==> closes[i - 1] <= closes[i]
  }

  /** Closes that fall at every step. */
  predicate AlwaysFalling(closes: seq<real>)
  {
    forall i :: 0 < i < |closes| ==> closes[i - 1] > closes[i]
  }

  predicate AllZero(s: seq<real>)
  {
    forall i :: 0 <= i < |s| ==> s[i] == 0.0
  }

  predicate AllPositive(s: seq<real>)
  {
    forall i :: 0 <= i < |s| ==> s[i] > 0.0
  }

  lemma SlideWindowZero(w: seq<real>, cap: nat)
    requires AllZero(w)
    ensures AllZero(SlideWindow(w, 0.0, cap))
  {
    var r := SlideWindow(w, 0.0, cap);
    forall i | 0 <= i < |r| ensures r[i] == 0.0 {
      if |w + [0.0]| > cap {
        assert r[i] == (w + [0.0])[i + 1];
      } else {
        assert r[i] == (w + [0.0])[i];
      }
    }
  }

  lemma SlideWindowPositive(w: seq<real>, x: real, cap: nat)
    requires AllPositive(w) && x > 0.0
    ensures AllPositive(SlideWindow(w, x, cap))
  {
    var r := SlideWindow(w, x, cap);
    forall i | 0 <= i < |r| ensures r[i] > 0.0 {
      if |w + [x]| > cap {
        assert r[i] == (w + [x])[i + 1];
      } else {
        assert r[i] == (w + [x])[i];
      }
    }
  }

  lemma {:induction false} SumPositive(s: seq<real>)
    requires |s| > 0 && AllPositive(s)
    ensures Sum(s) > 0.0
  {
    var init := s[..|s| - 1];
    if |init| > 0 {
      assert AllPositive(init) by {
        forall i | 0 <= i < |init| ensures init[i] > 0.0 {
          assert init[i] == s[i];
        }
      }
      SumPositive(init);
    }
  }

  /** The loss side of a tracker that has only seen rising or flat closes. */
  predicate LossFree(s: RsiState)
  {
    AllZero(s.losses) && (s.avgLoss.Some? ==> s.avgLoss.value == 0.0)
  }

  /** Averaging nothing but zeros gives zero. */
  lemma SmoothedZero(previous: Option<real>, window: seq<real>, period: nat)
    requires period >= 1 && AllZero(window) && |window| == period
    requires previous.Some? ==> previous.value == 0.0
    ensures Smoothed(previous, window, 0.0, period) == 0.0
  {
    if previous.None? {
      SumOfConstant(window, 0.0);
    }
  }

  /** Averaging positive values, or smoothing one into a positive average, gives a positive result. */
  lemma SmoothedPositive(previous: Option<real>, window: seq<real>, latest: real, period: nat)
    requires period >= 1 && AllPositive(window) && |window| == period && latest > 0.0
    requires previous.Some? ==> previous.value > 0.0
    ensures Smoothed(previous, window, latest, period) > 0.0
  {
    match previous
    case Some(p) => WilderPositive(p, latest, period);
    case None => SumPositive(window); QuotientPositive(Sum(window), period as real);
  }

  /** The windows and averages after a step that saw a previous close. */
  lemma RsiStepAfterClose(s: RsiState, close: real)
    requires RsiValid(s) && s.prevClose.Some?
    ensures var next := RsiStep(s, close).0;
      var gl := GainLoss(close - s.prevClose.value);
      var gains := SlideWindow(s.gains, gl.0, s.period);
      var losses := SlideWindow(s.losses, gl.1, s.period);
      && next.gains == gains && next.losses == losses
      && (|gains| == s.period ==>
            next.avgGain == Some(Smoothed(s.avgGain, gains, gl.0, s.period))
            && next.avgLoss == Some(Smoothed(s.avgLoss, losses, gl.1, s.period)))
      && (|gains| != s.period ==> next.avgGain == s.avgGain && next.avgLoss == s.avgLoss)
  {
  }

  /** A close at or above the previous one keeps the tracker loss-free. */
  lemma RallyStep(s: RsiState, close: real)
    requires RsiValid(s) && LossFree(s)
    requires s.prevClose.Some? ==> s.prevClose.value <= close
    ensures LossFree(RsiStep(s, close).0)
  {
    if s.prevClose.Some? {
      RsiStepAfterClose(s, close);
      var gl := GainLoss(close - s.prevClose.value);
      assert gl.1 == 0.0;
      SlideWindowZero(s.losses, s.period);
      var losses := SlideWindow(s.losses, 0.0, s.period);
      if |losses| == s.period {
        SmoothedZero(s.avgLoss, losses, s.period);
      }
    }
  }

  /**
   * While the closes never fall, no loss is ever recorded: the loss window
   * holds zeros and the average loss, once it exists, is zero.
   */
  lemma {:induction false} NoLossesWhileNeverFalling(period: nat, closes: seq<real>)
    requires period >= 1 && NeverFalling(closes)
    ensures LossFree(RsiFeed(RsiInit(period), closes))
  {
    if |closes| > 0 {
      var n := |closes| - 1;
      var before := closes[..n];
      assert NeverFalling(before) by {
        forall i | 0 < i < |before| ensures before[i - 1] <= before[i] {
          assert before[i - 1] == closes[i - 1] && before[i] == closes[i];
        }
      }
      NoLossesWhileNeverFalling(period, before);
      var s := RsiFeed(RsiInit(period), before);
      if n > 0 {
        assert s.prevClose.value == closes[n - 1];
      }
      RallyStep(s, closes[n]);
    }
  }

  /**
   * A rally: more than `period` closes that never fall leave the index at
   * 100 - 100/101, so the signal is Overbought whatever the last price change.
   */
  lemma NeverFallingIsOverbought(period: nat, closes: seq<real>, priceChange: real)
    requires period >= 1 && NeverFalling(closes) && |closes| > period
    ensures var r := RsiFeed(RsiInit(period), closes);
      && r.prevRsi == Some(100.0 - 100.0 / 101.0)
      && RsiSignalOf(r.prevRsi, r.prevRsi.value, priceChange) == Overbought
  {
    RsiWarmup(period, closes);
    NoLossesWhileNeverFalling(period, closes);
    var r := RsiFeed(RsiInit(period), closes);
    RsiWithoutLosses(r.avgGain.value);
  }

  /**
   * The gain side of a tracker that has only seen falling closes: no gains,
   * positive losses, and once averaged a zero average gain and a positive
   * average loss.
   */
  predicate GainFree(s: RsiState)
  {
    && AllZero(s.gains) && AllPositive(s.losses)
    && (s.avgGain.Some? ==> s.avgGain.value == 0.0)
    && (s.avgLoss.Some? ==> s.avgLoss.value > 0.0)
  }

  /** A close below the previous one keeps the tracker gain-free. */
  lemma SelloffStep(s: RsiState, close: real)
    requires RsiValid(s) && GainFree(s)
    requires s.prevClose.Some? ==> s.prevClose.value > close
    ensures GainFree(RsiStep(s, close).0)
  {
    if s.prevClose.Some? {
      RsiStepAfterClose(s, close);
      var gl := GainLoss(close - s.prevClose.value);
      assert gl.0 == 0.0 && gl.1 > 0.0;
      SlideWindowZero(s.gains, s.period);
      SlideWindowPositive(s.losses, gl.1, s.period);
      var gains := SlideWindow(s.gains, 0.0, s.period);
      var losses := SlideWindow(s.losses, gl.1, s.period);
      if |gains| == s.period {
        SmoothedZero(s.avgGain, gains, s.period);
        SmoothedPositive(s.avgLoss, losses, gl.1, s.period);
      }
    }
  }

  /**
   * While the closes keep falling, no gain is ever recorded and every loss
   * is positive.
   */
  lemma {:induction false} OnlyLossesWhileFalling(period: nat, closes: seq<real>)
    requires period >= 1 && AlwaysFalling(closes)
    ensures GainFree(RsiFeed(RsiInit(period), closes))
  {
    if |closes| > 0 {
      var n := |closes| - 1;
      var before := closes[..n];
      assert AlwaysFalling(before) by {
        forall i | 0 < i < |before| ensures before[i - 1] > before[i] {
          assert before[i - 1] == closes[i - 1] && before[i] == closes[i];
        }
      }
      OnlyLossesWhileFalling(period, before);
      var s := RsiFeed(RsiInit(period), before);
      if n > 0 {
        assert s.prevClose.value == closes[n - 1];
      }
      SelloffStep(s, closes[n]);
    }
  }

  /**
   * A selloff: more than `period` closes, each below the one before, leave
   * the index at 0, so the signal is Oversold whatever the last price change.
   */
  lemma AlwaysFallingIsOversold(period: nat, closes: seq<real>, priceChange: real)
    requires period >= 1 && AlwaysFalling(closes) && |closes| > period
    ensures var r := RsiFeed(RsiInit(period), closes);
      && r.prevRsi == Some(0.0)
      && RsiSignalOf(r.prevRsi, r.prevRsi.value, priceChange) == Oversold
  {
    RsiWarmup(period, closes);
    OnlyLossesWhileFalling(period, closes);
    var r := RsiFeed(RsiInit(period), closes);
    RsiWithoutGains(r.avgLoss.value);
  }

  /** The rally of the extremes scenario, closes 50 to 56 with period 5, is Overbought. */
  lemma RallyIsOverbought()
    ensures var r := RsiFeed(RsiInit(5), [50.0, 51.0, 52.0, 53.0, 54.0, 55.0, 56.0]);
      r.prevRsi.Some? && RsiSignalOf(r.prevRsi, r.prevRsi.value, 1.0) == Overbought
  {
    NeverFallingIsOverbought(5, [50.0, 51.0, 52.0, 53.0, 54.0, 55.0, 56.0], 1.0);
  }

  class Rsi {
    const period: nat
    var gains: seq<real>
    var losses: seq<real>
    var avgGain: Option<real>
    var avgLoss: Option<real>
    var prevClose: Option<real>
    var prevRsi: Option<real>

    ghost predicate Valid()
      reads this
    {
      RsiValid(State())
    }

    function State(): RsiState
      reads this
    {
      RsiState(period, gains, losses, avgGain, avgLoss, prevClose, prevRsi)
    }

    constructor (period: nat)
      requires period >= 1
      ensures Valid() && State() == RsiInit(period)
    {
      this.period := period;
      gains, losses := [], [];
      avgGain, avgLoss := None, None;
      prevClose, prevRsi := None, None;
    }

    method Update(close: real) returns (r: Option<real>)
      requires Valid()
      modifies this
      ensures Valid() && (State(), r) == RsiStep(old(State()), close)
    {
      ghost var s := State();
      ghost var expected := RsiStep(s, close);
      if prevClose.Some? {
        var change := close - prevClose.value;
        var gain := if change > 0.0 then change else 0.0;
        var loss := if change < 0.0 then -change else 0.0;
        gains := gains + [gain];
        losses := losses + [loss];
        if |gains| > period {
          gains := gains[1..];
          losses := losses[1..];
        }
        assert (gain, loss) == GainLoss(change);
        assert gains == SlideWindow(s.gains, gain, period) && losses == SlideWindow(s.losses, loss, period);
        if |gains| == period {
          var newGain := Smoothed(avgGain, gains, gain, period);
          var newLoss := Smoothed(avgLoss, losses, loss, period);
          SlideWindowNonNegative(s.gains, gain, period);
          SlideWindowNonNegative(s.losses, loss, period);
          SmoothedNonNegative(avgGain, gains, gain, period);
          SmoothedNonNegative(avgLoss, losses, loss, period);
          avgGain := Some(newGain);
          avgLoss := Some(newLoss);
          var rsi := RsiOf(newGain, newLoss);
          prevRsi := Some(rsi);
          prevClose := Some(close);
          assert State() == expected.0;
          return Some(rsi);
        }
      }
      prevClose := Some(close);
      r := None;
      assert State() == expected.0;
    }

    function GetSignal(rsi: real, priceChange: real): (r: RsiSignal)
      reads this
      ensures r == RsiSignalOf(prevRsi, rsi, priceChange)
    {
      RsiSignalOf(prevRsi, rsi, priceChange)
    }

    /**
     * The latest RSI: present exactly once a full window of changes has been
     * seen, and then the index of the current averages, in [0, 100).
     */
    function Last(): (r: Option<real>)
      reads this
      ensures Valid() ==> (r.Some? <==> |gains| == period)
      ensures Valid() && r.Some? ==>
        && avgGain.Some? && avgLoss.Some?
        && r.value == RsiOf(avgGain.value, avgLoss.value)
        && 0.0 <= r.value < 100.0
    {
      prevRsi
    }
  }

  /**
   * The RSI of a series of candles: none when there are fewer candles than
   * the period, otherwise the index left by feeding every close, which
   * exists exactly when there are more candles than the period.
   */
  method CalculateRsi(candles: seq<Candle>, period: U32) returns (r: Option<RsiIndicator>)
    requires period >= 1
    ensures r.None? <==> |candles| <= period
    ensures r.Some? ==>
      && r.value.period == Some(period)
      && Some(r.value.value) == FiniteOf(RsiFeed(RsiInit(period), Closes(candles)).prevRsi)
      && 0.0 <= r.value.value.value < 100.0
  {
    if |candles| < period {
      RsiWarmup(period, Closes(candles));
      return None;
    }
    ghost var closes := Closes(candles);
    var rsi := new Rsi(period);
    var i := 0;
    while i < |candles|
      invariant 0 <= i <= |candles|
      invariant rsi.Valid() && rsi.State() == RsiFeed(RsiInit(period), closes[..i])
    {
      assert closes[..i + 1] == closes[..i] + [candles[i].close];
      RsiFeedSnoc(RsiInit(period), closes[..i], candles[i].close);
      var _ := rsi.Update(candles[i].close);
      i := i + 1;
    }
    assert closes[..i] == closes;
    ghost var final := RsiFeed(RsiInit(period), closes);
    RsiWarmup(period, closes);
    assert final.prevRsi.Some? <==> |candles| > period;
    var last := rsi.Last();
    assert last == final.prevRsi;
    match last {
      case Some(v) =>
        assert 0.0 <= v < 100.0;
        r := Some(RsiIndicator(Finite(v), Some(period)));
      case None =>
        r := None;
    }
  }

  /** `calculate_rsi` with the conventional period of 14. */
  method CalculateRsiDefault(candles: seq<Candle>) returns (r: Option<RsiIndicator>)
    ensures r.None? <==> |candles| <= 14
    ensures r.Some? ==>
      && r.value.period == Some(14)
      && Some(r.value.value) == FiniteOf(RsiFeed(RsiInit(14), Closes(candles)).prevRsi)
  {
    r := CalculateRsi(candles, 14);
  }
}
