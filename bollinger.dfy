/** The streaming Bollinger Bands squeeze detector and the batch helper (src/indicators/volatility/bollinger.rs). */
module BollingerTracker {
  import opened Wrappers
  import opened CommonMath
  import opened Models

  datatype BollingerSignal = Squeeze | UpperBreakout | LowerBreakout | WalkingBands | MeanReversion | Neutral

  /** The window of recent closes and the bandwidth of the last update. */
  datatype BollingerState = BollingerState(period: nat, stdDev: real, prices: seq<real>, prevBandwidth: Option<real>)

  predicate BollingerValid(s: BollingerState)
  {
    s.period >= 1 && |s.prices| <= s.period
  }

  function BollingerInit(period: nat, stdDev: real): (s: BollingerState)
    ensures period >= 1 ==> BollingerValid(s)
  {
    BollingerState(period, stdDev, [], None)
  }

  /** The three bands of a window and its standard deviation. */
  datatype Bands = Bands(upper: real, middle: real, lower: real, std: real)

  /**
   * The middle band is the window's mean, the outer bands lie `k` population
   * standard deviations above and below it.
   */
  function BandsOf(prices: seq<real>, k: real, root: Root): (r: Bands)
    requires |prices| > 0
    ensures r.middle == Mean(prices) && r.std == root(PopulationVariance(prices)) && r.std >= 0.0
    ensures r.upper - r.middle == r.middle - r.lower
    ensures k >= 0.0 ==> r.lower <= r.middle <= r.upper
  {
    var middle := Mean(prices);
    var std := root(PopulationVariance(prices));
    if k >= 0.0 then ProductNonNegative(k, std); Bands(middle + k * std, middle, middle - k * std, std)
    else Bands(middle + k * std, middle, middle - k * std, std)
  }

  /** The band spread relative to the middle band, or 0 when the middle band is within EPSILON of zero. */
  function Bandwidth(upper: real, lower: real, middle: real): (r: real)
    ensures Abs(middle) <= Epsilon ==> r == 0.0
    ensures Abs(middle) > Epsilon ==> r * middle == upper - lower
  {
    if Abs(middle) > Epsilon then (upper - lower) / middle else 0.0
  }

  /**
   * The classification once the window is full: Squeeze first, then a close
   * outside the bands, then, given a previous bandwidth, mean reversion and
   * walking the bands; Neutral otherwise and always before the window fills.
   */
  function BollingerSignalOf(full: bool, bandwidth: real, close: real, b: Bands, prevBandwidth: Option<real>): (r: BollingerSignal)
    ensures r == Squeeze <==> full && bandwidth < 0.05
    ensures r == UpperBreakout <==> full && bandwidth >= 0.05 && close > b.upper
    ensures r == LowerBreakout <==> full && bandwidth >= 0.05 && close <= b.upper && close < b.lower
    ensures r == MeanReversion <==>
      && full && bandwidth >= 0.05 && b.lower <= close <= b.upper && prevBandwidth.Some?
      && bandwidth < prevBandwidth.value && Abs(close - b.middle) < b.std * 0.5
    ensures r == WalkingBands <==>
      && full && bandwidth >= 0.05 && b.lower <= close <= b.upper && prevBandwidth.Some?
      && !(bandwidth < prevBandwidth.value && Abs(close - b.middle) < b.std * 0.5)
      && (close >= b.upper - b.std * 0.2 || close <= b.lower + b.std * 0.2)
    ensures !full || prevBandwidth.None? ==> r in {Squeeze, UpperBreakout, LowerBreakout, Neutral}
  {
    if !full then Neutral
    else if bandwidth < 0.05 then Squeeze
    else if close > b.upper then UpperBreakout
    else if close < b.lower then LowerBreakout
    else match prevBandwidth
      case Some(prevBw) =>
        if bandwidth < prevBw && Abs(close - b.middle) < b.std * 0.5 then MeanReversion
        else if close >= b.upper - b.std * 0.2 || close <= b.lower + b.std * 0.2 then WalkingBands
        else Neutral
      case None => Neutral
  }

  /** What one update returns. */
  datatype BollingerOutput = BollingerOutput(upper: real, middle: real, lower: real, kind: BollingerSignal)

  /** The bands an update reported. */
  function Reported(out: BollingerOutput): (real, real, real)
  {
    (out.upper, out.middle, out.lower)
  }

  function Triple(b: Bands): (real, real, real)
  {
    (b.upper, b.middle, b.lower)
  }

  /**
   * One update: slide the close into the window, compute the bands of the
   * window and its bandwidth, classify, and remember the bandwidth.
   */
  function BollingerStep(s: BollingerState, close: real, root: Root): (r: (BollingerState, BollingerOutput))
    requires BollingerValid(s)
    ensures BollingerValid(r.0) && r.0.period == s.period && r.0.stdDev == s.stdDev
    ensures r.0.prices == SlideWindow(s.prices, close, s.period)
    ensures |r.0.prices| < s.period ==> r.1.kind == Neutral
  {
    var prices := SlideWindow(s.prices, close, s.period);
    var b := BandsOf(prices, s.stdDev, root);
    var bandwidth := Bandwidth(b.upper, b.lower, b.middle);
    var kind := BollingerSignalOf(|prices| == s.period, bandwidth, close, b, s.prevBandwidth);
    (BollingerState(s.period, s.stdDev, prices, Some(bandwidth)), BollingerOutput(b.upper, b.middle, b.lower, kind))
  }

  /** An update reports the bands of the window it leaves behind. */
  lemma StepReportsBands(s: BollingerState, close: real, root: Root)
    requires BollingerValid(s)
    ensures var r := BollingerStep(s, close, root);
      |r.0.prices| > 0 && Reported(r.1) == Triple(BandsOf(r.0.prices, s.stdDev, root))
  {
  }

  /** A tracker fed `closes` in order. */
  function BollingerFeed(s: BollingerState, closes: seq<real>, root: Root): (r: BollingerState)
    requires BollingerValid(s)
    ensures BollingerValid(r) && r.period == s.period && r.stdDev == s.stdDev
  {
    if |closes| == 0 then s else BollingerStep(BollingerFeed(s, closes[..|closes| - 1], root), closes[|closes| - 1], root).0
  }

  lemma BollingerFeedSnoc(s: BollingerState, closes: seq<real>, close: real, root: Root)
    requires BollingerValid(s)
    ensures BollingerFeed(s, closes + [close], root) == BollingerStep(BollingerFeed(s, closes, root), close, root).0
  {
    assert (closes + [close])[..|closes|] == closes;
  }

  /** The window of a fresh tracker is the sliding of all closes seen. */
  lemma {:induction false} BollingerFeedWindow(period: nat, stdDev: real, closes: seq<real>, root: Root)
    requires period >= 1
    ensures BollingerFeed(BollingerInit(period, stdDev), closes, root).prices == SlideAll(closes, period)
  {
    if |closes| > 0 {
      BollingerFeedWindow(period, stdDev, closes[..|closes| - 1], root);
    }
  }

  /** The window holds exactly the `period` most recent closes, or all of them while fewer were seen. */
  lemma BollingerWindowIsRecent(period: nat, stdDev: real, closes: seq<real>, root: Root)
    requires period >= 1
    ensures BollingerFeed(BollingerInit(period, stdDev), closes, root).prices
      == closes[|closes| - (if |closes| < period then |closes| else period)..]
  {
    BollingerFeedWindow(period, stdDev, closes, root);
    SlideAllKeepsMostRecent(closes, period);
  }

  /** A square root that is exact on squares: it gives back the non-negative number squared. */
  ghost predicate ExactRoot(root: Root)
  {
    forall y :: y >= 0.0 ==> root(Square(y)) == y
  }

  function Square(y: real): real
  {
    y * y
  }

  lemma ExactRootOfSquare(root: Root, y: real)
    requires ExactRoot(root) && y >= 0.0
    ensures root(y * y) == y
  {
    assert root(Square(y)) == y;
  }

  /**
   * Sliding the same close into a window of equal closes: the spread stays
   * zero, so the bandwidth is zero and a full window signals a squeeze.
   */
  lemma FlatStep(s: BollingerState, c: real, root: Root)
    requires BollingerValid(s) && ExactRoot(root)
    requires forall i :: 0 <= i < |s.prices| ==> s.prices[i] == c
    ensures var r := BollingerStep(s, c, root);
      && r.0.prevBandwidth == Some(0.0)
      && (forall i :: 0 <= i < |r.0.prices| ==> r.0.prices[i] == c)
      && (|s.prices| + 1 >= s.period ==> r.1.kind == Squeeze)
  {
    var prices := SlideWindow(s.prices, c, s.period);
    forall i | 0 <= i < |prices| ensures prices[i] == c {
      if |s.prices + [c]| > s.period {
        assert prices[i] == (s.prices + [c])[i + 1];
      } else {
        assert prices[i] == (s.prices + [c])[i];
      }
    }
    ConstantWindow(prices, c);
    ExactRootOfSquare(root, 0.0);
    var b := BandsOf(prices, s.stdDev, root);
    assert b.std == 0.0;
    assert b.upper == b.lower;
  }

  /** Sliding equal closes through a window fills it with that close, up to the window's size. */
  lemma WindowOfEqualCloses(closes: seq<real>, c: real, period: nat)
    requires forall i :: 0 <= i < |closes| ==> closes[i] == c
    ensures var w := SlideAll(closes, period);
      && |w| == (if |closes| < period then |closes| else period)
      && forall i :: 0 <= i < |w| ==> w[i] == c
  {
    SlideAllKeepsMostRecent(closes, period);
  }

  /** A fresh tracker fed at least `period - 1` equal closes signals a squeeze on one more of them. */
  lemma ConstantClosesSqueeze(period: nat, stdDev: real, c: real, closes: seq<real>, root: Root)
    requires period >= 1 && ExactRoot(root) && |closes| + 1 >= period
    requires forall i :: 0 <= i < |closes| ==> closes[i] == c
    ensures BollingerStep(BollingerFeed(BollingerInit(period, stdDev), closes, root), c, root).1.kind == Squeeze
  {
    var s := BollingerFeed(BollingerInit(period, stdDev), closes, root);
    BollingerFeedWindow(period, stdDev, closes, root);
    WindowOfEqualCloses(closes, c, period);
    FlatStep(s, c, root);
  }

  /**
   * The 5-period, 2-deviation detector after six closes at 100: a close at
   * 105 puts the window at mean 101 and deviation 2, so the close sits on the
   * upper band and the bands are walked.
   */
  lemma PriceRipWalksTheBands(root: Root)
    requires ExactRoot(root)
    ensures BollingerStep(BollingerState(5, 2.0, [100.0, 100.0, 100.0, 100.0, 100.0], Some(0.0)), 105.0, root).1
      == BollingerOutput(105.0, 101.0, 97.0, WalkingBands)
  {
    var prices := [100.0, 100.0, 100.0, 100.0, 105.0];
    assert SlideWindow([100.0, 100.0, 100.0, 100.0, 100.0], 105.0, 5) == prices;
    assert Sum(prices) == 505.0 by {
      assert prices[..4] == [100.0, 100.0, 100.0, 100.0];
      SumOfConstant(prices[..4], 100.0);
    }
    assert SquaredDeviations(prices, 101.0) == 20.0 by {
      assert prices[..4] == [100.0, 100.0, 100.0, 100.0];
      SquaredDeviationsOfEqual(prices[..4], 100.0, 101.0);
    }
    assert PopulationVariance(prices) == 2.0 * 2.0;
    ExactRootOfSquare(root, 2.0);
  }

  /** Equal values all lie the same distance from `m`. */
  lemma {:induction false} SquaredDeviationsOfEqual(w: seq<real>, c: real, m: real)
    requires forall i :: 0 <= i < |w| ==> w[i] == c
    ensures SquaredDeviations(w, m) == |w| as real * ((c - m) * (c - m))
  {
    if |w| > 0 {
      SquaredDeviationsOfEqual(w[..|w| - 1], c, m);
    }
  }

  /** A fresh tracker fed equal closes holds only that close and remembers a zero bandwidth. */
  lemma FlatFeed(period: nat, stdDev: real, c: real, closes: seq<real>, root: Root)
    requires period >= 1 && ExactRoot(root) && |closes| > 0
    requires forall i :: 0 <= i < |closes| ==> closes[i] == c
    ensures var s := BollingerFeed(BollingerInit(period, stdDev), closes, root);
      && s.prevBandwidth == Some(0.0)
      && |s.prices| == (if |closes| < period then |closes| else period)
      && forall i :: 0 <= i < |s.prices| ==> s.prices[i] == c
  {
    var init := closes[..|closes| - 1];
    assert forall i :: 0 <= i < |init| ==> init[i] == c;
    var before := BollingerFeed(BollingerInit(period, stdDev), init, root);
    BollingerFeedWindow(period, stdDev, init, root);
    WindowOfEqualCloses(init, c, period);
    FlatStep(before, c, root);
    BollingerFeedWindow(period, stdDev, closes, root);
    WindowOfEqualCloses(closes, c, period);
  }

  /**
   * Six closes at 100 into the 5-period, 2-deviation detector, then one at
   * 105: the window fills flat, and the close at 105 walks the upper band.
   */
  lemma FlatThenRip(closes: seq<real>, root: Root)
    requires ExactRoot(root)
    requires |closes| == 6 && forall i :: 0 <= i < 6 ==> closes[i] == 100.0
    ensures var s := BollingerFeed(BollingerInit(5, 2.0), closes, root);
      && BollingerStep(s, 100.0, root).1.kind == Squeeze
      && BollingerStep(s, 105.0, root).1.kind == WalkingBands
  {
    var s := BollingerFeed(BollingerInit(5, 2.0), closes, root);
    FlatFeed(5, 2.0, 100.0, closes, root);
    assert s.prices == [100.0, 100.0, 100.0, 100.0, 100.0];
    assert s == BollingerState(5, 2.0, [100.0, 100.0, 100.0, 100.0, 100.0], Some(0.0));
    FlatStep(s, 100.0, root);
    PriceRipWalksTheBands(root);
  }

  /** Once the window is full, the last bands are those of the last `period` closes, whose middle is the SMA. */
  lemma FullWindowBands(period: nat, stdDev: real, closes: seq<real>, root: Root)
    requires 1 <= period <= |closes|
    ensures var s := BollingerFeed(BollingerInit(period, stdDev), closes, root);
      && s.prices == closes[|closes| - period..]
      && Some(Mean(s.prices)) == Sma(closes, period)
  {
    BollingerFeedWindow(period, stdDev, closes, root);
    FinalWindow(closes, period, BollingerFeed(BollingerInit(period, stdDev), closes, root).prices);
  }

  lemma MeanOfRecentIsSma(values: seq<real>, period: nat)
    requires 1 <= period <= |values|
    ensures Some(Mean(values[|values| - period..])) == Sma(values, period)
  {
    assert LastN(values, period) == values[|values| - period..];
  }

  /** The stateful squeeze detector. */
  class BollingerBands {
    const period: nat
    const stdDev: real
    var prices: seq<real>
    var prevBandwidth: Option<real>

    ghost predicate Valid()
      reads this
    {
      BollingerValid(State())
    }

    function State(): BollingerState
      reads this
    {
      BollingerState(period, stdDev, prices, prevBandwidth)
    }

    constructor (period: nat, stdDev: real)
      requires period >= 1
      ensures Valid() && State() == BollingerInit(period, stdDev)
    {
      this.period := period;
      this.stdDev := stdDev;
      prices := [];
      prevBandwidth := None;
    }

    method Update(close: real, root: Root) returns (r: BollingerOutput)
      requires Valid()
      modifies this
      ensures Valid() && (State(), r) == BollingerStep(old(State()), close, root)
    {
      ghost var s := State();
      prices := prices + [close];
      if |prices| > period {
        prices := prices[1..];
      }
      assert prices == SlideWindow(s.prices, close, period);
      var b := BandsOf(prices, stdDev, root);
      var bandwidth := Bandwidth(b.upper, b.lower, b.middle);
      var kind := Neutral;
      if |prices| == period {
        if bandwidth < 0.05 {
          kind := Squeeze;
        } else if close > b.upper {
          kind := UpperBreakout;
        } else if close < b.lower {
          kind := LowerBreakout;
        } else if prevBandwidth.Some? {
          if bandwidth < prevBandwidth.value && Abs(close - b.middle) < b.std * 0.5 {
            kind := MeanReversion;
          } else if close >= b.upper - b.std * 0.2 || close <= b.lower + b.std * 0.2 {
            kind := WalkingBands;
          }
        }
      }
      prevBandwidth := Some(bandwidth);
      r := BollingerOutput(b.upper, b.middle, b.lower, kind);
    }
  }

  /** A window slid through at least `period` closes is the last `period` of them, with the SMA as its mean. */
  lemma FinalWindow(closes: seq<real>, period: nat, prices: seq<real>)
    requires 1 <= period <= |closes| && prices == SlideAll(closes, period)
    ensures prices == closes[|closes| - period..]
    ensures Some(Mean(prices)) == Sma(closes, period)
  {
    SlideAllKeepsMostRecent(closes, period);
    MeanOfRecentIsSma(closes, period);
  }

  /** One close into the tracker: the window slides and the output reports the bands of the new window. */
  method FeedClose(bb: BollingerBands, close: real, root: Root) returns (out: BollingerOutput)
    requires bb.Valid()
    modifies bb
    ensures bb.Valid()
    ensures bb.prices == SlideWindow(old(bb.prices), close, bb.period)
    ensures |bb.prices| > 0 && Reported(out) == Triple(BandsOf(bb.prices, bb.stdDev, root))
  {
    ghost var before := bb.State();
    out := bb.Update(close, root);
    StepReportsBands(before, close, root);
    assert bb.State() == BollingerStep(before, close, root).0;
    assert out == BollingerStep(before, close, root).1;
  }

  /** Every candle's close into a fresh tracker, in order; the last output, if any. */
  method RunCloses(bb: BollingerBands, candles: seq<Candle>, root: Root) returns (latest: Option<BollingerOutput>)
    requires bb.Valid() && bb.prices == []
    modifies bb
    ensures bb.Valid() && bb.prices == SlideAll(Closes(candles), bb.period)
    ensures latest.None? <==> |candles| == 0
    ensures latest.Some? ==> Reported(latest.value) == Triple(BandsOf(bb.prices, bb.stdDev, root))
  {
    ghost var closes := Closes(candles);
    latest := None;
    var i := 0;
    while i < |candles|
      invariant 0 <= i <= |candles|
      invariant bb.Valid() && bb.prices == SlideAll(closes[..i], bb.period)
      invariant latest.None? <==> i == 0
      invariant latest.Some? ==> Reported(latest.value) == Triple(BandsOf(bb.prices, bb.stdDev, root))
    {
      var out := FeedClose(bb, candles[i].close, root);
      assert closes[..i + 1][..i] == closes[..i];
      latest := Some(out);
      i := i + 1;
    }
    assert closes[..i] == closes;
  }

  /**
   * The bands of the last `period` closes, tagged with the period and the
   * width in deviations; None when there are fewer candles than the period.
   */
  method CalculateBollingerBands(candles: seq<Candle>, period: U32, stdDev: real, root: Root)
    returns (r: Option<BollingerBandsIndicator>)
    requires period >= 1
    ensures r.None? <==> |candles| < period
    ensures r.Some? ==>
      var b := BandsOf(Closes(candles)[|candles| - period..], stdDev, root);
      && r.value == BollingerBandsIndicator(Finite(b.upper), Finite(b.middle), Finite(b.lower), period, Finite(stdDev))
      && Some(b.middle) == Sma(Closes(candles), period)
  {
    if |candles| < period {
      return None;
    }
    var bb := new BollingerBands(period, stdDev);
    var latest := RunCloses(bb, candles, root);
    var out := latest.value;
    FinalWindow(Closes(candles), period, bb.prices);
    ghost var b := BandsOf(bb.prices, stdDev, root);
    assert out.upper == b.upper && out.middle == b.middle && out.lower == b.lower;
    r := Some(BollingerBandsIndicator(Finite(out.upper), Finite(out.middle), Finite(out.lower), period, Finite(stdDev)));
  }

  /** The defaults: 20 periods, 2 deviations. */
  method CalculateBollingerBandsDefault(candles: seq<Candle>, root: Root) returns (r: Option<BollingerBandsIndicator>)
    ensures r.None? <==> |candles| < 20
    ensures r.Some? ==> r.value.period == 20 && r.value.stdDev == Finite(2.0)
    ensures r.Some? ==> r.value.middle.Finite? && Some(r.value.middle.value) == Sma(Closes(candles), 20)
  {
    r := CalculateBollingerBands(candles, 20, 2.0, root);
  }
}
