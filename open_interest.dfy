/** The open interest trend detector for perpetual markets (src/indicators/perp/open_interest.rs). */
module OpenInterestTracker {
  import opened Wrappers
  import opened CommonMath

  datatype OpenInterestSignal = BullishExpansion | BearishExpansion | LongSqueeze | ShortSqueeze | Neutral

  /** The previous open interest and price, and the smoothed open interest. */
  datatype OiState = OiState(prevOi: Option<real>, prevPrice: Option<real>, oiEma: Option<real>)

  /** All three are set together, by the first update. */
  predicate OiValid(s: OiState)
  {
    (s.prevOi.Some? <==> s.prevPrice.Some?) && (s.oiEma.Some? <==> s.prevOi.Some?)
  }

  function OiInit(): (s: OiState)
    ensures OiValid(s) && s.prevOi.None?
  {
    OiState(None, None, None)
  }

  /** The percent change of open interest; a previous value within machine epsilon of zero counts as no change. */
  function OiPercentChange(prevOi: real, currentOi: real): (r: real)
    ensures Abs(prevOi) < Epsilon ==> r == 0.0
    ensures Abs(prevOi) >= Epsilon ==> r * prevOi == (currentOi - prevOi) * 100.0
  {
    if Abs(prevOi) < Epsilon then 0.0 else ((currentOi - prevOi) / prevOi) * 100.0
  }

  /**
   * For a positive previous open interest the thresholds read as: more than
   * 2% above it, and more than 2% below it.
   */
  lemma PercentThresholds(prevOi: real, currentOi: real)
    requires prevOi >= Epsilon
    ensures OiPercentChange(prevOi, currentOi) > 2.0 <==> currentOi > prevOi * 1.02
    ensures OiPercentChange(prevOi, currentOi) < -2.0 <==> currentOi < prevOi * 0.98
  {
    var r := OiPercentChange(prevOi, currentOi);
    assert (r - 2.0) * prevOi == (currentOi - prevOi * 1.02) * 100.0;
    assert (r + 2.0) * prevOi == (currentOi - prevOi * 0.98) * 100.0;
    SignOfProduct(r - 2.0, prevOi);
    SignOfProduct(r + 2.0, prevOi);
  }

  /**
   * The classification: open interest up more than 2% is an expansion in
   * the price's direction, down more than 2% a squeeze of the side the
   * price moved against; a flat price or a smaller change is neutral.
   */
  function OiSignalOf(oiPctChange: real, priceChange: real): (r: OpenInterestSignal)
    ensures r == BullishExpansion <==> oiPctChange > 2.0 && priceChange > 0.0
    ensures r == BearishExpansion <==> oiPctChange > 2.0 && priceChange < 0.0
    ensures r == LongSqueeze <==> oiPctChange < -2.0 && priceChange < 0.0
    ensures r == ShortSqueeze <==> oiPctChange < -2.0 && priceChange > 0.0
    ensures r == Neutral <==> -2.0 <= oiPctChange <= 2.0 || priceChange == 0.0
  {
    if oiPctChange > 2.0 then
      (if priceChange > 0.0 then BullishExpansion else if priceChange < 0.0 then BearishExpansion else Neutral)
    else if oiPctChange < -2.0 then
      (if priceChange < 0.0 then LongSqueeze else if priceChange > 0.0 then ShortSqueeze else Neutral)
    else Neutral
  }

  /** Exponential smoothing with weight 0.2 on the newest open interest. */
  function SmoothOi(previous: real, oi: real): (r: real)
    ensures Min(previous, oi) <= r <= Max(previous, oi)
  {
    previous * 0.8 + oi * 0.2
  }

  /**
   * One update. The smoothed value starts at the first open interest and
   * then follows it; the first update is neutral, later ones classify the
   * change from the previous update; the previous values are replaced.
   */
  function OiStep(s: OiState, currentOi: real, price: real): (r: (OiState, OpenInterestSignal))
    requires OiValid(s)
    ensures OiValid(r.0) && r.0.prevOi == Some(currentOi) && r.0.prevPrice == Some(price)
    ensures s.prevOi.None? ==> r.0.oiEma == Some(currentOi) && r.1 == Neutral
    ensures s.prevOi.Some? ==>
      && r.0.oiEma == Some(SmoothOi(s.oiEma.value, currentOi))
      && r.1 == OiSignalOf(OiPercentChange(s.prevOi.value, currentOi), price - s.prevPrice.value)
  {
    var ema := match s.oiEma
      case Some(prev) => SmoothOi(prev, currentOi)
      case None => currentOi;
    var signal := match (s.prevOi, s.prevPrice)
      case (Some(prevOi), Some(prevPrice)) => OiSignalOf(OiPercentChange(prevOi, currentOi), price - prevPrice)
      case _ => Neutral;
    (OiState(Some(currentOi), Some(price), Some(ema)), signal)
  }

  /** A reading: open interest and price. */
  type Reading = (real, real)

  /** A detector fed `readings` in order. */
  function OiFeed(s: OiState, readings: seq<Reading>): (r: OiState)
    requires OiValid(s)
    ensures OiValid(r)
    ensures |readings| > 0 ==> r.prevOi == Some(readings[|readings| - 1].0) && r.prevPrice == Some(readings[|readings| - 1].1)
    ensures |readings| == 0 ==> r == s
  {
    if |readings| == 0 then s
    else OiStep(OiFeed(s, readings[..|readings| - 1]), readings[|readings| - 1].0, readings[|readings| - 1].1).0
  }

  /** The smoothed open interest stays within any bounds every reading keeps. */
  lemma {:induction false} SmoothedWithinReadings(readings: seq<Reading>, lo: real, hi: real)
    requires |readings| > 0
    requires forall i :: 0 <= i < |readings| ==> lo <= readings[i].0 <= hi
    ensures var s := OiFeed(OiInit(), readings);
      s.oiEma.Some? && lo <= s.oiEma.value <= hi
  {
    var init := readings[..|readings| - 1];
    if |init| > 0 {
      forall i | 0 <= i < |init| ensures lo <= init[i].0 <= hi {
        assert init[i] == readings[i];
      }
      SmoothedWithinReadings(init, lo, hi);
    }
  }

  /** Open interest that stays within machine epsilon of zero never signals. */
  lemma ZeroOpenInterestIsNeutral(s: OiState, currentOi: real, price: real)
    requires OiValid(s) && s.prevOi.Some? && Abs(s.prevOi.value) < Epsilon
    ensures OiStep(s, currentOi, price).1 == Neutral
  {
  }

  // The unit scenario: (1000, 100), (1105, 101), (1128, 99), (1050, 98), (1000, 100).

  lemma OiScenarioSteps()
    ensures OiStep(OiInit(), 1000.0, 100.0) == (OiState(Some(1000.0), Some(100.0), Some(1000.0)), Neutral)
    ensures OiStep(OiState(Some(1000.0), Some(100.0), Some(1000.0)), 1105.0, 101.0)
      == (OiState(Some(1105.0), Some(101.0), Some(1021.0)), BullishExpansion)
    ensures OiStep(OiState(Some(1105.0), Some(101.0), Some(1021.0)), 1128.0, 99.0)
      == (OiState(Some(1128.0), Some(99.0), Some(1042.4)), BearishExpansion)
    ensures OiStep(OiState(Some(1128.0), Some(99.0), Some(1042.4)), 1050.0, 98.0)
      == (OiState(Some(1050.0), Some(98.0), Some(1043.92)), LongSqueeze)
    ensures OiStep(OiState(Some(1050.0), Some(98.0), Some(1043.92)), 1000.0, 100.0).1 == ShortSqueeze
  {
    PercentThresholds(1000.0, 1105.0);
    PercentThresholds(1105.0, 1128.0);
    PercentThresholds(1128.0, 1050.0);
    PercentThresholds(1050.0, 1000.0);
  }

  /** The scripted sequence: neutral, then a bullish and a bearish expansion, then a long and a short squeeze. */
  lemma ExpansionsThenSqueezes()
    ensures var r1 := OiStep(OiInit(), 1000.0, 100.0);
      var r2 := OiStep(r1.0, 1105.0, 101.0);
      var r3 := OiStep(r2.0, 1128.0, 99.0);
      var r4 := OiStep(r3.0, 1050.0, 98.0);
      var r5 := OiStep(r4.0, 1000.0, 100.0);
      [r1.1, r2.1, r3.1, r4.1, r5.1] == [Neutral, BullishExpansion, BearishExpansion, LongSqueeze, ShortSqueeze]
  {
    OiScenarioSteps();
  }

  /** The stateful open interest detector. */
  class OpenInterest {
    var prevOi: Option<real>
    var prevPrice: Option<real>
    var oiEma: Option<real>

    ghost predicate Valid()
      reads this
    {
      OiValid(State())
    }

    function State(): OiState
      reads this
    {
      OiState(prevOi, prevPrice, oiEma)
    }

    constructor ()
      ensures Valid() && State() == OiInit()
    {
      prevOi := None;
      prevPrice := None;
      oiEma := None;
    }

    method Update(currentOi: real, price: real) returns (signal: OpenInterestSignal)
      requires Valid()
      modifies this
      ensures Valid() && (State(), signal) == OiStep(old(State()), currentOi, price)
    {
      var ema := if oiEma.Some? then oiEma.value * 0.8 + currentOi * 0.2 else currentOi;
      oiEma := Some(ema);
      if prevOi.Some? && prevPrice.Some? {
        var oiChange := currentOi - prevOi.value;
        var priceChange := price - prevPrice.value;
        var oiPctChange := if Abs(prevOi.value) < Epsilon then 0.0 else (oiChange / prevOi.value) * 100.0;
        if oiPctChange > 2.0 {
          if priceChange > 0.0 {
            signal := BullishExpansion;
          } else if priceChange < 0.0 {
            signal := BearishExpansion;
          } else {
            signal := Neutral;
          }
        } else if oiPctChange < -2.0 {
          if priceChange < 0.0 {
            signal := LongSqueeze;
          } else if priceChange > 0.0 {
            signal := ShortSqueeze;
          } else {
            signal := Neutral;
          }
        } else {
          signal := Neutral;
        }
      } else {
        signal := Neutral;
      }
      prevOi := Some(currentOi);
      prevPrice := Some(price);
    }

    /** The smoothed open interest; None before the first update. */
    function Smoothed(): (r: Option<real>)
      reads this
      ensures Valid() ==> (r.Some? <==> prevOi.Some?)
    {
      oiEma
    }
  }
}
