/** The SuperTrend trailing-band indicator built on an ATR (src/indicators/trend/supertrend.rs). */
module SuperTrendTracker {
  import opened Wrappers
  import opened CommonMath
  import opened AtrTracker

  datatype SuperTrendSignal = Bullish | Bearish | BullishFlip | BearishFlip

  /** The direction a signal belongs to; a flip belongs to the side it flipped to. */
  predicate IsBullishSide(s: SuperTrendSignal)
  {
    s == Bullish || s == BullishFlip
  }

  /** What a SuperTrend tracker remembers. */
  datatype SuperTrendState = SuperTrendState(
    atr: AtrState,
    multiplier: real,
    upperBand: Option<real>,
    lowerBand: Option<real>,
    supertrend: Option<real>,
    prevSignal: Option<SuperTrendSignal>)

  /**
   * The tracker's invariant: a valid ATR, a remembered signal that is a
   * plain direction, never a flip, and a line that exists exactly when a
   * signal does and then sits on one of the two remembered bands.
   */
  predicate SuperTrendValid(s: SuperTrendState)
  {
    && AtrValid(s.atr) && (s.prevSignal.Some? ==> s.prevSignal.value in {Bullish, Bearish})
    && (s.supertrend.None? <==> s.prevSignal.None?)
    && (s.supertrend.Some? ==>
          s.upperBand.Some? && s.lowerBand.Some?
          && (s.supertrend.value == s.upperBand.value || s.supertrend.value == s.lowerBand.value))
  }

  function SuperTrendInit(period: nat, multiplier: real): (s: SuperTrendState)
    ensures period >= 1 ==> SuperTrendValid(s)
  {
    SuperTrendState(AtrInit(period), multiplier, None, None, None, None)
  }

  /**
   * The final upper band: the new basic band, unless the previous upper band
   * was tighter and the close did not break above it.
   */
  function FinalUpper(prevUpper: Option<real>, basicUpper: real, close: real): (r: real)
    ensures prevUpper.None? ==> r == basicUpper
    ensures prevUpper.Some? && close > prevUpper.value ==> r == basicUpper
    ensures prevUpper.Some? && close <= prevUpper.value ==> r == Min(basicUpper, prevUpper.value)
  {
    match prevUpper
    case Some(pu) => if basicUpper < pu || close > pu then basicUpper else pu
    case None => basicUpper
  }

  /**
   * The final lower band: the new basic band, unless the previous lower band
   * was tighter and the close did not break below it.
   */
  function FinalLower(prevLower: Option<real>, basicLower: real, close: real): (r: real)
    ensures prevLower.None? ==> r == basicLower
    ensures prevLower.Some? && close < prevLower.value ==> r == basicLower
    ensures prevLower.Some? && close >= prevLower.value ==> r == Max(basicLower, prevLower.value)
  {
    match prevLower
    case Some(pl) => if basicLower > pl || close < pl then basicLower else pl
    case None => basicLower
  }

  /**
   * The new SuperTrend line. While the previous line was the upper band it
   * stays on the upper band unless the close breaks above it; otherwise it
   * stays on the lower band unless the close breaks below it.
   */
  function SuperTrendLine(prevSupertrend: Option<real>, prevUpper: Option<real>, finalUpper: real, finalLower: real, close: real): (r: real)
    ensures r == finalUpper || r == finalLower
  {
    if prevSupertrend.Some? && prevUpper.Some? && Abs(prevSupertrend.value - prevUpper.value) < Epsilon then
      (if close <= finalUpper then finalUpper else finalLower)
    else
      (if close >= finalLower then finalLower else finalUpper)
  }

  /** The reported signal: a flip when the direction differs from the previous one, the direction otherwise. */
  function FlipSignal(prevSignal: Option<SuperTrendSignal>, current: SuperTrendSignal): (r: SuperTrendSignal)
    requires current in {Bullish, Bearish}
    requires prevSignal.Some? ==> prevSignal.value in {Bullish, Bearish}
    ensures IsBullishSide(r) <==> current == Bullish
    ensures (r == BullishFlip || r == BearishFlip) <==> prevSignal.Some? && prevSignal.value != current
  {
    match (prevSignal, current)
    case (Some(Bearish), Bullish) => BullishFlip
    case (Some(Bullish), Bearish) => BearishFlip
    case _ => current
  }

  /** The basic bands: `multiplier` ATRs above and below the high-low midpoint. */
  function BasicBands(high: real, low: real, multiplier: real, atr: real): (r: (real, real))
    ensures r.0 - r.1 == 2.0 * multiplier * atr
    ensures r.0 + r.1 == high + low
  {
    var hlAvg := (high + low) / 2.0;
    (hlAvg + multiplier * atr, hlAvg - multiplier * atr)
  }

  /** One SuperTrend update on a candle. */
  function SuperTrendStep(s: SuperTrendState, high: real, low: real, close: real): (r: (SuperTrendState, SuperTrendSignal))
    requires SuperTrendValid(s)
    ensures SuperTrendValid(r.0) && r.0.multiplier == s.multiplier
  {
    var a := AtrStep(s.atr, high, low, close);
    BandsStep(s, a.0, BasicBands(high, low, s.multiplier, a.1), close)
  }

  /**
   * The band and signal part of an update, once the ATR has moved to
   * `atrState` and the basic bands are known.
   */
  function BandsStep(s: SuperTrendState, atrState: AtrState, basic: (real, real), close: real): (r: (SuperTrendState, SuperTrendSignal))
    requires SuperTrendValid(s) && AtrValid(atrState)
    ensures SuperTrendValid(r.0) && r.0.atr == atrState && r.0.multiplier == s.multiplier
  {
    var finalUpper := FinalUpper(s.upperBand, basic.0, close);
    var finalLower := FinalLower(s.lowerBand, basic.1, close);
    var line := SuperTrendLine(s.supertrend, s.upperBand, finalUpper, finalLower, close);
    var current := if close > line then Bullish else Bearish;
    (SuperTrendState(atrState, s.multiplier, Some(finalUpper), Some(finalLower), Some(line), Some(current)),
     FlipSignal(s.prevSignal, current))
  }

  /**
   * What one update produces: the line sits on one of the two final bands,
   * the signal is on the bullish side exactly when the close is above the
   * line, the remembered direction is the signal's side, and the signal is a
   * flip exactly when that direction changed.
   */
  lemma SuperTrendStepFacts(s: SuperTrendState, high: real, low: real, close: real)
    requires SuperTrendValid(s)
    ensures var r := SuperTrendStep(s, high, low, close);
      && r.0.atr == AtrStep(s.atr, high, low, close).0
      && r.0.upperBand.Some? && r.0.lowerBand.Some? && r.0.supertrend.Some? && r.0.prevSignal.Some?
      && (r.0.supertrend.value == r.0.upperBand.value || r.0.supertrend.value == r.0.lowerBand.value)
      && (IsBullishSide(r.1) <==> close > r.0.supertrend.value)
      && r.0.prevSignal == Some(if IsBullishSide(r.1) then Bullish else Bearish)
      && ((r.1 == BullishFlip || r.1 == BearishFlip) <==> s.prevSignal.Some? && s.prevSignal != r.0.prevSignal)
  {
  }

  /** The very first update is never a flip. */
  lemma FirstUpdateNeverFlips(period: nat, multiplier: real, high: real, low: real, close: real)
    requires period >= 1
    ensures SuperTrendStep(SuperTrendInit(period, multiplier), high, low, close).1 in {Bullish, Bearish}
  {
    SuperTrendStepFacts(SuperTrendInit(period, multiplier), high, low, close);
  }

  /** No two consecutive updates flip the same way. */
  lemma NoRepeatedFlip(s: SuperTrendState, c1: (real, real, real), c2: (real, real, real))
    requires SuperTrendValid(s)
    ensures var (s1, f1) := SuperTrendStep(s, c1.0, c1.1, c1.2);
      var (_, f2) := SuperTrendStep(s1, c2.0, c2.1, c2.2);
      (f1 == BullishFlip ==> f2 != BullishFlip) && (f1 == BearishFlip ==> f2 != BearishFlip)
  {
    var (s1, _) := SuperTrendStep(s, c1.0, c1.1, c1.2);
    SuperTrendStepFacts(s, c1.0, c1.1, c1.2);
    SuperTrendStepFacts(s1, c2.0, c2.1, c2.2);
  }

  /** The signals of a run of (high, low, close) candles, in order. */
  function SuperTrendRun(s: SuperTrendState, candles: seq<(real, real, real)>): (r: (SuperTrendState, seq<SuperTrendSignal>))
    requires SuperTrendValid(s)
    ensures SuperTrendValid(r.0) && |r.1| == |candles| && r.0.multiplier == s.multiplier
  {
    if |candles| == 0 then (s, [])
    else
      var (before, signals) := SuperTrendRun(s, candles[..|candles| - 1]);
      var c := candles[|candles| - 1];
      var (after, signal) := SuperTrendStep(before, c.0, c.1, c.2);
      (after, signals + [signal])
  }

  /** Running one more candle steps the state reached so far. */
  lemma SuperTrendRunSnoc(s: SuperTrendState, candles: seq<(real, real, real)>, c: (real, real, real))
    requires SuperTrendValid(s)
    ensures var before := SuperTrendRun(s, candles);
      var step := SuperTrendStep(before.0, c.0, c.1, c.2);
      SuperTrendRun(s, candles + [c]) == (step.0, before.1 + [step.1])
  {
    assert (candles + [c])[..|candles|] == candles;
  }

  /** The state of a period-3, multiplier-2 tracker after at least one update. */
  function Tracked3(trueRanges: seq<real>, atr: real, close: real, upper: real, lower: real, line: real, direction: SuperTrendSignal): SuperTrendState
  {
    SuperTrendState(AtrState(3, trueRanges, Some(atr), Some(close)), 2.0, Some(upper), Some(lower), Some(line), Some(direction))
  }

  lemma UpMoveStep1()
    ensures SuperTrendStep(SuperTrendInit(3, 2.0), 102.0, 100.0, 101.5)
      == (Tracked3([2.0], 2.0, 101.5, 105.0, 97.0, 97.0, Bullish), Bullish)
  {
    assert TrueRangeAfter(None, 102.0, 100.0) == 2.0;
    assert SlideWindow([], 2.0, 3) == [2.0];
    assert AtrStep(AtrInit(3), 102.0, 100.0, 101.5) == (AtrState(3, [2.0], Some(2.0), Some(101.5)), 2.0);
  }

  lemma UpMoveStep2()
    ensures SuperTrendValid(Tracked3([2.0], 2.0, 101.5, 105.0, 97.0, 97.0, Bullish))
    ensures SuperTrendStep(Tracked3([2.0], 2.0, 101.5, 105.0, 97.0, 97.0, Bullish), 103.5, 101.5, 103.0)
      == (Tracked3([2.0, 2.0], 2.0, 103.0, 105.0, 98.5, 98.5, Bullish), Bullish)
  {
    assert TrueRange(103.5, 101.5, 101.5) == 2.0;
    assert SlideWindow([2.0], 2.0, 3) == [2.0, 2.0];
    assert AtrStep(AtrState(3, [2.0], Some(2.0), Some(101.5)), 103.5, 101.5, 103.0) == (AtrState(3, [2.0, 2.0], Some(2.0), Some(103.0)), 2.0);
  }

  lemma UpMoveStep3()
    ensures SuperTrendValid(Tracked3([2.0, 2.0], 2.0, 103.0, 105.0, 98.5, 98.5, Bullish))
    ensures SuperTrendStep(Tracked3([2.0, 2.0], 2.0, 103.0, 105.0, 98.5, 98.5, Bullish), 105.0, 103.0, 104.8)
      == (Tracked3([2.0, 2.0, 2.0], 2.0, 104.8, 105.0, 100.0, 100.0, Bullish), Bullish)
  {
    assert TrueRange(105.0, 103.0, 103.0) == 2.0;
    assert Wilder(2.0, 2.0, 3) == 2.0;
    assert SlideWindow([2.0, 2.0], 2.0, 3) == [2.0, 2.0, 2.0];
    assert AtrStep(AtrState(3, [2.0, 2.0], Some(2.0), Some(103.0)), 105.0, 103.0, 104.8) == (AtrState(3, [2.0, 2.0, 2.0], Some(2.0), Some(104.8)), 2.0);
  }

  lemma UpMoveStep4()
    ensures SuperTrendValid(Tracked3([2.0, 2.0, 2.0], 2.0, 104.8, 105.0, 100.0, 100.0, Bullish))
    ensures SuperTrendStep(Tracked3([2.0, 2.0, 2.0], 2.0, 104.8, 105.0, 100.0, 100.0, Bullish), 106.0, 104.0, 105.5)
      == (Tracked3([2.0, 2.0, 2.0], 2.0, 105.5, 109.0, 101.0, 101.0, Bullish), Bullish)
  {
    assert TrueRange(106.0, 104.0, 104.8) == 2.0;
    assert Wilder(2.0, 2.0, 3) == 2.0;
    assert [2.0, 2.0, 2.0, 2.0][1..] == [2.0, 2.0, 2.0];
    assert SlideWindow([2.0, 2.0, 2.0], 2.0, 3) == [2.0, 2.0, 2.0];
    assert AtrStep(AtrState(3, [2.0, 2.0, 2.0], Some(2.0), Some(104.8)), 106.0, 104.0, 105.5) == (AtrState(3, [2.0, 2.0, 2.0], Some(2.0), Some(105.5)), 2.0);
  }

  lemma UpMoveRun2()
    ensures SuperTrendRun(SuperTrendInit(3, 2.0), [(102.0, 100.0, 101.5), (103.5, 101.5, 103.0)])
      == (Tracked3([2.0, 2.0], 2.0, 103.0, 105.0, 98.5, 98.5, Bullish), [Bullish, Bullish])
  {
    var c1, c2 := (102.0, 100.0, 101.5), (103.5, 101.5, 103.0);
    UpMoveStep1();
    assert SuperTrendRun(SuperTrendInit(3, 2.0), []) == (SuperTrendInit(3, 2.0), []);
    SuperTrendRunSnoc(SuperTrendInit(3, 2.0), [], c1);
    assert [] + [c1] == [c1];
    var none: seq<SuperTrendSignal> := [];
    assert none + [Bullish] == [Bullish];
    assert SuperTrendRun(SuperTrendInit(3, 2.0), [c1]) == (Tracked3([2.0], 2.0, 101.5, 105.0, 97.0, 97.0, Bullish), [Bullish]);
    UpMoveStep2();
    SuperTrendRunSnoc(SuperTrendInit(3, 2.0), [c1], c2);
    assert [c1] + [c2] == [c1, c2];
    assert [Bullish] + [Bullish] == [Bullish, Bullish];
  }

  /**
   * A steady up-move with period 3 and multiplier 2 keeps the line on the
   * rising lower band (97, 98.5, 100, 101): every signal is Bullish.
   */
  lemma UpMoveIsBullish()
    ensures SuperTrendRun(SuperTrendInit(3, 2.0),
      [(102.0, 100.0, 101.5), (103.5, 101.5, 103.0), (105.0, 103.0, 104.8), (106.0, 104.0, 105.5)]).1
      == [Bullish, Bullish, Bullish, Bullish]
  {
    var c1, c2, c3, c4 := (102.0, 100.0, 101.5), (103.5, 101.5, 103.0), (105.0, 103.0, 104.8), (106.0, 104.0, 105.5);
    UpMoveRun2();
    UpMoveStep3();
    SuperTrendRunSnoc(SuperTrendInit(3, 2.0), [c1, c2], c3);
    assert [c1, c2] + [c3] == [c1, c2, c3];
    assert [Bullish, Bullish] + [Bullish] == [Bullish, Bullish, Bullish];
    UpMoveStep4();
    SuperTrendRunSnoc(SuperTrendInit(3, 2.0), [c1, c2, c3], c4);
    assert [c1, c2, c3] + [c4] == [c1, c2, c3, c4];
    assert [Bullish, Bullish, Bullish] + [Bullish] == [Bullish, Bullish, Bullish, Bullish];
  }

  /** A full period-3 window of true ranges 6 stays full, with ATR 6, while each new true range is 6. */
  lemma SteadyAtrSix(prevClose: real, high: real, low: real, close: real)
    requires TrueRange(high, low, prevClose) == 6.0
    ensures AtrStep(AtrState(3, [6.0, 6.0, 6.0], Some(6.0), Some(prevClose)), high, low, close)
      == (AtrState(3, [6.0, 6.0, 6.0], Some(6.0), Some(close)), 6.0)
  {
    assert [6.0, 6.0, 6.0, 6.0][1..] == [6.0, 6.0, 6.0];
    assert SlideWindow([6.0, 6.0, 6.0], 6.0, 3) == [6.0, 6.0, 6.0];
    assert Wilder(6.0, 6.0, 3) == 6.0;
  }

  lemma DownMoveStep1()
    ensures SuperTrendStep(SuperTrendInit(3, 2.0), 105.0, 99.0, 100.0)
      == (Tracked3([6.0], 6.0, 100.0, 114.0, 90.0, 90.0, Bullish), Bullish)
  {
    assert TrueRangeAfter(None, 105.0, 99.0) == 6.0;
    assert SlideWindow([], 6.0, 3) == [6.0];
    assert AtrStep(AtrInit(3), 105.0, 99.0, 100.0) == (AtrState(3, [6.0], Some(6.0), Some(100.0)), 6.0);
  }

  lemma DownMoveStep2()
    ensures SuperTrendValid(Tracked3([6.0], 6.0, 100.0, 114.0, 90.0, 90.0, Bullish))
    ensures SuperTrendStep(Tracked3([6.0], 6.0, 100.0, 114.0, 90.0, 90.0, Bullish), 103.0, 97.0, 98.0)
      == (Tracked3([6.0, 6.0], 6.0, 98.0, 112.0, 90.0, 90.0, Bullish), Bullish)
  {
    assert TrueRange(103.0, 97.0, 100.0) == 6.0;
    assert SlideWindow([6.0], 6.0, 3) == [6.0, 6.0];
    assert AtrStep(AtrState(3, [6.0], Some(6.0), Some(100.0)), 103.0, 97.0, 98.0) == (AtrState(3, [6.0, 6.0], Some(6.0), Some(98.0)), 6.0);
  }

  lemma DownMoveStep3()
    ensures SuperTrendValid(Tracked3([6.0, 6.0], 6.0, 98.0, 112.0, 90.0, 90.0, Bullish))
    ensures SuperTrendStep(Tracked3([6.0, 6.0], 6.0, 98.0, 112.0, 90.0, 90.0, Bullish), 101.0, 95.0, 96.0)
      == (Tracked3([6.0, 6.0, 6.0], 6.0, 96.0, 110.0, 90.0, 90.0, Bullish), Bullish)
  {
    assert TrueRange(101.0, 95.0, 98.0) == 6.0;
    assert SlideWindow([6.0, 6.0], 6.0, 3) == [6.0, 6.0, 6.0];
    assert Wilder(6.0, 6.0, 3) == 6.0;
    assert AtrStep(AtrState(3, [6.0, 6.0], Some(6.0), Some(98.0)), 101.0, 95.0, 96.0) == (AtrState(3, [6.0, 6.0, 6.0], Some(6.0), Some(96.0)), 6.0);
  }

  lemma DownMoveStep4()
    ensures SuperTrendValid(Tracked3([6.0, 6.0, 6.0], 6.0, 96.0, 110.0, 90.0, 90.0, Bullish))
    ensures SuperTrendStep(Tracked3([6.0, 6.0, 6.0], 6.0, 96.0, 110.0, 90.0, 90.0, Bullish), 99.0, 93.0, 94.0)
      == (Tracked3([6.0, 6.0, 6.0], 6.0, 94.0, 108.0, 90.0, 90.0, Bullish), Bullish)
  {
    assert TrueRange(99.0, 93.0, 96.0) == 6.0;
    SteadyAtrSix(96.0, 99.0, 93.0, 94.0);
  }

  lemma DownMoveStep5()
    ensures SuperTrendValid(Tracked3([6.0, 6.0, 6.0], 6.0, 94.0, 108.0, 90.0, 90.0, Bullish))
    ensures SuperTrendStep(Tracked3([6.0, 6.0, 6.0], 6.0, 94.0, 108.0, 90.0, 90.0, Bullish), 97.0, 91.0, 92.0)
      == (Tracked3([6.0, 6.0, 6.0], 6.0, 92.0, 106.0, 90.0, 90.0, Bullish), Bullish)
  {
    assert TrueRange(97.0, 91.0, 94.0) == 6.0;
    SteadyAtrSix(94.0, 97.0, 91.0, 92.0);
  }

  lemma DownMoveStep6()
    ensures SuperTrendValid(Tracked3([6.0, 6.0, 6.0], 6.0, 92.0, 106.0, 90.0, 90.0, Bullish))
    ensures SuperTrendStep(Tracked3([6.0, 6.0, 6.0], 6.0, 92.0, 106.0, 90.0, 90.0, Bullish), 95.0, 89.0, 90.0)
      == (Tracked3([6.0, 6.0, 6.0], 6.0, 90.0, 104.0, 90.0, 90.0, Bearish), BearishFlip)
  {
    assert TrueRange(95.0, 89.0, 92.0) == 6.0;
    SteadyAtrSix(92.0, 95.0, 89.0, 90.0);
  }

  lemma DownMoveStep7()
    ensures SuperTrendValid(Tracked3([6.0, 6.0, 6.0], 6.0, 90.0, 104.0, 90.0, 90.0, Bearish))
    ensures SuperTrendStep(Tracked3([6.0, 6.0, 6.0], 6.0, 90.0, 104.0, 90.0, 90.0, Bearish), 93.0, 87.0, 88.0)
      == (Tracked3([6.0, 6.0, 6.0], 6.0, 88.0, 102.0, 78.0, 78.0, Bullish), BullishFlip)
  {
    assert TrueRange(93.0, 87.0, 90.0) == 6.0;
    SteadyAtrSix(90.0, 93.0, 87.0, 88.0);
  }

  lemma DownMoveRun1()
    ensures SuperTrendRun(SuperTrendInit(3, 2.0), [(105.0, 99.0, 100.0)])
      == (Tracked3([6.0], 6.0, 100.0, 114.0, 90.0, 90.0, Bullish), [Bullish])
  {
    DownMoveStep1();
    assert SuperTrendRun(SuperTrendInit(3, 2.0), []) == (SuperTrendInit(3, 2.0), []);
    SuperTrendRunSnoc(SuperTrendInit(3, 2.0), [], (105.0, 99.0, 100.0));
    assert [] + [(105.0, 99.0, 100.0)] == [(105.0, 99.0, 100.0)];
    var none: seq<SuperTrendSignal> := [];
    assert none + [Bullish] == [Bullish];
  }

  lemma DownMoveRun2()
    ensures SuperTrendRun(SuperTrendInit(3, 2.0), [(105.0, 99.0, 100.0), (103.0, 97.0, 98.0)])
      == (Tracked3([6.0, 6.0], 6.0, 98.0, 112.0, 90.0, 90.0, Bullish), [Bullish, Bullish])
  {
    DownMoveRun1();
    DownMoveStep2();
    SuperTrendRunSnoc(SuperTrendInit(3, 2.0), [(105.0, 99.0, 100.0)], (103.0, 97.0, 98.0));
    assert [(105.0, 99.0, 100.0)] + [(103.0, 97.0, 98.0)] == [(105.0, 99.0, 100.0), (103.0, 97.0, 98.0)];
    assert [Bullish] + [Bullish] == [Bullish, Bullish];
  }

  lemma DownMoveRun3()
    ensures SuperTrendRun(SuperTrendInit(3, 2.0), [(105.0, 99.0, 100.0), (103.0, 97.0, 98.0), (101.0, 95.0, 96.0)])
      == (Tracked3([6.0, 6.0, 6.0], 6.0, 96.0, 110.0, 90.0, 90.0, Bullish), [Bullish, Bullish, Bullish])
  {
    DownMoveRun2();
    DownMoveStep3();
    SuperTrendRunSnoc(SuperTrendInit(3, 2.0), [(105.0, 99.0, 100.0), (103.0, 97.0, 98.0)], (101.0, 95.0, 96.0));
    assert [(105.0, 99.0, 100.0), (103.0, 97.0, 98.0)] + [(101.0, 95.0, 96.0)] == [(105.0, 99.0, 100.0), (103.0, 97.0, 98.0), (101.0, 95.0, 96.0)];
    assert [Bullish, Bullish] + [Bullish] == [Bullish, Bullish, Bullish];
  }

  lemma DownMoveRun4()
    ensures SuperTrendRun(SuperTrendInit(3, 2.0), [(105.0, 99.0, 100.0), (103.0, 97.0, 98.0), (101.0, 95.0, 96.0), (99.0, 93.0, 94.0)])
      == (Tracked3([6.0, 6.0, 6.0], 6.0, 94.0, 108.0, 90.0, 90.0, Bullish), [Bullish, Bullish, Bullish, Bullish])
  {
    DownMoveRun3();
    DownMoveStep4();
    SuperTrendRunSnoc(SuperTrendInit(3, 2.0), [(105.0, 99.0, 100.0), (103.0, 97.0, 98.0), (101.0, 95.0, 96.0)], (99.0, 93.0, 94.0));
    assert [(105.0, 99.0, 100.0), (103.0, 97.0, 98.0), (101.0, 95.0, 96.0)] + [(99.0, 93.0, 94.0)] == [(105.0, 99.0, 100.0), (103.0, 97.0, 98.0), (101.0, 95.0, 96.0), (99.0, 93.0, 94.0)];
    assert [Bullish, Bullish, Bullish] + [Bullish] == [Bullish, Bullish, Bullish, Bullish];
  }

  lemma DownMoveRun5()
    ensures SuperTrendRun(SuperTrendInit(3, 2.0), [(105.0, 99.0, 100.0), (103.0, 97.0, 98.0), (101.0, 95.0, 96.0), (99.0, 93.0, 94.0), (97.0, 91.0, 92.0)])
      == (Tracked3([6.0, 6.0, 6.0], 6.0, 92.0, 106.0, 90.0, 90.0, Bullish), [Bullish, Bullish, Bullish, Bullish, Bullish])
  {
    DownMoveRun4();
    DownMoveStep5();
    SuperTrendRunSnoc(SuperTrendInit(3, 2.0), [(105.0, 99.0, 100.0), (103.0, 97.0, 98.0), (101.0, 95.0, 96.0), (99.0, 93.0, 94.0)], (97.0, 91.0, 92.0));
    assert [(105.0, 99.0, 100.0), (103.0, 97.0, 98.0), (101.0, 95.0, 96.0), (99.0, 93.0, 94.0)] + [(97.0, 91.0, 92.0)] == [(105.0, 99.0, 100.0), (103.0, 97.0, 98.0), (101.0, 95.0, 96.0), (99.0, 93.0, 94.0), (97.0, 91.0, 92.0)];
    assert [Bullish, Bullish, Bullish, Bullish] + [Bullish] == [Bullish, Bullish, Bullish, Bullish, Bullish];
  }

  lemma DownMoveRun6()
    ensures SuperTrendRun(SuperTrendInit(3, 2.0), [(105.0, 99.0, 100.0), (103.0, 97.0, 98.0), (101.0, 95.0, 96.0), (99.0, 93.0, 94.0), (97.0, 91.0, 92.0), (95.0, 89.0, 90.0)])
      == (Tracked3([6.0, 6.0, 6.0], 6.0, 90.0, 104.0, 90.0, 90.0, Bearish), [Bullish, Bullish, Bullish, Bullish, Bullish, BearishFlip])
  {
    DownMoveRun5();
    DownMoveStep6();
    SuperTrendRunSnoc(SuperTrendInit(3, 2.0), [(105.0, 99.0, 100.0), (103.0, 97.0, 98.0), (101.0, 95.0, 96.0), (99.0, 93.0, 94.0), (97.0, 91.0, 92.0)], (95.0, 89.0, 90.0));
    assert [(105.0, 99.0, 100.0), (103.0, 97.0, 98.0), (101.0, 95.0, 96.0), (99.0, 93.0, 94.0), (97.0, 91.0, 92.0)] + [(95.0, 89.0, 90.0)] == [(105.0, 99.0, 100.0), (103.0, 97.0, 98.0), (101.0, 95.0, 96.0), (99.0, 93.0, 94.0), (97.0, 91.0, 92.0), (95.0, 89.0, 90.0)];
    assert [Bullish, Bullish, Bullish, Bullish, Bullish] + [BearishFlip] == [Bullish, Bullish, Bullish, Bullish, Bullish, BearishFlip];
  }

  /**
   * A down-move with period 3 and multiplier 2: the line holds at the lower
   * band 90 until the close reaches it, which flips the trend to bearish
   * (the sixth candle); the seventh candle's lower band drops to 78 and the
   * trend flips back.
   */
  lemma DownMoveFlipsBearish()
    ensures SuperTrendRun(SuperTrendInit(3, 2.0), [(105.0, 99.0, 100.0), (103.0, 97.0, 98.0), (101.0, 95.0, 96.0), (99.0, 93.0, 94.0), (97.0, 91.0, 92.0), (95.0, 89.0, 90.0), (93.0, 87.0, 88.0)]).1
      == [Bullish, Bullish, Bullish, Bullish, Bullish, BearishFlip, BullishFlip]
  {
    DownMoveRun6();
    DownMoveStep7();
    SuperTrendRunSnoc(SuperTrendInit(3, 2.0), [(105.0, 99.0, 100.0), (103.0, 97.0, 98.0), (101.0, 95.0, 96.0), (99.0, 93.0, 94.0), (97.0, 91.0, 92.0), (95.0, 89.0, 90.0)], (93.0, 87.0, 88.0));
    assert [(105.0, 99.0, 100.0), (103.0, 97.0, 98.0), (101.0, 95.0, 96.0), (99.0, 93.0, 94.0), (97.0, 91.0, 92.0), (95.0, 89.0, 90.0)] + [(93.0, 87.0, 88.0)] == [(105.0, 99.0, 100.0), (103.0, 97.0, 98.0), (101.0, 95.0, 96.0), (99.0, 93.0, 94.0), (97.0, 91.0, 92.0), (95.0, 89.0, 90.0), (93.0, 87.0, 88.0)];
    assert [Bullish, Bullish, Bullish, Bullish, Bullish, BearishFlip] + [BullishFlip] == [Bullish, Bullish, Bullish, Bullish, Bullish, BearishFlip, BullishFlip];
  }

  class SuperTrend {
    const atr: Atr
    const multiplier: real
    var upperBand: Option<real>
    var lowerBand: Option<real>
    var supertrend: Option<real>
    var prevSignal: Option<SuperTrendSignal>

    ghost predicate Valid()
      reads this, atr
    {
      atr.Valid() && SuperTrendValid(State())
    }

    function State(): SuperTrendState
      reads this, atr
    {
      SuperTrendState(atr.State(), multiplier, upperBand, lowerBand, supertrend, prevSignal)
    }

    constructor (period: nat, multiplier: real)
      requires period >= 1
      ensures Valid() && fresh(atr) && State() == SuperTrendInit(period, multiplier)
    {
      atr := new Atr(period);
      this.multiplier := multiplier;
      upperBand := None;
      lowerBand := None;
      supertrend := None;
      prevSignal := None;
    }

    method Update(high: real, low: real, close: real) returns (signal: SuperTrendSignal)
      requires Valid()
      modifies this, atr
      ensures Valid() && (State(), signal) == SuperTrendStep(old(State()), high, low, close)
    {
      ghost var s := State();
      var atrValue := atr.Update(high, low, close);
      var basic := BasicBands(high, low, multiplier, atrValue);
      var finalUpper := FinalUpper(upperBand, basic.0, close);
      var finalLower := FinalLower(lowerBand, basic.1, close);
      var line := SuperTrendLine(supertrend, upperBand, finalUpper, finalLower, close);
      var current := if close > line then Bullish else Bearish;
      signal := FlipSignal(prevSignal, current);
      upperBand, lowerBand, supertrend, prevSignal := Some(finalUpper), Some(finalLower), Some(line), Some(current);
      assert (State(), signal) == BandsStep(s, atr.State(), basic, close);
    }

    /** The current line: none before the first update, afterwards on one of the two final bands. */
    function Value(): (r: Option<real>)
      reads this, atr
      ensures Valid() ==> (r.None? <==> prevSignal.None?)
      ensures Valid() && r.Some? ==>
        upperBand.Some? && lowerBand.Some? && (r.value == upperBand.value || r.value == lowerBand.value)
    {
      supertrend
    }
  }
}
