/**
 * The signal engine (src/signals/engine.rs): one pass over the candles
 * feeds the ten indicators, the last signal of each goes to the
 * aggregator, and the verdict is sized from the ATR.
 */
module SignalEngine {
  import opened Wrappers
  import opened CommonMath
  import opened Models
  import opened SignalModel
  import opened Decision
  import EngineSignal
  import Aggregator
  import EmaTracker
  import SuperTrendTracker
  import RsiTracker
  import MacdTracker
  import BollingerTracker
  import AtrTracker
  import ObvTracker
  import VolumeProfileTracker
  import OpenInterestTracker
  import FundingRateTracker

  const AtrLookback: nat := 14
  const VolumeProfileLookback: nat := 240
  const VolumeProfileTick: real := 10.0
  const MinCandles: nat := 50

  /** Everything the pass over the candles carries from one candle to the next. */
  datatype EngineState = EngineState(
    crossover: EmaTracker.CrossoverState,
    supertrend: SuperTrendTracker.SuperTrendState,
    rsi: RsiTracker.RsiState,
    macd: MacdTracker.MacdState,
    atr: AtrTracker.AtrState,
    bollinger: BollingerTracker.BollingerState,
    obv: ObvTracker.ObvState,
    profile: VolumeProfileTracker.VpState,
    oi: OpenInterestTracker.OiState,
    funding: FundingRateTracker.FundingState,
    atrHistory: seq<real>,
    prevClose: Option<real>,
    signals: Aggregator.IndicatorSignals)

  predicate EngineValid(s: EngineState)
  {
    && SuperTrendTracker.SuperTrendValid(s.supertrend)
    && RsiTracker.RsiValid(s.rsi)
    && MacdTracker.MacdValid(s.macd)
    && AtrTracker.AtrValid(s.atr) && s.atr.period == AtrLookback
    && BollingerTracker.BollingerValid(s.bollinger)
    && ObvTracker.ObvValid(s.obv)
    && VolumeProfileTracker.VpValid(s.profile)
    && OpenInterestTracker.OiValid(s.oi)
    && FundingRateTracker.FundingValid(s.funding)
    && |s.atrHistory| <= AtrLookback
  }

  /** The signals before the first candle: neutral everywhere, SuperTrend bearish, volatility normal. */
  function InitialSignals(): Aggregator.IndicatorSignals
  {
    Aggregator.IndicatorSignals(
      EmaTracker.Neutral, SuperTrendTracker.Bearish, RsiTracker.Neutral, MacdTracker.Neutral,
      BollingerTracker.Neutral, AtrTracker.Normal, ObvTracker.Neutral, VolumeProfileTracker.Neutral,
      OpenInterestTracker.Neutral, FundingRateTracker.Neutral)
  }

  /**
   * The indicator settings: EMA 20/50, SuperTrend 10 x 3, RSI 14, MACD
   * 12/26/9, ATR 14, Bollinger 20 x 2, a volume profile of 240 samples in
   * buckets of 10, and 24 funding readings.
   */
  function EngineInit(): (s: EngineState)
    ensures EngineValid(s)
  {
    EngineState(
      EmaTracker.CrossoverInit(20, 50),
      SuperTrendTracker.SuperTrendInit(10, 3.0),
      RsiTracker.RsiInit(14),
      MacdTracker.MacdInit(12, 26, 9),
      AtrTracker.AtrInit(AtrLookback),
      BollingerTracker.BollingerInit(20, 2.0),
      ObvTracker.ObvInit(),
      VolumeProfileTracker.VpInit(VolumeProfileTick, VolumeProfileLookback),
      OpenInterestTracker.OiInit(),
      FundingRateTracker.FundingInit(24),
      [], None, InitialSignals())
  }

  /** The mean of the retained ATR values, or the current ATR if none were retained. */
  function LookbackAverage(history: seq<real>, atrValue: real): (r: real)
    ensures |history| > 0 ==> r == Mean(history)
  {
    if |history| == 0 then atrValue else Mean(history)
  }

  /**
   * The RSI signal after a candle: reclassified when the RSI produced a
   * value and a previous close exists, otherwise the previous signal.
   */
  function RsiSignalAfter(next: RsiTracker.RsiState, rsiValue: Option<real>, prevClose: Option<real>,
                          close: real, previous: RsiTracker.RsiSignal): RsiTracker.RsiSignal
  {
    if rsiValue.Some? && prevClose.Some? then RsiTracker.RsiSignalOf(next.prevRsi, rsiValue.value, close - prevClose.value)
    else previous
  }

  /** The open interest indicator after a candle: advanced only when the candle carries open interest. */
  function OiAfter(oi: OpenInterestTracker.OiState, signal: OpenInterestTracker.OpenInterestSignal, c: Candle)
    : (r: (OpenInterestTracker.OiState, OpenInterestTracker.OpenInterestSignal))
    requires OpenInterestTracker.OiValid(oi)
    ensures OpenInterestTracker.OiValid(r.0)
  {
    if c.openInterest.Some? then OpenInterestTracker.OiStep(oi, c.openInterest.value, c.close) else (oi, signal)
  }

  /** The funding rate indicator after a candle: advanced only when the candle carries a funding rate. */
  function FundingAfter(funding: FundingRateTracker.FundingState, signal: FundingRateTracker.FundingSignal, c: Candle)
    : (r: (FundingRateTracker.FundingState, FundingRateTracker.FundingSignal))
    requires FundingRateTracker.FundingValid(funding)
    ensures FundingRateTracker.FundingValid(r.0)
  {
    if c.fundingRate.Some? then
      var step := FundingRateTracker.FundingStep(funding, c.fundingRate.value);
      (step.0, step.1.0)
    else (funding, signal)
  }

  /** One candle through every indicator, in the order of the source loop. */
  function EngineStep(s: EngineState, c: Candle, root: Root): (r: EngineState)
    requires EngineValid(s)
    ensures EngineValid(r)
  {
    var crossover := EmaTracker.CrossoverStep(s.crossover, c.close);
    var supertrend := SuperTrendTracker.SuperTrendStep(s.supertrend, c.high, c.low, c.close);
    var rsi := RsiTracker.RsiStep(s.rsi, c.close);
    var macd := MacdTracker.MacdStep(s.macd, c.close);
    var bollinger := BollingerTracker.BollingerStep(s.bollinger, c.close, root);
    var atr := AtrTracker.AtrStep(s.atr, c.high, c.low, c.close);
    var history := SlideWindow(s.atrHistory, atr.1, AtrLookback);
    var obv := ObvTracker.ObvStep(s.obv, c.close, c.volume);
    var profile := VolumeProfileTracker.VpStep(s.profile, c.close, c.volume);
    var oi := OiAfter(s.oi, s.signals.oiSignal, c);
    var funding := FundingAfter(s.funding, s.signals.fundingSignal, c);
    EngineState(
      crossover.0, supertrend.0, rsi.0, macd.0, atr.0, bollinger.0, obv.0, profile, oi.0, funding.0,
      history, Some(c.close),
      Aggregator.IndicatorSignals(
        crossover.1, supertrend.1, RsiSignalAfter(rsi.0, rsi.1, s.prevClose, c.close, s.signals.rsiSignal),
        macd.1.kind, bollinger.1.kind, AtrTracker.VolatilityRegimeOf(atr.1, LookbackAverage(history, atr.1)),
        obv.1.1, VolumeProfileTracker.ProfileOf(profile).signal, oi.1, funding.1))
  }

  /** The state after feeding `candles` in order from the initial one. */
  function EngineFeed(candles: seq<Candle>, root: Root): (r: EngineState)
    ensures EngineValid(r)
    ensures |candles| == 0 ==> r == EngineInit()
  {
    if |candles| == 0 then EngineInit()
    else EngineStep(EngineFeed(candles[..|candles| - 1], root), candles[|candles| - 1], root)
  }

  function DirectionOf(p: EngineSignal.Position): (r: Direction)
  {
    match p
    case Long => Long
    case Short => Short
    case Neutral => Neutral
  }

  /** The description of the risk reason, as the debug form of the level prints it. */
  function RiskReason(level: EngineSignal.RiskLevel): string
  {
    match level
    case Low => "Risk level: Low"
    case Medium => "Risk level: Medium"
    case High => "Risk level: High"
  }

  /** Every aggregator reason with weight 1. */
  function WeightedReasons(reasons: seq<string>): (r: seq<SignalReason>)
    ensures |r| == |reasons|
    ensures forall i :: 0 <= i < |r| ==> r[i] == SignalReason(reasons[i], 1.0)
  {
    seq(|reasons|, i requires 0 <= i < |reasons| => SignalReason(reasons[i], 1.0))
  }

  /** The ATR-based sizing of a verdict: none for a neutral direction or a non-positive ATR. */
  function SizingOf(direction: Direction, atrValue: real, price: real): (r: (real, real))
    requires price != 0.0
    ensures direction == Neutral || atrValue <= 0.0 ==> r == (0.0, 0.0)
    ensures direction != Neutral && atrValue > 0.0 ==> r == CalculateFromAtr(atrValue, price)
  {
    if direction != Neutral && atrValue > 0.0 then CalculateFromAtr(atrValue, price) else (0.0, 0.0)
  }

  function CurrentAtr(a: AtrTracker.AtrState): real
  {
    match a.current
    case Some(v) => v
    case None => 0.0
  }

  /**
   * The output for a final state: the aggregator's direction and
   * confidence, ATR sizing, the aggregator's reasons at weight 1 followed
   * by one risk reason at weight 0.5.
   */
  function OutputOf(s: EngineState, price: real, symbol: string, now: Timestamp): (r: SignalOutput)
    requires price != 0.0
    ensures var t := Aggregator.AggregateOf(s.signals);
      && r.direction == DirectionOf(t.position)
      && r.confidence == t.confidence
      && (r.recommendedSlPct, r.recommendedTpPct) == SizingOf(r.direction, CurrentAtr(s.atr), price)
      && |r.reasons| == |t.reasons| + 1
      && r.reasons[..|t.reasons|] == WeightedReasons(t.reasons)
      && r.reasons[|t.reasons|] == SignalReason(RiskReason(t.riskLevel), 0.5)
    ensures r.price == price && r.symbol == symbol && r.timestamp == now
  {
    var t := Aggregator.AggregateOf(s.signals);
    var direction := DirectionOf(t.position);
    var sizing := SizingOf(direction, CurrentAtr(s.atr), price);
    var reasons := WeightedReasons(t.reasons) + [SignalReason(RiskReason(t.riskLevel), 0.5)];
    SignalOutput(direction, t.confidence, sizing.0, sizing.1, reasons, symbol, price, now)
  }

  /** Nothing below 50 candles; otherwise the output for the state after all of them, priced at the last close. */
  function EvaluateOf(candles: seq<Candle>, symbol: string, now: Timestamp, root: Root): (r: Option<SignalOutput>)
    requires |candles| > 0 ==> candles[|candles| - 1].close != 0.0
    ensures r.None? <==> |candles| < MinCandles
    ensures r.Some? ==> r.value.price == candles[|candles| - 1].close && r.value.symbol == symbol
    ensures r.Some? ==> r.value == OutputOf(EngineFeed(candles, root), candles[|candles| - 1].close, symbol, now)
  {
    if |candles| < MinCandles then None
    else Some(OutputOf(EngineFeed(candles, root), candles[|candles| - 1].close, symbol, now))
  }

  // One candle at a time.

  lemma StepAtr(s: EngineState, c: Candle, root: Root)
    requires EngineValid(s)
    ensures var step := AtrTracker.AtrStep(s.atr, c.high, c.low, c.close);
      && EngineStep(s, c, root).atr == step.0
      && EngineStep(s, c, root).atrHistory == SlideWindow(s.atrHistory, step.1, AtrLookback)
  {
  }

  lemma StepRegime(s: EngineState, c: Candle, root: Root)
    requires EngineValid(s)
    ensures var r := EngineStep(s, c, root);
      r.atr.current.Some? && r.signals.volatilityRegime == AtrTracker.VolatilityRegimeOf(r.atr.current.value, Mean(r.atrHistory))
  {
  }

  lemma StepWithoutOpenInterest(s: EngineState, c: Candle, root: Root)
    requires EngineValid(s) && c.openInterest.None?
    ensures EngineStep(s, c, root).oi == s.oi && EngineStep(s, c, root).signals.oiSignal == s.signals.oiSignal
  {
  }

  lemma StepWithoutFunding(s: EngineState, c: Candle, root: Root)
    requires EngineValid(s) && c.fundingRate.None?
    ensures EngineStep(s, c, root).funding == s.funding
    ensures EngineStep(s, c, root).signals.fundingSignal == s.signals.fundingSignal
  {
  }

  lemma StepNeverSeesRsiDivergence(s: EngineState, c: Candle, root: Root)
    requires EngineValid(s) && !Aggregator.IsRsiDivergence(s.signals.rsiSignal)
    ensures !Aggregator.IsRsiDivergence(EngineStep(s, c, root).signals.rsiSignal)
  {
    var step := RsiTracker.RsiStep(s.rsi, c.close);
    if step.1.Some? && s.prevClose.Some? {
      RsiTracker.NoDivergenceRightAfterUpdate(s.rsi, c.close, c.close - s.prevClose.value);
    }
  }

  // What the pass over the candles guarantees.

  /** The engine's ATR is the plain ATR of all the candles. */
  lemma {:induction false} EngineAtrIsAtr(candles: seq<Candle>, root: Root)
    ensures EngineFeed(candles, root).atr == AtrTracker.AtrFeed(AtrTracker.AtrInit(AtrLookback), candles)
  {
    if |candles| > 0 {
      var init := candles[..|candles| - 1];
      EngineAtrIsAtr(init, root);
      StepAtr(EngineFeed(init, root), candles[|candles| - 1], root);
    }
  }

  /** The ATR value each candle produced, in order. */
  function AtrValues(candles: seq<Candle>): (r: seq<real>)
    ensures |r| == |candles|
  {
    if |candles| == 0 then []
    else
      var c := candles[|candles| - 1];
      AtrValues(candles[..|candles| - 1])
        + [AtrTracker.AtrStep(AtrTracker.AtrFeed(AtrTracker.AtrInit(AtrLookback), candles[..|candles| - 1]), c.high, c.low, c.close).1]
  }

  /** Sliding the ATR values of one more candle slides its ATR value into the window of the others. */
  lemma AtrWindowOneMore(candles: seq<Candle>)
    requires |candles| > 0
    ensures var init := candles[..|candles| - 1];
      var c := candles[|candles| - 1];
      SlideAll(AtrValues(candles), AtrLookback)
        == SlideWindow(SlideAll(AtrValues(init), AtrLookback),
             AtrTracker.AtrStep(AtrTracker.AtrFeed(AtrTracker.AtrInit(AtrLookback), init), c.high, c.low, c.close).1,
             AtrLookback)
  {
    assert AtrValues(candles)[..|candles| - 1] == AtrValues(candles[..|candles| - 1]);
  }

  /** The lookback is the window of ATR values fed one at a time, capped at 14. */
  lemma {:induction false} AtrHistoryIsSlideAll(candles: seq<Candle>, root: Root)
    ensures EngineFeed(candles, root).atrHistory == SlideAll(AtrValues(candles), AtrLookback)
  {
    if |candles| > 0 {
      var init := candles[..|candles| - 1];
      AtrHistoryIsSlideAll(init, root);
      EngineAtrIsAtr(init, root);
      StepAtr(EngineFeed(init, root), candles[|candles| - 1], root);
      AtrWindowOneMore(candles);
    }
  }

  lemma AtrValuesMostRecent(candles: seq<Candle>)
    ensures var xs := AtrValues(candles);
      SlideAll(xs, AtrLookback) == xs[|xs| - (if |xs| < AtrLookback then |xs| else AtrLookback)..]
  {
    SlideAllKeepsMostRecent(AtrValues(candles), AtrLookback);
  }

  /** The lookback holds exactly the 14 most recent ATR values (all of them while fewer), the current one last. */
  lemma AtrHistoryIsRecent(candles: seq<Candle>, root: Root)
    ensures var xs := AtrValues(candles);
      EngineFeed(candles, root).atrHistory == xs[|xs| - (if |xs| < AtrLookback then |xs| else AtrLookback)..]
  {
    AtrHistoryIsSlideAll(candles, root);
    AtrValuesMostRecent(candles);
  }

  /** After any candle the volatility regime compares the current ATR with the mean of the lookback. */
  lemma RegimeUsesLookbackMean(candles: seq<Candle>, root: Root)
    requires |candles| > 0
    ensures var s := EngineFeed(candles, root);
      s.atr.current.Some? && s.signals.volatilityRegime == AtrTracker.VolatilityRegimeOf(s.atr.current.value, Mean(s.atrHistory))
  {
    StepRegime(EngineFeed(candles[..|candles| - 1], root), candles[|candles| - 1], root);
  }

  /** Candles without open interest leave the open interest tracker fresh and its signal neutral. */
  lemma {:induction false} NoOpenInterestStaysNeutral(candles: seq<Candle>, root: Root)
    requires forall i :: 0 <= i < |candles| ==> candles[i].openInterest.None?
    ensures EngineFeed(candles, root).oi == OpenInterestTracker.OiInit()
    ensures EngineFeed(candles, root).signals.oiSignal == OpenInterestTracker.Neutral
  {
    if |candles| > 0 {
      var init := candles[..|candles| - 1];
      assert forall i :: 0 <= i < |init| ==> init[i] == candles[i];
      NoOpenInterestStaysNeutral(init, root);
      StepWithoutOpenInterest(EngineFeed(init, root), candles[|candles| - 1], root);
    }
  }

  /** Candles without a funding rate leave the funding tracker empty and its signal neutral. */
  lemma {:induction false} NoFundingStaysNeutral(candles: seq<Candle>, root: Root)
    requires forall i :: 0 <= i < |candles| ==> candles[i].fundingRate.None?
    ensures EngineFeed(candles, root).funding == FundingRateTracker.FundingInit(24)
    ensures EngineFeed(candles, root).signals.fundingSignal == FundingRateTracker.Neutral
  {
    if |candles| > 0 {
      var init := candles[..|candles| - 1];
      assert forall i :: 0 <= i < |init| ==> init[i] == candles[i];
      NoFundingStaysNeutral(init, root);
      StepWithoutFunding(EngineFeed(init, root), candles[|candles| - 1], root);
    }
  }

  /**
   * The engine asks for the RSI signal right after the update that set the
   * remembered RSI to the new value, so it never sees a divergence.
   */
  lemma {:induction false} EngineNeverSeesRsiDivergence(candles: seq<Candle>, root: Root)
    ensures !Aggregator.IsRsiDivergence(EngineFeed(candles, root).signals.rsiSignal)
  {
    if |candles| > 0 {
      var init := candles[..|candles| - 1];
      EngineNeverSeesRsiDivergence(init, root);
      StepNeverSeesRsiDivergence(EngineFeed(init, root), candles[|candles| - 1], root);
    }
  }

  /** Every output has at least the risk reason, and the risk reason is the last one. */
  lemma OutputAlwaysExplains(candles: seq<Candle>, symbol: string, now: Timestamp, root: Root)
    requires |candles| >= MinCandles && candles[|candles| - 1].close != 0.0
    ensures var r := EvaluateOf(candles, symbol, now, root);
      r.Some? && |r.value.reasons| >= 1 && r.value.reasons[|r.value.reasons| - 1].weight == 0.5
  {
  }

  /**
   * One candle through the indicators, as the body of the source loop does
   * it: each indicator's state advanced by its step function, the RSI
   * signal reclassified only when there is a value and a previous close,
   * the ATR lookback pushed and trimmed to 14 values, and the open interest
   * and funding rate indicators advanced only when the candle carries them.
   */
  method ProcessCandle(s: EngineState, candle: Candle, root: Root) returns (r: EngineState)
    requires EngineValid(s)
    ensures r == EngineStep(s, candle, root)
  {
    var emaCross, supertrend, rsi, macd, atr := s.crossover, s.supertrend, s.rsi, s.macd, s.atr;
    var bollinger, obv, volumeProfile, openInterest, fundingRate := s.bollinger, s.obv, s.profile, s.oi, s.funding;
    var atrHistory, prevClose := s.atrHistory, s.prevClose;
    var emaSignal, supertrendSignal, rsiSignal, macdSignal, bollingerSignal := s.signals.emaSignal,
      s.signals.supertrendSignal, s.signals.rsiSignal, s.signals.macdSignal, s.signals.bollingerSignal;
    var volatilityRegime, obvSignal, volumeProfileSignal, oiSignal, fundingSignal := s.signals.volatilityRegime,
      s.signals.obvSignal, s.signals.volumeProfileSignal, s.signals.oiSignal, s.signals.fundingSignal;

    var crossoverStep := EmaTracker.CrossoverStep(emaCross, candle.close);
    emaCross, emaSignal := crossoverStep.0, crossoverStep.1;
    var supertrendStep := SuperTrendTracker.SuperTrendStep(supertrend, candle.high, candle.low, candle.close);
    supertrend, supertrendSignal := supertrendStep.0, supertrendStep.1;

    var rsiStep := RsiTracker.RsiStep(rsi, candle.close);
    var rsiValue := rsiStep.1;
    rsi := rsiStep.0;
    if rsiValue.Some? {
      if prevClose.Some? {
        var priceChange := candle.close - prevClose.value;
        rsiSignal := RsiTracker.RsiSignalOf(rsi.prevRsi, rsiValue.value, priceChange);
      }
    }
    assert rsiSignal == RsiSignalAfter(rsi, rsiValue, s.prevClose, candle.close, s.signals.rsiSignal);

    var macdStep := MacdTracker.MacdStep(macd, candle.close);
    macd, macdSignal := macdStep.0, macdStep.1.kind;

    var bollingerStep := BollingerTracker.BollingerStep(bollinger, candle.close, root);
    bollinger, bollingerSignal := bollingerStep.0, bollingerStep.1.kind;

    var atrStep := AtrTracker.AtrStep(atr, candle.high, candle.low, candle.close);
    var atrValue := atrStep.1;
    atr := atrStep.0;
    atrHistory := atrHistory + [atrValue];
    if |atrHistory| > AtrLookback {
      atrHistory := atrHistory[1..];
    }
    assert atrHistory == SlideWindow(s.atrHistory, atrValue, AtrLookback);
    var lookbackAvg := LookbackAverage(atrHistory, atrValue);
    volatilityRegime := AtrTracker.VolatilityRegimeOf(atrValue, lookbackAvg);

    var obvStep := ObvTracker.ObvStep(obv, candle.close, candle.volume);
    obv, obvSignal := obvStep.0, obvStep.1.1;

    volumeProfile := VolumeProfileTracker.VpStep(volumeProfile, candle.close, candle.volume);
    volumeProfileSignal := VolumeProfileTracker.ProfileOf(volumeProfile).signal;

    if candle.openInterest.Some? {
      var oiStep := OpenInterestTracker.OiStep(openInterest, candle.openInterest.value, candle.close);
      openInterest, oiSignal := oiStep.0, oiStep.1;
    }
    assert (openInterest, oiSignal) == OiAfter(s.oi, s.signals.oiSignal, candle);

    if candle.fundingRate.Some? {
      var fundingStep := FundingRateTracker.FundingStep(fundingRate, candle.fundingRate.value);
      fundingRate, fundingSignal := fundingStep.0, fundingStep.1.0;
    }
    assert (fundingRate, fundingSignal) == FundingAfter(s.funding, s.signals.fundingSignal, candle);

    prevClose := Some(candle.close);
    r := EngineState(
      emaCross, supertrend, rsi, macd, atr, bollinger, obv, volumeProfile, openInterest, fundingRate,
      atrHistory, prevClose,
      Aggregator.IndicatorSignals(
        emaSignal, supertrendSignal, rsiSignal, macdSignal, bollingerSignal, volatilityRegime,
        obvSignal, volumeProfileSignal, oiSignal, fundingSignal));
  }

  lemma FeedOneMore(candles: seq<Candle>, i: nat, root: Root)
    requires i < |candles|
    ensures EngineFeed(candles[..i + 1], root) == EngineStep(EngineFeed(candles[..i], root), candles[i], root)
  {
    assert candles[..i + 1][..i] == candles[..i];
  }

  /** The pass over the candles, one candle at a time from the configured indicators. */
  method RunCandles(candles: seq<Candle>, root: Root) returns (state: EngineState)
    ensures state == EngineFeed(candles, root)
  {
    state := EngineInit();
    for i := 0 to |candles|
      invariant state == EngineFeed(candles[..i], root)
    {
      state := ProcessCandle(state, candles[i], root);
      FeedOneMore(candles, i, root);
    }
    assert candles[..|candles|] == candles;
  }

  /**
   * The verdict for the indicators' last signals: the aggregator's trading
   * signal mapped to a direction, ATR sizing when the direction is not
   * neutral and the ATR is positive, and the reasons with the risk level
   * appended.
   */
  method BuildOutput(state: EngineState, currentPrice: real, symbol: string, now: Timestamp) returns (r: SignalOutput)
    requires currentPrice != 0.0
    ensures r == OutputOf(state, currentPrice, symbol, now)
  {
    var tradingSignal := Aggregator.Aggregate(state.signals);
    var direction := DirectionOf(tradingSignal.position);
    var atrCurrent := match state.atr.current case Some(v) => v case None => 0.0;
    var slPct, tpPct := 0.0, 0.0;
    if direction != Neutral && atrCurrent > 0.0 {
      var sizing := CalculateFromAtr(atrCurrent, currentPrice);
      slPct, tpPct := sizing.0, sizing.1;
    }
    var reasons := WeightedReasons(tradingSignal.reasons);
    reasons := reasons + [SignalReason(RiskReason(tradingSignal.riskLevel), 0.5)];
    r := SignalOutput(direction, tradingSignal.confidence, slPct, tpPct, reasons, symbol, currentPrice, now);
  }

  /**
   * The engine's evaluation: nothing below 50 candles, otherwise one pass
   * over the candles, then aggregation and ATR sizing priced at the last
   * close. Every indicator is held as the state value its class keeps and
   * advanced by the step function that class's Update is proved to perform.
   */
  method Evaluate(candles: seq<Candle>, symbol: string, now: Timestamp, root: Root) returns (r: Option<SignalOutput>)
    requires |candles| > 0 ==> candles[|candles| - 1].close != 0.0
    ensures r == EvaluateOf(candles, symbol, now, root)
  {
    if |candles| < MinCandles {
      return None;
    }
    var currentPrice := candles[|candles| - 1].close;
    var state := RunCandles(candles, root);
    var output := BuildOutput(state, currentPrice, symbol, now);
    r := Some(output);
  }

  /**
   * The evaluation together with an indicator set for the response: the
   * symbol and the signal's price, stamped with `setNow` (the set reads the
   * clock itself), and the last candle's funding rate and open interest when
   * it carries them; every other indicator is absent.
   */
  method EvaluateWithIndicators(candles: seq<Candle>, symbol: string, now: Timestamp, setNow: Timestamp, root: Root)
    returns (r: Option<(SignalOutput, IndicatorSet)>)
    requires |candles| > 0 ==> candles[|candles| - 1].close != 0.0
    ensures r.None? <==> |candles| < MinCandles
    ensures r.Some? ==> Some(r.value.0) == EvaluateOf(candles, symbol, now, root)
    ensures r.Some? ==>
      var last := candles[|candles| - 1];
      var indicators := r.value.1;
      && indicators.symbol == symbol && indicators.price == Finite(last.close) && indicators.timestamp == setNow
      && indicators.fundingRate == FiniteOf(last.fundingRate) && indicators.openInterest == FiniteOf(last.openInterest)
      && indicators.macd.None? && indicators.rsi.None? && indicators.emas == [] && indicators.smas == [] && indicators.volume.None?
      && indicators.bollingerBands.None? && indicators.atr.None? && indicators.supertrend.None? && indicators.timeframe.None?
  {
    var signal := Evaluate(candles, symbol, now, root);
    if signal.None? {
      return None;
    }
    var last := candles[|candles| - 1];
    var indicators := NewIndicatorSet(symbol, Finite(signal.value.price), setNow);
    if last.fundingRate.Some? {
      indicators := indicators.WithFundingRate(Finite(last.fundingRate.value));
    }
    if last.openInterest.Some? {
      indicators := indicators.WithOpenInterest(Finite(last.openInterest.value));
    }
    r := Some((signal.value, indicators));
  }
}
