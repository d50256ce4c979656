/**
 * The integer scoring policy that turns the ten indicator signals into a
 * trading signal (src/engine/aggregator.rs): five clamped category scores,
 * their total, a confidence and a risk level.
 */
module Aggregator {
  import opened CommonMath
  import opened EngineSignal
  import EmaTracker
  import SuperTrendTracker
  import RsiTracker
  import MacdTracker
  import BollingerTracker
  import AtrTracker
  import ObvTracker
  import VolumeProfileTracker
  import OpenInterestTracker
  import FundingRateTracker

  /** The latest signal of every indicator. */
  datatype IndicatorSignals = IndicatorSignals(
    emaSignal: EmaTracker.EmaTrendSignal,
    supertrendSignal: SuperTrendTracker.SuperTrendSignal,
    rsiSignal: RsiTracker.RsiSignal,
    macdSignal: MacdTracker.MacdSignal,
    bollingerSignal: BollingerTracker.BollingerSignal,
    volatilityRegime: AtrTracker.VolatilityRegime,
    obvSignal: ObvTracker.ObvSignal,
    volumeProfileSignal: VolumeProfileTracker.VolumeProfileSignal,
    oiSignal: OpenInterestTracker.OpenInterestSignal,
    fundingSignal: FundingRateTracker.FundingSignal)

  /** Integer clamping. */
  function Clamp(x: int, lo: int, hi: int): (r: int)
    requires lo <= hi
    ensures lo <= r <= hi
    ensures lo <= x <= hi ==> r == x
    ensures x < lo ==> r == lo
    ensures x > hi ==> r == hi
  {
    if x < lo then lo else if x > hi then hi else x
  }

  // What each signal adds to its category: points, and the reason it appends.

  function EmaPoints(s: EmaTracker.EmaTrendSignal): int
  {
    match s
    case BullishCross => 2
    case BearishCross => -2
    case StrongUptrend => 1
    case StrongDowntrend => -1
    case Neutral => 0
  }

  function EmaReasons(s: EmaTracker.EmaTrendSignal): seq<string>
  {
    match s
    case BullishCross => ["Golden Cross EMA20/50"]
    case BearishCross => ["Death Cross EMA20/50"]
    case StrongUptrend => ["Strong uptrend structure"]
    case StrongDowntrend => ["Strong downtrend structure"]
    case Neutral => []
  }

  /** A steady SuperTrend direction scores a point without a reason; a flip scores two with one. */
  function SuperTrendPoints(s: SuperTrendTracker.SuperTrendSignal): int
  {
    match s
    case BullishFlip => 2
    case BearishFlip => -2
    case Bullish => 1
    case Bearish => -1
  }

  function SuperTrendReasons(s: SuperTrendTracker.SuperTrendSignal): seq<string>
  {
    match s
    case BullishFlip => ["SuperTrend flip bullish"]
    case BearishFlip => ["SuperTrend flip bearish"]
    case _ => []
  }

  function RsiPoints(s: RsiTracker.RsiSignal): int
  {
    match s
    case BullishDivergence => 2
    case BearishDivergence => -2
    case Oversold => 1
    case Overbought => -1
    case Neutral => 0
  }

  function RsiReasons(s: RsiTracker.RsiSignal): seq<string>
  {
    match s
    case BullishDivergence => ["RSI bullish divergence"]
    case BearishDivergence => ["RSI bearish divergence"]
    case Oversold => ["RSI oversold"]
    case Overbought => ["RSI overbought"]
    case Neutral => []
  }

  /** MACD momentum scores a point without a reason; a cross scores two with one. */
  function MacdPoints(s: MacdTracker.MacdSignal): int
  {
    match s
    case BullishCross => 2
    case BearishCross => -2
    case BullishMomentum => 1
    case BearishMomentum => -1
    case Neutral => 0
  }

  function MacdReasons(s: MacdTracker.MacdSignal): seq<string>
  {
    match s
    case BullishCross => ["MACD bullish cross"]
    case BearishCross => ["MACD bearish cross"]
    case _ => []
  }

  /** Only the two breakouts score; the other band readings only explain. */
  function BollingerPoints(s: BollingerTracker.BollingerSignal): int
  {
    match s
    case UpperBreakout => 1
    case LowerBreakout => -1
    case _ => 0
  }

  function BollingerReasons(s: BollingerTracker.BollingerSignal): seq<string>
  {
    match s
    case Squeeze => ["Bollinger Squeeze - breakout setup"]
    case UpperBreakout => ["Price broke above Bollinger upper"]
    case LowerBreakout => ["Price broke below Bollinger lower"]
    case MeanReversion => ["Bollinger mean reversion"]
    case WalkingBands => ["Walking the bands - strong trend"]
    case Neutral => []
  }

  /** The volatility regime only ever explains; it scores nothing. */
  function RegimeReasons(s: AtrTracker.VolatilityRegime): seq<string>
  {
    match s
    case High => ["High volatility - reduce size"]
    case Low => ["Low volatility - breakout potential"]
    case Elevated => ["Elevated volatility"]
    case Normal => []
  }

  function ObvPoints(s: ObvTracker.ObvSignal): int
  {
    match s
    case BullishDivergence => 2
    case BearishDivergence => -2
    case Confirmation => 1
    case Neutral => 0
  }

  function ObvReasons(s: ObvTracker.ObvSignal): seq<string>
  {
    match s
    case BullishDivergence => ["OBV bullish divergence"]
    case BearishDivergence => ["OBV bearish divergence"]
    case Confirmation => ["Volume confirms price action"]
    case Neutral => []
  }

  function VolumeProfilePoints(s: VolumeProfileTracker.VolumeProfileSignal): int
  {
    match s
    case POCSupport => 1
    case POCResistance => -1
    case _ => 0
  }

  function VolumeProfileReasons(s: VolumeProfileTracker.VolumeProfileSignal): seq<string>
  {
    match s
    case POCSupport => ["Price at POC support"]
    case POCResistance => ["Price at POC resistance"]
    case NearLVN => ["Near LVN - expect fast move"]
    case _ => []
  }

  function OpenInterestPoints(s: OpenInterestTracker.OpenInterestSignal): int
  {
    match s
    case BullishExpansion => 2
    case BearishExpansion => -2
    case ShortSqueeze => 1
    case LongSqueeze => -1
    case Neutral => 0
  }

  function OpenInterestReasons(s: OpenInterestTracker.OpenInterestSignal): seq<string>
  {
    match s
    case BullishExpansion => ["New money entering longs"]
    case BearishExpansion => ["New money entering shorts"]
    case ShortSqueeze => ["Potential short squeeze"]
    case LongSqueeze => ["Long squeeze in progress"]
    case Neutral => []
  }

  /** Funding is read contrarian: crowded longs cost a point, crowded shorts add one. */
  function FundingPoints(s: FundingRateTracker.FundingSignal): int
  {
    match s
    case ExtremeLongBias => -1
    case ExtremShortBias => 1
    case _ => 0
  }

  function FundingReasons(s: FundingRateTracker.FundingSignal): seq<string>
  {
    match s
    case ExtremeLongBias => ["Extreme long bias - caution"]
    case ExtremShortBias => ["Extreme short bias - bounce potential"]
    case _ => []
  }

  // The five category scores and the reasons each appends.

  /** EMA structure plus SuperTrend, clamped to [-3, 3]. */
  function TrendScore(s: IndicatorSignals): (r: int)
    ensures -3 <= r <= 3
  {
    Clamp(EmaPoints(s.emaSignal) + SuperTrendPoints(s.supertrendSignal), -3, 3)
  }

  function TrendReasons(s: IndicatorSignals): seq<string>
  {
    EmaReasons(s.emaSignal) + SuperTrendReasons(s.supertrendSignal)
  }

  /** RSI plus MACD, clamped to [-3, 3]. */
  function MomentumScore(s: IndicatorSignals): (r: int)
    ensures -3 <= r <= 3
  {
    Clamp(RsiPoints(s.rsiSignal) + MacdPoints(s.macdSignal), -3, 3)
  }

  function MomentumReasons(s: IndicatorSignals): seq<string>
  {
    RsiReasons(s.rsiSignal) + MacdReasons(s.macdSignal)
  }

  /** Bollinger breakouts only, clamped to [-2, 2]. */
  function VolatilityScore(s: IndicatorSignals): (r: int)
    ensures -2 <= r <= 2
  {
    Clamp(BollingerPoints(s.bollingerSignal), -2, 2)
  }

  /** Bollinger's reason, then the regime's. */
  function VolatilityReasons(s: IndicatorSignals): seq<string>
  {
    BollingerReasons(s.bollingerSignal) + RegimeReasons(s.volatilityRegime)
  }

  /** OBV plus the volume profile, clamped to [-2, 2]. */
  function VolumeScore(s: IndicatorSignals): (r: int)
    ensures -2 <= r <= 2
  {
    Clamp(ObvPoints(s.obvSignal) + VolumeProfilePoints(s.volumeProfileSignal), -2, 2)
  }

  function VolumeReasons(s: IndicatorSignals): seq<string>
  {
    ObvReasons(s.obvSignal) + VolumeProfileReasons(s.volumeProfileSignal)
  }

  /** Open interest plus contrarian funding, clamped to [-2, 2]. */
  function PerpScore(s: IndicatorSignals): (r: int)
    ensures -2 <= r <= 2
  {
    Clamp(OpenInterestPoints(s.oiSignal) + FundingPoints(s.fundingSignal), -2, 2)
  }

  function PerpReasons(s: IndicatorSignals): seq<string>
  {
    OpenInterestReasons(s.oiSignal) + FundingReasons(s.fundingSignal)
  }

  /** The volatility score sees only the Bollinger signal: any regime gives the same score. */
  lemma RegimeNeverScores(s: IndicatorSignals, regime: AtrTracker.VolatilityRegime)
    ensures VolatilityScore(s.(volatilityRegime := regime)) == VolatilityScore(s)
  {
  }

  /** Switching the funding reading to extreme long bias never raises the perp score. */
  lemma CrowdedLongsNeverHelp(s: IndicatorSignals)
    ensures PerpScore(s.(fundingSignal := FundingRateTracker.ExtremeLongBias)) <= PerpScore(s)
  {
  }

  /** Switching it to extreme short bias never lowers it. */
  lemma CrowdedShortsNeverHurt(s: IndicatorSignals)
    ensures PerpScore(s.(fundingSignal := FundingRateTracker.ExtremShortBias)) >= PerpScore(s)
  {
  }

  // Confidence.

  function Positive(x: int): nat
  {
    if x > 0 then x else 0
  }

  function Negative(x: int): nat
  {
    if x < 0 then -x else 0
  }

  /** The sum of the positive scores. */
  function PositiveMagnitude(scores: seq<int>): nat
  {
    if |scores| == 0 then 0
    else PositiveMagnitude(scores[..|scores| - 1]) + Positive(scores[|scores| - 1])
  }

  /** The sum of the magnitudes of the negative scores. */
  function NegativeMagnitude(scores: seq<int>): nat
  {
    if |scores| == 0 then 0
    else NegativeMagnitude(scores[..|scores| - 1]) + Negative(scores[|scores| - 1])
  }

  function IntSum(xs: seq<int>): int
  {
    if |xs| == 0 then 0 else IntSum(xs[..|xs| - 1]) + xs[|xs| - 1]
  }

  /** The largest magnitudes of trend, momentum, volume and perp. */
  const MaxScores: seq<int> := [3, 3, 2, 2]

  lemma {:induction false} MagnitudesOfFour(a: int, b: int, c: int, d: int)
    ensures PositiveMagnitude([a, b, c, d]) == Positive(a) + Positive(b) + Positive(c) + Positive(d)
    ensures NegativeMagnitude([a, b, c, d]) == Negative(a) + Negative(b) + Negative(c) + Negative(d)
  {
    var s := [a, b, c, d];
    assert s[..3] == [a, b, c];
    assert s[..3][..2] == [a, b];
    assert s[..3][..2][..1] == [a];
    assert [a][..0] == [];
    assert PositiveMagnitude([a]) == Positive(a);
    assert NegativeMagnitude([a]) == Negative(a);
    assert PositiveMagnitude([a, b]) == Positive(a) + Positive(b);
    assert NegativeMagnitude([a, b]) == Negative(a) + Negative(b);
    assert PositiveMagnitude([a, b, c]) == Positive(a) + Positive(b) + Positive(c);
    assert NegativeMagnitude([a, b, c]) == Negative(a) + Negative(b) + Negative(c);
  }

  lemma TotalPossibleIsTen()
    ensures IntSum(MaxScores) == 10
  {
    assert MaxScores[..3] == [3, 3, 2];
    assert MaxScores[..3][..2] == [3, 3];
    assert MaxScores[..3][..2][..1] == [3];
    assert [3][..0] == [];
    assert IntSum([3]) == 3;
    assert IntSum([3, 3]) == 6;
    assert IntSum([3, 3, 2]) == 8;
  }

  /** Trend and momentum point the same strict way. */
  predicate Aligned(trend: int, momentum: int)
  {
    (trend > 0 && momentum > 0) || (trend < 0 && momentum < 0)
  }

  /**
   * Confidence from the two magnitudes: the larger over the total possible
   * (10), raised by a fifth when trend and momentum agree (capped at 1) and
   * lowered by a fifth otherwise, then kept in [0, 1].
   */
  function AdjustedConfidence(positive: real, negative: real, aligned: bool): (r: real)
    ensures 0.0 <= r <= 1.0
  {
    var base := Max(positive, negative) / 10.0;
    var adjusted := if aligned then Min(base * 1.2, 1.0) else base * 0.8;
    Min(Max(adjusted, 0.0), 1.0)
  }

  /** The confidence of the four directional category scores. */
  function ConfidenceOf(trend: int, momentum: int, volume: int, perp: int): (r: real)
    ensures 0.0 <= r <= 1.0
  {
    var scores := [trend, momentum, volume, perp];
    AdjustedConfidence(PositiveMagnitude(scores) as real, NegativeMagnitude(scores) as real, Aligned(trend, momentum))
  }

  /** The confidence loop: accumulate the magnitudes and the total possible, then adjust. */
  method CalculateConfidence(trend: int, momentum: int, volume: int, perp: int) returns (c: real)
    ensures c == ConfidenceOf(trend, momentum, volume, perp)
  {
    var scores := [trend, momentum, volume, perp];
    var positive := 0.0;
    var negative := 0.0;
    var totalPossible := 0.0;
    var i := 0;
    while i < 4
      invariant 0 <= i <= 4
      invariant positive == PositiveMagnitude(scores[..i]) as real
      invariant negative == NegativeMagnitude(scores[..i]) as real
      invariant totalPossible == IntSum(MaxScores[..i]) as real
    {
      assert scores[..i + 1][..i] == scores[..i];
      assert MaxScores[..i + 1][..i] == MaxScores[..i];
      totalPossible := totalPossible + MaxScores[i] as real;
      if scores[i] > 0 {
        positive := positive + scores[i] as real;
      } else if scores[i] < 0 {
        negative := negative + (-scores[i]) as real;
      }
      i := i + 1;
    }
    assert scores[..4] == scores;
    assert MaxScores[..4] == MaxScores;
    TotalPossibleIsTen();
    assert totalPossible == 10.0;
    assert positive == PositiveMagnitude(scores) as real && negative == NegativeMagnitude(scores) as real;
    var alignment := Max(positive, negative);
    var base := alignment / totalPossible;
    if Aligned(trend, momentum) {
      base := Min(base * 1.2, 1.0);
    } else {
      base := base * 0.8;
    }
    c := Min(Max(base, 0.0), 1.0);
  }

  /** Confidence does not care which way the scores point: negating all four keeps it. */
  lemma ConfidenceMirror(trend: int, momentum: int, volume: int, perp: int)
    ensures ConfidenceOf(-trend, -momentum, -volume, -perp) == ConfidenceOf(trend, momentum, volume, perp)
  {
    MagnitudesOfFour(trend, momentum, volume, perp);
    MagnitudesOfFour(-trend, -momentum, -volume, -perp);
    assert Aligned(-trend, -momentum) == Aligned(trend, momentum);
    var p := PositiveMagnitude([trend, momentum, volume, perp]);
    var n := NegativeMagnitude([trend, momentum, volume, perp]);
    assert PositiveMagnitude([-trend, -momentum, -volume, -perp]) == n;
    assert NegativeMagnitude([-trend, -momentum, -volume, -perp]) == p;
    assert Max(n as real, p as real) == Max(p as real, n as real);
  }

  /** Category scores within their ranges and trend and momentum disagreeing: confidence at most 0.8. */
  lemma DisagreementCapsConfidence(trend: int, momentum: int, volume: int, perp: int)
    requires -3 <= trend <= 3 && -3 <= momentum <= 3 && -2 <= volume <= 2 && -2 <= perp <= 2
    requires !Aligned(trend, momentum)
    ensures ConfidenceOf(trend, momentum, volume, perp) <= 0.8
  {
    MagnitudesOfFour(trend, momentum, volume, perp);
    TotalPossibleIsTen();
  }

  /** Every category at its bullish maximum gives full confidence. */
  lemma UnanimityIsCertain()
    ensures ConfidenceOf(3, 3, 2, 2) == 1.0
  {
    MagnitudesOfFour(3, 3, 2, 2);
    TotalPossibleIsTen();
  }

  /** Agreeing trend and momentum with scores in range: confidence is the alignment ratio raised by a fifth, capped at 1. */
  lemma AgreementRaisesConfidence(trend: int, momentum: int, volume: int, perp: int)
    requires -3 <= trend <= 3 && -3 <= momentum <= 3 && -2 <= volume <= 2 && -2 <= perp <= 2
    requires Aligned(trend, momentum)
    ensures var ratio := Max((Positive(trend) + Positive(momentum) + Positive(volume) + Positive(perp)) as real,
                             (Negative(trend) + Negative(momentum) + Negative(volume) + Negative(perp)) as real) / 10.0;
      ConfidenceOf(trend, momentum, volume, perp) == Min(ratio * 1.2, 1.0)
  {
    MagnitudesOfFour(trend, momentum, volume, perp);
    TotalPossibleIsTen();
  }

  // Risk.

  predicate IsRsiDivergence(s: RsiTracker.RsiSignal)
  {
    s.BullishDivergence? || s.BearishDivergence?
  }

  predicate IsExtremeFunding(s: FundingRateTracker.FundingSignal)
  {
    s.ExtremeLongBias? || s.ExtremShortBias?
  }

  /**
   * The risk factors: two for high volatility, one for extreme funding, one
   * for a total score of magnitude below 2, less one for an RSI divergence.
   */
  function RiskFactors(s: IndicatorSignals, totalScore: int): (r: int)
    ensures -1 <= r <= 4
  {
    var volatility := if s.volatilityRegime.High? then 2 else 0;
    var funding := if IsExtremeFunding(s.fundingSignal) then 1 else 0;
    var indecision := if -2 < totalScore < 2 then 1 else 0;
    var divergence := if IsRsiDivergence(s.rsiSignal) then 1 else 0;
    volatility + funding + indecision - divergence
  }

  /** Three or more factors is high risk, one or two medium, none (or a negative count) low. */
  function AssessRisk(s: IndicatorSignals, totalScore: int): (r: RiskLevel)
    ensures r == High <==> RiskFactors(s, totalScore) >= 3
    ensures r == Medium <==> 1 <= RiskFactors(s, totalScore) <= 2
    ensures r == Low <==> RiskFactors(s, totalScore) <= 0
  {
    var factors := RiskFactors(s, totalScore);
    if factors >= 3 then High else if factors >= 1 then Medium else Low
  }

  function RiskRank(r: RiskLevel): int
  {
    match r
    case Low => 0
    case Medium => 1
    case High => 2
  }

  /** An RSI divergence never raises the risk. */
  lemma DivergenceNeverRaisesRisk(s: IndicatorSignals, totalScore: int, rsi: RsiTracker.RsiSignal)
    requires IsRsiDivergence(rsi)
    ensures RiskRank(AssessRisk(s.(rsiSignal := rsi), totalScore)) <= RiskRank(AssessRisk(s, totalScore))
  {
  }

  /** High volatility with extreme funding and no divergence is high risk, whatever the score. */
  lemma VolatileCrowdedMarketIsHighRisk(s: IndicatorSignals, totalScore: int)
    requires s.volatilityRegime.High? && IsExtremeFunding(s.fundingSignal) && !IsRsiDivergence(s.rsiSignal)
    ensures AssessRisk(s, totalScore) == High
  {
  }

  /** Without high volatility or extreme funding, a decisive score is low risk. */
  lemma CalmDecisiveMarketIsLowRisk(s: IndicatorSignals, totalScore: int)
    requires !s.volatilityRegime.High? && !IsExtremeFunding(s.fundingSignal)
    requires totalScore >= 2 || totalScore <= -2
    ensures AssessRisk(s, totalScore) == Low
  {
  }

  // Aggregation.

  /**
   * The trading signal: the five scores, their total (at most 12 in
   * magnitude), the bias and position of the total, the confidence of the
   * four directional scores, the risk, and the reasons in category order.
   */
  function AggregateOf(s: IndicatorSignals): (r: TradingSignal)
    ensures var b := r.scoreBreakdown;
      && b.trendScore == TrendScore(s) && b.momentumScore == MomentumScore(s)
      && b.volatilityScore == VolatilityScore(s) && b.volumeScore == VolumeScore(s) && b.perpScore == PerpScore(s)
      && b.totalScore == b.trendScore + b.momentumScore + b.volatilityScore + b.volumeScore + b.perpScore
      && -12 <= b.totalScore <= 12
      && r.bias == FromScore(b.totalScore)
      && r.position == ToPosition(r.bias)
      && 0.0 <= r.confidence <= 1.0
      && r.confidence == ConfidenceOf(b.trendScore, b.momentumScore, b.volumeScore, b.perpScore)
      && r.riskLevel == AssessRisk(s, b.totalScore)
    ensures r.reasons == TrendReasons(s) + MomentumReasons(s) + VolatilityReasons(s) + VolumeReasons(s) + PerpReasons(s)
  {
    var trend := TrendScore(s);
    var momentum := MomentumScore(s);
    var volatility := VolatilityScore(s);
    var volume := VolumeScore(s);
    var perp := PerpScore(s);
    var total := trend + momentum + volatility + volume + perp;
    var bias := FromScore(total);
    TradingSignal(
      ToPosition(bias),
      ConfidenceOf(trend, momentum, volume, perp),
      bias,
      ScoreBreakdown(trend, momentum, volatility, volume, perp, total),
      AssessRisk(s, total),
      TrendReasons(s) + MomentumReasons(s) + VolatilityReasons(s) + VolumeReasons(s) + PerpReasons(s))
  }

  /** The aggregator as the source runs it: reasons appended category by category, the confidence loop. */
  method Aggregate(s: IndicatorSignals) returns (r: TradingSignal)
    ensures r == AggregateOf(s)
  {
    var trend := TrendScore(s);
    var reasons := TrendReasons(s);
    var momentum := MomentumScore(s);
    reasons := reasons + MomentumReasons(s);
    var volatility := VolatilityScore(s);
    reasons := reasons + VolatilityReasons(s);
    var volume := VolumeScore(s);
    reasons := reasons + VolumeReasons(s);
    var perp := PerpScore(s);
    reasons := reasons + PerpReasons(s);
    var total := trend + momentum + volatility + volume + perp;
    var bias := FromScore(total);
    var confidence := CalculateConfidence(trend, momentum, volume, perp);
    var risk := AssessRisk(s, total);
    r := TradingSignal(
      ToPosition(bias), confidence, bias,
      ScoreBreakdown(trend, momentum, volatility, volume, perp, total),
      risk, reasons);
  }

  // Mirror images: every directional signal swapped for its opposite.

  function MirrorEma(s: EmaTracker.EmaTrendSignal): EmaTracker.EmaTrendSignal
  {
    match s
    case BullishCross => EmaTracker.BearishCross
    case BearishCross => EmaTracker.BullishCross
    case StrongUptrend => EmaTracker.StrongDowntrend
    case StrongDowntrend => EmaTracker.StrongUptrend
    case Neutral => EmaTracker.Neutral
  }

  function MirrorSuperTrend(s: SuperTrendTracker.SuperTrendSignal): SuperTrendTracker.SuperTrendSignal
  {
    match s
    case Bullish => SuperTrendTracker.Bearish
    case Bearish => SuperTrendTracker.Bullish
    case BullishFlip => SuperTrendTracker.BearishFlip
    case BearishFlip => SuperTrendTracker.BullishFlip
  }

  function MirrorRsi(s: RsiTracker.RsiSignal): RsiTracker.RsiSignal
  {
    match s
    case Oversold => RsiTracker.Overbought
    case Overbought => RsiTracker.Oversold
    case BullishDivergence => RsiTracker.BearishDivergence
    case BearishDivergence => RsiTracker.BullishDivergence
    case Neutral => RsiTracker.Neutral
  }

  function MirrorMacd(s: MacdTracker.MacdSignal): MacdTracker.MacdSignal
  {
    match s
    case BullishCross => MacdTracker.BearishCross
    case BearishCross => MacdTracker.BullishCross
    case BullishMomentum => MacdTracker.BearishMomentum
    case BearishMomentum => MacdTracker.BullishMomentum
    case Neutral => MacdTracker.Neutral
  }

  function MirrorBollinger(s: BollingerTracker.BollingerSignal): BollingerTracker.BollingerSignal
  {
    match s
    case UpperBreakout => BollingerTracker.LowerBreakout
    case LowerBreakout => BollingerTracker.UpperBreakout
    case _ => s
  }

  /** OBV confirmation has no bearish counterpart and is its own mirror. */
  function MirrorObv(s: ObvTracker.ObvSignal): ObvTracker.ObvSignal
  {
    match s
    case BullishDivergence => ObvTracker.BearishDivergence
    case BearishDivergence => ObvTracker.BullishDivergence
    case _ => s
  }

  function MirrorVolumeProfile(s: VolumeProfileTracker.VolumeProfileSignal): VolumeProfileTracker.VolumeProfileSignal
  {
    match s
    case POCSupport => VolumeProfileTracker.POCResistance
    case POCResistance => VolumeProfileTracker.POCSupport
    case _ => s
  }

  function MirrorOpenInterest(s: OpenInterestTracker.OpenInterestSignal): OpenInterestTracker.OpenInterestSignal
  {
    match s
    case BullishExpansion => OpenInterestTracker.BearishExpansion
    case BearishExpansion => OpenInterestTracker.BullishExpansion
    case ShortSqueeze => OpenInterestTracker.LongSqueeze
    case LongSqueeze => OpenInterestTracker.ShortSqueeze
    case Neutral => OpenInterestTracker.Neutral
  }

  function MirrorFunding(s: FundingRateTracker.FundingSignal): FundingRateTracker.FundingSignal
  {
    match s
    case ExtremeLongBias => FundingRateTracker.ExtremShortBias
    case ExtremShortBias => FundingRateTracker.ExtremeLongBias
    case HighLongBias => FundingRateTracker.HighShortBias
    case HighShortBias => FundingRateTracker.HighLongBias
    case NeutralPositive => FundingRateTracker.NeutralNegative
    case NeutralNegative => FundingRateTracker.NeutralPositive
    case Neutral => FundingRateTracker.Neutral
  }

  /** The market seen upside down; the volatility regime has no direction. */
  function Mirror(s: IndicatorSignals): IndicatorSignals
  {
    IndicatorSignals(
      MirrorEma(s.emaSignal), MirrorSuperTrend(s.supertrendSignal),
      MirrorRsi(s.rsiSignal), MirrorMacd(s.macdSignal),
      MirrorBollinger(s.bollingerSignal), s.volatilityRegime,
      MirrorObv(s.obvSignal), MirrorVolumeProfile(s.volumeProfileSignal),
      MirrorOpenInterest(s.oiSignal), MirrorFunding(s.fundingSignal))
  }

  function MirrorPosition(p: Position): Position
  {
    match p
    case Long => Short
    case Short => Long
    case Neutral => Position.Neutral
  }

  lemma TrendMirror(s: IndicatorSignals)
    ensures TrendScore(Mirror(s)) == -TrendScore(s)
  {
  }

  lemma MomentumMirror(s: IndicatorSignals)
    ensures MomentumScore(Mirror(s)) == -MomentumScore(s)
  {
  }

  lemma VolatilityMirror(s: IndicatorSignals)
    ensures VolatilityScore(Mirror(s)) == -VolatilityScore(s)
  {
  }

  lemma VolumeMirror(s: IndicatorSignals)
    requires !s.obvSignal.Confirmation?
    ensures VolumeScore(Mirror(s)) == -VolumeScore(s)
  {
  }

  lemma PerpMirror(s: IndicatorSignals)
    ensures PerpScore(Mirror(s)) == -PerpScore(s)
  {
  }

  lemma RiskMirror(s: IndicatorSignals, totalScore: int)
    ensures AssessRisk(Mirror(s), -totalScore) == AssessRisk(s, totalScore)
  {
  }

  lemma MirrorNegatesTotal(s: IndicatorSignals)
    requires !s.obvSignal.Confirmation?
    ensures AggregateOf(Mirror(s)).scoreBreakdown.totalScore == -AggregateOf(s).scoreBreakdown.totalScore
  {
    TrendMirror(s);
    MomentumMirror(s);
    VolatilityMirror(s);
    VolumeMirror(s);
    PerpMirror(s);
  }

  lemma MirrorKeepsConfidence(s: IndicatorSignals)
    requires !s.obvSignal.Confirmation?
    ensures AggregateOf(Mirror(s)).confidence == AggregateOf(s).confidence
  {
    var ms := Mirror(s);
    TrendMirror(s);
    MomentumMirror(s);
    VolumeMirror(s);
    PerpMirror(s);
    var t, m, v, p := TrendScore(s), MomentumScore(s), VolumeScore(s), PerpScore(s);
    ConfidenceMirror(t, m, v, p);
    assert ConfidenceOf(TrendScore(ms), MomentumScore(ms), VolumeScore(ms), PerpScore(ms)) == ConfidenceOf(-t, -m, -v, -p);
  }

  /**
   * The policy is symmetric: mirroring every signal (OBV confirmation
   * aside) negates the total, swaps long and short, and keeps the
   * confidence and the risk.
   */
  lemma MirrorNegatesVerdict(s: IndicatorSignals)
    requires !s.obvSignal.Confirmation?
    ensures AggregateOf(Mirror(s)).scoreBreakdown.totalScore == -AggregateOf(s).scoreBreakdown.totalScore
    ensures AggregateOf(Mirror(s)).position == MirrorPosition(AggregateOf(s).position)
    ensures AggregateOf(Mirror(s)).confidence == AggregateOf(s).confidence
    ensures AggregateOf(Mirror(s)).riskLevel == AggregateOf(s).riskLevel
  {
    MirrorNegatesTotal(s);
    MirrorKeepsConfidence(s);
    var total := AggregateOf(s).scoreBreakdown.totalScore;
    RiskMirror(s, total);
    PositionOfScore(total);
    PositionOfScore(-total);
  }

  /** OBV confirmation scores a point whichever way the confirmed move went. */
  lemma ConfirmationScoresBullish(s: IndicatorSignals)
    requires s.obvSignal.Confirmation? && s.volumeProfileSignal.Neutral?
    ensures VolumeScore(s) == 1 && VolumeScore(Mirror(s)) == 1
  {
  }

  // The unit fixtures.

  /** Every indicator bullish, neutral-negative funding, normal volatility. */
  function BullishSignals(): IndicatorSignals
  {
    IndicatorSignals(
      EmaTracker.BullishCross, SuperTrendTracker.BullishFlip,
      RsiTracker.BullishDivergence, MacdTracker.BullishCross,
      BollingerTracker.UpperBreakout, AtrTracker.Normal,
      ObvTracker.Confirmation, VolumeProfileTracker.POCSupport,
      OpenInterestTracker.BullishExpansion, FundingRateTracker.NeutralNegative)
  }

  /** The bullish fixture is strongly bullish with full confidence and explains itself. */
  lemma BullishFixtureIsStronglyBullish()
    ensures var r := AggregateOf(BullishSignals());
      && r.bias == StrongBullish
      && r.position == Long
      && r.scoreBreakdown.totalScore == 11
      && r.confidence == 1.0
      && |r.reasons| > 0
  {
    UnanimityIsCertain();
  }

  /** High volatility with extreme long funding and a neutral RSI is high risk. */
  lemma VolatileFixtureIsHighRisk()
    ensures AggregateOf(BullishSignals().(volatilityRegime := AtrTracker.High,
                                          fundingSignal := FundingRateTracker.ExtremeLongBias,
                                          rsiSignal := RsiTracker.Neutral)).riskLevel == High
  {
  }

  /**
   * Extreme long funding on the bullish fixture drops the perp score from 2
   * to 1; the fixture's RSI divergence cancels the funding risk factor, so
   * the risk stays low.
   */
  lemma CrowdedLongsFixture()
    ensures var base := AggregateOf(BullishSignals());
      var r := AggregateOf(BullishSignals().(fundingSignal := FundingRateTracker.ExtremeLongBias));
      && base.scoreBreakdown.perpScore == 2
      && r.scoreBreakdown.perpScore == 1
      && r.riskLevel == Low
  {
    var crowded := BullishSignals().(fundingSignal := FundingRateTracker.ExtremeLongBias);
    assert PerpScore(crowded) == 1;
    assert TrendScore(crowded) + MomentumScore(crowded) + VolatilityScore(crowded) + VolumeScore(crowded) == 9;
    assert RiskFactors(crowded, 10) == 0;
  }

  /** Extreme short funding on the bullish fixture keeps the perp score at its maximum and confidence high. */
  lemma CrowdedShortsFixture()
    ensures var r := AggregateOf(BullishSignals().(fundingSignal := FundingRateTracker.ExtremShortBias));
      r.scoreBreakdown.perpScore == 2 && r.confidence > 0.5
  {
    UnanimityIsCertain();
  }
}
