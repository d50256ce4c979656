/** The output vocabulary of the signal engine: bias, position, score breakdown and risk (src/engine/signal.rs). */
module EngineSignal {

  datatype MarketBias = StrongBullish | Bullish | Neutral | Bearish | StrongBearish

  datatype Position = Long | Short | Neutral

  datatype ScoreBreakdown = ScoreBreakdown(
    trendScore: int,
    momentumScore: int,
    volatilityScore: int,
    volumeScore: int,
    perpScore: int,
    totalScore: int)

  datatype RiskLevel = Low | Medium | High

  datatype TradingSignal = TradingSignal(
    position: Position,
    confidence: real,
    bias: MarketBias,
    scoreBreakdown: ScoreBreakdown,
    riskLevel: RiskLevel,
    reasons: seq<string>)

  /** The bias of a total score: 7 and above strong bullish, 3 bullish, above -3 neutral, above -7 bearish. */
  function FromScore(score: int): (r: MarketBias)
    ensures r == StrongBullish <==> score >= 7
    ensures r == Bullish <==> 3 <= score < 7
    ensures r == MarketBias.Neutral <==> -3 < score < 3
    ensures r == Bearish <==> -7 < score <= -3
    ensures r == StrongBearish <==> score <= -7
  {
    if score >= 7 then StrongBullish
    else if score >= 3 then Bullish
    else if score > -3 then MarketBias.Neutral
    else if score > -7 then Bearish
    else StrongBearish
  }

  /** How bullish a bias is, from 0 (strong bearish) to 4 (strong bullish). */
  function BiasRank(b: MarketBias): int
  {
    match b
    case StrongBearish => 0
    case Bearish => 1
    case Neutral => 2
    case Bullish => 3
    case StrongBullish => 4
  }

  /** A higher score never gives a more bearish bias. */
  lemma FromScoreMonotone(a: int, b: int)
    requires a <= b
    ensures BiasRank(FromScore(a)) <= BiasRank(FromScore(b))
  {
  }

  /** Both bullish biases go long, both bearish ones short, the neutral one stays out. */
  function ToPosition(b: MarketBias): (r: Position)
    ensures r == Long <==> b == StrongBullish || b == Bullish
    ensures r == Short <==> b == Bearish || b == StrongBearish
    ensures r == Position.Neutral <==> b == MarketBias.Neutral
  {
    match b
    case StrongBullish | Bullish => Long
    case Neutral => Position.Neutral
    case Bearish | StrongBearish => Short
  }

  /** The position of a score: long from 3 up, short from -3 down, neutral strictly between. */
  lemma PositionOfScore(score: int)
    ensures ToPosition(FromScore(score)) == Long <==> score >= 3
    ensures ToPosition(FromScore(score)) == Short <==> score <= -3
    ensures ToPosition(FromScore(score)) == Position.Neutral <==> -3 < score < 3
  {
  }
}
