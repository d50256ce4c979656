/**
 * The older, single-shot signal policy (src/signals/signal_generator.rs):
 * a confidence built from four components (MACD crossover size, RSI
 * confirmation, funding rate, histogram), a direction from the MACD side
 * once the confidence reaches 0.1, and stop loss / take profit scaled by
 * the confidence. Its input and output records are in
 * src/signals/types.rs; the output has the same shape as the engine's.
 */
module SignalGenerator {
  import opened Wrappers
  import opened CommonMath
  import opened Models
  import opened SignalModel
  import opened Config

  datatype MacdSignal = MacdSignal(macd: real, signal: real, histogram: real)

  datatype IndicatorInput = IndicatorInput(
    macd: MacdSignal,
    rsi: real,
    fundingRate: Option<real>,
    price: real,
    symbol: Option<string>)

  /** Below this confidence there is no direction. */
  const MinDirectionalConfidence: real := 0.1

  predicate Bullish(m: MacdSignal)
  {
    m.macd > m.signal
  }

  predicate Bearish(m: MacdSignal)
  {
    m.macd < m.signal
  }

  /** The two sides exclude each other, and equal lines are neither. */
  lemma SidesExclusive(m: MacdSignal)
    ensures !(Bullish(m) && Bearish(m))
    ensures m.macd == m.signal <==> !Bullish(m) && !Bearish(m)
  {
  }

  /**
   * `(x / scale).min(1.0)` for a non-negative `x`. A zero scale makes the
   * f64 quotient +inf or NaN, and `min` turns both into 1.0.
   */
  function CappedRatio(x: real, scale: real): (r: real)
    requires x >= 0.0
    ensures r <= 1.0
    ensures scale >= 0.0 ==> 0.0 <= r
  {
    if scale == 0.0 then 1.0 else Min(x / scale, 1.0)
  }

  /** The text of the MACD reason, `MACD <side> crossover`. */
  function CrossoverText(side: string): (r: string)
    ensures side == "bullish" ==> r == "MACD bullish crossover"
    ensures side == "bearish" ==> r == "MACD bearish crossover"
  {
    "MACD " + side + " crossover"
  }

  /** The text of the funding reason, `Funding rate <sign>`. */
  function FundingText(sign: string): (r: string)
    ensures sign == "positive" ==> r == "Funding rate positive"
    ensures sign == "negative" ==> r == "Funding rate negative"
  {
    "Funding rate " + sign
  }

  /** A component's confidence and the reasons it records. */
  type Part = (real, seq<SignalReason>)

  /** The MACD part: the capped crossover size times 0.4, with its reason, when the lines differ. */
  function MacdPart(config: Config, m: MacdSignal): (r: Part)
    ensures !Bullish(m) && !Bearish(m) ==> r == (0.0, [])
    ensures Bullish(m) ==> r.1 == [SignalReason("MACD bullish crossover", r.0)]
    ensures Bearish(m) ==> r.1 == [SignalReason("MACD bearish crossover", r.0)]
    ensures config.macdScale >= 0.0 ==> 0.0 <= r.0 <= 0.4
    ensures config.macdScale > 0.0 && (Bullish(m) || Bearish(m)) ==> r.0 > 0.0
  {
    if Bullish(m) || Bearish(m) then
      var confidence := CappedRatio(Abs(m.macd - m.signal), config.macdScale) * 0.4;
      (confidence, [SignalReason(if Bullish(m) then "MACD bullish crossover" else "MACD bearish crossover", confidence)])
    else (0.0, [])
  }

  /**
   * The RSI part, which only confirms the MACD side: for a bullish MACD an
   * RSI under 30 scores up to 0.3 and one under 50 up to 0.15; for a
   * bearish MACD the same above 70 and above 50.
   */
  function RsiPart(m: MacdSignal, rsi: real): (r: Part)
    ensures r.0 != 0.0 ==> (Bullish(m) && rsi < 50.0) || (Bearish(m) && rsi > 50.0)
    ensures r.1 == [] || r.1 == [SignalReason(r.1[0].description, r.0)]
    ensures 0.0 <= rsi <= 100.0 ==> 0.0 <= r.0 <= 0.3
    ensures r.0 == 0.0 ==> r.1 == []
  {
    if Bullish(m) then
      if rsi < 30.0 then
        var confidence := Max((30.0 - rsi) / 30.0, 0.0) * 0.3;
        (confidence, [SignalReason("RSI oversold", confidence)])
      else if rsi < 50.0 then
        var confidence := ((50.0 - rsi) / 50.0) * 0.15;
        (confidence, [SignalReason("RSI near oversold", confidence)])
      else (0.0, [])
    else if Bearish(m) then
      if rsi > 70.0 then
        var confidence := Max((rsi - 70.0) / 30.0, 0.0) * 0.3;
        (confidence, [SignalReason("RSI overbought", confidence)])
      else if rsi > 50.0 then
        var confidence := ((rsi - 50.0) / 50.0) * 0.15;
        (confidence, [SignalReason("RSI near overbought", confidence)])
      else (0.0, [])
    else (0.0, [])
  }

  /** The funding part: |rate| / 0.1 capped at 1, times 0.15; a reason only when it is positive. */
  function FundingPart(fundingRate: Option<real>): (r: Part)
    ensures 0.0 <= r.0 <= 0.15
    ensures r.0 > 0.0 <==> fundingRate.Some? && fundingRate.value != 0.0
    ensures r.0 == 0.0 ==> r.1 == []
    ensures r.0 > 0.0 ==> r.1 == [SignalReason(if fundingRate.value > 0.0 then "Funding rate positive" else "Funding rate negative", r.0)]
  {
    match fundingRate
    case None => (0.0, [])
    case Some(rate) =>
      var confidence := CappedRatio(Abs(rate), 0.1) * 0.15;
      if confidence > 0.0 then
        (confidence, [SignalReason(if rate > 0.0 then "Funding rate positive" else "Funding rate negative", confidence)])
      else (confidence, [])
  }

  /** The histogram part: the capped histogram size times 0.15, when the lines differ; a reason only when positive. */
  function HistogramPart(config: Config, m: MacdSignal): (r: Part)
    ensures !Bullish(m) && !Bearish(m) ==> r == (0.0, [])
    ensures config.histScale >= 0.0 ==> 0.0 <= r.0 <= 0.15
    ensures r.0 > 0.0 ==> r.1 == [SignalReason("Histogram supports MACD", r.0)]
    ensures r.0 <= 0.0 ==> r.1 == []
  {
    if Bullish(m) || Bearish(m) then
      var confidence := CappedRatio(Abs(m.histogram), config.histScale) * 0.15;
      if confidence > 0.0 then (confidence, [SignalReason("Histogram supports MACD", confidence)])
      else (confidence, [])
    else (0.0, [])
  }

  /** The total confidence: the sum of the four parts. */
  function TotalConfidence(config: Config, input: IndicatorInput): real
  {
    MacdPart(config, input.macd).0 + RsiPart(input.macd, input.rsi).0
      + FundingPart(input.fundingRate).0 + HistogramPart(config, input.macd).0
  }

  /** The reasons, in the order MACD, RSI, funding, histogram. */
  function ReasonsOf(config: Config, input: IndicatorInput): seq<SignalReason>
  {
    MacdPart(config, input.macd).1 + RsiPart(input.macd, input.rsi).1
      + FundingPart(input.fundingRate).1 + HistogramPart(config, input.macd).1
  }

  /** No direction below 0.1; otherwise the MACD side, and none when the lines are equal. */
  function DirectionOf(total: real, m: MacdSignal): (r: Direction)
    ensures r == Long <==> total >= MinDirectionalConfidence && Bullish(m)
    ensures r == Short <==> total >= MinDirectionalConfidence && Bearish(m)
  {
    if total < MinDirectionalConfidence then Neutral
    else if Bullish(m) then Long
    else if Bearish(m) then Short
    else Neutral
  }

  /** The default stop loss shrunk by the confidence: `default_sl * (1 - confidence)`. */
  function ScaledStop(defaultSlPct: real, total: real): real
  {
    defaultSlPct * (1.0 - total)
  }

  /** The default take profit scaled by the confidence: `default_tp * confidence`. */
  function ScaledTarget(defaultTpPct: real, total: real): real
  {
    defaultTpPct * total
  }

  function SizingOf(config: Config, direction: Direction, total: real): (r: (real, real))
  {
    if direction != Neutral then (ScaledStop(config.defaultSlPct, total), ScaledTarget(config.defaultTpPct, total))
    else (config.defaultSlPct, config.defaultTpPct)
  }

  /** The generated signal; `defaultSymbol` names the market when the input names none, `now` is the clock reading. */
  function GenerateOf(config: Config, defaultSymbol: string, input: IndicatorInput, now: Timestamp): (r: SignalOutput)
    ensures r.symbol == (if input.symbol.Some? then input.symbol.value else defaultSymbol)
    ensures r.price == input.price && r.timestamp == now
  {
    var total := TotalConfidence(config, input);
    var direction := DirectionOf(total, input.macd);
    var sizing := SizingOf(config, direction, total);
    var symbol := match input.symbol
      case Some(s) => s
      case None => defaultSymbol;
    SignalOutput(direction, total, sizing.0, sizing.1, ReasonsOf(config, input), symbol, input.price, now)
  }

  // What the policy promises.

  /** Given an RSI in [0, 100] and non-negative scales, the confidence lies in [0, 1]. */
  lemma ConfidenceInUnitInterval(config: Config, input: IndicatorInput)
    requires 0.0 <= input.rsi <= 100.0 && config.macdScale >= 0.0 && config.histScale >= 0.0
    ensures 0.0 <= TotalConfidence(config, input) <= 1.0
  {
  }

  /** Each part's recorded weights add up to its confidence (for the histogram, given a non-negative scale). */
  lemma PartWeights(config: Config, input: IndicatorInput)
    requires config.histScale >= 0.0
    ensures TotalWeight(MacdPart(config, input.macd).1) == MacdPart(config, input.macd).0
    ensures TotalWeight(RsiPart(input.macd, input.rsi).1) == RsiPart(input.macd, input.rsi).0
    ensures TotalWeight(FundingPart(input.fundingRate).1) == FundingPart(input.fundingRate).0
    ensures TotalWeight(HistogramPart(config, input.macd).1) == HistogramPart(config, input.macd).0
  {
    var rsi := RsiPart(input.macd, input.rsi).1;
    if |rsi| == 1 {
      assert rsi[..0] == [];
    }
    var macd := MacdPart(config, input.macd).1;
    if |macd| == 1 {
      assert macd[..0] == [];
    }
    var funding := FundingPart(input.fundingRate).1;
    if |funding| == 1 {
      assert funding[..0] == [];
    }
    var hist := HistogramPart(config, input.macd).1;
    if |hist| == 1 {
      assert hist[..0] == [];
    }
  }

  /** The recorded reason weights add up to the total confidence (given a non-negative histogram scale). */
  lemma ReasonWeightsAreConfidence(config: Config, input: IndicatorInput)
    requires config.histScale >= 0.0
    ensures TotalWeight(ReasonsOf(config, input)) == TotalConfidence(config, input)
  {
    var a := MacdPart(config, input.macd).1;
    var b := RsiPart(input.macd, input.rsi).1;
    var c := FundingPart(input.fundingRate).1;
    var d := HistogramPart(config, input.macd).1;
    PartWeights(config, input);
    TotalWeightAppend(a, b);
    TotalWeightAppend(a + b, c);
    TotalWeightAppend(a + b + c, d);
  }

  /** The direction: none below 0.1 or with equal lines; otherwise long exactly when bullish, short exactly when bearish. */
  lemma DirectionFollowsMacd(config: Config, defaultSymbol: string, input: IndicatorInput, now: Timestamp)
    ensures var r := GenerateOf(config, defaultSymbol, input, now);
      && r.confidence == TotalConfidence(config, input)
      && (r.direction == Neutral <==> r.confidence < 0.1 || input.macd.macd == input.macd.signal)
      && (r.direction == Long <==> r.confidence >= 0.1 && Bullish(input.macd))
      && (r.direction == Short <==> r.confidence >= 0.1 && Bearish(input.macd))
  {
  }

  /** Stop loss and take profit: scaled by the confidence with a direction, the defaults without. */
  lemma SizingFollowsConfidence(config: Config, defaultSymbol: string, input: IndicatorInput, now: Timestamp)
    ensures var r := GenerateOf(config, defaultSymbol, input, now);
      && (r.direction != Neutral ==>
            r.recommendedSlPct == ScaledStop(config.defaultSlPct, r.confidence)
            && r.recommendedTpPct == ScaledTarget(config.defaultTpPct, r.confidence))
      && (r.direction == Neutral ==> r.recommendedSlPct == config.defaultSlPct && r.recommendedTpPct == config.defaultTpPct)
  {
    var total := TotalConfidence(config, input);
    var direction := DirectionOf(total, input.macd);
    var sizing := SizingOf(config, direction, total);
    var r := GenerateOf(config, defaultSymbol, input, now);
    assert r.confidence == total && r.direction == direction;
    assert r.recommendedSlPct == sizing.0 && r.recommendedTpPct == sizing.1;
  }

  /**
   * With the default settings, a bullish MACD 10 above its signal, an RSI
   * of 25, a funding rate of 0.05 and a histogram of 5 give a long signal
   * of confidence 0.235 (0.08 + 0.05 + 0.075 + 0.03), a 1.53% stop and a
   * 0.94% target.
   */
  lemma DefaultConfigExample(symbol: string, now: Timestamp)
    ensures var r := GenerateOf(DefaultConfig(), symbol, IndicatorInput(MacdSignal(10.0, 0.0, 5.0), 25.0, Some(0.05), 100.0, None), now);
      && r.direction == Long && r.confidence == 0.235
      && r.recommendedSlPct == 0.0153 && r.recommendedTpPct == 0.0094
      && |r.reasons| == 4 && r.symbol == symbol
  {
    var config := DefaultConfig();
    var m := MacdSignal(10.0, 0.0, 5.0);
    assert MacdPart(config, m).0 == 0.08;
    assert RsiPart(m, 25.0).0 == 0.05;
    assert FundingPart(Some(0.05)).0 == 0.075;
    assert HistogramPart(config, m).0 == 0.03;
  }

  // The four blocks of the generator, each appending its reasons to the list so far.

  /** The MACD block: a crossover reason whenever the lines differ. */
  method AddMacdReason(config: Config, macd: MacdSignal, reasons: seq<SignalReason>)
    returns (confidence: real, out: seq<SignalReason>)
    ensures confidence == MacdPart(config, macd).0 && out == reasons + MacdPart(config, macd).1
  {
    confidence, out := 0.0, reasons;
    var macdBullish := macd.macd > macd.signal;
    var macdBearish := macd.macd < macd.signal;
    if macdBullish || macdBearish {
      var crossoverSize := Abs(macd.macd - macd.signal);
      confidence := CappedRatio(crossoverSize, config.macdScale) * 0.4;
      var directionStr := if macdBullish then "bullish" else "bearish";
      out := out + [SignalReason(CrossoverText(directionStr), confidence)];
    }
  }

  /** The RSI block: a reason when the RSI confirms the MACD side. */
  method AddRsiReason(macd: MacdSignal, rsi: real, reasons: seq<SignalReason>)
    returns (confidence: real, out: seq<SignalReason>)
    ensures confidence == RsiPart(macd, rsi).0 && out == reasons + RsiPart(macd, rsi).1
  {
    confidence, out := 0.0, reasons;
    if macd.macd > macd.signal {
      if rsi < 30.0 {
        confidence := Max((30.0 - rsi) / 30.0, 0.0) * 0.3;
        out := out + [SignalReason("RSI oversold", confidence)];
      } else if rsi < 50.0 {
        var partial := ((50.0 - rsi) / 50.0) * 0.15;
        confidence := partial;
        out := out + [SignalReason("RSI near oversold", confidence)];
      }
    } else if macd.macd < macd.signal {
      if rsi > 70.0 {
        confidence := Max((rsi - 70.0) / 30.0, 0.0) * 0.3;
        out := out + [SignalReason("RSI overbought", confidence)];
      } else if rsi > 50.0 {
        var partial := ((rsi - 50.0) / 50.0) * 0.15;
        confidence := partial;
        out := out + [SignalReason("RSI near overbought", confidence)];
      }
    }
  }

  /** The funding block: a reason when a funding rate is given and not zero. */
  method AddFundingReason(fundingRate: Option<real>, reasons: seq<SignalReason>)
    returns (confidence: real, out: seq<SignalReason>)
    ensures confidence == FundingPart(fundingRate).0 && out == reasons + FundingPart(fundingRate).1
  {
    confidence, out := 0.0, reasons;
    if fundingRate.Some? {
      var rate := fundingRate.value;
      confidence := CappedRatio(Abs(rate), 0.1) * 0.15;
      if confidence > 0.0 {
        var directionStr := if rate > 0.0 then "positive" else "negative";
        out := out + [SignalReason(FundingText(directionStr), confidence)];
      }
    }
  }

  /** The histogram block: a reason when the lines differ and the histogram adds confidence. */
  method AddHistogramReason(config: Config, macd: MacdSignal, reasons: seq<SignalReason>)
    returns (confidence: real, out: seq<SignalReason>)
    ensures confidence == HistogramPart(config, macd).0 && out == reasons + HistogramPart(config, macd).1
  {
    confidence, out := 0.0, reasons;
    if macd.macd > macd.signal || macd.macd < macd.signal {
      var histogramAbs := Abs(macd.histogram);
      confidence := CappedRatio(histogramAbs, config.histScale) * 0.15;
      if confidence > 0.0 {
        out := out + [SignalReason("Histogram supports MACD", confidence)];
      }
    }
  }

  /** The generator: its settings and the market it reports when an input names none. */
  class SignalGenerator {
    const config: Config
    const defaultSymbol: string

    constructor (config: Config, defaultSymbol: string)
      ensures this.config == config && this.defaultSymbol == defaultSymbol
    {
      this.config := config;
      this.defaultSymbol := defaultSymbol;
    }

    /** One signal from one input: the four accumulators and the reason list built block by block. */
    method GenerateSignal(input: IndicatorInput, now: Timestamp) returns (r: SignalOutput)
      ensures r == GenerateOf(config, defaultSymbol, input, now)
    {
      var symbol := if input.symbol.Some? then input.symbol.value else defaultSymbol;
      var reasons: seq<SignalReason> := [];
      var macdConfidence, rsiConfidence, fundingConfidence, histConfidence;
      macdConfidence, reasons := AddMacdReason(config, input.macd, reasons);
      assert reasons == MacdPart(config, input.macd).1;
      rsiConfidence, reasons := AddRsiReason(input.macd, input.rsi, reasons);
      fundingConfidence, reasons := AddFundingReason(input.fundingRate, reasons);
      histConfidence, reasons := AddHistogramReason(config, input.macd, reasons);

      assert reasons == ReasonsOf(config, input);
      var totalConfidence := macdConfidence + rsiConfidence + fundingConfidence + histConfidence;
      assert totalConfidence == TotalConfidence(config, input);
      var macdBullish := input.macd.macd > input.macd.signal;
      var macdBearish := input.macd.macd < input.macd.signal;

      var direction :=
        if totalConfidence < 0.1 then Neutral
        else if macdBullish then Long
        else if macdBearish then Short
        else Neutral;

      var slPct, tpPct;
      if direction != Neutral {
        var recommendedSl := ScaledStop(config.defaultSlPct, totalConfidence);
        var recommendedTp := ScaledTarget(config.defaultTpPct, totalConfidence);
        slPct, tpPct := recommendedSl, recommendedTp;
      } else {
        slPct, tpPct := config.defaultSlPct, config.defaultTpPct;
      }
      assert direction == DirectionOf(totalConfidence, input.macd);
      assert slPct == SizingOf(config, direction, totalConfidence).0 && tpPct == SizingOf(config, direction, totalConfidence).1;
      r := SignalOutput(direction, totalConfidence, slPct, tpPct, reasons, symbol, input.price, now);
    }
  }
}
