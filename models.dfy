/**
 * The records shared by the indicator layer (src/models/indicators.rs).
 * Candles carry real numbers; the indicator records, which arrive from
 * outside and are validated, carry `Float` values so that NaN and the
 * infinities of f64 can be told apart from finite numbers.
 */
module Models {
  import opened Wrappers

  /** An f64 value: a finite number, NaN, or one of the two infinities. */
  datatype Float = Finite(value: real) | NaN | PosInf | NegInf

  /** Unsigned 32-bit integers (periods in the records). */
  type U32 = x: int | 0 <= x < 0x1_0000_0000

  /** Instants are opaque to the model. */
  type Timestamp = int

  datatype Candle = Candle(
    open: real,
    high: real,
    low: real,
    close: real,
    volume: real,
    timestamp: Timestamp,
    openInterest: Option<real>,
    fundingRate: Option<real>)
  {
    /** Sets the open interest and keeps every other field. */
    function WithOpenInterest(oi: real): (r: Candle)
      ensures r.openInterest == Some(oi)
      ensures r.(openInterest := openInterest) == this
    {
      this.(openInterest := Some(oi))
    }

    /** Sets the funding rate and keeps every other field. */
    function WithFundingRate(rate: real): (r: Candle)
      ensures r.fundingRate == Some(rate)
      ensures r.(fundingRate := fundingRate) == this
    {
      this.(fundingRate := Some(rate))
    }
  }

  /** A candle from its prices, volume and time; no open interest, no funding rate. */
  function NewCandle(open: real, high: real, low: real, close: real, volume: real, timestamp: Timestamp): (c: Candle)
    ensures c.openInterest.None? && c.fundingRate.None?
    ensures c.open == open && c.high == high && c.low == low && c.close == close
    ensures c.volume == volume && c.timestamp == timestamp
  {
    Candle(open, high, low, close, volume, timestamp, None, None)
  }

  /** The closing prices of a candle series, oldest first. */
  function Closes(candles: seq<Candle>): (r: seq<real>)
    ensures |r| == |candles| && forall i :: 0 <= i < |candles| ==> r[i] == candles[i].close
  {
    seq(|candles|, i requires 0 <= i < |candles| => candles[i].close)
  }

  /** A computed value, if any, as a finite f64. */
  function FiniteOf(x: Option<real>): (r: Option<Float>)
    ensures r.Some? <==> x.Some?
    ensures r.Some? ==> r.value == Finite(x.value)
  {
    match x
    case None => None
    case Some(v) => Some(Finite(v))
  }

  /** The two candle builders touch different fields, so their order does not matter. */
  lemma CandleBuildersCommute(c: Candle, oi: real, rate: real)
    ensures c.WithOpenInterest(oi).WithFundingRate(rate) == c.WithFundingRate(rate).WithOpenInterest(oi)
  {
  }

  datatype MacdIndicator = MacdIndicator(
    macd: Float,
    signal: Float,
    histogram: Float,
    period: Option<(U32, U32, U32)>)

  datatype RsiIndicator = RsiIndicator(value: Float, period: Option<U32>)

  datatype EmaIndicator = EmaIndicator(value: Float, period: U32)

  datatype SmaIndicator = SmaIndicator(value: Float, period: U32)

  datatype VolumeIndicator = VolumeIndicator(volume: Float, volumeMa: Option<Float>, volumeMaPeriod: Option<U32>)

  /** `stdDev` is the band width in standard deviations. */
  datatype BollingerBandsIndicator = BollingerBandsIndicator(
    upper: Float,
    middle: Float,
    lower: Float,
    period: U32,
    stdDev: Float)

  datatype AtrIndicator = AtrIndicator(value: Float, period: U32)

  datatype SuperTrendIndicator = SuperTrendIndicator(
    value: Float,
    trend: int,
    upperBand: Float,
    lowerBand: Float,
    period: U32,
    multiplier: Float)

  /** Every indicator known for one symbol at one instant. */
  datatype IndicatorSet = IndicatorSet(
    symbol: string,
    price: Float,
    fundingRate: Option<Float>,
    openInterest: Option<Float>,
    macd: Option<MacdIndicator>,
    rsi: Option<RsiIndicator>,
    emas: seq<EmaIndicator>,
    smas: seq<SmaIndicator>,
    volume: Option<VolumeIndicator>,
    bollingerBands: Option<BollingerBandsIndicator>,
    atr: Option<AtrIndicator>,
    supertrend: Option<SuperTrendIndicator>,
    timestamp: Timestamp,
    timeframe: Option<string>)
  {
    /** Sets the MACD and keeps every other field. */
    function WithMacd(m: MacdIndicator): (r: IndicatorSet)
      ensures r.macd == Some(m)
      ensures r.(macd := macd) == this
    {
      this.(macd := Some(m))
    }

    /** Sets the RSI and keeps every other field. */
    function WithRsi(rsiValue: RsiIndicator): (r: IndicatorSet)
      ensures r.rsi == Some(rsiValue)
      ensures r.(rsi := rsi) == this
    {
      this.(rsi := Some(rsiValue))
    }

    /** Sets the funding rate and keeps every other field. */
    function WithFundingRate(rate: Float): (r: IndicatorSet)
      ensures r.fundingRate == Some(rate)
      ensures r.(fundingRate := fundingRate) == this
    {
      this.(fundingRate := Some(rate))
    }

    /** Sets the open interest and keeps every other field. */
    function WithOpenInterest(oi: Float): (r: IndicatorSet)
      ensures r.openInterest == Some(oi)
      ensures r.(openInterest := openInterest) == this
    {
      this.(openInterest := Some(oi))
    }

    /** Sets the timeframe and keeps every other field. */
    function WithTimeframe(tf: string): (r: IndicatorSet)
      ensures r.timeframe == Some(tf)
      ensures r.(timeframe := timeframe) == this
    {
      this.(timeframe := Some(tf))
    }
  }

  /**
   * A set holding only a symbol and a price, stamped with `now` (the clock
   * is a parameter of the model).
   */
  function NewIndicatorSet(symbol: string, price: Float, now: Timestamp): (s: IndicatorSet)
    ensures s.symbol == symbol && s.price == price && s.timestamp == now
    ensures s.fundingRate.None? && s.openInterest.None? && s.macd.None? && s.rsi.None?
    ensures s.emas == [] && s.smas == [] && s.volume.None?
    ensures s.bollingerBands.None? && s.atr.None? && s.supertrend.None? && s.timeframe.None?
  {
    IndicatorSet(symbol, price, None, None, None, None, [], [], None, None, None, None, now, None)
  }

  /** A later call of a builder overrides an earlier one. */
  lemma LaterBuilderWins(s: IndicatorSet, m1: MacdIndicator, m2: MacdIndicator, r1: RsiIndicator, r2: RsiIndicator)
    ensures s.WithMacd(m1).WithMacd(m2) == s.WithMacd(m2)
    ensures s.WithRsi(r1).WithRsi(r2) == s.WithRsi(r2)
  {
  }

  /** Builders that set different fields commute. */
  lemma BuildersCommute(s: IndicatorSet, m: MacdIndicator, r: RsiIndicator, rate: Float, oi: Float, tf: string)
    ensures s.WithMacd(m).WithRsi(r) == s.WithRsi(r).WithMacd(m)
    ensures s.WithFundingRate(rate).WithOpenInterest(oi) == s.WithOpenInterest(oi).WithFundingRate(rate)
    ensures s.WithMacd(m).WithTimeframe(tf) == s.WithTimeframe(tf).WithMacd(m)
  {
  }
}
