/**
 * The field validators of the indicator layer (src/indicators/validation.rs)
 * and the error type they report (src/indicators/error.rs).
 *
 * Values are `Models.Float`, so the comparisons below follow f64: every
 * comparison with NaN is false, and the infinities lie beyond every finite
 * bound. Error messages keep their fixed text; the values the source
 * formats into some of them are not modelled.
 */
module Validation {
  import opened Wrappers
  import opened Models
  import opened CommonMath

  datatype IndicatorError =
    | ParseError(message: string)
    | ValidationError(message: string)
    | MissingField(field: string)
    | InvalidNumericFormat(text: string)
    | OutOfRange(field: string, value: Float, min: Float, max: Float)
    | InvalidPeriod(field: string, period: U32)

  /** The outcome of a validator. */
  type Check = Result<(), IndicatorError>

  const RsiMin: real := 0.0
  const RsiMax: real := 100.0
  const MinPeriod: U32 := 1
  const MaxPeriod: U32 := 1000
  const MinPrice: real := 0.0
  const MinVolume: real := 0.0
  const FundingRateMin: real := -1.0
  const FundingRateMax: real := 1.0
  const MacdHistogramTolerance: real := 0.0001

  // f64 comparisons against finite bounds.

  predicate IsFinite(x: Float)
  {
    x.Finite?
  }

  /** `x <= b`: false for NaN and +inf, true for -inf. */
  predicate AtMost(x: Float, b: real)
  {
    match x
    case Finite(v) => v <= b
    case NegInf => true
    case _ => false
  }

  /** `x < b`: false for NaN and +inf, true for -inf. */
  predicate Below(x: Float, b: real)
  {
    match x
    case Finite(v) => v < b
    case NegInf => true
    case _ => false
  }

  /** `(lo..=hi).contains(&x)`: `lo <= x && x <= hi`, never true for NaN or an infinity. */
  predicate Contains(lo: real, hi: real, x: Float)
  {
    match x
    case Finite(v) => lo <= v <= hi
    case _ => false
  }

  /** The first failing check, or the second when the first passes (the `?` operator). */
  function AndThen(first: Check, second: Check): (r: Check)
    ensures r.Ok? <==> first.Ok? && second.Ok?
    ensures first.Err? ==> r == first
    ensures first.Ok? ==> r == second
  {
    if first.Err? then first else second
  }

  function ValidateRsi(value: Float): (r: Check)
    ensures r.Ok? <==> value.Finite? && RsiMin <= value.value <= RsiMax
    ensures r.Err? ==> r == Err(OutOfRange("rsi", value, Finite(RsiMin), Finite(RsiMax)))
  {
    if !Contains(RsiMin, RsiMax, value) then Err(OutOfRange("rsi", value, Finite(RsiMin), Finite(RsiMax)))
    else if !IsFinite(value) then Err(ValidationError("RSI value must be finite"))
    else Ok(())
  }

  function ValidatePeriod(period: U32): (r: Check)
    ensures r.Ok? <==> 1 <= period <= 1000
    ensures r.Err? ==> r == Err(InvalidPeriod("period", period))
  {
    if !(MinPeriod <= period <= MaxPeriod) then Err(InvalidPeriod("period", period)) else Ok(())
  }

  function ValidatePrice(price: Float): (r: Check)
    ensures r.Ok? <==> price.Finite? && price.value > MinPrice
    ensures r.Err? && r.error.OutOfRange? <==> (price.Finite? && price.value <= MinPrice) || price.NegInf?
    ensures r.Err? && r.error.ValidationError? <==> price.NaN? || price.PosInf?
  {
    if AtMost(price, MinPrice) then Err(OutOfRange("price", price, Finite(MinPrice), PosInf))
    else if !IsFinite(price) then Err(ValidationError("Price must be finite"))
    else Ok(())
  }

  function ValidateVolume(volume: Float): (r: Check)
    ensures r.Ok? <==> volume.Finite? && volume.value >= MinVolume
    ensures r.Err? && r.error.OutOfRange? <==> (volume.Finite? && volume.value < MinVolume) || volume.NegInf?
    ensures r.Err? && r.error.ValidationError? <==> volume.NaN? || volume.PosInf?
  {
    if Below(volume, MinVolume) then Err(OutOfRange("volume", volume, Finite(MinVolume), PosInf))
    else if !IsFinite(volume) then Err(ValidationError("Volume must be finite"))
    else Ok(())
  }

  function ValidateFundingRate(rate: Float): (r: Check)
    ensures r.Ok? <==> rate.Finite? && FundingRateMin <= rate.value <= FundingRateMax
    ensures r.Err? ==> r == Err(OutOfRange("funding_rate", rate, Finite(FundingRateMin), Finite(FundingRateMax)))
  {
    if !Contains(FundingRateMin, FundingRateMax, rate) then
      Err(OutOfRange("funding_rate", rate, Finite(FundingRateMin), Finite(FundingRateMax)))
    else if !IsFinite(rate) then Err(ValidationError("Funding rate must be finite"))
    else Ok(())
  }

  /** The histogram lies within the tolerance of MACD minus signal (all three finite). */
  predicate HistogramConsistent(m: MacdIndicator)
    requires m.macd.Finite? && m.signal.Finite? && m.histogram.Finite?
  {
    Abs(m.histogram.value - (m.macd.value - m.signal.value)) <= MacdHistogramTolerance
  }

  /** A period triple is usable: each period in 1..=1000 and the fast one shorter than the slow one. */
  predicate PeriodsUsable(periods: (U32, U32, U32))
  {
    && 1 <= periods.0 <= 1000 && 1 <= periods.1 <= 1000 && 1 <= periods.2 <= 1000
    && periods.0 < periods.1
  }

  /** The periods' checks, in the order fast, slow, signal, then fast < slow. */
  function ValidateMacdPeriods(periods: (U32, U32, U32)): (r: Check)
    ensures r.Ok? <==> PeriodsUsable(periods)
    ensures r.Err? && r.error.InvalidPeriod? ==> r.error.period in {periods.0, periods.1, periods.2}
  {
    var (fast, slow, signal) := periods;
    AndThen(ValidatePeriod(fast),
      AndThen(ValidatePeriod(slow),
        AndThen(ValidatePeriod(signal),
          if fast >= slow then Err(ValidationError("MACD fast period must be less than slow period")) else Ok(()))))
  }

  function ValidateMacd(m: MacdIndicator): (r: Check)
    ensures r.Ok? <==>
      && m.macd.Finite? && m.signal.Finite? && m.histogram.Finite?
      && HistogramConsistent(m)
      && (m.period.Some? ==> PeriodsUsable(m.period.value))
    ensures !m.macd.Finite? ==> r == Err(ValidationError("MACD value must be finite"))
    ensures m.macd.Finite? && !m.signal.Finite? ==> r == Err(ValidationError("MACD signal value must be finite"))
    ensures m.macd.Finite? && m.signal.Finite? && !m.histogram.Finite? ==>
      r == Err(ValidationError("MACD histogram value must be finite"))
  {
    if !IsFinite(m.macd) then Err(ValidationError("MACD value must be finite"))
    else if !IsFinite(m.signal) then Err(ValidationError("MACD signal value must be finite"))
    else if !IsFinite(m.histogram) then Err(ValidationError("MACD histogram value must be finite"))
    else
      var expected := m.macd.value - m.signal.value;
      var diff := Abs(m.histogram.value - expected);
      if diff > MacdHistogramTolerance then Err(ValidationError("MACD histogram inconsistency"))
      else if m.period.Some? then ValidateMacdPeriods(m.period.value)
      else Ok(())
  }

  function ValidateRsiIndicator(rsi: RsiIndicator): (r: Check)
    ensures r.Ok? <==> ValidateRsi(rsi.value).Ok? && (rsi.period.Some? ==> 1 <= rsi.period.value <= 1000)
    ensures ValidateRsi(rsi.value).Err? ==> r == ValidateRsi(rsi.value)
  {
    AndThen(ValidateRsi(rsi.value), if rsi.period.Some? then ValidatePeriod(rsi.period.value) else Ok(()))
  }

  function ValidateEma(ema: EmaIndicator): (r: Check)
    ensures r.Ok? <==> ema.value.Finite? && 1 <= ema.period <= 1000
    ensures !ema.value.Finite? ==> r == Err(ValidationError("EMA value must be finite"))
  {
    if !IsFinite(ema.value) then Err(ValidationError("EMA value must be finite"))
    else ValidatePeriod(ema.period)
  }

  function ValidateSma(sma: SmaIndicator): (r: Check)
    ensures r.Ok? <==> sma.value.Finite? && 1 <= sma.period <= 1000
    ensures !sma.value.Finite? ==> r == Err(ValidationError("SMA value must be finite"))
  {
    if !IsFinite(sma.value) then Err(ValidationError("SMA value must be finite"))
    else ValidatePeriod(sma.period)
  }

  function ValidateVolumeIndicator(volume: VolumeIndicator): (r: Check)
    ensures r.Ok? <==>
      && ValidateVolume(volume.volume).Ok?
      && (volume.volumeMa.Some? ==> ValidateVolume(volume.volumeMa.value).Ok?)
      && (volume.volumeMaPeriod.Some? ==> 1 <= volume.volumeMaPeriod.value <= 1000)
    ensures ValidateVolume(volume.volume).Err? ==> r == ValidateVolume(volume.volume)
  {
    AndThen(ValidateVolume(volume.volume),
      AndThen(if volume.volumeMa.Some? then ValidateVolume(volume.volumeMa.value) else Ok(()),
        if volume.volumeMaPeriod.Some? then ValidatePeriod(volume.volumeMaPeriod.value) else Ok(())))
  }

  /** The EMAs in order; the first that fails decides the error. */
  function ValidateEmas(emas: seq<EmaIndicator>): (r: Check)
    ensures r.Ok? <==> forall i :: 0 <= i < |emas| ==> ValidateEma(emas[i]).Ok?
    ensures r.Err? ==>
      exists i :: 0 <= i < |emas| && r == ValidateEma(emas[i]) && (forall j :: 0 <= j < i ==> ValidateEma(emas[j]).Ok?)
  {
    if |emas| == 0 then Ok(())
    else
      var rest := ValidateEmas(emas[1..]);
      assert forall i :: 1 <= i < |emas| ==> emas[i] == emas[1..][i - 1];
      AndThen(ValidateEma(emas[0]), rest)
  }

  /** The SMAs in order; the first that fails decides the error. */
  function ValidateSmas(smas: seq<SmaIndicator>): (r: Check)
    ensures r.Ok? <==> forall i :: 0 <= i < |smas| ==> ValidateSma(smas[i]).Ok?
    ensures r.Err? ==>
      exists i :: 0 <= i < |smas| && r == ValidateSma(smas[i]) && (forall j :: 0 <= j < i ==> ValidateSma(smas[j]).Ok?)
  {
    if |smas| == 0 then Ok(())
    else
      var rest := ValidateSmas(smas[1..]);
      assert forall i :: 1 <= i < |smas| ==> smas[i] == smas[1..][i - 1];
      AndThen(ValidateSma(smas[0]), rest)
  }

  /** Every component that is present passes its own validator. */
  predicate ComponentsValid(ind: IndicatorSet)
  {
    && (ind.fundingRate.Some? ==> ValidateFundingRate(ind.fundingRate.value).Ok?)
    && (ind.macd.Some? ==> ValidateMacd(ind.macd.value).Ok?)
    && (ind.rsi.Some? ==> ValidateRsiIndicator(ind.rsi.value).Ok?)
    && (forall i :: 0 <= i < |ind.emas| ==> ValidateEma(ind.emas[i]).Ok?)
    && (forall i :: 0 <= i < |ind.smas| ==> ValidateSma(ind.smas[i]).Ok?)
    && (ind.volume.Some? ==> ValidateVolumeIndicator(ind.volume.value).Ok?)
  }

  /**
   * The symbol first, then the price, then funding rate, MACD, RSI, the
   * EMAs, the SMAs and the volume, each only when present. Open interest,
   * Bollinger bands, ATR and SuperTrend are not checked.
   */
  function ValidateIndicatorSet(ind: IndicatorSet): (r: Check)
    ensures r.Ok? <==> |ind.symbol| > 0 && ValidatePrice(ind.price).Ok? && ComponentsValid(ind)
    ensures |ind.symbol| == 0 ==> r == Err(ValidationError("Symbol cannot be empty"))
    ensures |ind.symbol| > 0 && ValidatePrice(ind.price).Err? ==> r == ValidatePrice(ind.price)
  {
    if |ind.symbol| == 0 then Err(ValidationError("Symbol cannot be empty"))
    else
      AndThen(ValidatePrice(ind.price),
        AndThen(if ind.fundingRate.Some? then ValidateFundingRate(ind.fundingRate.value) else Ok(()),
          AndThen(if ind.macd.Some? then ValidateMacd(ind.macd.value) else Ok(()),
            AndThen(if ind.rsi.Some? then ValidateRsiIndicator(ind.rsi.value) else Ok(()),
              AndThen(ValidateEmas(ind.emas),
                AndThen(ValidateSmas(ind.smas),
                  if ind.volume.Some? then ValidateVolumeIndicator(ind.volume.value) else Ok(())))))))
  }

  // Consequences.

  /** The finiteness branch of the RSI validator is unreachable: the range check already rejects every non-finite value. */
  lemma RsiErrorsAreRangeErrors(value: Float)
    ensures ValidateRsi(value).Err? ==> ValidateRsi(value).error.OutOfRange?
  {
  }

  /** The finiteness branch of the funding rate validator is unreachable for the same reason. */
  lemma FundingRateErrorsAreRangeErrors(rate: Float)
    ensures ValidateFundingRate(rate).Err? ==> ValidateFundingRate(rate).error.OutOfRange?
  {
  }

  /** Zero volume passes and any negative volume fails. */
  lemma VolumeBoundary(v: real)
    ensures ValidateVolume(Finite(0.0)).Ok?
    ensures v < 0.0 ==> ValidateVolume(Finite(v)).Err?
  {
  }

  /** The boundaries of the period range. */
  lemma PeriodBoundaries()
    ensures ValidatePeriod(0).Err? && ValidatePeriod(1).Ok?
    ensures ValidatePeriod(1000).Ok? && ValidatePeriod(1001).Err?
  {
  }

  /** A histogram that is exactly MACD minus signal is always consistent. */
  lemma ExactHistogramConsistent(macd: real, signal: real, period: Option<(U32, U32, U32)>)
    ensures ValidateMacd(MacdIndicator(Finite(macd), Finite(signal), Finite(macd - signal), period)).Ok?
      <==> (period.Some? ==> PeriodsUsable(period.value))
  {
  }

  /** A set with only a non-empty symbol and a positive finite price is valid. */
  lemma BareSetValid(symbol: string, price: real, now: Timestamp)
    requires |symbol| > 0 && price > 0.0
    ensures ValidateIndicatorSet(NewIndicatorSet(symbol, Finite(price), now)).Ok?
  {
  }

  /** Adding a component that fails its validator makes a valid set invalid. */
  lemma InvalidComponentSpoilsSet(ind: IndicatorSet, rsi: RsiIndicator)
    requires ValidateRsiIndicator(rsi).Err?
    ensures ValidateIndicatorSet(ind.WithRsi(rsi)).Err?
  {
  }
}
