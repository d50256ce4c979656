/**
 * Building validated indicator records from numbers and from string maps
 * (src/indicators/parser.rs).
 *
 * Rust's `str::parse::<f64>` and `str::parse::<u32>` are library calls;
 * the model takes them as parameters: a total function from the text to
 * the parsed value, or None when the text does not parse.
 */
module Parser {
  import opened Wrappers
  import opened Models
  import opened Validation

  type FloatParser = string -> Option<Float>
  type U32Parser = string -> Option<U32>

  /** A string-keyed, string-valued map, as it arrives from outside. */
  type Fields = map<string, string>

  /** The text parsed as an f64; the error repeats the text. */
  function ParseF64(parse: FloatParser, text: string): (r: Result<Float, IndicatorError>)
    ensures r.Ok? <==> parse(text).Some?
    ensures r.Ok? ==> r.value == parse(text).value
    ensures r.Err? ==> r.error == InvalidNumericFormat(text)
  {
    match parse(text)
    case Some(v) => Ok(v)
    case None => Err(InvalidNumericFormat(text))
  }

  /** The text parsed as a u32; the error repeats the text. */
  function ParseU32(parse: U32Parser, text: string): (r: Result<U32, IndicatorError>)
    ensures r.Ok? <==> parse(text).Some?
    ensures r.Ok? ==> r.value == parse(text).value
    ensures r.Err? ==> r.error == InvalidNumericFormat(text)
  {
    match parse(text)
    case Some(v) => Ok(v)
    case None => Err(InvalidNumericFormat(text))
  }

  /** f64 subtraction: exact on finite values, with the IEEE rules for NaN and the infinities. */
  function Difference(a: Float, b: Float): (r: Float)
    ensures a.Finite? && b.Finite? ==> r == Finite(a.value - b.value)
    ensures a.NaN? || b.NaN? ==> r.NaN?
  {
    match (a, b)
    case (Finite(x), Finite(y)) => Finite(x - y)
    case (NaN, _) => NaN
    case (_, NaN) => NaN
    case (PosInf, PosInf) => NaN
    case (NegInf, NegInf) => NaN
    case (PosInf, _) => PosInf
    case (NegInf, _) => NegInf
    case (_, PosInf) => NegInf
    case (_, NegInf) => PosInf
  }

  /** A MACD record from its values; an omitted histogram is MACD minus signal. */
  function ParseMacd(macd: Float, signal: Float, histogram: Option<Float>, period: Option<(U32, U32, U32)>)
    : (r: Result<MacdIndicator, IndicatorError>)
    ensures var m := MacdIndicator(macd, signal, if histogram.Some? then histogram.value else Difference(macd, signal), period);
      && (r.Ok? <==> ValidateMacd(m).Ok?)
      && (r.Ok? ==> r.value == m)
      && (r.Err? ==> r.error == ValidateMacd(m).error)
  {
    var h := match histogram
      case Some(v) => v
      case None => Difference(macd, signal);
    var m := MacdIndicator(macd, signal, h, period);
    match ValidateMacd(m)
    case Err(e) => Err(e)
    case Ok(_) => Ok(m)
  }

  /** A looked-up field parsed as an f64: missing and malformed fields name the key. */
  function FloatField(data: Fields, key: string, parse: FloatParser): (r: Result<Float, IndicatorError>)
    ensures key !in data ==> r == Err(MissingField(key))
    ensures key in data && parse(data[key]).None? ==> r == Err(InvalidNumericFormat(key))
    ensures r.Ok? <==> key in data && parse(data[key]).Some?
    ensures r.Ok? ==> r.value == parse(data[key]).value
  {
    if key !in data then Err(MissingField(key))
    else match parse(data[key])
      case None => Err(InvalidNumericFormat(key))
      case Some(v) => Ok(v)
  }

  /** The three MACD period keys, when all are present. */
  predicate HasPeriodKeys(data: Fields)
  {
    "macd_fast_period" in data && "macd_slow_period" in data && "macd_signal_period" in data
  }

  /** The period triple: None unless all three keys are present; then each is parsed in turn. */
  function MacdPeriodFields(data: Fields, parseU: U32Parser): (r: Result<Option<(U32, U32, U32)>, IndicatorError>)
    ensures !HasPeriodKeys(data) ==> r == Ok(None)
    ensures HasPeriodKeys(data) ==>
      var fast := data["macd_fast_period"];
      var slow := data["macd_slow_period"];
      var signal := data["macd_signal_period"];
      && (r.Ok? <==> parseU(fast).Some? && parseU(slow).Some? && parseU(signal).Some?)
      && (r.Ok? ==> r.value == Some((parseU(fast).value, parseU(slow).value, parseU(signal).value)))
  {
    if !HasPeriodKeys(data) then Ok(None)
    else
      match ParseU32(parseU, data["macd_fast_period"])
      case Err(e) => Err(e)
      case Ok(fast) =>
        match ParseU32(parseU, data["macd_slow_period"])
        case Err(e) => Err(e)
        case Ok(slow) =>
          match ParseU32(parseU, data["macd_signal_period"])
          case Err(e) => Err(e)
          case Ok(signal) => Ok(Some((fast, slow, signal)))
  }

  /**
   * A MACD record from a map: "macd" and "signal" are required, "histogram"
   * is optional but must parse when present, and the periods are taken
   * only when all three period keys are present.
   */
  function ParseMacdFromMap(data: Fields, parseF: FloatParser, parseU: U32Parser): (r: Result<MacdIndicator, IndicatorError>)
    ensures "macd" !in data ==> r == Err(MissingField("macd"))
    ensures "macd" in data && "signal" !in data && parseF(data["macd"]).Some? ==> r == Err(MissingField("signal"))
    ensures "histogram" in data && parseF(data["histogram"]).None? ==> r.Err?
    ensures r.Ok? ==>
      && "macd" in data && "signal" in data
      && parseF(data["macd"]) == Some(r.value.macd)
      && parseF(data["signal"]) == Some(r.value.signal)
      && (HasPeriodKeys(data) <==> r.value.period.Some?)
      && ValidateMacd(r.value).Ok?
  {
    match FloatField(data, "macd", parseF)
    case Err(e) => Err(e)
    case Ok(macd) =>
      match FloatField(data, "signal", parseF)
      case Err(e) => Err(e)
      case Ok(signal) =>
        var histogram :=
          if "histogram" !in data then Ok(None)
          else match parseF(data["histogram"])
            case None => Err(InvalidNumericFormat("histogram"))
            case Some(h) => Ok(Some(h));
        match histogram
        case Err(e) => Err(e)
        case Ok(h) =>
          match MacdPeriodFields(data, parseU)
          case Err(e) => Err(e)
          case Ok(period) => ParseMacd(macd, signal, h, period)
  }

  /** An RSI record from its values, kept exactly when it validates. */
  function ParseRsi(value: Float, period: Option<U32>): (r: Result<RsiIndicator, IndicatorError>)
    ensures r.Ok? <==> ValidateRsiIndicator(RsiIndicator(value, period)).Ok?
    ensures r.Ok? ==> r.value == RsiIndicator(value, period)
    ensures r.Err? ==> r.error == ValidateRsiIndicator(RsiIndicator(value, period)).error
  {
    var rsi := RsiIndicator(value, period);
    match ValidateRsiIndicator(rsi)
    case Err(e) => Err(e)
    case Ok(_) => Ok(rsi)
  }

  /** An RSI record from a map: "rsi" is required, "rsi_period" optional but must parse when present. */
  function ParseRsiFromMap(data: Fields, parseF: FloatParser, parseU: U32Parser): (r: Result<RsiIndicator, IndicatorError>)
    ensures "rsi" !in data ==> r == Err(MissingField("rsi"))
    ensures "rsi" in data && parseF(data["rsi"]).None? ==> r == Err(InvalidNumericFormat("rsi"))
    ensures r.Ok? ==>
      && "rsi" in data && parseF(data["rsi"]) == Some(r.value.value)
      && ("rsi_period" in data <==> r.value.period.Some?)
      && ValidateRsiIndicator(r.value).Ok?
  {
    match FloatField(data, "rsi", parseF)
    case Err(e) => Err(e)
    case Ok(value) =>
      var period :=
        if "rsi_period" !in data then Ok(None)
        else match ParseU32(parseU, data["rsi_period"])
          case Err(e) => Err(e)
          case Ok(p) => Ok(Some(p));
      match period
      case Err(e) => Err(e)
      case Ok(p) => ParseRsi(value, p)
  }

  function ParseEma(value: Float, period: U32): (r: Result<EmaIndicator, IndicatorError>)
    ensures r.Ok? <==> value.Finite? && 1 <= period <= 1000
    ensures r.Ok? ==> r.value == EmaIndicator(value, period)
  {
    var ema := EmaIndicator(value, period);
    match ValidateEma(ema)
    case Err(e) => Err(e)
    case Ok(_) => Ok(ema)
  }

  function ParseSma(value: Float, period: U32): (r: Result<SmaIndicator, IndicatorError>)
    ensures r.Ok? <==> value.Finite? && 1 <= period <= 1000
    ensures r.Ok? ==> r.value == SmaIndicator(value, period)
  {
    var sma := SmaIndicator(value, period);
    match ValidateSma(sma)
    case Err(e) => Err(e)
    case Ok(_) => Ok(sma)
  }

  function ParseVolume(volume: Float, volumeMa: Option<Float>, volumeMaPeriod: Option<U32>)
    : (r: Result<VolumeIndicator, IndicatorError>)
    ensures r.Ok? <==>
      && volume.Finite? && volume.value >= 0.0
      && (volumeMa.Some? ==> volumeMa.value.Finite? && volumeMa.value.value >= 0.0)
      && (volumeMaPeriod.Some? ==> 1 <= volumeMaPeriod.value <= 1000)
    ensures r.Ok? ==> r.value == VolumeIndicator(volume, volumeMa, volumeMaPeriod)
  {
    var vol := VolumeIndicator(volume, volumeMa, volumeMaPeriod);
    match ValidateVolumeIndicator(vol)
    case Err(e) => Err(e)
    case Ok(_) => Ok(vol)
  }

  /** The optional funding rate: absent, or parsed and then range-checked. */
  function FundingField(data: Fields, parseF: FloatParser): (r: Result<Option<Float>, IndicatorError>)
    ensures "funding_rate" !in data ==> r == Ok(None)
    ensures "funding_rate" in data ==>
      && (r.Ok? <==> parseF(data["funding_rate"]).Some? && ValidateFundingRate(parseF(data["funding_rate"]).value).Ok?)
      && (r.Ok? ==> r.value == parseF(data["funding_rate"]))
  {
    if "funding_rate" !in data then Ok(None)
    else
      match ParseF64(parseF, data["funding_rate"])
      case Err(e) => Err(e)
      case Ok(rate) =>
        match ValidateFundingRate(rate)
        case Err(e) => Err(e)
        case Ok(_) => Ok(Some(rate))
  }

  /** The set before the final validation: the given parts, each sub-record only if it parsed. */
  function Assemble(symbol: string, price: Float, funding: Option<Float>, data: Fields,
                    parseF: FloatParser, parseU: U32Parser, now: Timestamp): (r: IndicatorSet)
    ensures r.symbol == symbol && r.price == price && r.fundingRate == funding && r.timestamp == now
    ensures r.macd.Some? <==> ParseMacdFromMap(data, parseF, parseU).Ok?
    ensures r.macd.Some? ==> r.macd.value == ParseMacdFromMap(data, parseF, parseU).value
    ensures r.rsi.Some? <==> ParseRsiFromMap(data, parseF, parseU).Ok?
    ensures r.rsi.Some? ==> r.rsi.value == ParseRsiFromMap(data, parseF, parseU).value
    ensures r.timeframe == (if "timeframe" in data then Some(data["timeframe"]) else None)
    ensures r.openInterest.None? && r.emas == [] && r.smas == [] && r.volume.None?
  {
    var s0 := NewIndicatorSet(symbol, price, now);
    var s1 := if funding.Some? then s0.WithFundingRate(funding.value) else s0;
    var macd := ParseMacdFromMap(data, parseF, parseU);
    var s2 := if macd.Ok? then s1.WithMacd(macd.value) else s1;
    var rsi := ParseRsiFromMap(data, parseF, parseU);
    var s3 := if rsi.Ok? then s2.WithRsi(rsi.value) else s2;
    if "timeframe" in data then s3.WithTimeframe(data["timeframe"]) else s3
  }

  /**
   * A whole indicator set from a map: "symbol" and "price" are required and
   * the price must be positive and finite; a funding rate, when present,
   * must parse and lie in [-1, 1]; MACD and RSI are added when their own
   * parsers succeed and silently left out otherwise; the timeframe is
   * copied; then the whole set is validated. The clock reading `now`
   * stamps the set.
   */
  function ParseIndicatorSetFromMap(data: Fields, parseF: FloatParser, parseU: U32Parser, now: Timestamp)
    : (r: Result<IndicatorSet, IndicatorError>)
    ensures "symbol" !in data ==> r == Err(MissingField("symbol"))
    ensures "symbol" in data && "price" !in data ==> r == Err(MissingField("price"))
    ensures r.Ok? ==>
      && "symbol" in data && "price" in data
      && r.value.symbol == data["symbol"]
      && parseF(data["price"]) == Some(r.value.price)
      && r.value.timestamp == now
  {
    if "symbol" !in data then Err(MissingField("symbol"))
    else
      var symbol := data["symbol"];
      match FloatField(data, "price", parseF)
      case Err(e) => Err(e)
      case Ok(price) =>
        match ValidatePrice(price)
        case Err(e) => Err(e)
        case Ok(_) =>
          match FundingField(data, parseF)
          case Err(e) => Err(e)
          case Ok(funding) =>
            var s := Assemble(symbol, price, funding, data, parseF, parseU, now);
            match ValidateIndicatorSet(s)
            case Err(e) => Err(e)
            case Ok(_) => Ok(s)
  }

  // Consequences.

  /** Leaving the histogram out never trips the consistency check: only finiteness and the periods matter. */
  lemma OmittedHistogramIsConsistent(macd: Float, signal: Float, period: Option<(U32, U32, U32)>)
    ensures ParseMacd(macd, signal, None, period).Ok? <==>
      macd.Finite? && signal.Finite? && (period.Some? ==> PeriodsUsable(period.value))
  {
  }

  /**
   * A map parses exactly when it has a non-empty symbol, a price that
   * parses to a positive finite number, and a funding rate that is absent
   * or parses into [-1, 1]; the MACD and RSI keys never make it fail.
   */
  lemma {:induction false} SetParsesExactly(data: Fields, parseF: FloatParser, parseU: U32Parser, now: Timestamp)
    ensures ParseIndicatorSetFromMap(data, parseF, parseU, now).Ok? <==>
      && "symbol" in data && |data["symbol"]| > 0
      && "price" in data && parseF(data["price"]).Some?
      && ValidatePrice(parseF(data["price"]).value).Ok?
      && ("funding_rate" in data ==>
            parseF(data["funding_rate"]).Some? && ValidateFundingRate(parseF(data["funding_rate"]).value).Ok?)
  {
    if "symbol" in data && "price" in data && parseF(data["price"]).Some? {
      var price := parseF(data["price"]).value;
      var funding := FundingField(data, parseF);
      if ValidatePrice(price).Ok? && funding.Ok? {
        var s := Assemble(data["symbol"], price, funding.value, data, parseF, parseU, now);
        assert ComponentsValid(s);
      }
    }
  }

  /** In a parsed set the MACD and RSI are present exactly when their own parsers succeed on the same map. */
  lemma SubRecordsOptional(data: Fields, parseF: FloatParser, parseU: U32Parser, now: Timestamp)
    requires ParseIndicatorSetFromMap(data, parseF, parseU, now).Ok?
    ensures var s := ParseIndicatorSetFromMap(data, parseF, parseU, now).value;
      && (s.macd.Some? <==> ParseMacdFromMap(data, parseF, parseU).Ok?)
      && (s.macd.Some? ==> s.macd.value == ParseMacdFromMap(data, parseF, parseU).value)
      && (s.rsi.Some? <==> ParseRsiFromMap(data, parseF, parseU).Ok?)
      && (s.rsi.Some? ==> s.rsi.value == ParseRsiFromMap(data, parseF, parseU).value)
      && s.fundingRate == (if "funding_rate" in data then parseF(data["funding_rate"]) else None)
  {
  }

  /** An RSI outside [0, 100] in the map is an error. */
  lemma RsiOutOfRangeRejected(data: Fields, parseF: FloatParser, parseU: U32Parser)
    requires "rsi" in data && parseF(data["rsi"]).Some?
    requires var v := parseF(data["rsi"]).value; !(v.Finite? && 0.0 <= v.value <= 100.0)
    ensures ParseRsiFromMap(data, parseF, parseU).Err?
  {
  }
}
