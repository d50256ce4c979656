/** The streaming EMA, the EMA crossover tracker and the batch EMA helpers (src/indicators/trend/ema.rs). */
module EmaTracker {
  import opened Wrappers
  import opened CommonMath
  import opened Models

  /** What an EMA tracker remembers: its period and the last value, if any. */
  datatype EmaState = EmaState(period: nat, current: Option<real>)

  function EmaInit(period: nat): EmaState
  {
    EmaState(period, None)
  }

  /**
   * One update of a streaming EMA: the first price seeds it, every later
   * price moves it by the multiplier towards the price.
   */
  function EmaStep(s: EmaState, price: real): (r: (EmaState, real))
    ensures r.0 == s.(current := Some(r.1))
    ensures s.current.None? ==> r.1 == price
  {
    match s.current
    case None => (s.(current := Some(price)), price)
    case Some(prev) =>
      var m := Multiplier(s.period);
      var e := price * m + prev * (1.0 - m);
      (s.(current := Some(e)), e)
  }

  /** After the first price, a streaming update is one step of the shared EMA recurrence. */
  lemma StreamingStepIsEmaFromPrevious(s: EmaState, price: real)
    requires s.current.Some?
    ensures EmaStep(s, price).1 == EmaFromPrevious(price, s.current.value, s.period)
  {
    var m := Multiplier(s.period);
    var prev := s.current.value;
    assert price * m + prev * (1.0 - m) == (price - prev) * m + prev;
  }

  /** A tracker fed `prices` in order. */
  function EmaFeed(s: EmaState, prices: seq<real>): (r: EmaState)
    ensures r.period == s.period
  {
    if |prices| == 0 then s else EmaStep(EmaFeed(s, prices[..|prices| - 1]), prices[|prices| - 1]).0
  }

  /**
   * The streaming tracker follows the same recurrence as the batch `ema`,
   * but is seeded with the first price instead of an SMA.
   */
  lemma {:induction false} EmaFeedIsFoldFromFirstPrice(period: nat, prices: seq<real>)
    requires |prices| > 0
    ensures EmaFeed(EmaInit(period), prices).current == Some(EmaFold(prices[0], prices[1..], period))
  {
    if |prices| > 1 {
      var init := prices[..|prices| - 1];
      EmaFeedIsFoldFromFirstPrice(period, init);
      var before := EmaFeed(EmaInit(period), init);
      var last := prices[|prices| - 1];
      StreamingStepIsEmaFromPrevious(before, last);
      assert init[0] == prices[0];
      assert prices[1..][..|prices[1..]| - 1] == init[1..];
      assert EmaFold(prices[0], prices[1..], period) == EmaFromPrevious(last, EmaFold(prices[0], init[1..], period), period);
    } else {
      assert EmaFeed(EmaInit(period), prices[..0]) == EmaInit(period);
    }
  }

  /** A tracker fed prices from [lo, hi] never leaves [lo, hi]. */
  lemma {:induction false} EmaFeedWithinBounds(period: nat, prices: seq<real>, lo: real, hi: real)
    requires period >= 1 && |prices| > 0
    requires forall i :: 0 <= i < |prices| ==> lo <= prices[i] <= hi
    ensures EmaFeed(EmaInit(period), prices).current.Some?
    ensures lo <= EmaFeed(EmaInit(period), prices).current.value <= hi
  {
    if |prices| > 1 {
      EmaFeedWithinBounds(period, prices[..|prices| - 1], lo, hi);
      var before := EmaFeed(EmaInit(period), prices[..|prices| - 1]);
      StreamingStepIsEmaFromPrevious(before, prices[|prices| - 1]);
      EmaFromPreviousBetween(prices[|prices| - 1], before.current.value, period);
    } else {
      assert EmaFeed(EmaInit(period), prices[..0]) == EmaInit(period);
    }
  }

  /** The stateful EMA calculator. */
  class Ema {
    const period: nat
    const multiplier: real
    var currentEma: Option<real>

    ghost predicate Valid()
      reads this
    {
      multiplier == Multiplier(period)
    }

    function State(): EmaState
      reads this
    {
      EmaState(period, currentEma)
    }

    constructor (period: nat)
      ensures Valid() && State() == EmaInit(period)
    {
      this.period := period;
      multiplier := 2.0 / (period as real + 1.0);
      currentEma := None;
    }

    method Update(price: real) returns (ema: real)
      requires Valid()
      modifies this
      ensures Valid() && (State(), ema) == EmaStep(old(State()), price)
      ensures Get() == Some(ema)
    {
      ghost var s := State();
      match currentEma {
        case None =>
          currentEma := Some(price);
          ema := price;
        case Some(prev) =>
          ema := price * multiplier + prev * (1.0 - multiplier);
          assert ema == EmaStep(s, price).1;
          currentEma := Some(ema);
          assert State() == EmaStep(s, price).0;
      }
    }

    /** The last computed value; None exactly while no price has been seen. */
    function Get(): (r: Option<real>)
      reads this
      ensures r.None? <==> State() == EmaInit(period)
    {
      currentEma
    }

    function Period(): nat
    {
      period
    }
  }

  datatype EmaTrendSignal = BullishCross | BearishCross | StrongUptrend | StrongDowntrend | Neutral

  /**
   * Classification of one crossover update. With no previous pair the
   * signal is Neutral; a cross needs the order of the two EMAs to change
   * (or to leave equality); a strong trend needs the price, fast and slow
   * EMA stacked in order with the fast EMA moving that way.
   */
  function TrendSignalOf(prevFast: Option<real>, prevSlow: Option<real>, fast: real, slow: real, price: real): (r: EmaTrendSignal)
    ensures prevFast.None? || prevSlow.None? ==> r == Neutral
    ensures r == BullishCross <==>
      prevFast.Some? && prevSlow.Some? && prevFast.value <= prevSlow.value && fast > slow
    ensures r == BearishCross <==>
      prevFast.Some? && prevSlow.Some? && prevFast.value >= prevSlow.value && fast < slow
    ensures r == StrongUptrend <==>
      prevFast.Some? && prevSlow.Some? && prevFast.value > prevSlow.value
      && price > fast > slow && fast > prevFast.value
    ensures r == StrongDowntrend <==>
      prevFast.Some? && prevSlow.Some? && prevFast.value < prevSlow.value
      && price < fast < slow && fast < prevFast.value
  {
    if prevFast.Some? && prevSlow.Some? then
      var pf, ps := prevFast.value, prevSlow.value;
      if pf <= ps && fast > slow then BullishCross
      else if pf >= ps && fast < slow then BearishCross
      else if price > fast && fast > slow && fast - pf > 0.0 then StrongUptrend
      else if price < fast && fast < slow && fast - pf < 0.0 then StrongDowntrend
      else Neutral
    else Neutral
  }

  /** What a crossover tracker remembers. */
  datatype CrossoverState = CrossoverState(fast: EmaState, slow: EmaState, prevFast: Option<real>, prevSlow: Option<real>)

  function CrossoverInit(fastPeriod: nat, slowPeriod: nat): CrossoverState
  {
    CrossoverState(EmaInit(fastPeriod), EmaInit(slowPeriod), None, None)
  }

  /** One crossover update: advance both EMAs, classify, remember the new pair. */
  function CrossoverStep(s: CrossoverState, price: real): (r: (CrossoverState, EmaTrendSignal))
    ensures r.0.prevFast == r.0.fast.current && r.0.prevSlow == r.0.slow.current
    ensures r.0.fast.period == s.fast.period && r.0.slow.period == s.slow.period
    ensures s.prevFast.None? ==> r.1 == Neutral
  {
    var (fastState, fast) := EmaStep(s.fast, price);
    var (slowState, slow) := EmaStep(s.slow, price);
    var signal := TrendSignalOf(s.prevFast, s.prevSlow, fast, slow, price);
    (CrossoverState(fastState, slowState, Some(fast), Some(slow)), signal)
  }

  /** A cross is never reported on two consecutive updates in the same direction. */
  lemma CrossNeverRepeats(s: CrossoverState, p1: real, p2: real)
    ensures CrossoverStep(s, p1).1 == BullishCross ==> CrossoverStep(CrossoverStep(s, p1).0, p2).1 != BullishCross
    ensures CrossoverStep(s, p1).1 == BearishCross ==> CrossoverStep(CrossoverStep(s, p1).0, p2).1 != BearishCross
  {
  }

  /**
   * The state of a 3/6 crossover once both EMAs hold a value; the remembered
   * pair is the pair the EMAs hold, as after every update.
   */
  function CrossTestPair(fast: real, slow: real): CrossoverState
  {
    CrossoverState(EmaState(3, Some(fast)), EmaState(6, Some(slow)), Some(fast), Some(slow))
  }

  lemma CrossTestStep1()
    ensures CrossoverStep(CrossoverInit(3, 6), 100.0) == (CrossTestPair(100.0, 100.0), Neutral)
  {
  }

  lemma CrossTestStep2()
    ensures CrossoverStep(CrossTestPair(100.0, 100.0), 101.0) == (CrossTestPair(201.0 / 2.0, 702.0 / 7.0), BullishCross)
  {
  }

  lemma CrossTestStep3()
    ensures CrossoverStep(CrossTestPair(201.0 / 2.0, 702.0 / 7.0), 102.0) == (CrossTestPair(405.0 / 4.0, 4938.0 / 49.0), StrongUptrend)
  {
  }

  lemma CrossTestStep4()
    ensures CrossoverStep(CrossTestPair(405.0 / 4.0, 4938.0 / 49.0), 103.0) == (CrossTestPair(817.0 / 8.0, 34784.0 / 343.0), StrongUptrend)
  {
  }

  lemma CrossTestStep5()
    ensures CrossoverStep(CrossTestPair(817.0 / 8.0, 34784.0 / 343.0), 104.0) == (CrossTestPair(1649.0 / 16.0, 245264.0 / 2401.0), StrongUptrend)
  {
  }

  lemma CrossTestStep6()
    ensures CrossoverStep(CrossTestPair(1649.0 / 16.0, 245264.0 / 2401.0), 105.0) == (CrossTestPair(3329.0 / 32.0, 1730530.0 / 16807.0), StrongUptrend)
  {
  }

  lemma CrossTestStep7()
    ensures CrossoverStep(CrossTestPair(3329.0 / 32.0, 1730530.0 / 16807.0), 105.0) == (CrossTestPair(6689.0 / 64.0, 12182120.0 / 117649.0), StrongUptrend)
  {
  }

  lemma CrossTestStep8()
    ensures CrossoverStep(CrossTestPair(6689.0 / 64.0, 12182120.0 / 117649.0), 104.0) == (CrossTestPair(13345.0 / 128.0, 85381592.0 / 823543.0), Neutral)
  {
  }

  lemma CrossTestStep9()
    ensures CrossoverStep(CrossTestPair(13345.0 / 128.0, 85381592.0 / 823543.0), 103.0) == (CrossTestPair(26529.0 / 256.0, 596557818.0 / 5764801.0), Neutral)
  {
  }

  lemma CrossTestStep10()
    ensures CrossoverStep(CrossTestPair(26529.0 / 256.0, 596557818.0 / 5764801.0), 102.0) == (CrossTestPair(52641.0 / 512.0, 4158808494.0 / 40353607.0), BearishCross)
  {
  }

  lemma CrossTestStep11()
    ensures CrossoverStep(CrossTestPair(52641.0 / 512.0, 4158808494.0 / 40353607.0), 101.0) == (CrossTestPair(104353.0 / 1024.0, 28945471084.0 / 282475249.0), StrongDowntrend)
  {
  }

  lemma CrossTestStep12()
    ensures CrossoverStep(CrossTestPair(104353.0 / 1024.0, 28945471084.0 / 282475249.0), 100.0) == (CrossTestPair(206753.0 / 2048.0, 201222405220.0 / 1977326743.0), StrongDowntrend)
  {
  }

  /**
   * Closes rising from 100 to 105 and then falling back to 100, fed to a
   * crossover of a 3- and a 6-period EMA: the rise gives a bullish cross
   * (on the second update) and the fall a bearish cross (on the fourth
   * falling close), and no update reports any other cross.
   */
  lemma RisingThenFallingCrosses()
    ensures var r1 := CrossoverStep(CrossoverInit(3, 6), 100.0);
      var r2 := CrossoverStep(r1.0, 101.0);
      var r3 := CrossoverStep(r2.0, 102.0);
      var r4 := CrossoverStep(r3.0, 103.0);
      var r5 := CrossoverStep(r4.0, 104.0);
      var r6 := CrossoverStep(r5.0, 105.0);
      var r7 := CrossoverStep(r6.0, 105.0);
      var r8 := CrossoverStep(r7.0, 104.0);
      var r9 := CrossoverStep(r8.0, 103.0);
      var r10 := CrossoverStep(r9.0, 102.0);
      var r11 := CrossoverStep(r10.0, 101.0);
      var r12 := CrossoverStep(r11.0, 100.0);
      [r1.1, r2.1, r3.1, r4.1, r5.1, r6.1, r7.1, r8.1, r9.1, r10.1, r11.1, r12.1]
        == [Neutral, BullishCross, StrongUptrend, StrongUptrend, StrongUptrend, StrongUptrend, StrongUptrend, Neutral, Neutral, BearishCross, StrongDowntrend, StrongDowntrend]
  {
    CrossTestStep1();
    CrossTestStep2();
    CrossTestStep3();
    CrossTestStep4();
    CrossTestStep5();
    CrossTestStep6();
    CrossTestStep7();
    CrossTestStep8();
    CrossTestStep9();
    CrossTestStep10();
    CrossTestStep11();
    CrossTestStep12();
  }

  /** Tracks a fast and a slow EMA and classifies their crossings. */
  class EmaCrossover {
    const emaFast: Ema
    const emaSlow: Ema
    var prevFast: Option<real>
    var prevSlow: Option<real>

    ghost predicate Valid()
      reads this, emaFast, emaSlow
    {
      && emaFast != emaSlow && emaFast.Valid() && emaSlow.Valid()
      && prevFast == emaFast.currentEma && prevSlow == emaSlow.currentEma
    }

    function State(): CrossoverState
      reads this, emaFast, emaSlow
    {
      CrossoverState(emaFast.State(), emaSlow.State(), prevFast, prevSlow)
    }

    constructor (fastPeriod: nat, slowPeriod: nat)
      ensures Valid() && fresh(emaFast) && fresh(emaSlow)
      ensures State() == CrossoverInit(fastPeriod, slowPeriod)
    {
      emaFast := new Ema(fastPeriod);
      emaSlow := new Ema(slowPeriod);
      prevFast := None;
      prevSlow := None;
    }

    method Update(price: real) returns (signal: EmaTrendSignal)
      requires Valid()
      modifies this, emaFast, emaSlow
      ensures Valid() && (State(), signal) == CrossoverStep(old(State()), price)
    {
      var fast := emaFast.Update(price);
      var slow := emaSlow.Update(price);
      if prevFast.Some? && prevSlow.Some? {
        var pf, ps := prevFast.value, prevSlow.value;
        if pf <= ps && fast > slow {
          signal := BullishCross;
        } else if pf >= ps && fast < slow {
          signal := BearishCross;
        } else if price > fast && fast > slow && fast - pf > 0.0 {
          signal := StrongUptrend;
        } else if price < fast && fast < slow && fast - pf < 0.0 {
          signal := StrongDowntrend;
        } else {
          signal := Neutral;
        }
      } else {
        signal := Neutral;
      }
      prevFast := Some(fast);
      prevSlow := Some(slow);
    }

    /** The fast EMA computed by the last update; None before the first. */
    function Fast(): (r: Option<real>)
      reads this, emaFast, emaSlow
      ensures Valid() ==> r == emaFast.Get() && (r.None? <==> emaFast.State() == EmaInit(emaFast.period))
    {
      prevFast
    }

    /** The slow EMA computed by the last update; None before the first. */
    function Slow(): (r: Option<real>)
      reads this, emaFast, emaSlow
      ensures Valid() ==> r == emaSlow.Get() && (r.None? <==> emaSlow.State() == EmaInit(emaSlow.period))
    {
      prevSlow
    }
  }

  /**
   * The batch EMA of the closes tagged with its period; None when there are
   * fewer candles than the period or the period is zero.
   */
  function CalculateEma(candles: seq<Candle>, period: U32): (r: Option<EmaIndicator>)
    ensures r.None? <==> period == 0 || |candles| < period
    ensures r.Some? ==> r.value.period == period && Some(r.value.value) == FiniteOf(EmaOf(Closes(candles), period))
  {
    if |candles| < period then None
    else
      match EmaOf(Closes(candles), period)
      case None => None
      case Some(v) => Some(EmaIndicator(Finite(v), period))
  }

  /** The EMAs of every period for which one exists, in the order of `periods`. */
  function CalculateEmas(candles: seq<Candle>, periods: seq<U32>): (r: seq<EmaIndicator>)
    ensures |r| <= |periods|
    ensures forall e :: e in r ==> e.period in periods && CalculateEma(candles, e.period) == Some(e)
    ensures forall p :: p in periods && CalculateEma(candles, p).Some? ==> CalculateEma(candles, p).value in r
  {
    if |periods| == 0 then []
    else
      var rest := CalculateEmas(candles, periods[1..]);
      match CalculateEma(candles, periods[0])
      case None => rest
      case Some(e) => [e] + rest
  }

  /** A single period contributes its EMA when it has one, and nothing otherwise. */
  lemma CalculateEmasSingle(candles: seq<Candle>, p: U32)
    ensures CalculateEmas(candles, [p]) == (if CalculateEma(candles, p).Some? then [CalculateEma(candles, p).value] else [])
  {
    assert [p][1..] == [];
  }

  /**
   * The results for a concatenation of period lists are the results for each
   * part, in order: with `CalculateEmasSingle` this makes the list the EMAs of
   * the periods that have one, in the order of `periods` and repeated as often
   * as their period is.
   */
  lemma {:induction false} CalculateEmasAppend(candles: seq<Candle>, a: seq<U32>, b: seq<U32>)
    ensures CalculateEmas(candles, a + b) == CalculateEmas(candles, a) + CalculateEmas(candles, b)
  {
    if |a| > 0 {
      assert (a + b)[0] == a[0];
      assert (a + b)[1..] == a[1..] + b;
      CalculateEmasAppend(candles, a[1..], b);
    } else {
      assert a + b == b;
    }
  }

  /**
   * The sign of fast EMA minus slow EMA: 1 when the fast one is above, -1
   * when below, 0 when equal; None when either EMA is missing.
   */
  function CheckEmaCross(candles: seq<Candle>, fastPeriod: U32, slowPeriod: U32): (r: Option<int>)
    ensures r.None? <==> fastPeriod == 0 || slowPeriod == 0 || |candles| < fastPeriod || |candles| < slowPeriod
    ensures r.Some? ==>
      var fast := EmaOf(Closes(candles), fastPeriod).value;
      var slow := EmaOf(Closes(candles), slowPeriod).value;
      (r.value == 1 <==> fast > slow) && (r.value == -1 <==> fast < slow) && (r.value == 0 <==> fast == slow)
  {
    match CalculateEma(candles, fastPeriod)
    case None => None
    case Some(fastEma) =>
      match CalculateEma(candles, slowPeriod)
      case None => None
      case Some(slowEma) =>
        var fast, slow := fastEma.value.value, slowEma.value.value;
        if fast > slow then Some(1) else if fast < slow then Some(-1) else Some(0)
  }
}
