/** The streaming MACD tracker and the batch MACD helper (src/indicators/momentum/macd.rs). */
module MacdTracker {
  import opened Wrappers
  import opened CommonMath
  import opened Models
  import EmaTracker

  datatype MacdSignal = BullishCross | BearishCross | BullishMomentum | BearishMomentum | Neutral

  /** The three EMAs and the MACD and signal values of the last update. */
  datatype MacdState = MacdState(
    fast: EmaTracker.EmaState,
    slow: EmaTracker.EmaState,
    signalLine: EmaTracker.EmaState,
    prevMacd: Option<real>,
    prevSignal: Option<real>)

  /**
   * The remembered pair always comes from the EMAs themselves: the MACD is
   * fast minus slow, and the signal is the signal line's current value.
   */
  predicate MacdValid(s: MacdState)
  {
    && (s.fast.current.Some? <==> s.prevMacd.Some?)
    && (s.slow.current.Some? <==> s.prevMacd.Some?)
    && s.prevSignal == s.signalLine.current
    && (s.prevMacd.Some? <==> s.prevSignal.Some?)
    && (s.prevMacd.Some? ==> s.prevMacd.value == s.fast.current.value - s.slow.current.value)
  }

  function MacdInit(fastPeriod: nat, slowPeriod: nat, signalPeriod: nat): (s: MacdState)
    ensures MacdValid(s)
  {
    MacdState(EmaTracker.EmaInit(fastPeriod), EmaTracker.EmaInit(slowPeriod), EmaTracker.EmaInit(signalPeriod), None, None)
  }

  /**
   * The classification of an update: a cross of the MACD over its signal
   * line wins, then momentum of a positive rising or negative falling MACD,
   * else neutral; always neutral on the first update.
   */
  function MacdSignalOf(prevMacd: Option<real>, prevSignal: Option<real>, macd: real, signal: real): (r: MacdSignal)
    ensures prevMacd.None? || prevSignal.None? ==> r == Neutral
    ensures r == BullishCross <==> prevMacd.Some? && prevSignal.Some? && prevMacd.value <= prevSignal.value && macd > signal
    ensures r == BearishCross <==>
      && prevMacd.Some? && prevSignal.Some? && prevMacd.value >= prevSignal.value && macd < signal
      && !(prevMacd.value <= prevSignal.value && macd > signal)
    ensures r == BullishMomentum <==>
      && prevMacd.Some? && prevSignal.Some?
      && !(prevMacd.value <= prevSignal.value && macd > signal)
      && !(prevMacd.value >= prevSignal.value && macd < signal)
      && macd > 0.0 && macd > prevMacd.value
    ensures r == BearishMomentum <==>
      && prevMacd.Some? && prevSignal.Some?
      && !(prevMacd.value <= prevSignal.value && macd > signal)
      && !(prevMacd.value >= prevSignal.value && macd < signal)
      && !(macd > 0.0 && macd > prevMacd.value)
      && macd < 0.0 && macd < prevMacd.value
  {
    match (prevMacd, prevSignal)
    case (Some(pm), Some(ps)) =>
      if pm <= ps && macd > signal then BullishCross
      else if pm >= ps && macd < signal then BearishCross
      else if macd > 0.0 && macd > pm then BullishMomentum
      else if macd < 0.0 && macd < pm then BearishMomentum
      else Neutral
    case _ => Neutral
  }

  /** A bullish cross needs the MACD above its signal, a bearish one below it. */
  lemma CrossSides(prevMacd: Option<real>, prevSignal: Option<real>, macd: real, signal: real)
    ensures MacdSignalOf(prevMacd, prevSignal, macd, signal) == BullishCross ==> macd > signal
    ensures MacdSignalOf(prevMacd, prevSignal, macd, signal) == BearishCross ==> macd < signal
    ensures macd == signal ==> MacdSignalOf(prevMacd, prevSignal, macd, signal) !in {BullishCross, BearishCross}
  {
  }

  /** What one update returns: MACD, signal, histogram and classification. */
  datatype MacdOutput = MacdOutput(macd: real, signal: real, histogram: real, kind: MacdSignal)

  /**
   * One update: both price EMAs advance on the close, the signal EMA on
   * their difference; the histogram is what separates the MACD from its
   * signal.
   */
  function MacdStep(s: MacdState, close: real): (r: (MacdState, MacdOutput))
    requires MacdValid(s)
    ensures MacdValid(r.0) && r.0.prevMacd == Some(r.1.macd) && r.0.prevSignal == Some(r.1.signal)
    ensures r.0.fast.period == s.fast.period && r.0.slow.period == s.slow.period
    ensures r.0.signalLine.period == s.signalLine.period
    ensures r.1.macd == r.0.fast.current.value - r.0.slow.current.value
    ensures r.1.signal == r.0.signalLine.current.value
    ensures r.1.histogram == r.1.macd - r.1.signal
    ensures r.1.kind == MacdSignalOf(s.prevMacd, s.prevSignal, r.1.macd, r.1.signal)
  {
    var (fastState, fast) := EmaTracker.EmaStep(s.fast, close);
    var (slowState, slow) := EmaTracker.EmaStep(s.slow, close);
    var macd := fast - slow;
    var (signalState, signal) := EmaTracker.EmaStep(s.signalLine, macd);
    var kind := MacdSignalOf(s.prevMacd, s.prevSignal, macd, signal);
    (MacdState(fastState, slowState, signalState, Some(macd), Some(signal)), MacdOutput(macd, signal, macd - signal, kind))
  }

  /** The first update is neutral and, both EMAs being seeded with the same close, all zero. */
  lemma FirstUpdateIsZero(fastPeriod: nat, slowPeriod: nat, signalPeriod: nat, close: real)
    ensures MacdStep(MacdInit(fastPeriod, slowPeriod, signalPeriod), close).1 == MacdOutput(0.0, 0.0, 0.0, Neutral)
  {
  }

  /** Once a cross is reported the MACD is on the new side, so the same cross cannot be reported next. */
  lemma MacdCrossNeverRepeats(s: MacdState, c1: real, c2: real)
    requires MacdValid(s)
    ensures MacdStep(s, c1).1.kind == BullishCross ==> MacdStep(MacdStep(s, c1).0, c2).1.kind != BullishCross
    ensures MacdStep(s, c1).1.kind == BearishCross ==> MacdStep(MacdStep(s, c1).0, c2).1.kind != BearishCross
  {
  }

  /** The MACD, signal and histogram remembered from the last update. */
  function LastTriple(s: MacdState): (r: (real, real, real))
    requires MacdValid(s) && s.prevMacd.Some?
    ensures r.2 == r.0 - r.1
    ensures s.prevMacd == Some(r.0) && s.prevSignal == Some(r.1)
  {
    (s.prevMacd.value, s.prevSignal.value, s.prevMacd.value - s.prevSignal.value)
  }

  function Triple(out: MacdOutput): (real, real, real)
  {
    (out.macd, out.signal, out.histogram)
  }

  /** A tracker fed `closes` in order. */
  function MacdFeed(s: MacdState, closes: seq<real>): (r: MacdState)
    requires MacdValid(s)
    ensures MacdValid(r)
  {
    if |closes| == 0 then s else MacdStep(MacdFeed(s, closes[..|closes| - 1]), closes[|closes| - 1]).0
  }

  lemma MacdFeedSnoc(s: MacdState, closes: seq<real>, close: real)
    requires MacdValid(s)
    ensures MacdFeed(s, closes + [close]) == MacdStep(MacdFeed(s, closes), close).0
  {
    assert (closes + [close])[..|closes|] == closes;
  }

  /** The two price EMAs inside a MACD are exactly the streaming EMAs of the same closes. */
  lemma {:induction false} MacdFeedPriceEmas(fastPeriod: nat, slowPeriod: nat, signalPeriod: nat, closes: seq<real>)
    ensures var r := MacdFeed(MacdInit(fastPeriod, slowPeriod, signalPeriod), closes);
      r.fast == EmaTracker.EmaFeed(EmaTracker.EmaInit(fastPeriod), closes) && r.slow == EmaTracker.EmaFeed(EmaTracker.EmaInit(slowPeriod), closes)
  {
    if |closes| > 0 {
      MacdFeedPriceEmas(fastPeriod, slowPeriod, signalPeriod, closes[..|closes| - 1]);
    }
  }

  /** While the closes stay within [lo, hi], the MACD line stays within hi - lo of zero. */
  lemma MacdLineBounded(fastPeriod: nat, slowPeriod: nat, signalPeriod: nat, closes: seq<real>, lo: real, hi: real)
    requires fastPeriod >= 1 && slowPeriod >= 1 && |closes| > 0
    requires forall i :: 0 <= i < |closes| ==> lo <= closes[i] <= hi
    ensures var r := MacdFeed(MacdInit(fastPeriod, slowPeriod, signalPeriod), closes);
      r.prevMacd.Some? && lo - hi <= r.prevMacd.value <= hi - lo
  {
    MacdFeedPriceEmas(fastPeriod, slowPeriod, signalPeriod, closes);
    EmaTracker.EmaFeedWithinBounds(fastPeriod, closes, lo, hi);
    EmaTracker.EmaFeedWithinBounds(slowPeriod, closes, lo, hi);
  }

  // The 3/6/3 tracker fed 100, 101, 102, 103, 104, then 104, 103: the states
  // after each update, with the classification each update reports.

  function Ema3(current: real): EmaTracker.EmaState { EmaTracker.EmaState(3, Some(current)) }

  function Ema6(current: real): EmaTracker.EmaState { EmaTracker.EmaState(6, Some(current)) }

  function Tracked(fast: real, slow: real, macd: real, signal: real): MacdState
  {
    MacdState(Ema3(fast), Ema6(slow), Ema3(signal), Some(macd), Some(signal))
  }

  lemma CrossTestStep1()
    ensures MacdStep(MacdInit(3, 6, 3), 100.0) == (Tracked(100.0, 100.0, 0.0, 0.0), MacdOutput(0.0, 0.0, 0.0, Neutral))
  {
  }

  lemma CrossTestStep2()
    ensures MacdStep(Tracked(100.0, 100.0, 0.0, 0.0), 101.0).0 == Tracked(201.0 / 2.0, 702.0 / 7.0, 3.0 / 14.0, 3.0 / 28.0)
    ensures MacdStep(Tracked(100.0, 100.0, 0.0, 0.0), 101.0).1.kind == BullishCross
  {
  }

  lemma CrossTestStep3()
    ensures MacdStep(Tracked(201.0 / 2.0, 702.0 / 7.0, 3.0 / 14.0, 3.0 / 28.0), 102.0).0
      == Tracked(405.0 / 4.0, 4938.0 / 49.0, 93.0 / 196.0, 57.0 / 196.0)
  {
  }

  lemma CrossTestStep4()
    ensures MacdStep(Tracked(405.0 / 4.0, 4938.0 / 49.0, 93.0 / 196.0, 57.0 / 196.0), 103.0).0
      == Tracked(817.0 / 8.0, 34784.0 / 343.0, 1959.0 / 2744.0, 2757.0 / 5488.0)
  {
  }

  lemma CrossTestStep5()
    ensures MacdStep(Tracked(817.0 / 8.0, 34784.0 / 343.0, 1959.0 / 2744.0, 2757.0 / 5488.0), 104.0).0
      == Tracked(1649.0 / 16.0, 245264.0 / 2401.0, 35025.0 / 38416.0, 13581.0 / 19208.0)
  {
  }

  lemma CrossTestStep6()
    ensures MacdStep(Tracked(1649.0 / 16.0, 245264.0 / 2401.0, 35025.0 / 38416.0, 13581.0 / 19208.0), 104.0).0
      == Tracked(3313.0 / 32.0, 1725728.0 / 16807.0, 458295.0 / 537824.0, 838563.0 / 1075648.0)
  {
  }

  lemma CrossTestStep7()
    ensures MacdStep(Tracked(3313.0 / 32.0, 1725728.0 / 16807.0, 458295.0 / 537824.0, 838563.0 / 1075648.0), 103.0).1.kind
      == BearishCross
  {
  }

  /**
   * Rising closes produce a bullish cross (on the second update) and the
   * falling closes after them a bearish cross (on the second fall).
   */
  lemma RisingThenFallingCrosses()
    ensures var s1 := MacdStep(MacdInit(3, 6, 3), 100.0).0;
      var s2 := MacdStep(s1, 101.0);
      var s3 := MacdStep(s2.0, 102.0).0;
      var s4 := MacdStep(s3, 103.0).0;
      var s5 := MacdStep(s4, 104.0).0;
      var s6 := MacdStep(s5, 104.0).0;
      s2.1.kind == BullishCross && MacdStep(s6, 103.0).1.kind == BearishCross
  {
    CrossTestStep1();
    CrossTestStep2();
    CrossTestStep3();
    CrossTestStep4();
    CrossTestStep5();
    CrossTestStep6();
    CrossTestStep7();
  }

  /** The stateful MACD: three EMA calculators and the last MACD/signal pair. */
  class Macd {
    const emaFast: EmaTracker.Ema
    const emaSlow: EmaTracker.Ema
    const signalLine: EmaTracker.Ema
    var prevMacd: Option<real>
    var prevSignal: Option<real>

    ghost predicate Valid()
      reads this, emaFast, emaSlow, signalLine
    {
      && emaFast != emaSlow && emaFast != signalLine && emaSlow != signalLine
      && emaFast.Valid() && emaSlow.Valid() && signalLine.Valid()
      && MacdValid(State())
    }

    function State(): MacdState
      reads this, emaFast, emaSlow, signalLine
    {
      MacdState(emaFast.State(), emaSlow.State(), signalLine.State(), prevMacd, prevSignal)
    }

    constructor (fastPeriod: nat, slowPeriod: nat, signalPeriod: nat)
      ensures Valid() && fresh(emaFast) && fresh(emaSlow) && fresh(signalLine)
      ensures State() == MacdInit(fastPeriod, slowPeriod, signalPeriod)
    {
      emaFast := new EmaTracker.Ema(fastPeriod);
      emaSlow := new EmaTracker.Ema(slowPeriod);
      signalLine := new EmaTracker.Ema(signalPeriod);
      prevMacd := None;
      prevSignal := None;
    }

    method Update(close: real) returns (r: MacdOutput)
      requires Valid()
      modifies this, emaFast, emaSlow, signalLine
      ensures Valid() && (State(), r) == MacdStep(old(State()), close)
    {
      var fast := emaFast.Update(close);
      var slow := emaSlow.Update(close);
      var macd := fast - slow;
      var signal := signalLine.Update(macd);
      var histogram := macd - signal;
      var kind := Neutral;
      if prevMacd.Some? && prevSignal.Some? {
        var pm, ps := prevMacd.value, prevSignal.value;
        if pm <= ps && macd > signal {
          kind := BullishCross;
        } else if pm >= ps && macd < signal {
          kind := BearishCross;
        } else if macd > 0.0 && macd > pm {
          kind := BullishMomentum;
        } else if macd < 0.0 && macd < pm {
          kind := BearishMomentum;
        }
      }
      prevMacd := Some(macd);
      prevSignal := Some(signal);
      r := MacdOutput(macd, signal, histogram, kind);
    }
  }

  /**
   * MACD over the closes, tagged with the three periods; None exactly when
   * there are no candles.
   */
  method CalculateMacd(candles: seq<Candle>, fastPeriod: U32, slowPeriod: U32, signalPeriod: U32)
    returns (r: Option<MacdIndicator>)
    ensures r.None? <==> |candles| == 0
    ensures r.Some? ==>
      var final := MacdFeed(MacdInit(fastPeriod, slowPeriod, signalPeriod), Closes(candles));
      && r.value.macd == Finite(final.prevMacd.value)
      && r.value.signal == Finite(final.prevSignal.value)
      && r.value.histogram == Finite(final.prevMacd.value - final.prevSignal.value)
      && r.value.period == Some((fastPeriod, slowPeriod, signalPeriod))
  {
    if |candles| == 0 {
      return None;
    }
    ghost var closes := Closes(candles);
    ghost var init := MacdInit(fastPeriod, slowPeriod, signalPeriod);
    var macd := new Macd(fastPeriod, slowPeriod, signalPeriod);
    var latest: Option<MacdOutput> := None;
    var i := 0;
    while i < |candles|
      invariant 0 <= i <= |candles|
      invariant macd.Valid() && macd.State() == MacdFeed(init, closes[..i])
      invariant latest.None? <==> i == 0
      invariant latest.Some? ==> Triple(latest.value) == LastTriple(macd.State())
    {
      ghost var before := macd.State();
      var out := macd.Update(candles[i].close);
      assert closes[..i + 1] == closes[..i] + [candles[i].close];
      MacdFeedSnoc(init, closes[..i], candles[i].close);
      assert Triple(out) == LastTriple(MacdStep(before, candles[i].close).0);
      latest := Some(out);
      i := i + 1;
    }
    assert closes[..i] == closes;
    var out := latest.value;
    r := Some(MacdIndicator(Finite(out.macd), Finite(out.signal), Finite(out.histogram), Some((fastPeriod, slowPeriod, signalPeriod))));
  }

  /** The defaults: 12, 26 and 9. */
  method CalculateMacdDefault(candles: seq<Candle>) returns (r: Option<MacdIndicator>)
    ensures r.None? <==> |candles| == 0
    ensures r.Some? ==>
      var final := MacdFeed(MacdInit(12, 26, 9), Closes(candles));
      && r.value.macd == Finite(final.prevMacd.value)
      && r.value.signal == Finite(final.prevSignal.value)
      && r.value.histogram == Finite(final.prevMacd.value - final.prevSignal.value)
      && r.value.period == Some((12, 26, 9))
  {
    r := CalculateMacd(candles, 12, 26, 9);
  }
}
