/** On-Balance Volume with divergence detection (src/indicators/volume/obv.rs). */
module ObvTracker {
  import opened Wrappers
  import opened CommonMath

  datatype ObvSignal = BullishDivergence | BearishDivergence | Confirmation | Neutral

  /** The running OBV, the last close and the smoothed OBV. */
  datatype ObvState = ObvState(currentObv: real, prevClose: Option<real>, obvEma: Option<real>)

  /** The smoothed OBV exists exactly once a close has been seen. */
  predicate ObvValid(s: ObvState)
  {
    s.obvEma.Some? <==> s.prevClose.Some?
  }

  function ObvInit(): (s: ObvState)
    ensures ObvValid(s)
  {
    ObvState(0.0, None, None)
  }

  /** The volume a bar adds to OBV: all of it on a higher close, minus all of it on a lower one, none on an equal one. */
  function DirectedVolume(prevClose: real, close: real, volume: real): (r: real)
    ensures close > prevClose ==> r == volume
    ensures close < prevClose ==> r == -volume
    ensures close == prevClose ==> r == 0.0
  {
    if close > prevClose then volume else if close < prevClose then -volume else 0.0
  }

  /**
   * The classification by the signs of the price change and of the smoothed
   * OBV change: opposite signs are a divergence, equal signs a confirmation,
   * and a zero on either side is neutral.
   */
  function ObvSignalOf(priceChange: real, obvChange: real): (r: ObvSignal)
    ensures r == BullishDivergence <==> priceChange < 0.0 && obvChange > 0.0
    ensures r == BearishDivergence <==> priceChange > 0.0 && obvChange < 0.0
    ensures r == Confirmation <==> (priceChange > 0.0 && obvChange > 0.0) || (priceChange < 0.0 && obvChange < 0.0)
    ensures r == Neutral <==> priceChange == 0.0 || obvChange == 0.0
  {
    if priceChange < 0.0 && obvChange > 0.0 then BullishDivergence
    else if priceChange > 0.0 && obvChange < 0.0 then BearishDivergence
    else if (priceChange > 0.0 && obvChange > 0.0) || (priceChange < 0.0 && obvChange < 0.0) then Confirmation
    else Neutral
  }

  /** Exponential smoothing with weight 0.1 on the newest OBV. */
  function SmoothObv(previous: real, obv: real): (r: real)
    ensures Min(previous, obv) <= r <= Max(previous, obv)
  {
    previous * 0.9 + obv * 0.1
  }

  /**
   * One bar. The first bar sets OBV to its volume; later bars move it by
   * their directed volume. The smoothed OBV starts at the raw OBV and then
   * follows it, and the signal compares the two changes. The raw OBV is
   * returned.
   */
  function ObvStep(s: ObvState, close: real, volume: real): (r: (ObvState, (real, ObvSignal)))
    requires ObvValid(s)
    ensures ObvValid(r.0) && r.0.prevClose == Some(close) && r.1.0 == r.0.currentObv
    ensures s.prevClose.None? ==> r.0.currentObv == volume && r.0.obvEma == Some(volume) && r.1.1 == Neutral
    ensures s.prevClose.Some? ==>
      && r.0.currentObv == s.currentObv + DirectedVolume(s.prevClose.value, close, volume)
      && r.0.obvEma == Some(SmoothObv(s.obvEma.value, r.0.currentObv))
      && r.1.1 == ObvSignalOf(close - s.prevClose.value, r.0.obvEma.value - s.obvEma.value)
  {
    match s.prevClose
    case None => (ObvState(volume, Some(close), Some(volume)), (volume, Neutral))
    case Some(prev) =>
      var obv := s.currentObv + DirectedVolume(prev, close, volume);
      var ema := SmoothObv(s.obvEma.value, obv);
      (ObvState(obv, Some(close), Some(ema)), (obv, ObvSignalOf(close - prev, ema - s.obvEma.value)))
  }

  /** A bar as OBV sees it: close and volume. */
  type Bar = (real, real)

  /** A tracker fed `bars` in order. */
  function ObvFeed(s: ObvState, bars: seq<Bar>): (r: ObvState)
    requires ObvValid(s)
    ensures ObvValid(r)
    ensures |bars| > 0 ==> r.prevClose == Some(bars[|bars| - 1].0)
  {
    if |bars| == 0 then s
    else ObvStep(ObvFeed(s, bars[..|bars| - 1]), bars[|bars| - 1].0, bars[|bars| - 1].1).0
  }

  /** On-balance volume by definition: the first volume plus every later bar's directed volume. */
  function ObvOf(bars: seq<Bar>): real
    requires |bars| > 0
  {
    if |bars| == 1 then bars[0].1
    else ObvOf(bars[..|bars| - 1]) + DirectedVolume(bars[|bars| - 2].0, bars[|bars| - 1].0, bars[|bars| - 1].1)
  }

  /** The streaming tracker computes on-balance volume. */
  lemma {:induction false} ObvFeedIsObv(bars: seq<Bar>)
    requires |bars| > 0
    ensures ObvFeed(ObvInit(), bars).currentObv == ObvOf(bars)
  {
    var init := bars[..|bars| - 1];
    if |init| > 0 {
      ObvFeedIsObv(init);
      assert init[|init| - 1] == bars[|bars| - 2];
    } else {
      assert ObvFeed(ObvInit(), init) == ObvInit();
    }
  }

  /** The smoothed OBV always lies between the smallest and largest raw OBV seen. */
  lemma {:induction false} SmoothedWithinRaw(bars: seq<Bar>, lo: real, hi: real)
    requires |bars| > 0
    requires forall k :: 1 <= k <= |bars| ==> lo <= ObvOf(bars[..k]) <= hi
    ensures var s := ObvFeed(ObvInit(), bars);
      s.obvEma.Some? && lo <= s.obvEma.value <= hi
  {
    var init := bars[..|bars| - 1];
    assert bars[..|bars|] == bars;
    ObvFeedIsObv(bars);
    if |init| > 0 {
      forall k | 1 <= k <= |init| ensures lo <= ObvOf(init[..k]) <= hi {
        assert init[..k] == bars[..k];
      }
      SmoothedWithinRaw(init, lo, hi);
    } else {
      assert ObvFeed(ObvInit(), init) == ObvInit();
    }
  }

  /** An equal close leaves OBV unchanged and, the smoothed change aside, signals nothing. */
  lemma FlatCloseIsNeutral(s: ObvState, volume: real)
    requires ObvValid(s) && s.prevClose.Some?
    ensures var r := ObvStep(s, s.prevClose.value, volume);
      r.0.currentObv == s.currentObv && r.1.1 == Neutral
  {
  }

  // The unit scenario: 100 on 1000, 101 on 1200, 102 on 1300, then 101.5 on 200.

  lemma ObvScenarioSteps()
    ensures ObvStep(ObvInit(), 100.0, 1000.0).0 == ObvState(1000.0, Some(100.0), Some(1000.0))
    ensures ObvStep(ObvState(1000.0, Some(100.0), Some(1000.0)), 101.0, 1200.0)
      == (ObvState(2200.0, Some(101.0), Some(1120.0)), (2200.0, Confirmation))
    ensures ObvStep(ObvState(2200.0, Some(101.0), Some(1120.0)), 102.0, 1300.0)
      == (ObvState(3500.0, Some(102.0), Some(1358.0)), (3500.0, Confirmation))
    ensures ObvStep(ObvState(3500.0, Some(102.0), Some(1358.0)), 101.5, 200.0).1
      == (3300.0, BullishDivergence)
  {
  }

  /**
   * Two higher closes confirm; a lower close on small volume still lifts the
   * smoothed OBV, which is a bullish divergence.
   */
  lemma ConfirmationThenDivergence()
    ensures var s1 := ObvStep(ObvInit(), 100.0, 1000.0).0;
      var r2 := ObvStep(s1, 101.0, 1200.0);
      var r3 := ObvStep(r2.0, 102.0, 1300.0);
      var r4 := ObvStep(r3.0, 101.5, 200.0);
      r2.1.1 == Confirmation && r3.1.1 == Confirmation && r4.1.1 == BullishDivergence
  {
    ObvScenarioSteps();
  }

  /** The stateful OBV indicator. */
  class Obv {
    var currentObv: real
    var prevClose: Option<real>
    var obvEma: Option<real>

    ghost predicate Valid()
      reads this
    {
      ObvValid(State())
    }

    function State(): ObvState
      reads this
    {
      ObvState(currentObv, prevClose, obvEma)
    }

    constructor ()
      ensures Valid() && State() == ObvInit()
    {
      currentObv := 0.0;
      prevClose := None;
      obvEma := None;
    }

    method Update(close: real, volume: real) returns (obv: real, signal: ObvSignal)
      requires Valid()
      modifies this
      ensures Valid() && (State(), (obv, signal)) == ObvStep(old(State()), close, volume)
    {
      if prevClose.Some? {
        if close > prevClose.value {
          currentObv := currentObv + volume;
        } else if close < prevClose.value {
          currentObv := currentObv - volume;
        }
      } else {
        currentObv := volume;
      }
      var previousSmoothed := if obvEma.Some? then obvEma.value else currentObv;
      var ema := if obvEma.Some? then obvEma.value * 0.9 + currentObv * 0.1 else currentObv;
      obvEma := Some(ema);
      var obvChange := ema - previousSmoothed;
      if prevClose.Some? {
        var priceChange := close - prevClose.value;
        if priceChange < 0.0 && obvChange > 0.0 {
          signal := BullishDivergence;
        } else if priceChange > 0.0 && obvChange < 0.0 {
          signal := BearishDivergence;
        } else if (priceChange > 0.0 && obvChange > 0.0) || (priceChange < 0.0 && obvChange < 0.0) {
          signal := Confirmation;
        } else {
          signal := Neutral;
        }
      } else {
        signal := Neutral;
      }
      prevClose := Some(close);
      obv := currentObv;
    }

    /** The smoothed OBV; None before the first update. */
    function Smoothed(): (r: Option<real>)
      reads this
      ensures Valid() ==> (r.Some? <==> prevClose.Some?)
    {
      obvEma
    }
  }
}
