/** The funding rate bias detector for perpetual swaps (src/indicators/perp/funding_rate.rs). */
module FundingRateTracker {
  import opened CommonMath

  datatype FundingSignal =
    ExtremeLongBias | ExtremShortBias | HighLongBias | HighShortBias | NeutralPositive | NeutralNegative | Neutral

  /** The retained rates, oldest first, and how many are retained. */
  datatype FundingState = FundingState(history: seq<real>, lookback: nat)

  predicate FundingValid(s: FundingState)
  {
    |s.history| <= s.lookback
  }

  function FundingInit(lookback: nat): (s: FundingState)
    ensures FundingValid(s) && s.history == []
  {
    FundingState([], lookback)
  }

  /**
   * The ladder on the current rate: beyond 0.1% either way is extreme,
   * beyond 0.05% high, otherwise neutral by sign.
   */
  function FundingSignalOf(rate: real): (r: FundingSignal)
    ensures r == ExtremeLongBias <==> rate > 0.001
    ensures r == ExtremShortBias <==> rate < -0.001
    ensures r == HighLongBias <==> 0.0005 < rate <= 0.001
    ensures r == HighShortBias <==> -0.001 <= rate < -0.0005
    ensures r == NeutralPositive <==> 0.0 < rate <= 0.0005
    ensures r == NeutralNegative <==> -0.0005 <= rate < 0.0
    ensures r == Neutral <==> rate == 0.0
  {
    if rate > 0.001 then ExtremeLongBias
    else if rate < -0.001 then ExtremShortBias
    else if rate > 0.0005 then HighLongBias
    else if rate < -0.0005 then HighShortBias
    else if rate > 0.0 then NeutralPositive
    else if rate < 0.0 then NeutralNegative
    else Neutral
  }

  predicate IsLongSide(r: FundingSignal)
  {
    r == ExtremeLongBias || r == HighLongBias || r == NeutralPositive
  }

  predicate IsShortSide(r: FundingSignal)
  {
    r == ExtremShortBias || r == HighShortBias || r == NeutralNegative
  }

  /** The long-side signals are exactly the positive rates, the short-side ones exactly the negative rates. */
  lemma SignalSideIsRateSign(rate: real)
    ensures IsLongSide(FundingSignalOf(rate)) <==> rate > 0.0
    ensures IsShortSide(FundingSignalOf(rate)) <==> rate < 0.0
  {
  }

  /** The average of the retained rates; 0 when none are retained. */
  function AverageFunding(history: seq<real>): real
  {
    if |history| == 0 then 0.0 else Mean(history)
  }

  /**
   * One rate: push it, drop the oldest once the history is over
   * `lookback`, and report the signal of the rate and the average of the
   * history.
   */
  function FundingStep(s: FundingState, rate: real): (r: (FundingState, (FundingSignal, real)))
    requires FundingValid(s)
    ensures FundingValid(r.0) && r.0.lookback == s.lookback
    ensures r.0.history == SlideWindow(s.history, rate, s.lookback)
    ensures s.lookback >= 1 ==> |r.0.history| > 0 && r.0.history[|r.0.history| - 1] == rate
    ensures r.1.0 == FundingSignalOf(rate)
    ensures r.1.1 == AverageFunding(r.0.history)
  {
    var history := SlideWindow(s.history, rate, s.lookback);
    (FundingState(history, s.lookback), (FundingSignalOf(rate), AverageFunding(history)))
  }

  /** A detector fed `rates` in order. */
  function FundingFeed(s: FundingState, rates: seq<real>): (r: FundingState)
    requires FundingValid(s)
    ensures FundingValid(r) && r.lookback == s.lookback
  {
    if |rates| == 0 then s else FundingStep(FundingFeed(s, rates[..|rates| - 1]), rates[|rates| - 1]).0
  }

  /** The history holds the `lookback` most recent rates. */
  lemma {:induction false} FundingFeedKeepsRecent(lookback: nat, rates: seq<real>)
    ensures FundingFeed(FundingInit(lookback), rates).history
      == rates[|rates| - (if |rates| < lookback then |rates| else lookback)..]
  {
    FundingFeedIsSlideAll(lookback, rates);
    SlideAllKeepsMostRecent(rates, lookback);
  }

  lemma {:induction false} FundingFeedIsSlideAll(lookback: nat, rates: seq<real>)
    ensures FundingFeed(FundingInit(lookback), rates).history == SlideAll(rates, lookback)
  {
    if |rates| > 0 {
      FundingFeedIsSlideAll(lookback, rates[..|rates| - 1]);
    }
  }

  /** The reported average stays within any bounds the retained rates keep. */
  lemma AverageWithinHistory(s: FundingState, rate: real, lo: real, hi: real)
    requires FundingValid(s) && s.lookback >= 1
    requires forall i :: 0 <= i < |s.history| ==> lo <= s.history[i] <= hi
    requires lo <= rate <= hi
    ensures lo <= FundingStep(s, rate).1.1 <= hi
  {
    var h := FundingStep(s, rate).0.history;
    forall i | 0 <= i < |h| ensures lo <= h[i] <= hi {
      var pushed := s.history + [rate];
      if |pushed| > s.lookback {
        assert h[i] == pushed[i + 1];
      } else {
        assert h[i] == pushed[i];
      }
    }
    MeanWithin(h, lo, hi);
  }

  /** With no history retained, the average is 0 whatever the rate. */
  lemma NoLookbackAveragesZero(rate: real)
    ensures FundingStep(FundingInit(0), rate).1 == (FundingSignalOf(rate), 0.0)
  {
  }

  lemma SumOfFour(a: real, b: real, c: real, d: real)
    ensures Sum([a, b, c, d]) == a + b + c + d
  {
    assert [a, b, c, d][..3] == [a, b, c];
    assert [a, b, c][..2] == [a, b];
    assert [a, b][..1] == [a];
    assert [a][..0] == [];
    assert Sum([a]) == a;
    assert Sum([a, b]) == a + b;
    assert Sum([a, b, c]) == a + b + c;
  }

  /** A history still short of `lookback` just grows. */
  lemma GrowingHistory(history: seq<real>, lookback: nat, rate: real)
    requires |history| < lookback
    ensures FundingStep(FundingState(history, lookback), rate).0.history == history + [rate]
  {
  }

  /** The unit scenario with a history of five: 0.12%, -0.11%, 0.06%, then 0. */
  lemma ThresholdScenario()
    ensures var r1 := FundingStep(FundingInit(5), 0.0012);
      var r2 := FundingStep(r1.0, -0.0011);
      var r3 := FundingStep(r2.0, 0.0006);
      var r4 := FundingStep(r3.0, 0.0);
      && r1.1.0 == ExtremeLongBias && r2.1.0 == ExtremShortBias && r3.1.0 == HighLongBias
      && r4.1 == (Neutral, 0.000175)
  {
    GrowingHistory([], 5, 0.0012);
    GrowingHistory([0.0012], 5, -0.0011);
    GrowingHistory([0.0012, -0.0011], 5, 0.0006);
    GrowingHistory([0.0012, -0.0011, 0.0006], 5, 0.0);
    SumOfFour(0.0012, -0.0011, 0.0006, 0.0);
  }

  /** The stateful funding rate detector. */
  class FundingRate {
    var fundingHistory: seq<real>
    const lookback: nat

    ghost predicate Valid()
      reads this
    {
      FundingValid(State())
    }

    function State(): FundingState
      reads this
    {
      FundingState(fundingHistory, lookback)
    }

    constructor (lookback: nat)
      ensures Valid() && State() == FundingInit(lookback)
    {
      fundingHistory := [];
      this.lookback := lookback;
    }

    method Update(fundingRate: real) returns (signal: FundingSignal, avgFunding: real)
      requires Valid()
      modifies this
      ensures Valid() && (State(), (signal, avgFunding)) == FundingStep(old(State()), fundingRate)
    {
      fundingHistory := fundingHistory + [fundingRate];
      if |fundingHistory| > lookback {
        fundingHistory := fundingHistory[1..];
      }
      avgFunding := if |fundingHistory| == 0 then 0.0 else Sum(fundingHistory) / |fundingHistory| as real;
      if fundingRate > 0.001 {
        signal := ExtremeLongBias;
      } else if fundingRate < -0.001 {
        signal := ExtremShortBias;
      } else if fundingRate > 0.0005 {
        signal := HighLongBias;
      } else if fundingRate < -0.0005 {
        signal := HighShortBias;
      } else if fundingRate > 0.0 {
        signal := NeutralPositive;
      } else if fundingRate < 0.0 {
        signal := NeutralNegative;
      } else {
        signal := Neutral;
      }
    }
  }
}
