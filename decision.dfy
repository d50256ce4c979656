/** Direction thresholds and ATR-based stop-loss / take-profit sizing (src/signals/decision.rs). */
module Decision {
  import opened SignalModel

  const LongThreshold: real := 0.60
  const ShortThreshold: real := 0.40

  /** A global score in [0, 1] goes long above 0.60 and short below 0.40; the band between, ends included, is neutral. */
  function DetermineDirection(globalScore: real): (r: Direction)
    ensures r == Long <==> globalScore > LongThreshold
    ensures r == Short <==> globalScore < ShortThreshold
    ensures r == Neutral <==> ShortThreshold <= globalScore <= LongThreshold
  {
    if globalScore > LongThreshold then Long
    else if globalScore < ShortThreshold then Short
    else Neutral
  }

  /** A higher score never turns a long into something else, nor anything into a short. */
  lemma DirectionMonotone(a: real, b: real)
    requires a <= b
    ensures DetermineDirection(a) == Long ==> DetermineDirection(b) == Long
    ensures DetermineDirection(b) == Short ==> DetermineDirection(a) == Short
  {
  }

  /** The unit cases: 0.65 is long, 0.35 short, 0.50 neutral. */
  lemma DirectionExamples()
    ensures DetermineDirection(0.65) == Long
    ensures DetermineDirection(0.35) == Short
    ensures DetermineDirection(0.50) == Neutral
  {
  }

  /** The affine map from a normalised score in [-1, 1] to a fraction in [0, 1]. */
  function ToPercentage(normalizedScore: real): (r: real)
    ensures 2.0 * r - 1.0 == normalizedScore
    ensures -1.0 <= normalizedScore <= 1.0 <==> 0.0 <= r <= 1.0
  {
    (normalizedScore + 1.0) / 2.0
  }

  /** It is strictly increasing, so it keeps the order of scores. */
  lemma ToPercentageMonotone(a: real, b: real)
    requires a < b
    ensures ToPercentage(a) < ToPercentage(b)
  {
  }

  /** The unit cases: -1, 0 and 1 go to 0, 0.5 and 1. */
  lemma ToPercentageExamples()
    ensures ToPercentage(-1.0) == 0.0 && ToPercentage(0.0) == 0.5 && ToPercentage(1.0) == 1.0
  {
  }

  /** Stop loss at 1.2 ATR and take profit at 2 ATR, each as a percentage of the price. */
  function CalculateFromAtr(atr: real, price: real): (r: (real, real))
    requires price != 0.0
    ensures r.0 * price == atr * 120.0
    ensures r.1 * price == atr * 200.0
  {
    ((atr * 1.2 / price) * 100.0, (atr * 2.0 / price) * 100.0)
  }

  /** The take profit is always five thirds of the stop loss, and both are positive for a positive ATR and price. */
  lemma RewardIsFiveThirdsOfRisk(atr: real, price: real)
    requires price != 0.0
    ensures CalculateFromAtr(atr, price).1 * 3.0 == CalculateFromAtr(atr, price).0 * 5.0
    ensures atr > 0.0 && price > 0.0 ==> CalculateFromAtr(atr, price).0 > 0.0 && CalculateFromAtr(atr, price).1 > 0.0
  {
    var (sl, tp) := CalculateFromAtr(atr, price);
    assert (tp * 3.0 - sl * 5.0) * price == 0.0;
    if atr > 0.0 && price > 0.0 {
      assert sl * price > 0.0;
      assert tp * price > 0.0;
    }
  }

  /** The unit case: ATR 10 at price 100 gives a 12% stop and a 20% target. */
  lemma AtrTenAtHundred()
    ensures CalculateFromAtr(10.0, 100.0) == (12.0, 20.0)
  {
  }

  /** Long and short positions are sized alike. */
  function CalculateLong(atr: real, price: real): (r: (real, real))
    requires price != 0.0
    ensures r.0 * price == atr * 120.0 && r.1 * price == atr * 200.0
  {
    CalculateFromAtr(atr, price)
  }

  function CalculateShort(atr: real, price: real): (r: (real, real))
    requires price != 0.0
    ensures r.0 * price == atr * 120.0 && r.1 * price == atr * 200.0
  {
    CalculateFromAtr(atr, price)
  }

  /** So the side does not matter: both come out as the plain ATR sizing. */
  lemma SidesAgree(atr: real, price: real)
    requires price != 0.0
    ensures CalculateLong(atr, price) == CalculateShort(atr, price) == CalculateFromAtr(atr, price)
  {
  }
}
