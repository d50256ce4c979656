/** The engine's output records (src/models/signal.rs). */
module SignalModel {
  import opened Models

  /** The direction of a signal; the source's `None` variant is written `Neutral` here. */
  datatype Direction = Long | Short | Neutral

  /** One reason behind a signal and the weight it carries. */
  datatype SignalReason = SignalReason(description: string, weight: real)

  /** A generated signal; the timestamp is the caller's clock reading. */
  datatype SignalOutput = SignalOutput(
    direction: Direction,
    confidence: real,
    recommendedSlPct: real,
    recommendedTpPct: real,
    reasons: seq<SignalReason>,
    symbol: string,
    price: real,
    timestamp: Timestamp)

  /** The weights of some reasons, added up. */
  function TotalWeight(reasons: seq<SignalReason>): real
  {
    if |reasons| == 0 then 0.0 else TotalWeight(reasons[..|reasons| - 1]) + reasons[|reasons| - 1].weight
  }

  /** Weights add up across a concatenation. */
  lemma {:induction false} TotalWeightAppend(a: seq<SignalReason>, b: seq<SignalReason>)
    ensures TotalWeight(a + b) == TotalWeight(a) + TotalWeight(b)
  {
    if |b| == 0 {
      assert a + b == a;
    } else {
      assert (a + b)[..|a + b| - 1] == a + b[..|b| - 1];
      TotalWeightAppend(a, b[..|b| - 1]);
    }
  }
}
