/** The decision records an LLM portfolio manager hands out, one per
    symbol: `{"action": ..., "quantity": ..., "confidence": ...}`, each key
    optional. Both src/strategies/llm_crypto_strategy.py and
    src/live/scheduler.py read them with the same defaults, given here
    once. */
module Decisions {
  import opened Wrappers
  import Text

  datatype Decision = Decision(action: Option<string>, quantity: Option<real>, confidence: Option<real>)

  /** A signal: the decision dictionary in its iteration order. */
  type Signal = seq<(string, Decision)>

  /** `decision.get("action", "hold").lower()`. */
  function ActionOf(d: Decision): (r: string)
    ensures d.action.None? ==> r == "hold"
    ensures d.action.Some? ==> r == Text.Lower(d.action.value)
  {
    Text.Lower(d.action.GetOr("hold"))
  }

  /** `float(decision.get("quantity", 0))`. */
  function QuantityOf(d: Decision): (r: real)
    ensures d.quantity.None? ==> r == 0.0
    ensures d.quantity.Some? ==> r == d.quantity.value
  {
    d.quantity.GetOr(0.0)
  }

  /** Python's `int(x)` on a float: truncation toward zero. */
  function TruncateTowardZero(x: real): (r: int)
    ensures 0.0 <= x ==> 0 <= r && r as real <= x < r as real + 1.0
    ensures x < 0.0 ==> r <= 0 && r as real - 1.0 < x <= r as real
  {
    if x >= 0.0 then x.Floor else -((-x).Floor)
  }

  /** `int(decision.get("confidence", 0))`. */
  function ConfidenceOf(d: Decision): (r: int)
    ensures d.confidence.None? ==> r == 0
    ensures d.confidence.Some? ==> r == TruncateTowardZero(d.confidence.value)
  {
    TruncateTowardZero(d.confidence.GetOr(0.0))
  }

  /** The lower-casing is ASCII: a capitalised action reads as its lower-case
      form, so "BUY" and "Buy" act like "buy". */
  lemma ActionIsCaseInsensitive(d: Decision)
    requires d.action == Some("BUY") || d.action == Some("Buy")
    ensures ActionOf(d) == "buy"
  {
    assert Text.LowerChar('B') == 'b' && Text.LowerChar('U') == 'u' && Text.LowerChar('Y') == 'y';
    assert Text.LowerChar('u') == 'u' && Text.LowerChar('y') == 'y';
  }

  /** The symbols a signal names, in order. */
  function SymbolsOf(signal: Signal): (r: seq<string>)
    ensures |r| == |signal| && forall i :: 0 <= i < |signal| ==> r[i] == signal[i].0
  {
    if signal == [] then [] else [signal[0].0] + SymbolsOf(signal[1..])
  }

  /** A dictionary's keys are distinct. */
  predicate UniqueKeys(signal: Signal) {
    forall i, j :: 0 <= i < j < |signal| ==> signal[i].0 != signal[j].0
  }
}
