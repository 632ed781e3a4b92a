/** Triangle: a candlestick-pattern library scores every bar (+100 for a
    bullish match, -100 for a bearish one, 0 otherwise); the decider reads
    the score of the latest bar. */
module Triangle {
  import opened Results
  import opened Signals

  /** `decide_buy_sell_hold_signals`: `pattern[-1]` raises on an empty
      pattern; buy on +100, sell on -100, hold on anything else. */
  function Decide(pattern: seq<int>): (r: Result<Signal>)
    ensures r.Fail? <==> |pattern| == 0
    ensures r.Fail? ==> r.error == IndexOutOfRange
    ensures r.Ok? ==>
      (r.value == Buy <==> pattern[|pattern| - 1] == 100) &&
      (r.value == Sell <==> pattern[|pattern| - 1] == -100) &&
      (r.value == Hold <==> pattern[|pattern| - 1] != 100 && pattern[|pattern| - 1] != -100)
  {
    if |pattern| == 0 then Fail(IndexOutOfRange)
    else if pattern[|pattern| - 1] == 100 then Ok(Buy)
    else if pattern[|pattern| - 1] == -100 then Ok(Sell)
    else Ok(Hold)
  }

  /** Only the last score reaches the decision. */
  lemma OnlyLastValueMatters(earlier: seq<int>, pattern: seq<int>)
    requires |pattern| > 0
    ensures Decide(earlier + pattern) == Decide(pattern)
  {
    assert (earlier + pattern)[|earlier + pattern| - 1] == pattern[|pattern| - 1];
  }

  /** Negating every score exchanges buy and sell. */
  lemma NegatedScoresMirror(pattern: seq<int>)
    requires |pattern| > 0
    ensures var negated := seq(|pattern|, i requires 0 <= i < |pattern| => -pattern[i]);
      Decide(negated).value == Mirror(Decide(pattern).value)
  {
  }
}
