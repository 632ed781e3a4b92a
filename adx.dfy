/** Average directional index: the index series comes from a charting
    library and is an input; the decider looks at its last two values
    against the trend-strength level 25. */
module Adx {
  import opened Results
  import opened Signals

  /** The level above which a trend counts as strong. */
  const TrendLevel: real := 25.0

  /** `decide_buy_sell_hold_signals`. A last value at or below the level
      holds without reading the previous one; above it, the previous value
      is read (and raises when there is none): buy on a fresh crossing of
      the level, hold while the index keeps rising, sell otherwise. */
  function Decide(adx: seq<real>): (r: Result<Signal>)
    ensures r.Fail? <==> |adx| == 0 || (|adx| == 1 && adx[0] > TrendLevel)
    ensures r.Fail? ==> r.error == IndexOutOfRange
    ensures r.Ok? && adx[|adx| - 1] <= TrendLevel ==> r.value == Hold
    ensures r.Ok? && adx[|adx| - 1] > TrendLevel ==>
      var last, prev := adx[|adx| - 1], adx[|adx| - 2];
      (r.value == Buy <==> prev < TrendLevel) &&
      (r.value == Hold <==> TrendLevel <= prev < last) &&
      (r.value == Sell <==> TrendLevel <= prev && last <= prev)
  {
    if |adx| == 0 then Fail(IndexOutOfRange)
    else
      var last := adx[|adx| - 1];
      if last > TrendLevel then
        if |adx| < 2 then Fail(IndexOutOfRange)
        else
          var prev := adx[|adx| - 2];
          if prev < TrendLevel then Ok(Buy)
          else if prev < last then Ok(Hold)
          else Ok(Sell)
      else Ok(Hold)
  }

  /** A weak trend never trades, and a buy happens only when the index
      crosses the level between the last two readings. */
  lemma BuyOnlyOnCrossing(adx: seq<real>)
    requires Decide(adx) == Ok(Buy)
    ensures |adx| >= 2 && adx[|adx| - 2] < TrendLevel < adx[|adx| - 1]
  {
  }

  /** A sell happens only when the index, already strong, stopped rising. */
  lemma SellOnlyWhenStrongAndFalling(adx: seq<real>)
    requires Decide(adx) == Ok(Sell)
    ensures |adx| >= 2
    ensures TrendLevel < adx[|adx| - 1] <= adx[|adx| - 2]
  {
  }

  /** Only the last two values reach the decision. */
  lemma OnlyLastTwoMatter(earlier: seq<real>, adx: seq<real>)
    requires |adx| >= 2
    ensures Decide(earlier + adx) == Decide(adx)
  {
    var s := earlier + adx;
    assert s[|s| - 1] == adx[|adx| - 1];
    assert s[|s| - 2] == adx[|adx| - 2];
  }
}
