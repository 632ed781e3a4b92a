/** Fibonacci retracement levels between the lowest and the highest price,
    and the decider that places the last close against the 38.2% and 61.8%
    levels. */
module Fibonacci {
  import opened Results
  import opened Signals
  import opened Series

  /** DEFAULT_FIB_LEVELS. */
  const DefaultRatios: seq<real> := [0.0, 0.236, 0.382, 0.5, 0.618, 0.786, 1.0]

  /** One level: the ratio's share of the way from `lo` up to `hi`. */
  function Level(lo: real, hi: real, ratio: real): real
  {
    lo + ratio * (hi - lo)
  }

  /** `calculate_fib_levels`: one level per configured ratio, in the same
      order; `max` of no prices raises ValueError. */
  function CalculateLevels(prices: seq<real>, ratios: seq<real>): (r: Result<seq<real>>)
    ensures r.Fail? <==> |prices| == 0
    ensures r.Fail? ==> r.error == EmptyArgument
    ensures r.Ok? ==> |r.value| == |ratios|
    ensures r.Ok? ==> forall i :: 0 <= i < |ratios| ==> r.value[i] == Level(Min(prices), Max(prices), ratios[i])
  {
    if |prices| == 0 then Fail(EmptyArgument)
    else
      var hi := Max(prices);
      var lo := Min(prices);
      Ok(seq(|ratios|, i requires 0 <= i < |ratios| => Level(lo, hi, ratios[i])))
  }

  /** Ratio 0 gives the lowest price and ratio 1 the highest. */
  lemma LevelEnds(lo: real, hi: real)
    ensures Level(lo, hi, 0.0) == lo
    ensures Level(lo, hi, 1.0) == hi
  {
  }

  /** With the default ratios the first level is the lowest price and the
      last level the highest. */
  lemma DefaultLevelsSpanRange(prices: seq<real>)
    requires |prices| > 0
    ensures CalculateLevels(prices, DefaultRatios).Ok?
    ensures |CalculateLevels(prices, DefaultRatios).value| == 7
    ensures CalculateLevels(prices, DefaultRatios).value[0] == Min(prices)
    ensures CalculateLevels(prices, DefaultRatios).value[6] == Max(prices)
  {
    LevelEnds(Min(prices), Max(prices));
  }

  /** The ratios the constructor is meant to settle on: the configured
      ones when any are given, DEFAULT_FIB_LEVELS otherwise. */
  function ChooseRatios(configured: seq<real>): (r: seq<real>)
    ensures |r| > 0
    ensures |configured| > 0 ==> r == configured
    ensures |configured| == 0 ==> r == DefaultRatios
  {
    if |configured| > 0 then configured else DefaultRatios
  }

  /** A strategy built without configured levels computes the default
      levels, which run from the lowest to the highest price. */
  lemma UnconfiguredLevelsSpanRange(prices: seq<real>)
    requires |prices| > 0
    ensures CalculateLevels(prices, ChooseRatios([])).Ok?
    ensures var levels := CalculateLevels(prices, ChooseRatios([])).value;
      |levels| == 7 && levels[0] == Min(prices) && levels[6] == Max(prices)
  {
    DefaultLevelsSpanRange(prices);
  }

  lemma ScaleMonotone(a: real, b: real, d: real)
    requires a <= b
    requires d >= 0.0
    ensures a * d <= b * d
  {
  }

  /** A ratio in [0, 1] gives a level between the lowest and the highest
      price. */
  lemma LevelWithinRange(prices: seq<real>, ratios: seq<real>, i: nat)
    requires |prices| > 0
    requires i < |ratios|
    requires 0.0 <= ratios[i] <= 1.0
    ensures Min(prices) <= CalculateLevels(prices, ratios).value[i] <= Max(prices)
  {
    var lo, hi := Min(prices), Max(prices);
    assert lo <= hi by {
      assert prices[0] <= hi && lo <= prices[0];
    }
    assert CalculateLevels(prices, ratios).value[i] == Level(lo, hi, ratios[i]);
    LevelBetween(lo, hi, ratios[i]);
  }

  lemma LevelBetween(lo: real, hi: real, ratio: real)
    requires lo <= hi
    requires 0.0 <= ratio <= 1.0
    ensures lo <= Level(lo, hi, ratio) <= hi
  {
    ScaleMonotone(0.0, ratio, hi - lo);
    ScaleMonotone(ratio, 1.0, hi - lo);
  }

  /** A larger ratio never gives a lower level. */
  lemma LevelsMonotone(prices: seq<real>, ratios: seq<real>, i: nat, j: nat)
    requires |prices| > 0
    requires i < |ratios| && j < |ratios|
    requires ratios[i] <= ratios[j]
    ensures CalculateLevels(prices, ratios).value[i] <= CalculateLevels(prices, ratios).value[j]
  {
    var lo, hi := Min(prices), Max(prices);
    assert lo <= hi by {
      assert prices[0] <= hi && lo <= prices[0];
    }
    var levels := CalculateLevels(prices, ratios).value;
    assert levels[i] == Level(lo, hi, ratios[i]) && levels[j] == Level(lo, hi, ratios[j]);
    LevelMonotone(lo, hi, ratios[i], ratios[j]);
  }

  lemma LevelMonotone(lo: real, hi: real, r: real, s: real)
    requires lo <= hi
    requires r <= s
    ensures Level(lo, hi, r) <= Level(lo, hi, s)
  {
    ScaleMonotone(r, s, hi - lo);
  }

  /** `decide_buy_sell_hold_signals`. The last close comes first
      (`iloc[-1]` fails on no closes); the levels are then read by the keys
      '38.2', '50.0' and '61.8', in that order, each failing with KeyError
      when absent, although the list the calculator returns has no such
      keys. The '50.0' level is read and not used. */
  function Decide(closes: seq<real>, levels: map<string, real>): (r: Result<Signal>)
    ensures |closes| == 0 ==> r == Fail(IndexOutOfRange)
    ensures |closes| > 0 && "38.2" !in levels ==> r == Fail(MissingKey("38.2"))
    ensures |closes| > 0 && "38.2" in levels && "50.0" !in levels ==> r == Fail(MissingKey("50.0"))
    ensures |closes| > 0 && "38.2" in levels && "50.0" in levels && "61.8" !in levels ==>
      r == Fail(MissingKey("61.8"))
    ensures r.Ok? <==> |closes| > 0 && "38.2" in levels && "50.0" in levels && "61.8" in levels
    ensures r.Ok? ==>
      var last := closes[|closes| - 1];
      (r.value == Buy <==> last <= levels["38.2"]) &&
      (r.value == Sell <==> last > levels["38.2"] && last >= levels["61.8"]) &&
      (r.value == Hold <==> levels["38.2"] < last < levels["61.8"])
  {
    if |closes| == 0 then Fail(IndexOutOfRange)
    else if "38.2" !in levels then Fail(MissingKey("38.2"))
    else if "50.0" !in levels then Fail(MissingKey("50.0"))
    else if "61.8" !in levels then Fail(MissingKey("61.8"))
    else
      var last := closes[|closes| - 1];
      if last <= levels["38.2"] then Ok(Buy)
      else if last >= levels["61.8"] then Ok(Sell)
      else Ok(Hold)
  }

  /** The unused '50.0' level never changes the signal. */
  lemma MiddleLevelIgnored(closes: seq<real>, levels: map<string, real>, v: real)
    requires "50.0" in levels
    ensures Decide(closes, levels["50.0" := v]) == Decide(closes, levels)
  {
    var other := levels["50.0" := v];
    assert "38.2" != "50.0" && "61.8" != "50.0";
    assert "38.2" in other <==> "38.2" in levels;
    assert "61.8" in other <==> "61.8" in levels;
  }
}
