/** Elliott-wave reading: the direction of every price move, a pattern
    read from the last two moves, and a decider that needs the pattern, the
    RSI and two moving averages to agree. The moving averages come from
    talib and are inputs here. */
module ElliottWave {
  import opened Results
  import opened Signals
  import opened Rsi

  /** The direction of the move from `a` to `b`: 1 up, -1 down, 0 flat. */
  function Direction(a: real, b: real): (d: int)
    ensures d == 1 <==> b > a
    ensures d == -1 <==> b < a
    ensures d == 0 <==> b == a
  {
    if b > a then 1 else if b < a then -1 else 0
  }

  /** The loop of `identify_wave_patterns`: one direction per consecutive
      pair of closes, appended in order. */
  method Waves(closes: seq<real>) returns (waves: seq<int>)
    ensures |waves| == if |closes| == 0 then 0 else |closes| - 1
    ensures forall i :: 0 < i < |closes| ==> waves[i - 1] == Direction(closes[i - 1], closes[i])
  {
    waves := [];
    var i := 1;
    while i < |closes|
      invariant 1 <= i <= |closes| || (|closes| == 0 && i == 1)
      invariant |waves| == i - 1
      invariant forall k :: 0 < k < i ==> waves[k - 1] == Direction(closes[k - 1], closes[k])
    {
      if closes[i] > closes[i - 1] {
        waves := waves + [1];
      } else if closes[i] < closes[i - 1] {
        waves := waves + [-1];
      } else {
        waves := waves + [0];
      }
      i := i + 1;
    }
  }

  /** The pattern test: last two waves up then down give 1, down then up
      give -1; any other ending, including fewer than two waves, leaves
      `ew_pattern` unbound and the return raises. */
  function Pattern(waves: seq<int>): (r: Result<int>)
    ensures r == Ok(1) <==> |waves| >= 2 && waves[|waves| - 2] == 1 && waves[|waves| - 1] == -1
    ensures r == Ok(-1) <==> |waves| >= 2 && waves[|waves| - 2] == -1 && waves[|waves| - 1] == 1
    ensures r.Ok? ==> r == Ok(1) || r == Ok(-1)
    ensures r.Fail? ==> r.error == UnboundPattern
  {
    if |waves| >= 2 && waves[|waves| - 2..] == [1, -1] then Ok(1)
    else if |waves| >= 2 && waves[|waves| - 2..] == [-1, 1] then Ok(-1)
    else Fail(UnboundPattern)
  }

  /** `identify_wave_patterns`: 1 exactly when the last three closes rise
      then fall, -1 exactly when they fall then rise; every other input,
      including fewer than three closes or a flat move at the end, fails. */
  method IdentifyWavePatterns(closes: seq<real>) returns (r: Result<int>)
    ensures r == Ok(1) <==>
      |closes| >= 3 && closes[|closes| - 3] < closes[|closes| - 2] && closes[|closes| - 2] > closes[|closes| - 1]
    ensures r == Ok(-1) <==>
      |closes| >= 3 && closes[|closes| - 3] > closes[|closes| - 2] && closes[|closes| - 2] < closes[|closes| - 1]
    ensures r.Ok? ==> r == Ok(1) || r == Ok(-1)
    ensures r.Fail? ==> r.error == UnboundPattern
  {
    var waves := Waves(closes);
    r := Pattern(waves);
    if |closes| >= 3 {
      var n := |closes|;
      assert waves[|waves| - 2] == Direction(closes[n - 3], closes[n - 2]);
      assert waves[|waves| - 1] == Direction(closes[n - 2], closes[n - 1]);
    }
  }

  /** `x[-1]` of a sequence; an empty one raises IndexError. */
  function Last(s: seq<real>): (r: Result<real>)
    ensures r.Fail? <==> |s| == 0
    ensures r.Fail? ==> r.error == IndexOutOfRange
    ensures r.Ok? ==> r.value == s[|s| - 1]
  {
    if |s| == 0 then Fail(IndexOutOfRange) else Ok(s[|s| - 1])
  }

  /** The buy condition of the decider, evaluated left to right as Python's
      `and` does, so a later operand is read only when the earlier ones
      held. */
  function BuyCondition(closes: seq<real>, pattern: int, rsi: seq<RsiValue>, sma1: seq<real>, sma2: seq<real>): Result<bool>
  {
    if pattern != 1 then Ok(false)
    else if |rsi| == 0 then Fail(IndexOutOfRange)
    else if !(rsi[|rsi| - 1].Value? && rsi[|rsi| - 1].v < 30.0) then Ok(false)
    else if |closes| == 0 || |sma1| == 0 then Fail(IndexOutOfRange)
    else if !(closes[|closes| - 1] > sma1[|sma1| - 1]) then Ok(false)
    else if |sma2| == 0 then Fail(IndexOutOfRange)
    else Ok(closes[|closes| - 1] > sma2[|sma2| - 1])
  }

  /** The sell condition, the mirror of `BuyCondition`. */
  function SellCondition(closes: seq<real>, pattern: int, rsi: seq<RsiValue>, sma1: seq<real>, sma2: seq<real>): Result<bool>
  {
    if pattern != -1 then Ok(false)
    else if |rsi| == 0 then Fail(IndexOutOfRange)
    else if !(rsi[|rsi| - 1].Value? && rsi[|rsi| - 1].v > 70.0) then Ok(false)
    else if |closes| == 0 || |sma1| == 0 then Fail(IndexOutOfRange)
    else if !(closes[|closes| - 1] < sma1[|sma1| - 1]) then Ok(false)
    else if |sma2| == 0 then Fail(IndexOutOfRange)
    else Ok(closes[|closes| - 1] < sma2[|sma2| - 1])
  }

  /** `decide_buy_sell_hold_signals`. A NaN RSI compares false. With all
      four sequences non-empty it never fails: it buys exactly on pattern
      1, RSI below 30 and the last close above both averages, sells exactly
      on pattern -1, RSI above 70 and the last close below both, and holds
      otherwise. */
  function Decide(closes: seq<real>, pattern: int, rsi: seq<RsiValue>, sma1: seq<real>, sma2: seq<real>): (r: Result<Signal>)
    ensures |closes| > 0 && |rsi| > 0 && |sma1| > 0 && |sma2| > 0 ==>
      r.Ok? && r.value != Unknown &&
      var last, rv := closes[|closes| - 1], rsi[|rsi| - 1];
      (r.value == Buy <==>
        pattern == 1 && rv.Value? && rv.v < 30.0 && last > sma1[|sma1| - 1] && last > sma2[|sma2| - 1]) &&
      (r.value == Sell <==>
        pattern == -1 && rv.Value? && rv.v > 70.0 && last < sma1[|sma1| - 1] && last < sma2[|sma2| - 1])
    ensures pattern != 1 && pattern != -1 ==> r == Ok(Hold)
    ensures r.Fail? ==> r.error == IndexOutOfRange
  {
    match BuyCondition(closes, pattern, rsi, sma1, sma2)
    case Fail(e) => Fail(e)
    case Ok(true) => Ok(Buy)
    case Ok(false) =>
      match SellCondition(closes, pattern, rsi, sma1, sma2)
      case Fail(e) => Fail(e)
      case Ok(true) => Ok(Sell)
      case Ok(false) => Ok(Hold)
  }

  /** Only the last close, RSI value and averages matter. */
  lemma OnlyLastValuesMatter(closes: seq<real>, pattern: int, rsi: seq<RsiValue>, sma1: seq<real>, sma2: seq<real>)
    requires |closes| > 0 && |rsi| > 0 && |sma1| > 0 && |sma2| > 0
    ensures Decide(closes, pattern, rsi, sma1, sma2) ==
      Decide(closes[|closes| - 1..], pattern, rsi[|rsi| - 1..], sma1[|sma1| - 1..], sma2[|sma2| - 1..])
  {
  }
}
