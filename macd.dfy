/** The MACD decider. The MACD and signal lines come from talib and are
    inputs here; the decider looks for a crossover between the last two
    rows of the frame built from them. */
module Macd {
  import opened Results
  import opened Signals

  /** `decide_buy_sell_hold_signals`: building the frame fails on lines of
      different lengths, and reading the previous row fails on fewer than
      two rows. */
  function Decide(macd: seq<real>, signal: seq<real>): (r: Result<Signal>)
    ensures |macd| != |signal| ==> r == Fail(LengthMismatch)
    ensures |macd| == |signal| < 2 ==> r == Fail(IndexOutOfRange)
    ensures r.Ok? <==> |macd| == |signal| >= 2
    ensures r.Ok? ==> r.value != Unknown
    ensures r.Ok? ==>
      var n := |macd|;
      (r.value == Buy <==> macd[n - 1] > signal[n - 1] && macd[n - 2] <= signal[n - 2]) &&
      (r.value == Sell <==> macd[n - 1] < signal[n - 1] && macd[n - 2] >= signal[n - 2]) &&
      (r.value == Hold <==>
        !(macd[n - 1] > signal[n - 1] && macd[n - 2] <= signal[n - 2]) &&
        !(macd[n - 1] < signal[n - 1] && macd[n - 2] >= signal[n - 2]))
  {
    if |macd| != |signal| then Fail(LengthMismatch)
    else if |macd| < 2 then Fail(IndexOutOfRange)
    else
      var n := |macd|;
      if macd[n - 1] > signal[n - 1] && macd[n - 2] <= signal[n - 2] then Ok(Buy)
      else if macd[n - 1] < signal[n - 1] && macd[n - 2] >= signal[n - 2] then Ok(Sell)
      else Ok(Hold)
  }

  /** Lines that meet at the last row never give a crossover. */
  lemma EqualLastRowHolds(macd: seq<real>, signal: seq<real>)
    requires |macd| == |signal| >= 2
    requires macd[|macd| - 1] == signal[|signal| - 1]
    ensures Decide(macd, signal) == Ok(Hold)
  {
  }

  /** Rows before the last two have no effect on the signal. */
  lemma OnlyLastTwoRowsMatter(pm: seq<real>, ps: seq<real>, macd: seq<real>, signal: seq<real>)
    requires |pm| == |ps|
    requires |macd| == |signal| >= 2
    ensures Decide(pm + macd, ps + signal) == Decide(macd, signal)
  {
    var n := |macd|;
    assert (pm + macd)[|pm| + n - 1] == macd[n - 1] && (pm + macd)[|pm| + n - 2] == macd[n - 2];
    assert (ps + signal)[|ps| + n - 1] == signal[n - 1] && (ps + signal)[|ps| + n - 2] == signal[n - 2];
  }

  /** Exchanging the two lines exchanges buy and sell. */
  lemma SwapMirrors(macd: seq<real>, signal: seq<real>)
    requires |macd| == |signal| >= 2
    ensures Decide(signal, macd).Ok?
    ensures Decide(signal, macd).value == Mirror(Decide(macd, signal).value)
  {
  }
}
