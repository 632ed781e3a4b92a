/** Bollinger Bands over the trailing window of closing prices, and the
    decider that compares the last price with the outer bands. */
module Bollinger {
  import opened Results
  import opened Signals
  import opened Series

  datatype Bands = Bands(upper: real, middle: real, lower: real)

  /** `np.std` with its default of dividing by the window length: a
      non-negative value whose square is the population variance. The
      square root itself is not computed here; the caller supplies it. */
  predicate IsStd(std: real, window: seq<real>)
    requires |window| > 0
  {
    std >= 0.0 && std * std == Variance(window)
  }

  /** The window `closing_prices[-window_size:]`. A negative window size
      is accepted by the constructor and makes the slice drop the first
      |window_size| prices instead. */
  function Window(prices: seq<real>, windowSize: int): (w: seq<real>)
    ensures windowSize >= 1 && windowSize <= |prices| ==> |w| == windowSize
    ensures windowSize == 0 ==> w == prices
    ensures windowSize < 0 && -windowSize <= |prices| ==> w == prices[-windowSize..]
    ensures windowSize < 0 && -windowSize > |prices| ==> w == []
    ensures |w| <= |prices|
    ensures w == prices[|prices| - |w|..]
  {
    Trailing(prices, windowSize)
  }

  /** `calculate_bollinger_bands`. Too few prices raise ValueError. The
      only other failure is an empty window (no prices, or a negative window
      size dropping every price), whose mean numpy reports as NaN. `std`
      stands for the standard deviation of the window. */
  function CalculateBands(prices: seq<real>, windowSize: int, numStd: real, std: real): (r: Result<Bands>)
    requires windowSize <= |prices| && |Window(prices, windowSize)| > 0 ==> IsStd(std, Window(prices, windowSize))
    ensures |prices| < windowSize ==> r == Fail(NotEnoughData)
    ensures windowSize <= |prices| && |Window(prices, windowSize)| == 0 ==> r == Fail(DegenerateDivision)
    ensures r.Ok? <==> windowSize <= |prices| && |Window(prices, windowSize)| > 0
    ensures windowSize >= 0 ==> (r.Ok? <==> windowSize <= |prices| && |prices| > 0)
    ensures r.Ok? ==> r.value.middle == Mean(Window(prices, windowSize))
    ensures r.Ok? ==> r.value.upper - r.value.middle == numStd * std
    ensures r.Ok? ==> r.value.middle - r.value.lower == numStd * std
  {
    if |prices| < windowSize then Fail(NotEnoughData)
    else if |Window(prices, windowSize)| == 0 then Fail(DegenerateDivision)
    else
      var mean := Mean(Window(prices, windowSize));
      Ok(Bands(mean + numStd * std, mean, mean - numStd * std))
  }

  /** With a non-negative multiplier the bands are ordered. */
  lemma BandsOrdered(prices: seq<real>, windowSize: int, numStd: real, std: real)
    requires windowSize <= |prices| && |Window(prices, windowSize)| > 0
    requires IsStd(std, Window(prices, windowSize))
    requires numStd >= 0.0
    ensures CalculateBands(prices, windowSize, numStd, std).Ok?
    ensures var b := CalculateBands(prices, windowSize, numStd, std).value;
      b.lower <= b.middle <= b.upper
  {
    ProductNonNegative(numStd, std);
  }

  lemma ProductNonNegative(a: real, b: real)
    requires a >= 0.0 && b >= 0.0
    ensures a * b >= 0.0
  {
  }

  /** The bands sit symmetrically around the middle band. */
  lemma BandsSymmetric(prices: seq<real>, windowSize: int, numStd: real, std: real)
    requires windowSize <= |prices| && |Window(prices, windowSize)| > 0
    requires IsStd(std, Window(prices, windowSize))
    ensures var r := CalculateBands(prices, windowSize, numStd, std);
      r.Ok? && r.value.upper - r.value.middle == r.value.middle - r.value.lower
  {
  }

  /** Prices before the window have no effect on the bands. */
  lemma OnlyWindowMatters(earlier: seq<real>, prices: seq<real>, windowSize: int, numStd: real, std: real)
    requires 1 <= windowSize <= |prices|
    requires IsStd(std, Window(prices, windowSize))
    ensures Window(earlier + prices, windowSize) == Window(prices, windowSize)
    ensures CalculateBands(earlier + prices, windowSize, numStd, std) == CalculateBands(prices, windowSize, numStd, std)
  {
    TrailingIgnoresPrefix(earlier, prices, windowSize);
  }

  /** A negative window size passes the length check and averages the
      prices after the first |window_size| ones: `window_size=-2` over ten
      prices gives the bands of `prices[2:]`. */
  lemma NegativeWindowDropsPrefix(prices: seq<real>, numStd: real, std: real)
    requires |prices| == 10
    requires IsStd(std, prices[2..])
    ensures Window(prices, -2) == prices[2..]
    ensures CalculateBands(prices, -2, numStd, std) == CalculateBands(prices[2..], 8, numStd, std)
  {
    assert Window(prices[2..], 8) == prices[2..];
  }

  /** A zero product has a zero factor. */
  lemma ProductZero(a: real, b: real)
    requires a * b == 0.0
    ensures a == 0.0 || b == 0.0
  {
    if a != 0.0 {
      calc {
        b;
        (a * b) / a;
        0.0 / a;
        0.0;
      }
    }
  }

  /** A constant window has standard deviation 0, so all three bands are
      that constant. */
  lemma ConstantWindowCollapses(prices: seq<real>, windowSize: int, numStd: real, std: real, c: real)
    requires windowSize <= |prices| && |Window(prices, windowSize)| > 0
    requires IsStd(std, Window(prices, windowSize))
    requires forall i :: 0 <= i < |Window(prices, windowSize)| ==> Window(prices, windowSize)[i] == c
    ensures CalculateBands(prices, windowSize, numStd, std) == Ok(Bands(c, c, c))
  {
    VarianceOfConstant(Window(prices, windowSize), c);
    ProductZero(std, std);
  }

  /** `decide_buy_sell_hold_signals` over the last closing price and the
      bands. The source indexes `[-1]` into the bands, which the calculator
      returns as single numbers; the bands are taken as those numbers here.
      An empty price list fails at `closing_prices[-1]`. */
  function Decide(closes: seq<real>, bands: Bands): (r: Result<Signal>)
    ensures r.Fail? <==> |closes| == 0
    ensures r.Fail? ==> r.error == IndexOutOfRange
    ensures r.Ok? ==>
      var last := closes[|closes| - 1];
      (r.value == Buy <==> last < bands.lower) &&
      (r.value == Sell <==> bands.lower <= last && last > bands.upper) &&
      (r.value == Hold <==> bands.lower <= last <= bands.upper)
  {
    if |closes| == 0 then Fail(IndexOutOfRange)
    else
      var last := closes[|closes| - 1];
      if last < bands.lower then Ok(Buy)
      else if last > bands.upper then Ok(Sell)
      else Ok(Hold)
  }

  /** A price exactly on a band is a hold. */
  lemma OnBandHolds(closes: seq<real>, bands: Bands)
    requires |closes| > 0
    requires bands.lower <= bands.upper
    requires closes[|closes| - 1] == bands.lower || closes[|closes| - 1] == bands.upper
    ensures Decide(closes, bands) == Ok(Hold)
  {
  }

  /** Prices that are constant over the window yield a hold. */
  lemma ConstantPricesHold(prices: seq<real>, windowSize: int, numStd: real, std: real, c: real)
    requires windowSize <= |prices| && |Window(prices, windowSize)| > 0
    requires IsStd(std, Window(prices, windowSize))
    requires forall i :: 0 <= i < |prices| ==> prices[i] == c
    ensures CalculateBands(prices, windowSize, numStd, std).Ok?
    ensures Decide(prices, CalculateBands(prices, windowSize, numStd, std).value) == Ok(Hold)
  {
    var w := Window(prices, windowSize);
    forall i | 0 <= i < |w| ensures w[i] == c {
      assert w[i] == prices[|prices| - |w| + i];
    }
    ConstantWindowCollapses(prices, windowSize, numStd, std, c);
  }
}
