/** The stochastic oscillator: %K places each close within the range of the
    recent highs and lows, %D averages the latest %K values, and the decider
    compares the two against a threshold. */
module Stochastic {
  import opened Results
  import opened Signals
  import opened Series

  /** The settings an oscillator keeps; `threshold` is a fraction. The
      periods are any integers, as the constructor accepts them; a negative
      period makes the `[-period:]` slices drop leading values instead. */
  datatype Oscillator = Oscillator(kPeriod: int, dPeriod: int, threshold: real)

  /** %K for every close and the single %D value. */
  datatype Reading = Reading(k: seq<real>, d: real)

  /** `__init__`: the threshold is given in percent and kept as a fraction. */
  function NewOscillator(kPeriod: int, dPeriod: int, thresholdPercent: real): (o: Oscillator)
    ensures o.kPeriod == kPeriod && o.dPeriod == dPeriod
    ensures o.threshold * 100.0 == thresholdPercent
  {
    Oscillator(kPeriod, dPeriod, thresholdPercent / 100.0)
  }

  /** The constructor defaults: 14 periods for %K, 3 for %D, 20 percent. */
  lemma DefaultSettings()
    ensures NewOscillator(14, 3, 20.0) == Oscillator(14, 3, 0.2)
  {
  }

  /** One %K value: where `close` lies between `ll` (0) and `hh` (100). */
  function PercentK(close: real, ll: real, hh: real): real
    requires hh != ll
  {
    100.0 * ((close - ll) / (hh - ll))
  }

  /** A close inside a non-empty range gives a %K in [0, 100], with the
      bottom of the range at 0 and the top at 100. */
  lemma PercentKBounded(close: real, ll: real, hh: real)
    requires ll < hh
    requires ll <= close <= hh
    ensures 0.0 <= PercentK(close, ll, hh) <= 100.0
    ensures close == ll ==> PercentK(close, ll, hh) == 0.0
    ensures close == hh ==> PercentK(close, ll, hh) == 100.0
  {
    QuotientBounds(close - ll, hh - ll, 0.0, 1.0);
  }

  /** `stochastic_oscillator`. `np.max`/`np.min` of an empty window raise;
      a flat range (`hh == ll`) makes numpy divide by zero, and an empty %D
      window (no closes, or a negative %D period dropping them all) leaves
      %D the mean of nothing: both are reported as a degenerate division. */
  function Calculate(o: Oscillator, high: seq<real>, low: seq<real>, close: seq<real>): (r: Result<Reading>)
    ensures |Trailing(high, o.kPeriod)| == 0 || |Trailing(low, o.kPeriod)| == 0 ==> r == Fail(EmptyArgument)
    ensures o.kPeriod >= 0 && (|high| == 0 || |low| == 0) ==> r == Fail(EmptyArgument)
    ensures |Trailing(high, o.kPeriod)| > 0 && |Trailing(low, o.kPeriod)| > 0 ==>
      (r.Fail? <==> Max(Trailing(high, o.kPeriod)) == Min(Trailing(low, o.kPeriod)) ||
                    |close| == 0 || (o.dPeriod < 0 && -o.dPeriod >= |close|))
    ensures |Trailing(high, o.kPeriod)| > 0 && |Trailing(low, o.kPeriod)| > 0 && r.Fail? ==>
      r.error == DegenerateDivision
    ensures r.Ok? ==> |Trailing(high, o.kPeriod)| > 0 && |Trailing(low, o.kPeriod)| > 0
    ensures r.Ok? ==>
      var hh := Max(Trailing(high, o.kPeriod));
      var ll := Min(Trailing(low, o.kPeriod));
      hh != ll &&
      |r.value.k| == |close| &&
      (forall i :: 0 <= i < |close| ==> r.value.k[i] == PercentK(close[i], ll, hh)) &&
      |Trailing(r.value.k, o.dPeriod)| > 0 &&
      r.value.d == Mean(Trailing(r.value.k, o.dPeriod))
  {
    if |Trailing(high, o.kPeriod)| == 0 || |Trailing(low, o.kPeriod)| == 0 then Fail(EmptyArgument)
    else
      var hh := Max(Trailing(high, o.kPeriod));
      var ll := Min(Trailing(low, o.kPeriod));
      if hh == ll then Fail(DegenerateDivision)
      else
        var k := PercentKs(close, ll, hh);
        if |Trailing(k, o.dPeriod)| == 0 then Fail(DegenerateDivision)
        else Ok(Reading(k, Mean(Trailing(k, o.dPeriod))))
  }

  /** A negative %K period reads the highs and lows after the first
      |k_period| of them: `k_period=-2` over ten bars uses bars 2 to 9. */
  lemma NegativeKPeriodDropsPrefix(o: Oscillator, high: seq<real>, low: seq<real>, close: seq<real>)
    requires o.kPeriod == -2 && |high| == 10 && |low| == 10
    ensures Trailing(high, o.kPeriod) == high[2..] && Trailing(low, o.kPeriod) == low[2..]
    ensures Calculate(o, high, low, close) == Calculate(o.(kPeriod := 8), high[2..], low[2..], close)
  {
    var h, l := high[2..], low[2..];
    assert |h| == 8 && |l| == 8;
    assert Trailing(h, 8) == h;
    assert Trailing(l, 8) == l;
    assert Trailing(high, -2) == h;
    assert Trailing(low, -2) == l;
    SameWindowsSameReading(o, high, low, o.(kPeriod := 8), high[2..], low[2..], close);
  }

  /** The highs and lows matter only through their trailing windows. */
  lemma SameWindowsSameReading(o: Oscillator, high: seq<real>, low: seq<real>,
                               o': Oscillator, high': seq<real>, low': seq<real>, close: seq<real>)
    requires o.dPeriod == o'.dPeriod
    requires Trailing(high, o.kPeriod) == Trailing(high', o'.kPeriod)
    requires Trailing(low, o.kPeriod) == Trailing(low', o'.kPeriod)
    ensures Calculate(o, high, low, close) == Calculate(o', high', low', close)
  {
  }

  /** `100 * (close - ll) / (hh - ll)` element-wise. */
  function PercentKs(close: seq<real>, ll: real, hh: real): (k: seq<real>)
    requires hh != ll
    ensures |k| == |close|
    ensures forall i :: 0 <= i < |close| ==> k[i] == PercentK(close[i], ll, hh)
  {
    seq(|close|, i requires 0 <= i < |close| => PercentK(close[i], ll, hh))
  }

  /** %D lies between the smallest and largest of the %K values it
      averages. */
  lemma DBetweenAveragedK(o: Oscillator, high: seq<real>, low: seq<real>, close: seq<real>)
    requires Calculate(o, high, low, close).Ok?
    ensures var rd := Calculate(o, high, low, close).value;
      Min(Trailing(rd.k, o.dPeriod)) <= rd.d <= Max(Trailing(rd.k, o.dPeriod))
  {
    var rd := Calculate(o, high, low, close).value;
    MeanBetween(Trailing(rd.k, o.dPeriod));
  }

  /** Closes inside the recent high-low range give every %K, and so %D, a
      value in [0, 100]. */
  lemma ReadingInRange(o: Oscillator, high: seq<real>, low: seq<real>, close: seq<real>)
    requires Calculate(o, high, low, close).Ok?
    requires Min(Trailing(low, o.kPeriod)) < Max(Trailing(high, o.kPeriod))
    requires forall i :: 0 <= i < |close| ==>
      Min(Trailing(low, o.kPeriod)) <= close[i] <= Max(Trailing(high, o.kPeriod))
    ensures var rd := Calculate(o, high, low, close).value;
      (forall i :: 0 <= i < |rd.k| ==> 0.0 <= rd.k[i] <= 100.0) && 0.0 <= rd.d <= 100.0
  {
    var rd := Calculate(o, high, low, close).value;
    var hh := Max(Trailing(high, o.kPeriod));
    var ll := Min(Trailing(low, o.kPeriod));
    assert rd.k == PercentKs(close, ll, hh);
    PercentKsBounded(close, ll, hh);
    TrailingMeanBounded(rd.k, o.dPeriod);
  }

  lemma PercentKsBounded(close: seq<real>, ll: real, hh: real)
    requires ll < hh
    requires forall i :: 0 <= i < |close| ==> ll <= close[i] <= hh
    ensures forall i :: 0 <= i < |close| ==> 0.0 <= PercentKs(close, ll, hh)[i] <= 100.0
  {
    forall i | 0 <= i < |close| ensures 0.0 <= PercentKs(close, ll, hh)[i] <= 100.0 {
      PercentKBounded(close[i], ll, hh);
    }
  }

  lemma TrailingMeanBounded(k: seq<real>, dPeriod: int)
    requires |Trailing(k, dPeriod)| > 0
    requires forall i :: 0 <= i < |k| ==> 0.0 <= k[i] <= 100.0
    ensures 0.0 <= Mean(Trailing(k, dPeriod)) <= 100.0
  {
    var w := Trailing(k, dPeriod);
    forall i | 0 <= i < |w| ensures 0.0 <= w[i] <= 100.0 {
      assert w[i] == k[|k| - |w| + i];
    }
    MeanWithin(w, 0.0, 100.0);
  }

  /** `decide_buy_sell_hold_signals` over the last %K and the %D value.
      The source also indexes `[-1]` into D, which the calculator returns
      as a single number; D is taken as that number here. No %K values
      fail at `K[-1]`. */
  function Decide(o: Oscillator, k: seq<real>, d: real): (r: Result<Signal>)
    ensures r.Fail? <==> |k| == 0
    ensures r.Fail? ==> r.error == IndexOutOfRange
    ensures r.Ok? ==>
      var last := k[|k| - 1];
      (r.value == Buy <==> last > d && last > 1.0 - o.threshold) &&
      (r.value == Sell <==> last < d && last < 1.0 - o.threshold) &&
      (r.value == Hold <==> !(last > d && last > 1.0 - o.threshold) && !(last < d && last < 1.0 - o.threshold))
  {
    if |k| == 0 then Fail(IndexOutOfRange)
    else
      var last := k[|k| - 1];
      if last > d && last > 1.0 - o.threshold then Ok(Buy)
      else if last < d && last < 1.0 - o.threshold then Ok(Sell)
      else Ok(Hold)
  }

  /** A last %K equal to %D is always a hold. */
  lemma KEqualsDHolds(o: Oscillator, k: seq<real>)
    requires |k| > 0
    ensures Decide(o, k, k[|k| - 1]) == Ok(Hold)
  {
  }
}
