/** Relative Strength Index: Wilder-smoothed average gain and loss, turned
    into `100 - 100 / (1 + up / down)` for every price, and a per-element
    threshold classification of the resulting series. */
module Rsi {
  import opened Results
  import opened Signals

  /** RSI_BUY_THRESHOLD and RSI_SELL_THRESHOLD of the constants module. */
  const BuyThreshold: real := 30.0
  const SellThreshold: real := 70.0

  /** A computed RSI entry. numpy divides by a zero `down` without raising:
      `up / 0` is inf (RSI 100) and `0 / 0` is NaN, which `NaN` records. */
  datatype RsiValue = Value(v: real) | NaN

  /** The smoothed average gain and loss in effect at one position. */
  datatype Averages = Averages(up: real, down: real)

  /** `np.diff`: the change from each price to the next. */
  function Deltas(prices: seq<real>): (d: seq<real>)
    ensures |d| == if |prices| == 0 then 0 else |prices| - 1
    ensures forall i :: 0 <= i < |d| ==> d[i] == prices[i + 1] - prices[i]
  {
    if |prices| == 0 then []
    else seq(|prices| - 1, i requires 0 <= i < |prices| - 1 => prices[i + 1] - prices[i])
  }

  /** `seed[seed >= 0].sum()`: the sum of the non-negative changes. */
  function Gains(s: seq<real>): (g: real)
    ensures g >= 0.0
  {
    if |s| == 0 then 0.0 else (if s[0] >= 0.0 then s[0] else 0.0) + Gains(s[1..])
  }

  /** `-seed[seed < 0].sum()`: the magnitude of the sum of the falls. */
  function Losses(s: seq<real>): (l: real)
    ensures l >= 0.0
  {
    if |s| == 0 then 0.0 else (if s[0] < 0.0 then -s[0] else 0.0) + Losses(s[1..])
  }

  /** `deltas[:period + 1]`: up to period + 1 changes (one more than the
      period, as the code slices). */
  function Seed(prices: seq<real>, period: nat): (seed: seq<real>)
    ensures |seed| <= period + 1 && |seed| <= |Deltas(prices)|
    ensures seed == Deltas(prices)[..|seed|]
    ensures |seed| == period + 1 || seed == Deltas(prices)
  {
    var d := Deltas(prices);
    if period + 1 <= |d| then d[..period + 1] else d
  }

  function SeedAverages(prices: seq<real>, period: nat): (a: Averages)
    requires period >= 1
    ensures a.up >= 0.0 && a.down >= 0.0
  {
    var seed := Seed(prices, period);
    QuotientNonNegative(Gains(seed), period as real);
    QuotientNonNegative(Losses(seed), period as real);
    Averages(Gains(seed) / period as real, Losses(seed) / period as real)
  }

  lemma QuotientNonNegative(a: real, b: real)
    requires a >= 0.0 && b > 0.0
    ensures a / b >= 0.0
  {
  }

  /** Wilder's step `(prev * (period - 1) + value) / period`. */
  function Smooth(prev: real, value: real, period: nat): (r: real)
    requires period >= 1
    ensures prev >= 0.0 && value >= 0.0 ==> r >= 0.0
    ensures value > 0.0 && prev >= 0.0 ==> r > 0.0
    ensures prev == 0.0 && value == 0.0 ==> r == 0.0
  {
    (prev * (period - 1) as real + value) / period as real
  }

  function UpMove(delta: real): (u: real)
    ensures u >= 0.0
    ensures u > 0.0 <==> delta > 0.0
  {
    if delta > 0.0 then delta else 0.0
  }

  function DownMove(delta: real): (d: real)
    ensures d >= 0.0
    ensures d > 0.0 <==> delta < 0.0
    ensures UpMove(delta) - d == delta
  {
    if delta > 0.0 then 0.0 else -delta
  }

  /** The averages used for position i: the seed for the first `period`
      positions, then one Wilder step per later position, fed by the change
      into that position. */
  function AveragesAt(prices: seq<real>, period: nat, i: nat): (a: Averages)
    requires period >= 1
    requires i < |prices|
    ensures a.up >= 0.0 && a.down >= 0.0
  {
    if i < period then SeedAverages(prices, period)
    else
      var prev := AveragesAt(prices, period, i - 1);
      var delta := Deltas(prices)[i - 1];
      Averages(Smooth(prev.up, UpMove(delta), period), Smooth(prev.down, DownMove(delta), period))
  }

  /** One Wilder step from position i - 1 to position i. */
  lemma AveragesStep(prices: seq<real>, period: nat, i: nat)
    requires period >= 1
    requires period <= i < |prices|
    ensures var prev, delta := AveragesAt(prices, period, i - 1), Deltas(prices)[i - 1];
      AveragesAt(prices, period, i)
        == Averages(Smooth(prev.up, UpMove(delta), period), Smooth(prev.down, DownMove(delta), period))
  {
  }

  /** `100 - 100 / (1 + up / down)`, with numpy's outcome for `down == 0`. */
  function RsiOf(a: Averages): (r: RsiValue)
    requires a.up >= 0.0 && a.down >= 0.0
    ensures a.down > 0.0 ==> r.Value? && 0.0 <= r.v < 100.0
    ensures a.down > 0.0 && a.up == 0.0 ==> r == Value(0.0)
    ensures a.down == 0.0 && a.up > 0.0 ==> r == Value(100.0)
    ensures r == NaN <==> a.down == 0.0 && a.up == 0.0
  {
    if a.down > 0.0 then
      var rs := a.up / a.down;
      RsiFormula(a.up, a.down);
      Value(100.0 - 100.0 / (1.0 + rs))
    else if a.up > 0.0 then Value(100.0)
    else NaN
  }

  /** With a positive loss average, `rs = up / down` is at least 0, so
      `100 / (1 + rs)` lies in (0, 100] and the RSI in [0, 100). */
  lemma RsiFormula(up: real, down: real)
    requires up >= 0.0 && down > 0.0
    ensures 1.0 + up / down >= 1.0
    ensures 0.0 <= 100.0 - 100.0 / (1.0 + up / down) < 100.0
    ensures up == 0.0 ==> 100.0 - 100.0 / (1.0 + up / down) == 0.0
  {
    var x := 1.0 + up / down;
    assert x >= 1.0;
    assert 100.0 / x * x == 100.0;
  }

  /** The first m entries of the series `calculate_rsi` returns. */
  function RsiPrefix(prices: seq<real>, period: nat, m: nat): (r: seq<RsiValue>)
    requires period >= 1
    requires m <= |prices|
    ensures |r| == m
  {
    if m == 0 then [] else RsiPrefix(prices, period, m - 1) + [RsiOf(AveragesAt(prices, period, m - 1))]
  }

  /** One more entry; within the first `period` positions it is the seed
      RSI. */
  lemma PrefixStep(prices: seq<real>, period: nat, m: nat)
    requires period >= 1
    requires m < |prices|
    ensures RsiPrefix(prices, period, m + 1) ==
      RsiPrefix(prices, period, m) + [RsiOf(AveragesAt(prices, period, m))]
    ensures m < period ==> AveragesAt(prices, period, m) == SeedAverages(prices, period)
  {
  }

  /** The first `period` entries (all, when there are fewer prices) are
      the seed RSI. */
  lemma {:induction false} SeedPrefix(prices: seq<real>, period: nat, m: nat, cells: seq<RsiValue>)
    requires 1 <= period
    requires m <= period && m <= |prices|
    requires |cells| == m
    requires forall k :: 0 <= k < m ==> cells[k] == RsiOf(SeedAverages(prices, period))
    ensures cells == RsiPrefix(prices, period, m)
  {
    if m > 0 {
      SeedPrefix(prices, period, m - 1, cells[..m - 1]);
      PrefixStep(prices, period, m - 1);
      assert cells == cells[..m - 1] + [cells[m - 1]];
    }
  }

  /** The series `calculate_rsi` returns: one entry per price. */
  function RsiSeries(prices: seq<real>, period: nat): (rsi: seq<RsiValue>)
    requires period >= 1
    ensures |rsi| == |prices|
  {
    RsiPrefix(prices, period, |prices|)
  }

  /** Entry k of the series is the RSI of the averages at position k. */
  lemma {:induction false} RsiPrefixAt(prices: seq<real>, period: nat, m: nat, k: nat)
    requires period >= 1
    requires k < m <= |prices|
    ensures RsiPrefix(prices, period, m)[k] == RsiOf(AveragesAt(prices, period, k))
  {
    if k < m - 1 {
      RsiPrefixAt(prices, period, m - 1, k);
    }
  }

  lemma RsiSeriesAt(prices: seq<real>, period: nat, k: nat)
    requires period >= 1
    requires k < |prices|
    ensures RsiSeries(prices, period)[k] == RsiOf(AveragesAt(prices, period, k))
  {
    RsiPrefixAt(prices, period, |prices|, k);
  }

  /** `calculate_rsi`: fills a zero array of the prices' length, writing the
      seed RSI into its first `period` cells and one smoothed RSI into each
      later cell. */
  method CalculateRsi(prices: seq<real>, period: nat) returns (rsi: seq<RsiValue>)
    requires period >= 1
    ensures |rsi| == |prices|
    ensures rsi == RsiSeries(prices, period)
  {
    var n := |prices|;
    // the seed: up to period + 1 changes, each side summed and divided by period
    var seed := SeedAverages(prices, period);
    var cells := new RsiValue[n](_ => Value(0.0));
    FillSeed(period, cells, RsiOf(seed));
    var m := if period < n then period else n;
    SeedPrefix(prices, period, m, cells[..m]);
    if period < n {
      FillSmoothed(prices, period, cells, seed.up, seed.down);
    }
    assert cells[..] == cells[..n];
    rsi := cells[..];
  }

  /** `rsi[:period] = 100. - 100. / (1. + rs)`: the seed RSI in the first
      `period` cells (all of them when there are fewer); later cells keep
      their value. */
  method FillSeed(period: nat, cells: array<RsiValue>, seedRsi: RsiValue)
    modifies cells
    ensures forall k :: 0 <= k < cells.Length && k < period ==> cells[k] == seedRsi
    ensures forall k :: period <= k < cells.Length ==> cells[k] == old(cells[k])
  {
    var m := if period < cells.Length then period else cells.Length;
    var j := 0;
    while j < m
      invariant 0 <= j <= m
      invariant forall k :: 0 <= k < j ==> cells[k] == seedRsi
      invariant forall k :: j <= k < cells.Length ==> cells[k] == old(cells[k])
    {
      cells[j] := seedRsi;
      j := j + 1;
    }
  }

  /** The loop of `calculate_rsi`: from position `period` on, one Wilder
      step of both averages per price, then the RSI of the new averages. */
  method FillSmoothed(prices: seq<real>, period: nat, cells: array<RsiValue>, up0: real, down0: real)
    requires 1 <= period < |prices|
    requires cells.Length == |prices|
    requires Averages(up0, down0) == AveragesAt(prices, period, period - 1)
    requires cells[..period] == RsiPrefix(prices, period, period)
    modifies cells
    ensures cells[..] == RsiPrefix(prices, period, |prices|)
  {
    var deltas := Deltas(prices);
    var up, down := up0, down0;
    var i := period;
    while i < cells.Length
      invariant period <= i <= cells.Length
      invariant Averages(up, down) == AveragesAt(prices, period, i - 1)
      invariant cells[..i] == RsiPrefix(prices, period, i)
    {
      var delta := deltas[i - 1];
      var upval, downval;
      if delta > 0.0 {
        upval, downval := delta, 0.0;
      } else {
        upval, downval := 0.0, -delta;
      }
      assert upval == UpMove(delta) && downval == DownMove(delta);
      AveragesStep(prices, period, i);
      up := Smooth(up, upval, period);
      down := Smooth(down, downval, period);
      PrefixStep(prices, period, i);
      cells[i] := RsiOf(Averages(up, down));
      assert cells[..i + 1] == cells[..i] + [cells[i]];
      i := i + 1;
    }
    assert cells[..] == cells[..i];
  }

  /** The first `period` positions all hold the seed RSI. */
  lemma SeedPrefixConstant(prices: seq<real>, period: nat, i: nat)
    requires period >= 1
    requires i < |prices| && i < period
    ensures RsiSeries(prices, period)[i] == RsiOf(SeedAverages(prices, period))
    ensures RsiSeries(prices, period)[i] == RsiSeries(prices, period)[0]
  {
    RsiSeriesAt(prices, period, i);
    RsiSeriesAt(prices, period, 0);
  }


  /** Every defined RSI value lies in [0, 100]; a value below 100 whenever
      the smoothed loss is positive; NaN only when both averages are 0. */
  lemma RsiBounded(prices: seq<real>, period: nat, i: nat)
    requires period >= 1
    requires i < |prices|
    ensures var r := RsiSeries(prices, period)[i];
      r.Value? ==> 0.0 <= r.v <= 100.0
    ensures AveragesAt(prices, period, i).down > 0.0 ==>
      var r := RsiSeries(prices, period)[i];
      r.Value? && r.v < 100.0
  {
    RsiSeriesAt(prices, period, i);
  }

  /** With strictly falling prices every change is a loss: the average gain
      stays 0 while the average loss stays positive, so every RSI is 0. */
  lemma {:induction false} FallingPricesAveragesAt(prices: seq<real>, period: nat, i: nat)
    requires period >= 1
    requires |prices| >= 2
    requires forall k :: 0 < k < |prices| ==> prices[k] < prices[k - 1]
    requires i < |prices|
    ensures AveragesAt(prices, period, i).up == 0.0
    ensures AveragesAt(prices, period, i).down > 0.0
  {
    FallingDeltas(prices);
    if i < period {
      FallingSeed(Seed(prices, period));
    } else {
      FallingPricesAveragesAt(prices, period, i - 1);
      var prev := AveragesAt(prices, period, i - 1);
      var delta := Deltas(prices)[i - 1];
      assert delta < 0.0;
      assert AveragesAt(prices, period, i)
        == Averages(Smooth(prev.up, UpMove(delta), period), Smooth(prev.down, DownMove(delta), period));
    }
  }

  lemma FallingDeltas(prices: seq<real>)
    requires forall k :: 0 < k < |prices| ==> prices[k] < prices[k - 1]
    ensures forall k :: 0 <= k < |Deltas(prices)| ==> Deltas(prices)[k] < 0.0
  {
    var d := Deltas(prices);
    forall k | 0 <= k < |d| ensures d[k] < 0.0 {
      assert d[k] == prices[k + 1] - prices[k];
    }
  }

  lemma {:induction false} FallingSeed(seed: seq<real>)
    requires forall k :: 0 <= k < |seed| ==> seed[k] < 0.0
    ensures Gains(seed) == 0.0
    ensures |seed| > 0 ==> Losses(seed) > 0.0
  {
    if |seed| > 0 {
      FallingSeed(seed[1..]);
    }
  }

  /** Strictly falling prices give an RSI of 0 at every position, and so a
      buy signal for every position. */
  lemma FallingPricesBuy(prices: seq<real>, period: nat)
    requires period >= 1
    requires |prices| >= 2
    requires forall k :: 0 < k < |prices| ==> prices[k] < prices[k - 1]
    ensures forall i :: 0 <= i < |prices| ==> RsiSeries(prices, period)[i] == Value(0.0)
    ensures forall i :: 0 <= i < |prices| ==> Classify(RsiSeries(prices, period)[i]) == Buy
  {
    forall i | 0 <= i < |prices|
      ensures RsiSeries(prices, period)[i] == Value(0.0)
    {
      FallingPricesAveragesAt(prices, period, i);
      RsiSeriesAt(prices, period, i);
    }
  }

  /** The signal for one RSI value; NaN compares false both ways. */
  function Classify(r: RsiValue): (s: Signal)
    ensures s == Buy <==> r.Value? && r.v < BuyThreshold
    ensures s == Sell <==> r.Value? && r.v > SellThreshold
    ensures s == Hold <==> r == NaN || BuyThreshold <= r.v <= SellThreshold
  {
    if r.Value? && r.v < BuyThreshold then Buy
    else if r.Value? && r.v > SellThreshold then Sell
    else Hold
  }

  /** `decide_buy_sell_hold_signals`: one signal per RSI value, in order;
      logging `signals[-1]` raises IndexError on an empty input. */
  method DecideSignals(rsi: seq<RsiValue>) returns (r: Result<seq<Signal>>)
    ensures r.Fail? <==> |rsi| == 0
    ensures r.Fail? ==> r.error == IndexOutOfRange
    ensures r.Ok? ==> |r.value| == |rsi|
    ensures r.Ok? ==> forall i :: 0 <= i < |rsi| ==> r.value[i] == Classify(rsi[i])
  {
    var signals: seq<Signal> := [];
    var i := 0;
    while i < |rsi|
      invariant 0 <= i <= |rsi|
      invariant |signals| == i
      invariant forall k :: 0 <= k < i ==> signals[k] == Classify(rsi[k])
    {
      if rsi[i].Value? && rsi[i].v < BuyThreshold {
        signals := signals + [Buy];
      } else if rsi[i].Value? && rsi[i].v > SellThreshold {
        signals := signals + [Sell];
      } else {
        signals := signals + [Hold];
      }
      i := i + 1;
    }
    if |signals| == 0 {
      return Fail(IndexOutOfRange);
    }
    r := Ok(signals);
  }
}
