/** Ichimoku cloud: the leading span A is the element-wise average of the
    conversion (tenkan-sen) and base (kijun-sen) lines, which a charting
    library computes and are inputs here; the decider places the current
    price against the latest values of the two leading spans. */
module Ichimoku {
  import opened Results
  import opened Signals

  /** `(tenkan_sen + kijun_sen) / 2`. Both lines are computed from the same
      high and low series, so they share their index and length. */
  function SpanA(tenkan: seq<real>, kijun: seq<real>): (a: seq<real>)
    requires |tenkan| == |kijun|
    ensures |a| == |tenkan|
    ensures forall i :: 0 <= i < |a| ==> a[i] + a[i] == tenkan[i] + kijun[i]
  {
    seq(|tenkan|, i requires 0 <= i < |tenkan| => (tenkan[i] + kijun[i]) / 2.0)
  }

  /** Each span-A value lies between the two lines it averages. */
  lemma SpanABetween(tenkan: seq<real>, kijun: seq<real>, i: nat)
    requires |tenkan| == |kijun|
    requires i < |tenkan|
    ensures var a := SpanA(tenkan, kijun)[i];
      (tenkan[i] <= a <= kijun[i]) || (kijun[i] <= a <= tenkan[i])
  {
  }

  /** Equal lines give a span A equal to them. */
  lemma SpanAOfEqualLines(line: seq<real>)
    ensures SpanA(line, line) == line
  {
  }

  /** `decide_buy_sell_hold_signals`: buy above the whole cloud, sell below
      it, hold inside it or on its edge. Each test reads `senkou_span_a[-1]`
      first and, through Python's short-circuit `and`, reads
      `senkou_span_b[-1]` only when the price is on the tested side of span
      A; an empty span raises only when it is read. */
  function Decide(spanA: seq<real>, spanB: seq<real>, price: real): (r: Result<Signal>)
    ensures r.Fail? <==> |spanA| == 0 || (|spanB| == 0 && price != spanA[|spanA| - 1])
    ensures r.Fail? ==> r.error == IndexOutOfRange
    ensures r.Ok? ==> r.value != Unknown
    ensures r.Ok? && |spanB| == 0 ==> r.value == Hold
    ensures r.Ok? && |spanB| > 0 ==> var a, b := spanA[|spanA| - 1], spanB[|spanB| - 1];
      (r.value == Buy <==> price > a && price > b) &&
      (r.value == Sell <==> price < a && price < b) &&
      (r.value == Hold <==> (a <= price || b <= price) && (price <= a || price <= b))
  {
    if |spanA| == 0 then Fail(IndexOutOfRange)
    else
      var a := spanA[|spanA| - 1];
      if price > a then
        if |spanB| == 0 then Fail(IndexOutOfRange)
        else if price > spanB[|spanB| - 1] then Ok(Buy)
        else Ok(Hold)
      else if price < a then
        if |spanB| == 0 then Fail(IndexOutOfRange)
        else if price < spanB[|spanB| - 1] then Ok(Sell)
        else Ok(Hold)
      else Ok(Hold)
  }

  /** A price equal to the last span-A value fails both tests before span B
      is read, so it holds whatever span B is, even an empty one. */
  lemma PriceOnSpanAHolds(spanA: seq<real>, spanB: seq<real>)
    requires |spanA| > 0
    ensures Decide(spanA, spanB, spanA[|spanA| - 1]) == Ok(Hold)
  {
  }

  /** Only the last element of each span reaches the decision. */
  lemma OnlyLastValuesMatter(pa: seq<real>, pb: seq<real>, spanA: seq<real>, spanB: seq<real>, price: real)
    requires |spanA| > 0 && |spanB| > 0
    ensures Decide(pa + spanA, pb + spanB, price) == Decide(spanA, spanB, price)
  {
    assert (pa + spanA)[|pa + spanA| - 1] == spanA[|spanA| - 1];
    assert (pb + spanB)[|pb + spanB| - 1] == spanB[|spanB| - 1];
  }

  /** A price strictly between the two spans, or on either of them, holds. */
  lemma InsideCloudHolds(spanA: seq<real>, spanB: seq<real>, price: real)
    requires |spanA| > 0 && |spanB| > 0
    requires var a, b := spanA[|spanA| - 1], spanB[|spanB| - 1];
      (a <= price <= b) || (b <= price <= a)
    ensures Decide(spanA, spanB, price) == Ok(Hold)
  {
  }

  /** Once both spans are non-empty they play symmetric roles. */
  lemma SpansCommute(spanA: seq<real>, spanB: seq<real>, price: real)
    requires |spanA| > 0 && |spanB| > 0
    ensures Decide(spanA, spanB, price) == Decide(spanB, spanA, price)
  {
  }
}
