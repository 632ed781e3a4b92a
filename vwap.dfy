/** Volume-Weighted Average Price: the volume-weighted mean of the closing
    prices, and the decider that compares the current price with it. */
module Vwap {
  import opened Results
  import opened Signals
  import opened Series

  /** `(closing_prices * volumes).sum()`: the traded value. */
  function TotalValue(closes: seq<real>, volumes: seq<real>): real
    requires |closes| == |volumes|
  {
    if |closes| == 0 then 0.0
    else closes[0] * volumes[0] + TotalValue(closes[1..], volumes[1..])
  }

  /** numpy broadcasting of `closing_prices * volumes`: operands of equal
      length pair up element by element, a one-element operand is repeated
      against the other one, and any other pair of lengths raises. */
  function Broadcast(closes: seq<real>, volumes: seq<real>): (r: Result<(seq<real>, seq<real>)>)
    ensures r.Ok? <==> |closes| == |volumes| || |closes| == 1 || |volumes| == 1
    ensures r.Fail? ==> r.error == LengthMismatch
    ensures r.Ok? ==> |r.value.0| == |r.value.1| == (if |closes| == 1 then |volumes| else |closes|)
    ensures r.Ok? ==> forall i :: 0 <= i < |r.value.0| ==>
      r.value.0[i] == (if |closes| == 1 then closes[0] else closes[i]) &&
      r.value.1[i] == (if |volumes| == 1 then volumes[0] else volumes[i])
  {
    if |closes| == |volumes| then Ok((closes, volumes))
    else if |closes| == 1 then Ok((seq(|volumes|, _ => closes[0]), volumes))
    else if |volumes| == 1 then Ok((closes, seq(|closes|, _ => volumes[0])))
    else Fail(LengthMismatch)
  }

  /** `calculate_vwap`: the traded value of the broadcast operands over
      the total volume. Operands that do not broadcast raise; a zero total
      volume makes the division degenerate. */
  function CalculateVwap(volumes: seq<real>, closes: seq<real>): (r: Result<real>)
    ensures r == Fail(LengthMismatch) <==> |volumes| != |closes| && |volumes| != 1 && |closes| != 1
    ensures r.Ok? <==> (|volumes| == |closes| || |volumes| == 1 || |closes| == 1) && Sum(volumes) != 0.0
    ensures r.Fail? && r.error != LengthMismatch ==> r.error == DegenerateDivision
    ensures r.Ok? && |volumes| == |closes| ==> r.value * Sum(volumes) == TotalValue(closes, volumes)
  {
    match Broadcast(closes, volumes)
    case Fail(e) => Fail(e)
    case Ok(pair) =>
      if Sum(volumes) == 0.0 then Fail(DegenerateDivision)
      else Ok(TotalValue(pair.0, pair.1) / Sum(volumes))
  }

  lemma Distribute(a: real, b: real, c: real)
    ensures (b + c) * a == b * a + c * a
  {
  }

  lemma CancelFactor(p: real, s: real)
    requires s != 0.0
    ensures (p * s) / s == p
  {
  }

  lemma CancelCommon(c: real, t: real, v: real)
    requires c != 0.0 && v != 0.0
    ensures (c * t) / (c * v) == t / v
  {
    var q := t / v;
    assert t == q * v;
    assert c * t == q * (c * v);
    CancelFactor(q, c * v);
  }

  lemma ScaledBetween(c: real, v: real, lo: real, hi: real)
    requires v >= 0.0
    requires lo <= c <= hi
    ensures v * lo <= c * v <= v * hi
  {
  }

  /** One more weighted close added to bounded totals. */
  lemma CombineBounds(c: real, v: real, rest: real, restValue: real, lo: real, hi: real, total: real, value: real)
    requires v * lo <= c * v <= v * hi
    requires rest * lo <= restValue <= rest * hi
    requires total == v + rest && value == c * v + restValue
    ensures total * lo <= value <= total * hi
  {
    Distribute(lo, v, rest);
    Distribute(hi, v, rest);
  }

  /** Weighting by non-negative volumes keeps the traded value between the
      total volume times the lowest and times the highest price. */
  lemma {:induction false} TotalValueBounds(closes: seq<real>, volumes: seq<real>, lo: real, hi: real)
    requires |closes| == |volumes|
    requires forall i :: 0 <= i < |volumes| ==> volumes[i] >= 0.0
    requires forall i :: 0 <= i < |closes| ==> lo <= closes[i] <= hi
    ensures Sum(volumes) * lo <= TotalValue(closes, volumes) <= Sum(volumes) * hi
  {
    if |closes| > 0 {
      var rest := Sum(volumes[1..]);
      var cs, vs := closes[1..], volumes[1..];
      assert forall i :: 0 <= i < |vs| ==> vs[i] == volumes[i + 1];
      assert forall i :: 0 <= i < |cs| ==> cs[i] == closes[i + 1];
      TotalValueBounds(cs, vs, lo, hi);
      ScaledBetween(closes[0], volumes[0], lo, hi);
      CombineBounds(closes[0], volumes[0], rest, TotalValue(closes[1..], volumes[1..]), lo, hi,
                    Sum(volumes), TotalValue(closes, volumes));
    }
  }

  /** With non-negative volumes and a positive total, the VWAP lies
      within any bounds on the closes. */
  lemma VwapWithin(volumes: seq<real>, closes: seq<real>, lo: real, hi: real)
    requires |volumes| == |closes|
    requires forall i :: 0 <= i < |volumes| ==> volumes[i] >= 0.0
    requires Sum(volumes) > 0.0
    requires forall i :: 0 <= i < |closes| ==> lo <= closes[i] <= hi
    ensures CalculateVwap(volumes, closes).Ok?
    ensures lo <= CalculateVwap(volumes, closes).value <= hi
  {
    var t, v := TotalValue(closes, volumes), Sum(volumes);
    assert CalculateVwap(volumes, closes) == Ok(t / v);
    TotalValueBounds(closes, volumes, lo, hi);
    QuotientBounds(t, v, lo, hi);
  }

  /** In particular the VWAP lies between the lowest and the highest
      close. */
  lemma VwapBetween(volumes: seq<real>, closes: seq<real>)
    requires |volumes| == |closes|
    requires forall i :: 0 <= i < |volumes| ==> volumes[i] >= 0.0
    requires Sum(volumes) > 0.0
    ensures |closes| > 0
    ensures CalculateVwap(volumes, closes).Ok?
    ensures Min(closes) <= CalculateVwap(volumes, closes).value <= Max(closes)
  {
    assert |closes| > 0;
    VwapWithin(volumes, closes, Min(closes), Max(closes));
  }

  /** Constant closes weight to that constant. */
  lemma {:induction false} TotalValueOfConstant(closes: seq<real>, volumes: seq<real>, p: real)
    requires |closes| == |volumes|
    requires forall i :: 0 <= i < |closes| ==> closes[i] == p
    ensures TotalValue(closes, volumes) == p * Sum(volumes)
  {
    if |closes| > 0 {
      TotalValueOfConstant(closes[1..], volumes[1..], p);
      assert p * Sum(volumes) == p * volumes[0] + p * Sum(volumes[1..]);
    }
  }

  /** If every close is p, the VWAP is p. */
  lemma VwapOfConstant(volumes: seq<real>, closes: seq<real>, p: real)
    requires |volumes| == |closes|
    requires Sum(volumes) != 0.0
    requires forall i :: 0 <= i < |closes| ==> closes[i] == p
    ensures CalculateVwap(volumes, closes) == Ok(p)
  {
    var t, v := TotalValue(closes, volumes), Sum(volumes);
    assert CalculateVwap(volumes, closes) == Ok(t / v);
    TotalValueOfConstant(closes, volumes, p);
    assert t == p * v;
    CancelFactor(p, v);
    assert (p * v) / v == p;
    assert t / v == p;
  }

  /** A single close broadcast against the volumes is the VWAP itself. */
  lemma SingleCloseIsVwap(volumes: seq<real>, c: real)
    requires Sum(volumes) != 0.0
    ensures CalculateVwap(volumes, [c]) == Ok(c)
  {
    var pair := Broadcast([c], volumes).value;
    assert CalculateVwap(volumes, [c]) == Ok(TotalValue(pair.0, pair.1) / Sum(volumes));
    assert pair.1 == volumes;
    TotalValueOfConstant(pair.0, pair.1, c);
    assert TotalValue(pair.0, pair.1) == c * Sum(volumes);
    CancelFactor(c, Sum(volumes));
    assert (c * Sum(volumes)) / Sum(volumes) == c;
  }

  /** A constant volume line weights every close alike. */
  lemma {:induction false} TotalValueOfConstantVolume(closes: seq<real>, volumes: seq<real>, v: real)
    requires |closes| == |volumes|
    requires forall i :: 0 <= i < |volumes| ==> volumes[i] == v
    ensures TotalValue(closes, volumes) == Sum(closes) * v
  {
    if |closes| > 0 {
      TotalValueOfConstantVolume(closes[1..], volumes[1..], v);
      Distribute(v, closes[0], Sum(closes[1..]));
    }
  }

  /** A single volume broadcast against several closes gives their sum,
      not an average: the total value is v times the summed closes, while
      the total volume is v alone. */
  lemma SingleVolumeSumsCloses(v: real, closes: seq<real>)
    requires v != 0.0
    ensures CalculateVwap([v], closes) == Ok(Sum(closes))
  {
    var pair := Broadcast(closes, [v]).value;
    assert pair.0 == closes;
    SumSingle(v);
    TotalValueOfConstantVolume(pair.0, pair.1, v);
    BroadcastVwap([v], closes);
    DivideOut(TotalValue(pair.0, pair.1), Sum(closes), v);
  }

  /** A product divided by one of its factors leaves the other. */
  lemma DivideOut(t: real, p: real, s: real)
    requires s != 0.0 && t == p * s
    ensures t / s == p
  {
    CancelFactor(p, s);
  }

  /** A broadcastable pair over a non-zero total volume divides out. */
  lemma BroadcastVwap(volumes: seq<real>, closes: seq<real>)
    requires Broadcast(closes, volumes).Ok? && Sum(volumes) != 0.0
    ensures var pair := Broadcast(closes, volumes).value;
      CalculateVwap(volumes, closes) == Ok(TotalValue(pair.0, pair.1) / Sum(volumes))
  {
  }

  /** The total of a one-element volume line. */
  lemma SumSingle(v: real)
    ensures Sum([v]) == v
  {
    assert [v][1..] == [];
  }

  /** Every volume multiplied by c. */
  function Scale(volumes: seq<real>, c: real): (s: seq<real>)
    ensures |s| == |volumes|
    ensures forall i :: 0 <= i < |volumes| ==> s[i] == c * volumes[i]
  {
    if |volumes| == 0 then [] else [c * volumes[0]] + Scale(volumes[1..], c)
  }

  /** Scaling the volumes scales both the total volume and the traded value. */
  lemma {:induction false} ScaleSums(closes: seq<real>, volumes: seq<real>, c: real)
    requires |closes| == |volumes|
    ensures Sum(Scale(volumes, c)) == c * Sum(volumes)
    ensures TotalValue(closes, Scale(volumes, c)) == c * TotalValue(closes, volumes)
  {
    if |closes| > 0 {
      var scaled := Scale(volumes, c);
      ScaleSums(closes[1..], volumes[1..], c);
      assert scaled[1..] == Scale(volumes[1..], c);
      assert closes[0] * (c * volumes[0]) == c * (closes[0] * volumes[0]);
      assert c * Sum(volumes) == c * volumes[0] + c * Sum(volumes[1..]);
    }
  }

  /** Scaling every volume by the same positive factor leaves the VWAP
      unchanged. */
  lemma ScaleInvariant(volumes: seq<real>, closes: seq<real>, c: real)
    requires |volumes| == |closes|
    requires c > 0.0
    requires Sum(volumes) != 0.0
    ensures CalculateVwap(Scale(volumes, c), closes) == CalculateVwap(volumes, closes)
  {
    var t, v := TotalValue(closes, volumes), Sum(volumes);
    var scaled := Scale(volumes, c);
    ScaleSums(closes, volumes, c);
    assert Sum(scaled) == c * v && TotalValue(closes, scaled) == c * t;
    assert c * v != 0.0;
    assert CalculateVwap(scaled, closes) == Ok((c * t) / (c * v));
    CancelCommon(c, t, v);
    assert (c * t) / (c * v) == t / v;
  }

  /** `decide_buy_sell_hold_signals`: the current price against the VWAP. */
  function Decide(vwap: real, currentPrice: real): (s: Signal)
    ensures s == Buy <==> currentPrice > vwap
    ensures s == Sell <==> currentPrice < vwap
    ensures s == Hold <==> currentPrice == vwap
  {
    if currentPrice > vwap then Buy
    else if currentPrice < vwap then Sell
    else Hold
  }
}
