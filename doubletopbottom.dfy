/** Double top and double bottom: the highest close of the first half, the
    highest close from there on, and a valley between them deeper than
    everything outside; the bottom is the mirror image. */
module DoubleTopBottom {
  import opened Results
  import opened Signals
  import opened Series

  /** `np.argmax`: the first position of the largest element. */
  function ArgMax(s: seq<real>): (i: nat)
    requires |s| > 0
    ensures i < |s|
    ensures forall j :: 0 <= j < |s| ==> s[j] <= s[i]
    ensures forall j :: 0 <= j < i ==> s[j] < s[i]
  {
    if |s| == 1 then 0
    else
      var k := ArgMax(s[..|s| - 1]);
      assert forall j :: 0 <= j < |s| - 1 ==> s[..|s| - 1][j] == s[j];
      if s[|s| - 1] > s[k] then |s| - 1 else k
  }

  /** `np.argmin`: the first position of the smallest element. */
  function ArgMin(s: seq<real>): (i: nat)
    requires |s| > 0
    ensures i < |s|
    ensures forall j :: 0 <= j < |s| ==> s[i] <= s[j]
    ensures forall j :: 0 <= j < i ==> s[i] < s[j]
  {
    if |s| == 1 then 0
    else
      var k := ArgMin(s[..|s| - 1]);
      assert forall j :: 0 <= j < |s| - 1 ==> s[..|s| - 1][j] == s[j];
      if s[|s| - 1] < s[k] then |s| - 1 else k
  }

  /** The first peak: the highest close of the first half. */
  function FirstPeak(closes: seq<real>): (p: nat)
    requires |closes| >= 2
    ensures p < |closes| / 2
  {
    ArgMax(closes[..|closes| / 2])
  }

  /** The second peak: the highest close from the first peak on. */
  function SecondPeak(closes: seq<real>): (p: nat)
    requires |closes| >= 2
    ensures FirstPeak(closes) <= p < |closes|
  {
    ArgMax(closes[FirstPeak(closes)..]) + FirstPeak(closes)
  }

  /** `check_double_top`. The first half is empty below two closes and
      `np.argmax` raises; `np.min` raises on the empty slice before the
      first peak (first peak at 0) and on the empty stretch between the
      peaks (second peak equal to the first). Otherwise the second peak is
      returned when the lowest close between the peaks is below every close
      before the first peak and every close from the second on, and -1
      is returned when it is not. */
  function CheckDoubleTop(closes: seq<real>): (r: Result<int>)
    ensures |closes| < 2 ==> r == Fail(EmptyArgument)
    ensures r.Fail? ==> r.error == EmptyArgument
    ensures |closes| >= 2 ==>
      var fp, sp := FirstPeak(closes), SecondPeak(closes);
      (r.Fail? <==> fp == 0 || sp == fp) &&
      (r.Ok? ==> r.value == -1 || r.value == sp) &&
      (r.Ok? ==> (r.value == sp <==>
        Min(closes[fp..sp]) < Min(closes[..fp]) && Min(closes[fp..sp]) < Min(closes[sp..])))
  {
    if |closes| < 2 then Fail(EmptyArgument)
    else
      var fp := FirstPeak(closes);
      var sp := SecondPeak(closes);
      if sp == fp || fp == 0 then Fail(EmptyArgument)
      else if Min(closes[fp..sp]) < Min(closes[..fp]) && Min(closes[fp..sp]) < Min(closes[sp..]) then Ok(sp as int)
      else Ok(-1)
  }

  /** The first valley: the lowest close of the first half. */
  function FirstValley(closes: seq<real>): (v: nat)
    requires |closes| >= 2
    ensures v < |closes| / 2
  {
    ArgMin(closes[..|closes| / 2])
  }

  /** The second valley: the lowest close from the first valley on. */
  function SecondValley(closes: seq<real>): (v: nat)
    requires |closes| >= 2
    ensures FirstValley(closes) <= v < |closes|
  {
    ArgMin(closes[FirstValley(closes)..]) + FirstValley(closes)
  }

  /** `check_double_bottom`: the mirror image of `check_double_top`, with
      the lowest closes as valleys and a peak between them higher than
      everything outside. */
  function CheckDoubleBottom(closes: seq<real>): (r: Result<int>)
    ensures |closes| < 2 ==> r == Fail(EmptyArgument)
    ensures r.Fail? ==> r.error == EmptyArgument
    ensures |closes| >= 2 ==>
      var fv, sv := FirstValley(closes), SecondValley(closes);
      (r.Fail? <==> fv == 0 || sv == fv) &&
      (r.Ok? ==> r.value == -1 || r.value == sv) &&
      (r.Ok? ==> (r.value == sv <==>
        Max(closes[fv..sv]) > Max(closes[..fv]) && Max(closes[fv..sv]) > Max(closes[sv..])))
  {
    if |closes| < 2 then Fail(EmptyArgument)
    else
      var fv := FirstValley(closes);
      var sv := SecondValley(closes);
      if sv == fv || fv == 0 then Fail(EmptyArgument)
      else if Max(closes[fv..sv]) > Max(closes[..fv]) && Max(closes[fv..sv]) > Max(closes[sv..]) then Ok(sv as int)
      else Ok(-1)
  }

  /** Whenever the double-top check does not raise, the second peak is
      strictly higher than the first, which is strictly higher than every
      close before it and at least as high as the rest of the first half.
      So two equally high peaks always raise. */
  lemma TopShape(closes: seq<real>)
    requires CheckDoubleTop(closes).Ok?
    ensures var fp, sp := FirstPeak(closes), SecondPeak(closes);
      0 < fp < sp < |closes| &&
      closes[fp] < closes[sp] &&
      (forall j :: 0 <= j < fp ==> closes[j] < closes[fp]) &&
      (forall j :: 0 <= j < |closes| / 2 ==> closes[j] <= closes[fp]) &&
      (forall j :: fp <= j < |closes| ==> closes[j] <= closes[sp])
  {
    var fp, sp := FirstPeak(closes), SecondPeak(closes);
    assert 0 < fp < sp;
    PeakOfPrefix(closes, |closes| / 2);
    PeakOfSuffix(closes, fp);
    assert closes[fp] < closes[sp];
  }

  /** `np.argmax` of the first h closes, read back in the closes. */
  lemma PeakOfPrefix(closes: seq<real>, h: nat)
    requires 0 < h <= |closes|
    ensures var p := ArgMax(closes[..h]);
      (forall j :: 0 <= j < h ==> closes[j] <= closes[p]) &&
      (forall j :: 0 <= j < p ==> closes[j] < closes[p])
  {
    var half := closes[..h];
    assert forall j :: 0 <= j < h ==> half[j] == closes[j];
  }

  /** `np.argmax` of the closes from f on, read back in the closes. */
  lemma PeakOfSuffix(closes: seq<real>, f: nat)
    requires f < |closes|
    ensures var q := ArgMax(closes[f..]) + f;
      (forall j :: f <= j < |closes| ==> closes[j] <= closes[q]) &&
      (forall j :: f <= j < q ==> closes[j] < closes[q])
  {
    var tail := closes[f..];
    assert forall j :: 0 <= j < |tail| ==> tail[j] == closes[f + j];
  }

  /** A double top that is found has a valley strictly between the peaks,
      lower than every close before the first peak and every close from the
      second peak on. */
  lemma TopHasValley(closes: seq<real>)
    requires CheckDoubleTop(closes).Ok?
    requires CheckDoubleTop(closes).value != -1
    ensures exists v :: IsValley(closes, FirstPeak(closes), SecondPeak(closes), v)
  {
    var fp, sp := FirstPeak(closes), SecondPeak(closes);
    assert 0 < fp < sp;
    assert Min(closes[fp..sp]) < Min(closes[..fp]) && Min(closes[fp..sp]) < Min(closes[sp..]);
    ValleyBetween(closes, fp, sp);
  }

  /** Position v lies in the stretch a .. b-1 and its close is below every
      close before a and every close from b on. */
  predicate IsValley(closes: seq<real>, a: nat, b: nat, v: nat)
  {
    a <= v < b <= |closes| &&
    (forall j :: 0 <= j < a ==> closes[v] < closes[j]) &&
    (forall j :: b <= j < |closes| ==> closes[v] < closes[j])
  }

  /** A stretch whose lowest close is below everything outside it holds a
      close below everything outside it. */
  lemma ValleyBetween(closes: seq<real>, a: nat, b: nat)
    requires 0 < a < b < |closes|
    requires Min(closes[a..b]) < Min(closes[..a]) && Min(closes[a..b]) < Min(closes[b..])
    ensures exists v :: IsValley(closes, a, b, v)
  {
    var mid := closes[a..b];
    var i :| 0 <= i < |mid| && mid[i] == Min(mid);
    var v := a + i;
    assert mid[i] == closes[v];
    BelowPrefix(closes, a, closes[v]);
    BelowSuffix(closes, b, closes[v]);
    assert IsValley(closes, a, b, v);
  }

  /** A value below the lowest of the first b closes is below each of them. */
  lemma BelowPrefix(s: seq<real>, b: nat, x: real)
    requires 0 < b <= |s|
    requires x < Min(s[..b])
    ensures forall j :: 0 <= j < b ==> x < s[j]
  {
    forall j | 0 <= j < b ensures x < s[j] {
      MinOfPrefixBelow(s, b, j);
    }
  }

  /** A value below the lowest close from a on is below each of them. */
  lemma BelowSuffix(s: seq<real>, a: nat, x: real)
    requires a < |s|
    requires x < Min(s[a..])
    ensures forall j :: a <= j < |s| ==> x < s[j]
  {
    forall j | a <= j < |s| ensures x < s[j] {
      MinOfSuffixBelow(s, a, j);
    }
  }

  lemma MinOfPrefixBelow(s: seq<real>, b: nat, j: nat)
    requires j < b <= |s|
    ensures Min(s[..b]) <= s[j]
  {
    assert s[..b][j] == s[j];
  }

  lemma MinOfSuffixBelow(s: seq<real>, a: nat, j: nat)
    requires a <= j < |s|
    ensures Min(s[a..]) <= s[j]
  {
    assert s[a..][j - a] == s[j];
  }

  /** The decider's input on the mirror image of the prices. */
  function Negate(s: seq<real>): (n: seq<real>)
    ensures |n| == |s|
    ensures forall i :: 0 <= i < |s| ==> n[i] == -s[i]
  {
    seq(|s|, i requires 0 <= i < |s| => -s[i])
  }

  lemma NegateSlice(s: seq<real>, a: nat, b: nat)
    requires a <= b <= |s|
    ensures Negate(s)[a..b] == Negate(s[a..b])
    ensures Negate(s)[a..] == Negate(s[a..])
    ensures Negate(s)[..b] == Negate(s[..b])
  {
  }

  /** `np.min` and `np.max` are the elements at the first extreme
      positions. */
  lemma ExtremesAttained(s: seq<real>)
    requires |s| > 0
    ensures Min(s) == s[ArgMin(s)]
    ensures Max(s) == s[ArgMax(s)]
  {
    var j :| 0 <= j < |s| && s[j] == Min(s);
    var k :| 0 <= k < |s| && s[k] == Max(s);
  }

  lemma ArgMinNegate(s: seq<real>)
    requires |s| > 0
    ensures ArgMax(Negate(s)) == ArgMin(s)
    ensures ArgMin(Negate(s)) == ArgMax(s)
  {
  }

  /** Negating the prices turns the largest into the smallest. */
  lemma MaxNegate(s: seq<real>)
    requires |s| > 0
    ensures Min(Negate(s)) == -Max(s)
  {
    ExtremesAttained(s);
    ExtremesAttained(Negate(s));
    ArgMinNegate(s);
  }

  /** The valleys of the prices are the peaks of their negation. */
  lemma ValleysMirrorPeaks(closes: seq<real>)
    requires |closes| >= 2
    ensures FirstPeak(Negate(closes)) == FirstValley(closes)
    ensures SecondPeak(Negate(closes)) == SecondValley(closes)
  {
    var n := Negate(closes);
    var h := |closes| / 2;
    NegateSlice(closes, 0, h);
    ArgMinNegate(closes[..h]);
    var fv := FirstValley(closes);
    assert FirstPeak(n) == fv;
    NegateSlice(closes, fv, |closes|);
    ArgMinNegate(closes[fv..]);
    assert n[fv..] == Negate(closes[fv..]);
    assert ArgMax(n[fv..]) == ArgMin(closes[fv..]);
  }

  /** The double bottom of the prices is the double top of their negation:
      the two checks are exact mirror images. */
  lemma BottomMirrorsTop(closes: seq<real>)
    ensures CheckDoubleBottom(closes) == CheckDoubleTop(Negate(closes))
  {
    if |closes| >= 2 {
      var n := Negate(closes);
      ValleysMirrorPeaks(closes);
      var fv, sv := FirstValley(closes), SecondValley(closes);
      if sv != fv && fv != 0 {
        MirroredComparisons(closes, fv, sv);
      }
    }
  }

  /** The peak test of the bottom on the prices is the valley test of the
      top on their negation. */
  lemma MirroredComparisons(closes: seq<real>, a: nat, b: nat)
    requires 0 < a < b < |closes|
    ensures var n := Negate(closes);
      (Max(closes[a..b]) > Max(closes[..a]) && Max(closes[a..b]) > Max(closes[b..])) ==
      (Min(n[a..b]) < Min(n[..a]) && Min(n[a..b]) < Min(n[b..]))
  {
    NegateSlice(closes, a, b);
    NegateSlice(closes, 0, a);
    NegateSlice(closes, b, |closes|);
    MaxNegate(closes[a..b]);
    MaxNegate(closes[..a]);
    MaxNegate(closes[b..]);
  }

  /** `decide_buy_sell_hold_signals`: a double bottom buys, even when a
      double top was found too; otherwise a double top sells. */
  function Decide(doubleTop: int, doubleBottom: int): (s: Signal)
    ensures s == Buy <==> doubleBottom != -1
    ensures s == Sell <==> doubleBottom == -1 && doubleTop != -1
    ensures s == Hold <==> doubleBottom == -1 && doubleTop == -1
  {
    if doubleBottom != -1 then Buy
    else if doubleTop != -1 then Sell
    else Hold
  }
}
