/** Head and shoulders: positions that are the maximum (minimum) of a
    centred rolling window become candidates, and a candidate that is the
    largest (smallest) of the 2w candidates around it is reported. The
    decider looks at the reported positions. */
module HeadAndShoulders {
  import opened Signals
  import opened Series

  /** The constructor's default window size. */
  const DefaultWindow: nat := 5

  /** A centred pandas window of size w reaches `RightReach(w)` positions
      forward and `LeftReach(w)` backward. */
  function RightReach(w: nat): nat
    requires w >= 1
  {
    (w - 1) / 2
  }

  function LeftReach(w: nat): (left: nat)
    requires w >= 1
    ensures left + RightReach(w) == w - 1
  {
    w - 1 - (w - 1) / 2
  }

  /** `data == data.rolling(window=w, center=True).max()` (`top`) or
      `.min()` at position j: the window must be complete, since an
      incomplete one yields NaN, and `data[j]` must be its extreme. */
  predicate IsExtremum(data: seq<real>, w: nat, top: bool, j: nat)
    requires w >= 1
    requires j < |data|
  {
    LeftReach(w) <= j && j + RightReach(w) < |data| &&
    forall k :: j - LeftReach(w) <= k <= j + RightReach(w) ==>
      if top then data[k] <= data[j] else data[j] <= data[k]
  }

  /** The positions below m that survive the mask, in increasing order. */
  function Extrema(data: seq<real>, w: nat, top: bool, m: nat): (c: seq<nat>)
    requires w >= 1
    requires m <= |data|
    ensures forall k :: 0 <= k < |c| ==> c[k] < m
  {
    if m == 0 then []
    else Extrema(data, w, top, m - 1) + (if IsExtremum(data, w, top, m - 1) then [m - 1] else [])
  }

  /** The candidates are exactly the positions that survive the mask, in
      increasing order. */
  lemma {:induction false} ExtremaShape(data: seq<real>, w: nat, top: bool, m: nat)
    requires w >= 1
    requires m <= |data|
    ensures forall k :: 0 <= k < |Extrema(data, w, top, m)| ==>
      IsExtremum(data, w, top, Extrema(data, w, top, m)[k])
    ensures forall k, l :: 0 <= k < l < |Extrema(data, w, top, m)| ==>
      Extrema(data, w, top, m)[k] < Extrema(data, w, top, m)[l]
    ensures forall j :: 0 <= j < m && IsExtremum(data, w, top, j) ==> j in Extrema(data, w, top, m)
  {
    if m > 0 {
      ExtremaShape(data, w, top, m - 1);
      var prev := Extrema(data, w, top, m - 1);
      var c := Extrema(data, w, top, m);
      if IsExtremum(data, w, top, m - 1) {
        assert c == prev + [m - 1];
        forall k | 0 <= k < |c| ensures IsExtremum(data, w, top, c[k]) {
          if k < |prev| {
            assert c[k] == prev[k];
          }
        }
        assert c[|prev|] == m - 1;
      } else {
        assert c == prev;
      }
    }
  }

  /** The prices at the candidate positions. */
  function Values(data: seq<real>, c: seq<nat>): (v: seq<real>)
    requires forall k :: 0 <= k < |c| ==> c[k] < |data|
    ensures |v| == |c|
    ensures forall k :: 0 <= k < |c| ==> v[k] == data[c[k]]
  {
    seq(|c|, k requires 0 <= k < |c| => data[c[k]])
  }

  /** Candidate i is the extreme of the candidates i-w .. i+w-1. */
  predicate Qualifies(vals: seq<real>, w: nat, top: bool, i: nat)
    requires w <= i && i + w <= |vals|
  {
    forall k :: i - w <= k < i + w ==> if top then vals[k] <= vals[i] else vals[i] <= vals[k]
  }

  /** The candidate indices w .. i-1 the loop keeps. */
  function Selected(vals: seq<real>, w: nat, top: bool, i: nat): (idx: seq<nat>)
    requires w <= i && (i == w || i + w <= |vals|)
    ensures forall k :: 0 <= k < |idx| ==> w <= idx[k] < i
    decreases i - w
  {
    if i == w then []
    else Selected(vals, w, top, i - 1) + (if Qualifies(vals, w, top, i - 1) then [i - 1] else [])
  }

  /** The kept indices are exactly the qualifying ones, in increasing
      order. */
  lemma {:induction false} SelectedShape(vals: seq<real>, w: nat, top: bool, i: nat)
    requires w <= i && (i == w || i + w <= |vals|)
    ensures forall k :: 0 <= k < |Selected(vals, w, top, i)| ==>
      Qualifies(vals, w, top, Selected(vals, w, top, i)[k])
    ensures forall k, l :: 0 <= k < l < |Selected(vals, w, top, i)| ==>
      Selected(vals, w, top, i)[k] < Selected(vals, w, top, i)[l]
    ensures forall j :: w <= j < i && Qualifies(vals, w, top, j) ==> j in Selected(vals, w, top, i)
    decreases i - w
  {
    if i > w {
      SelectedShape(vals, w, top, i - 1);
      var prev := Selected(vals, w, top, i - 1);
      var idx := Selected(vals, w, top, i);
      forall k | 0 <= k < |idx| ensures Qualifies(vals, w, top, idx[k]) {
        if k < |prev| {
          assert idx[k] == prev[k];
        } else {
          assert idx == prev + [i - 1] && idx[k] == i - 1;
        }
      }
    }
  }

  /** The positions of the kept candidates. */
  function Positions(c: seq<nat>, idx: seq<nat>): (p: seq<nat>)
    requires forall k :: 0 <= k < |idx| ==> idx[k] < |c|
    ensures |p| == |idx|
  {
    if |idx| == 0 then [] else Positions(c, idx[..|idx| - 1]) + [c[idx[|idx| - 1]]]
  }

  /** Position k is the candidate that kept index k names. */
  lemma {:induction false} PositionsAt(c: seq<nat>, idx: seq<nat>, k: nat)
    requires forall j :: 0 <= j < |idx| ==> idx[j] < |c|
    requires k < |idx|
    ensures Positions(c, idx)[k] == c[idx[k]]
  {
    if k < |idx| - 1 {
      PositionsAt(c, idx[..|idx| - 1], k);
    }
  }

  /** One more kept index appends its position. */
  lemma PositionsAppend(c: seq<nat>, idx: seq<nat>, j: nat)
    requires forall k :: 0 <= k < |idx| ==> idx[k] < |c|
    requires j < |c|
    ensures Positions(c, idx + [j]) == Positions(c, idx) + [c[j]]
  {
    assert (idx + [j])[..|idx|] == idx;
  }

  /** One more scanned index. */
  lemma SelectedStep(vals: seq<real>, w: nat, top: bool, i: nat)
    requires w <= i && i + w < |vals|
    ensures Selected(vals, w, top, i + 1) ==
      Selected(vals, w, top, i) + (if Qualifies(vals, w, top, i) then [i] else [])
  {
  }

  /** The positions the scan has reported once it reaches index i. */
  function Reported(c: seq<nat>, vals: seq<real>, w: nat, top: bool, i: nat): seq<nat>
    requires |vals| == |c|
    requires w <= i && (i == w || i + w <= |c|)
  {
    Positions(c, Selected(vals, w, top, i))
  }

  /** One scanned candidate: its position is reported exactly when its
      window check passes. */
  lemma ScanStep(c: seq<nat>, vals: seq<real>, w: nat, top: bool, i: nat)
    requires |vals| == |c|
    requires w >= 1
    requires w <= i && i + w < |c|
    ensures Reported(c, vals, w, top, i + 1) ==
      Reported(c, vals, w, top, i) +
      (if Qualifies(vals, w, top, i) then [c[i]] else [])
  {
    var before := Selected(vals, w, top, i);
    SelectedStep(vals, w, top, i);
    if Qualifies(vals, w, top, i) {
      PositionsAppend(c, before, i);
    } else {
      assert Selected(vals, w, top, i + 1) == before;
      assert Positions(c, before) + [] == Positions(c, before);
    }
  }

  /** Where the loop stops: `range(w, len(candidates) - w)` is empty when
      there are fewer than 2w candidates. */
  function Stop(c: seq<nat>, w: nat): (i: nat)
    ensures w <= i && (i == w || i + w <= |c|)
  {
    if |c| >= 2 * w then |c| - w else w
  }

  /** What `find_head_and_shoulders` (`top`) or
      `find_inverted_head_and_shoulders` returns. */
  function Pattern(data: seq<real>, w: nat, top: bool): seq<nat>
    requires w >= 1
  {
    var c := Extrema(data, w, top, |data|);
    Reported(c, Values(data, c), w, top, Stop(c, w))
  }

  /** `window.iloc[w] == window.max()` (`top`) or `window.min()`. */
  predicate KeepsCandidate(window: seq<real>, w: nat, top: bool)
    requires w < |window|
  {
    if top then window[w] == Max(window) else window[w] == Min(window)
  }

  /** The window check of one candidate: it is kept exactly when it is the
      extreme of the candidates i-w .. i+w-1. */
  method CheckWindow(vals: seq<real>, w: nat, top: bool, i: nat) returns (keep: bool)
    requires w <= i && i + w <= |vals|
    requires w >= 1
    ensures keep == Qualifies(vals, w, top, i)
  {
    var window := vals[i - w..i + w];
    if top {
      keep := window[w] == Max(window);
    } else {
      keep := window[w] == Min(window);
    }
    WindowExtreme(vals, w, top, i);
  }

  /** The candidate equals the largest value of its window exactly when no
      value of the window exceeds it. */
  lemma WindowExtreme(vals: seq<real>, w: nat, top: bool, i: nat)
    requires w <= i && i + w <= |vals|
    requires w >= 1
    ensures KeepsCandidate(vals[i - w..i + w], w, top) <==> Qualifies(vals, w, top, i)
  {
    var window := vals[i - w..i + w];
    assert window[w] == vals[i];
    forall k | i - w <= k < i + w ensures window[k - (i - w)] == vals[k] { }
  }

  /** The loop both finders share: for each candidate index i with
      w <= i < len(candidates) - w, the window `iloc[i - w : i + w]` is
      taken and the candidate's position is kept when it equals the
      window's maximum (`top`) or minimum. */
  method Scan(c: seq<nat>, vals: seq<real>, w: nat, top: bool) returns (pattern: seq<nat>)
    requires w >= 1
    requires |vals| == |c|
    ensures pattern == Reported(c, vals, w, top, Stop(c, w))
  {
    pattern := [];
    var stop := Stop(c, w);
    var i := w;
    while i < stop
      invariant w <= i <= stop
      invariant pattern == Reported(c, vals, w, top, i)
    {
      var keep := CheckWindow(vals, w, top, i);
      ScanStep(c, vals, w, top, i);
      if keep {
        pattern := pattern + [c[i]];
      }
      i := i + 1;
    }
  }

  /** `find_head_and_shoulders`: the maxima candidates, then the scan. */
  method FindHeadAndShoulders(data: seq<real>, w: nat) returns (pattern: seq<nat>)
    requires w >= 1
    ensures pattern == Pattern(data, w, true)
  {
    var maxima := Extrema(data, w, true, |data|);
    pattern := Scan(maxima, Values(data, maxima), w, true);
  }

  /** `find_inverted_head_and_shoulders`: the minima candidates, then the
      scan. */
  method FindInvertedHeadAndShoulders(data: seq<real>, w: nat) returns (pattern: seq<nat>)
    requires w >= 1
    ensures pattern == Pattern(data, w, false)
  {
    var minima := Extrema(data, w, false, |data|);
    pattern := Scan(minima, Values(data, minima), w, false);
  }

  /** The reported positions strictly increase, and each one is a position
      whose centred window it tops (bottoms). */
  lemma PatternShape(data: seq<real>, w: nat, top: bool)
    requires w >= 1
    ensures var p := Pattern(data, w, top);
      (forall k, l :: 0 <= k < l < |p| ==> p[k] < p[l]) &&
      (forall k :: 0 <= k < |p| ==> p[k] < |data| && IsExtremum(data, w, top, p[k]))
  {
    var c := Extrema(data, w, top, |data|);
    ExtremaShape(data, w, top, |data|);
    var vals := Values(data, c);
    var idx := Selected(vals, w, top, Stop(c, w));
    SelectedShape(vals, w, top, Stop(c, w));
    var p := Positions(c, idx);
    assert p == Reported(c, vals, w, top, Stop(c, w)) == Pattern(data, w, top);
    PositionsShape(data, w, top, c, idx);
  }

  /** Positions read in increasing order from increasing candidates stay
      increasing and stay candidates. */
  lemma PositionsShape(data: seq<real>, w: nat, top: bool, c: seq<nat>, idx: seq<nat>)
    requires w >= 1
    requires forall k :: 0 <= k < |c| ==> c[k] < |data| && IsExtremum(data, w, top, c[k])
    requires forall k, l :: 0 <= k < l < |c| ==> c[k] < c[l]
    requires forall k :: 0 <= k < |idx| ==> idx[k] < |c|
    requires forall k, l :: 0 <= k < l < |idx| ==> idx[k] < idx[l]
    ensures forall k, l :: 0 <= k < l < |Positions(c, idx)| ==> Positions(c, idx)[k] < Positions(c, idx)[l]
    ensures forall k :: 0 <= k < |Positions(c, idx)| ==>
      Positions(c, idx)[k] < |data| && IsExtremum(data, w, top, Positions(c, idx)[k])
  {
    var p := Positions(c, idx);
    forall k, l | 0 <= k < l < |p| ensures p[k] < p[l] {
      PositionsAt(c, idx, k);
      PositionsAt(c, idx, l);
    }
    forall k | 0 <= k < |p| ensures p[k] < |data| && IsExtremum(data, w, top, p[k]) {
      PositionsAt(c, idx, k);
    }
  }

  /** Fewer than 2w + 1 candidates report nothing. */
  lemma FewCandidatesReportNothing(data: seq<real>, w: nat, top: bool)
    requires w >= 1
    requires |Extrema(data, w, top, |data|)| < 2 * w + 1
    ensures Pattern(data, w, top) == []
  {
  }

  /** With the default window of 5, a position is a maximum candidate
      exactly when it has two neighbours on each side and none of them is
      higher. */
  lemma DefaultWindowCandidates(data: seq<real>, j: nat)
    requires j < |data|
    ensures IsExtremum(data, DefaultWindow, true, j) <==>
      2 <= j < |data| - 2 && forall k :: j - 2 <= k <= j + 2 ==> data[k] <= data[j]
  {
  }

  /** The largest and smallest of a non-empty list of positions. */
  function Largest(s: seq<int>): (m: int)
    requires |s| > 0
    ensures m in s
    ensures forall k :: 0 <= k < |s| ==> s[k] <= m
  {
    if |s| == 1 then s[0]
    else
      var rest := Largest(s[1..]);
      assert forall k :: 1 <= k < |s| ==> s[k] == s[1..][k - 1];
      if s[0] > rest then s[0] else rest
  }

  function Smallest(s: seq<int>): (m: int)
    requires |s| > 0
    ensures m in s
    ensures forall k :: 0 <= k < |s| ==> m <= s[k]
  {
    if |s| == 1 then s[0]
    else
      var rest := Smallest(s[1..]);
      assert forall k :: 1 <= k < |s| ==> s[k] == s[1..][k - 1];
      if s[0] < rest then s[0] else rest
  }

  /** `decide_signal` on the two reported lists: UNKNOWN when either is
      empty; otherwise buy when the last top position is the largest, sell
      when the last inverted position is the smallest, hold otherwise. */
  function Decide(tops: seq<int>, bottoms: seq<int>): (s: Signal)
    ensures s == Unknown <==> |tops| == 0 || |bottoms| == 0
    ensures s == Buy <==> |tops| > 0 && |bottoms| > 0 && tops[|tops| - 1] == Largest(tops)
    ensures s == Sell <==>
      |tops| > 0 && |bottoms| > 0 && tops[|tops| - 1] != Largest(tops) && bottoms[|bottoms| - 1] == Smallest(bottoms)
  {
    if |tops| == 0 || |bottoms| == 0 then Unknown
    else if tops[|tops| - 1] == Largest(tops) then Buy
    else if bottoms[|bottoms| - 1] == Smallest(bottoms) then Sell
    else Hold
  }

  /** In a strictly increasing list the last element is the largest. */
  lemma LastOfIncreasingIsLargest(s: seq<int>)
    requires |s| > 0
    requires forall k, l :: 0 <= k < l < |s| ==> s[k] < s[l]
    ensures Largest(s) == s[|s| - 1]
  {
    var last := |s| - 1;
    forall k | 0 <= k < |s| ensures s[k] <= s[last] {
      if k < last {
        assert s[k] < s[last];
      }
    }
    var k :| 0 <= k < |s| && s[k] == Largest(s);
    assert Largest(s) <= s[last];
  }

  /** Reported positions increase, so the last is always the largest: the
      decider only ever answers UNKNOWN or buy on what the finders return. */
  lemma DecideOnlyBuysOrUnknown(data: seq<real>, w: nat)
    requires w >= 1
    ensures var tops, bottoms := Pattern(data, w, true), Pattern(data, w, false);
      Decide(tops, bottoms) == (if |tops| == 0 || |bottoms| == 0 then Unknown else Buy)
  {
    var tops := Pattern(data, w, true);
    PatternShape(data, w, true);
    if |tops| > 0 {
      LastOfIncreasingIsLargest(tops);
    }
  }
}
