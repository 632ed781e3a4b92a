/** Aggregates over finite price series: sums, means, extrema, the trailing
    window that Python's `xs[-k:]` selects, and the population variance
    that `np.std` is the square root of. */
module Series {

  function Sum(s: seq<real>): real
  {
    if |s| == 0 then 0.0 else s[0] + Sum(s[1..])
  }

  lemma {:induction false} SumAppend(a: seq<real>, b: seq<real>)
    ensures Sum(a + b) == Sum(a) + Sum(b)
  {
    if |a| > 0 {
      assert (a + b)[1..] == a[1..] + b;
      SumAppend(a[1..], b);
    } else {
      assert a + b == b;
    }
  }

  lemma SumCons(x: real, s: seq<real>)
    ensures Sum([x] + s) == x + Sum(s)
  {
    assert ([x] + s)[1..] == s;
  }

  /** Taking one element out of a sequence takes exactly its value out of
      the sum. */
  lemma {:induction false} SumRemove(s: seq<real>, j: nat)
    requires j < |s|
    ensures Sum(s) == s[j] + Sum(s[..j] + s[j + 1..])
  {
    if j == 0 {
      assert s[..0] + s[1..] == s[1..];
    } else {
      var rest := s[1..];
      SumRemove(rest, j - 1);
      assert rest[j - 1] == s[j];
      assert s[..j] + s[j + 1..] == [s[0]] + (rest[..j - 1] + rest[j..]);
      SumCons(s[0], rest[..j - 1] + rest[j..]);
    }
  }

  /** Removing the first element of a and one equal element of b keeps
      the two sequences permutations of each other. */
  lemma PermutationWithoutFirst<T>(a: seq<T>, b: seq<T>, j: nat)
    requires multiset(a) == multiset(b)
    requires |a| > 0 && j < |b| && b[j] == a[0]
    ensures multiset(a[1..]) == multiset(b[..j] + b[j + 1..])
  {
    var rest := b[..j] + b[j + 1..];
    assert b[j..] == [b[j]] + b[j + 1..];
    assert b == b[..j] + b[j..];
    assert multiset(b) == multiset(rest) + multiset{a[0]};
    assert a == [a[0]] + a[1..];
    assert multiset(a) == multiset{a[0]} + multiset(a[1..]);
    calc {
      multiset(a[1..]);
      multiset(a) - multiset{a[0]};
      multiset(b) - multiset{a[0]};
      multiset(rest);
    }
  }

  /** Reordering the terms leaves the sum unchanged. */
  lemma {:induction false} SumPermutation(a: seq<real>, b: seq<real>)
    requires multiset(a) == multiset(b)
    ensures Sum(a) == Sum(b)
    decreases |a|
  {
    if |a| > 0 {
      assert a[0] in multiset(b);
      var j :| 0 <= j < |b| && b[j] == a[0];
      var rest := b[..j] + b[j + 1..];
      PermutationWithoutFirst(a, b, j);
      SumPermutation(a[1..], rest);
      SumRemove(b, j);
    } else {
      assert |b| == |multiset(b)| == 0;
    }
  }

  /** Every element lies in [lo, hi], so the sum lies in [n·lo, n·hi]. */
  lemma {:induction false} SumBounds(s: seq<real>, lo: real, hi: real)
    requires forall i :: 0 <= i < |s| ==> lo <= s[i] <= hi
    ensures |s| as real * lo <= Sum(s) <= |s| as real * hi
  {
    if |s| > 0 {
      SumBounds(s[1..], lo, hi);
    }
  }

  /** Every element of a non-empty series lies strictly below hi, so the
      sum lies strictly below n·hi. */
  lemma {:induction false} SumStrictlyBelow(s: seq<real>, hi: real)
    requires |s| > 0
    requires forall i :: 0 <= i < |s| ==> s[i] < hi
    ensures Sum(s) < |s| as real * hi
  {
    if |s| > 1 {
      SumStrictlyBelow(s[1..], hi);
    }
  }

  /** The mirror image: every element strictly above lo. */
  lemma {:induction false} SumStrictlyAbove(s: seq<real>, lo: real)
    requires |s| > 0
    requires forall i :: 0 <= i < |s| ==> lo < s[i]
    ensures |s| as real * lo < Sum(s)
  {
    if |s| > 1 {
      SumStrictlyAbove(s[1..], lo);
    }
  }

  lemma {:induction false} SumConstant(s: seq<real>, c: real)
    requires forall i :: 0 <= i < |s| ==> s[i] == c
    ensures Sum(s) == |s| as real * c
  {
    SumBounds(s, c, c);
  }

  /** A sum of non-negative terms is zero only when every term is. */
  lemma {:induction false} SumZeroMeansAllZero(s: seq<real>)
    requires forall i :: 0 <= i < |s| ==> s[i] >= 0.0
    requires Sum(s) == 0.0
    ensures forall i :: 0 <= i < |s| ==> s[i] == 0.0
  {
    if |s| > 0 {
      NonNegativeSum(s[1..]);
      SumZeroMeansAllZero(s[1..]);
      forall i | 0 <= i < |s| ensures s[i] == 0.0 {
        if i > 0 { assert s[i] == s[1..][i - 1]; }
      }
    }
  }

  lemma {:induction false} NonNegativeSum(s: seq<real>)
    requires forall i :: 0 <= i < |s| ==> s[i] >= 0.0
    ensures Sum(s) >= 0.0
  {
    if |s| > 0 {
      NonNegativeSum(s[1..]);
    }
  }

  function Mean(s: seq<real>): real
    requires |s| > 0
  {
    Sum(s) / |s| as real
  }

  function Max(s: seq<real>): (m: real)
    requires |s| > 0
    ensures m in s
    ensures forall i :: 0 <= i < |s| ==> s[i] <= m
  {
    if |s| == 1 then s[0]
    else
      var rest := Max(s[1..]);
      assert forall i :: 1 <= i < |s| ==> s[i] == s[1..][i - 1];
      if s[0] >= rest then s[0] else rest
  }

  function Min(s: seq<real>): (m: real)
    requires |s| > 0
    ensures m in s
    ensures forall i :: 0 <= i < |s| ==> m <= s[i]
  {
    if |s| == 1 then s[0]
    else
      var rest := Min(s[1..]);
      assert forall i :: 1 <= i < |s| ==> s[i] == s[1..][i - 1];
      if s[0] <= rest then s[0] else rest
  }

  /** The mean of a non-empty series lies between any bounds of its
      elements, in particular between its smallest and largest element. */
  lemma MeanWithin(s: seq<real>, lo: real, hi: real)
    requires |s| > 0
    requires forall i :: 0 <= i < |s| ==> lo <= s[i] <= hi
    ensures lo <= Mean(s) <= hi
  {
    SumBounds(s, lo, hi);
    QuotientBounds(Sum(s), |s| as real, lo, hi);
  }

  lemma MeanBetween(s: seq<real>)
    requires |s| > 0
    ensures Min(s) <= Mean(s) <= Max(s)
  {
    MeanWithin(s, Min(s), Max(s));
  }

  /** Dividing n·lo <= a <= n·hi by a positive n. */
  lemma QuotientBounds(a: real, n: real, lo: real, hi: real)
    requires n > 0.0
    requires n * lo <= a <= n * hi
    ensures lo <= a / n <= hi
  {
    assert a / n * n == a;
  }

  /** Dividing by a positive count keeps a strict comparison. */
  lemma QuotientStrict(a: real, n: real, x: real)
    requires n > 0.0
    ensures a < n * x ==> a / n < x
    ensures n * x < a ==> x < a / n
  {
    assert a / n * n == a;
  }

  function Square(x: real): (y: real)
    ensures y >= 0.0
  {
    if x < 0.0 then (-x) * (-x) else x * x
  }

  lemma MeanOfConstant(s: seq<real>, c: real)
    requires |s| > 0
    requires forall i :: 0 <= i < |s| ==> s[i] == c
    ensures Mean(s) == c
  {
    SumConstant(s, c);
  }

  /** The elements Python's `s[-k:]` selects. For k > 0 these are the
      last k elements, or the whole sequence when k exceeds its length;
      k = 0 selects everything, since `-0 == 0`; and a negative k makes
      `-k` a positive start, dropping the first |k| elements. */
  function Trailing(s: seq<real>, k: int): (t: seq<real>)
    ensures |t| <= |s| && t == s[|s| - |t|..]
    ensures k > 0 ==> |t| == if k > |s| then |s| else k
    ensures k <= 0 ==> |t| == if -k > |s| then 0 else |s| + k
  {
    if k > 0 then (if k > |s| then s else s[|s| - k..])
    else if -k > |s| then []
    else s[-k..]
  }

  /** With a window of at least one element that fits, elements before
      the window never reach it. */
  lemma TrailingIgnoresPrefix(p: seq<real>, s: seq<real>, k: int)
    requires 1 <= k <= |s|
    ensures Trailing(p + s, k) == Trailing(s, k)
  {
    assert (p + s)[|p + s| - k..] == s[|s| - k..];
  }

  function SquaredDeviations(s: seq<real>, m: real): (d: seq<real>)
    ensures |d| == |s|
    ensures forall i :: 0 <= i < |s| ==> d[i] >= 0.0
  {
    seq(|s|, i requires 0 <= i < |s| => Square(s[i] - m))
  }

  /** Population variance, as `np.std` squares it (ddof = 0). */
  function Variance(s: seq<real>): real
    requires |s| > 0
  {
    Mean(SquaredDeviations(s, Mean(s)))
  }

  lemma VarianceNonNegative(s: seq<real>)
    requires |s| > 0
    ensures Variance(s) >= 0.0
  {
    NonNegativeSum(SquaredDeviations(s, Mean(s)));
  }

  /** A constant series has mean c and variance zero. */
  lemma VarianceOfConstant(s: seq<real>, c: real)
    requires |s| > 0
    requires forall i :: 0 <= i < |s| ==> s[i] == c
    ensures Mean(s) == c
    ensures Variance(s) == 0.0
  {
    MeanOfConstant(s, c);
    var d := SquaredDeviations(s, c);
    SumConstant(d, 0.0);
  }
}
