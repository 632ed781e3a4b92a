/** Google Trends sentiment: the interest-over-time frame, fetched from the
    trends service, holds one column per topic; the decider compares the
    latest interest in the topic with its historical average. */
module GoogleTrends {
  import opened Results
  import opened Signals
  import opened Series

  /** `decide_buy_sell_hold_signals`: the column lookup raises for an
      unknown topic and `[-1]` for an empty column; buy above the average,
      sell below it, hold on it. */
  function Decide(topic: string, trends: map<string, seq<real>>): (r: Result<Signal>)
    ensures topic !in trends ==> r == Fail(MissingKey(topic))
    ensures topic in trends && |trends[topic]| == 0 ==> r == Fail(IndexOutOfRange)
    ensures r.Ok? <==> topic in trends && |trends[topic]| > 0
    ensures r.Ok? ==> var s := trends[topic];
      (r.value == Buy <==> s[|s| - 1] > Mean(s)) &&
      (r.value == Sell <==> s[|s| - 1] < Mean(s)) &&
      (r.value == Hold <==> s[|s| - 1] == Mean(s))
  {
    if topic !in trends then Fail(MissingKey(topic))
    else
      var s := trends[topic];
      if |s| == 0 then Fail(IndexOutOfRange)
      else if s[|s| - 1] > Mean(s) then Ok(Buy)
      else if s[|s| - 1] < Mean(s) then Ok(Sell)
      else Ok(Hold)
  }

  /** Unchanging interest holds. */
  lemma ConstantHolds(topic: string, trends: map<string, seq<real>>, c: real)
    requires topic in trends && |trends[topic]| > 0
    requires forall i :: 0 <= i < |trends[topic]| ==> trends[topic][i] == c
    ensures Decide(topic, trends) == Ok(Hold)
  {
    MeanOfConstant(trends[topic], c);
  }

  /** A single reading is its own average, so it holds. */
  lemma SingleReadingHolds(topic: string, trends: map<string, seq<real>>)
    requires topic in trends && |trends[topic]| == 1
    ensures Decide(topic, trends) == Ok(Hold)
  {
    ConstantHolds(topic, trends, trends[topic][0]);
  }

  /** A latest reading above every earlier one buys. */
  lemma NewHighBuys(topic: string, trends: map<string, seq<real>>)
    requires topic in trends && |trends[topic]| >= 2
    requires var s := trends[topic];
      forall i :: 0 <= i < |s| - 1 ==> s[i] < s[|s| - 1]
    ensures Decide(topic, trends) == Ok(Buy)
  {
    var s := trends[topic];
    var x := s[|s| - 1];
    var earlier := s[..|s| - 1];
    assert s == earlier + [x];
    SumAppend(earlier, [x]);
    SumStrictlyBelow(earlier, x);
    assert Sum([x]) == x;
    var n := |s| as real;
    assert Sum(s) < n * x;
    QuotientStrict(Sum(s), n, x);
  }

  /** A latest reading below every earlier one sells. */
  lemma NewLowSells(topic: string, trends: map<string, seq<real>>)
    requires topic in trends && |trends[topic]| >= 2
    requires var s := trends[topic];
      forall i :: 0 <= i < |s| - 1 ==> s[|s| - 1] < s[i]
    ensures Decide(topic, trends) == Ok(Sell)
  {
    var s := trends[topic];
    var x := s[|s| - 1];
    var earlier := s[..|s| - 1];
    assert s == earlier + [x];
    SumAppend(earlier, [x]);
    SumStrictlyAbove(earlier, x);
    assert Sum([x]) == x;
    var n := |s| as real;
    assert n * x < Sum(s);
    QuotientStrict(Sum(s), n, x);
  }
}
