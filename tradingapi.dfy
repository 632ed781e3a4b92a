/** The trading application's indicator bookkeeping: building the enabled
    indicators from the configuration, and running every indicator on the
    market data, where an exception from calculating or deciding leaves
    the other indicators alone but a failing lookup of the indicator's
    `name` attribute escapes the loop. What an indicator computes and
    decides, and whether it has a `name` attribute, are supplied as
    functions of the built strategy. */
module TradingApi {
  import opened Results
  import opened Signals
  import opened StrategyFactory

  datatype Option<T> = None | Some(value: T)

  /** A keyword argument value from the configuration. */
  datatype Value = Number(real) | Text(string) | Flag(bool)

  type Params = map<string, Value>

  /** One entry of the configuration's indicator list. */
  datatype IndicatorConfig = IndicatorConfig(enable: bool, name: string, parameters: Option<Params>)

  /** `indicator_config.get("parameters", {})`. */
  function ParamsOf(c: IndicatorConfig): (p: Params)
    ensures c.parameters.Some? ==> p == c.parameters.value
    ensures c.parameters.None? ==> p == map[]
  {
    if c.parameters.Some? then c.parameters.value else map[]
  }

  /** How loading ended: every enabled entry was built, or building one
      raised and the loop stopped there. */
  datatype Outcome = Complete | Aborted(error: Error)

  datatype Loaded = Loaded(built: seq<Strategy<Value>>, outcome: Outcome)

  /** What the loop over `configs` has built and how it ended. */
  function Load(configs: seq<IndicatorConfig>): Loaded
  {
    if |configs| == 0 then Loaded([], Complete)
    else
      var before := Load(configs[..|configs| - 1]);
      var c := configs[|configs| - 1];
      if before.outcome.Aborted? || !c.enable then before
      else
        match CreateStrategy(c.name, ParamsOf(c))
        case Fail(e) => Loaded(before.built, Aborted(e))
        case Ok(s) => Loaded(before.built + [s], Complete)
  }

  /** The enabled entries, in configuration order. */
  function Enabled(configs: seq<IndicatorConfig>): (e: seq<IndicatorConfig>)
    ensures forall k :: 0 <= k < |e| ==> e[k].enable
    ensures |e| <= |configs|
  {
    if |configs| == 0 then []
    else
      Enabled(configs[..|configs| - 1]) +
      (if configs[|configs| - 1].enable then [configs[|configs| - 1]] else [])
  }

  /** Once building has raised, later entries are never looked at. */
  lemma {:induction false} AbortIsFinal(configs: seq<IndicatorConfig>, i: nat)
    requires i <= |configs|
    requires Load(configs[..i]).outcome.Aborted?
    ensures Load(configs) == Load(configs[..i])
    decreases |configs|
  {
    if i < |configs| {
      var init := configs[..|configs| - 1];
      assert init[..i] == configs[..i];
      AbortIsFinal(init, i);
    } else {
      assert configs[..i] == configs;
    }
  }

  /** A completed load built exactly the enabled entries, in order, each
      as the class its name selects and with its parameters unchanged. */
  lemma {:induction false} LoadBuildsEnabled(configs: seq<IndicatorConfig>)
    requires Load(configs).outcome == Complete
    ensures var built, enabled := Load(configs).built, Enabled(configs);
      |built| == |enabled| &&
      forall k :: 0 <= k < |built| ==>
        KindName(built[k].kind) == enabled[k].name && built[k].params == ParamsOf(enabled[k])
  {
    if |configs| > 0 {
      var init := configs[..|configs| - 1];
      LoadBuildsEnabled(init);
    }
  }

  /** A load stops only at an enabled entry that the factory refuses, with
      the factory's error, after every entry before it was built. */
  lemma {:induction false} AbortNamesAnEnabledEntry(configs: seq<IndicatorConfig>)
    requires Load(configs).outcome.Aborted?
    ensures exists k :: 0 <= k < |configs| && configs[k].enable &&
                        Load(configs[..k]).outcome == Complete &&
                        CreateStrategy(configs[k].name, ParamsOf(configs[k])) ==
                          Fail(Load(configs).outcome.error)
  {
    var init := configs[..|configs| - 1];
    if Load(init).outcome.Aborted? {
      AbortNamesAnEnabledEntry(init);
      var k :| 0 <= k < |init| && init[k].enable && Load(init[..k]).outcome == Complete &&
        CreateStrategy(init[k].name, ParamsOf(init[k])) == Fail(Load(init).outcome.error);
      assert configs[k] == init[k];
      assert configs[..k] == init[..k];
    } else {
      assert configs[|configs| - 1].enable;
      assert configs[..|configs| - 1] == init;
    }
  }

  /** Disabled entries are skipped. */
  lemma DisabledIgnored(configs: seq<IndicatorConfig>, c: IndicatorConfig)
    requires !c.enable
    ensures Load(configs + [c]) == Load(configs)
  {
    assert (configs + [c])[..|configs|] == configs;
  }

  /** An enabled FibonacciRetracements entry stops the load, whatever
      follows it, and nothing more is built after the entries before it. */
  lemma FibonacciEntryAborts(configs: seq<IndicatorConfig>, c: IndicatorConfig,
                             rest: seq<IndicatorConfig>)
    requires Load(configs).outcome == Complete
    requires c.enable && c.name == "FibonacciRetracements"
    ensures Load(configs + [c] + rest).outcome.Aborted?
    ensures Load(configs + [c] + rest).built == Load(configs).built
  {
    var all := configs + [c] + rest;
    FibonacciNeverBuilds(ParamsOf(c));
    assert all[..|configs| + 1][..|configs|] == configs;
    assert all[..|configs| + 1][|configs|] == c;
    AbortIsFinal(all, |configs| + 1);
  }

  /** What an attempted call produced: a value, or an exception. */
  datatype Attempt<T> = Returned(value: T) | Raised

  /** A result entry: `{"calculations": ...}` or `{"signal": ...}`. */
  datatype Entry<C> = Calculations(calculations: C) | SignalOnly(signal: Signal)

  /** The `results` dictionary, keyed by indicator name. */
  type Board<C> = map<string, Entry<C>>

  /** The error that escapes the loop when reading `indicator.name` raises:
      the handler reads the attribute again to log it. */
  const NoName := MissingAttribute("name")

  /** One pass of the `process_indicators` loop body. When the indicator
      has no `name`, the lookup raises whichever way `calculate` goes, and
      the handler's own lookup raises again, out of the loop. Otherwise,
      when `calculate` raises nothing is stored; else the calculations are
      stored under the name and then replaced by the signal alone, unless
      deciding raises. */
  function Visit<C>(results: Board<C>, x: Strategy<Value>,
                    calculate: Strategy<Value> -> Attempt<C>,
                    decide: (Strategy<Value>, C) -> Attempt<Signal>,
                    name: Strategy<Value> -> Attempt<string>): Result<Board<C>>
  {
    match name(x)
    case Raised => Fail(NoName)
    case Returned(n) =>
      match calculate(x)
      case Raised => Ok(results)
      case Returned(c) =>
        match decide(x, c)
        case Raised => Ok(results[n := Calculations(c)])
        case Returned(s) => Ok(results[n := SignalOnly(s)])
  }

  /** The results after visiting `xs` in order, or the escaping error. */
  function ProcessAll<C>(xs: seq<Strategy<Value>>,
                         calculate: Strategy<Value> -> Attempt<C>,
                         decide: (Strategy<Value>, C) -> Attempt<Signal>,
                         name: Strategy<Value> -> Attempt<string>): Result<Board<C>>
  {
    if |xs| == 0 then Ok(map[])
    else
      match ProcessAll(xs[..|xs| - 1], calculate, decide, name)
      case Fail(e) => Fail(e)
      case Ok(results) => Visit(results, xs[|xs| - 1], calculate, decide, name)
  }

  /** Visiting an indicator with a name touches only that name's entry: a
      raising `calculate` touches nothing; otherwise the entry holds the
      signal alone, or only the calculations when deciding raised. Without
      a name the visit raises. */
  lemma VisitEffect<C>(results: Board<C>, x: Strategy<Value>,
                       calculate: Strategy<Value> -> Attempt<C>,
                       decide: (Strategy<Value>, C) -> Attempt<Signal>,
                       name: Strategy<Value> -> Attempt<string>)
    ensures var r := Visit(results, x, calculate, decide, name);
      (r.Fail? <==> name(x).Raised?) && (r.Fail? ==> r.error == NoName)
    ensures var r := Visit(results, x, calculate, decide, name);
      name(x).Returned? ==>
        var n, after := name(x).value, r.value;
        (forall k :: k != n ==> (k in after <==> k in results) && (k in after ==> after[k] == results[k])) &&
        (calculate(x).Raised? ==> after == results) &&
        (calculate(x).Returned? && decide(x, calculate(x).value).Returned? ==>
          after[n] == SignalOnly(decide(x, calculate(x).value).value)) &&
        (calculate(x).Returned? && decide(x, calculate(x).value).Raised? ==>
          after[n] == Calculations(calculate(x).value))
  {
  }

  /** The loop raises exactly when some indicator has no `name`, and then
      with the attribute error. */
  lemma {:induction false} AbortsIffNameMissing<C>(xs: seq<Strategy<Value>>,
      calculate: Strategy<Value> -> Attempt<C>,
      decide: (Strategy<Value>, C) -> Attempt<Signal>,
      name: Strategy<Value> -> Attempt<string>)
    ensures var r := ProcessAll(xs, calculate, decide, name);
      (r.Fail? <==> exists i :: 0 <= i < |xs| && name(xs[i]).Raised?) &&
      (r.Fail? ==> r.error == NoName)
  {
    if |xs| > 0 {
      var init := xs[..|xs| - 1];
      AbortsIffNameMissing(init, calculate, decide, name);
      if exists i :: 0 <= i < |init| && name(init[i]).Raised? {
        var i :| 0 <= i < |init| && name(init[i]).Raised?;
        assert xs[i] == init[i];
      }
      if exists i :: 0 <= i < |xs| && name(xs[i]).Raised? {
        var i :| 0 <= i < |xs| && name(xs[i]).Raised?;
        if i < |init| {
          assert init[i] == xs[i];
        }
      }
    }
  }

  /** Once a prefix of the list has raised, the rest is never visited. */
  lemma {:induction false} RaiseIsFinal<C>(xs: seq<Strategy<Value>>, i: nat,
      calculate: Strategy<Value> -> Attempt<C>,
      decide: (Strategy<Value>, C) -> Attempt<Signal>,
      name: Strategy<Value> -> Attempt<string>)
    requires i <= |xs|
    requires ProcessAll(xs[..i], calculate, decide, name).Fail?
    ensures ProcessAll(xs, calculate, decide, name) == ProcessAll(xs[..i], calculate, decide, name)
    decreases |xs|
  {
    if i < |xs| {
      var init := xs[..|xs| - 1];
      assert init[..i] == xs[..i];
      RaiseIsFinal(init, i, calculate, decide, name);
    } else {
      assert xs[..i] == xs;
    }
  }

  /** None of the indicator classes defines `name`, so once any indicator
      is loaded the loop raises at the first one. */
  lemma NamelessIndicatorsAbort<C>(xs: seq<Strategy<Value>>,
      calculate: Strategy<Value> -> Attempt<C>,
      decide: (Strategy<Value>, C) -> Attempt<Signal>)
    requires |xs| > 0
    ensures ProcessAll(xs, calculate, decide, _ => Raised) == Fail(NoName)
  {
    var none: Strategy<Value> -> Attempt<string> := _ => Raised;
    AbortsIffNameMissing(xs, calculate, decide, none);
    assert none(xs[0]).Raised?;
  }

  /** The `name` an indicator would have if its class defined one as the
      factory's name for it. */
  function ClassName(x: Strategy<Value>): Attempt<string>
  {
    Returned(KindName(x.kind))
  }

  /** Had the indicators been named after their class, the loop would
      never raise, and every entry would be keyed by a class name. */
  lemma {:induction false} ClassNamedIndicatorsComplete<C>(xs: seq<Strategy<Value>>,
      calculate: Strategy<Value> -> Attempt<C>,
      decide: (Strategy<Value>, C) -> Attempt<Signal>)
    ensures var r := ProcessAll(xs, calculate, decide, ClassName);
      r.Ok? && forall key :: key in r.value ==> exists k: Kind :: KindName(k) == key
  {
    if |xs| > 0 {
      ClassNamedIndicatorsComplete(xs[..|xs| - 1], calculate, decide);
    }
  }

  /** Every stored entry belongs to an indicator whose `calculate`
      returned: an indicator that raised there leaves no entry behind
      (no placeholder signal is recorded). */
  lemma {:induction false} EntriesComeFromCalculations<C>(xs: seq<Strategy<Value>>,
      calculate: Strategy<Value> -> Attempt<C>,
      decide: (Strategy<Value>, C) -> Attempt<Signal>,
      name: Strategy<Value> -> Attempt<string>, key: string)
    requires ProcessAll(xs, calculate, decide, name).Ok?
    requires key in ProcessAll(xs, calculate, decide, name).value
    ensures exists i :: 0 <= i < |xs| && name(xs[i]) == Returned(key) && calculate(xs[i]).Returned?
  {
    var init := xs[..|xs| - 1];
    var x := xs[|xs| - 1];
    if name(x) == Returned(key) && calculate(x).Returned? {
    } else {
      EntriesComeFromCalculations(init, calculate, decide, name, key);
      var i :| 0 <= i < |init| && name(init[i]) == Returned(key) && calculate(init[i]).Returned?;
      assert xs[i] == init[i];
    }
  }

  /** An indicator later in the list with the same name and a returning
      `calculate` overwrites the entry of an earlier one. */
  lemma LastVisitWins<C>(xs: seq<Strategy<Value>>, x: Strategy<Value>,
                         calculate: Strategy<Value> -> Attempt<C>,
                         decide: (Strategy<Value>, C) -> Attempt<Signal>,
                         name: Strategy<Value> -> Attempt<string>)
    requires ProcessAll(xs, calculate, decide, name).Ok?
    requires name(x).Returned? && calculate(x).Returned?
    ensures var r := ProcessAll(xs + [x], calculate, decide, name);
      r.Ok? && name(x).value in r.value &&
      r.value[name(x).value] == (match decide(x, calculate(x).value)
                                 case Returned(s) => SignalOnly(s)
                                 case Raised => Calculations(calculate(x).value))
  {
    assert (xs + [x])[..|xs|] == xs;
  }

  /** The application's indicator list. */
  class Trader {
    var indicators: seq<Strategy<Value>>

    constructor()
      ensures indicators == []
    {
      indicators := [];
    }

    /** The indicator loop of the constructor: each enabled entry is built
        through the factory and appended; a refused entry raises out of the
        loop, leaving the indicators built so far. */
    method LoadIndicators(configs: seq<IndicatorConfig>) returns (outcome: Outcome)
      modifies this
      ensures indicators == old(indicators) + Load(configs).built
      ensures outcome == Load(configs).outcome
    {
      outcome := Complete;
      var i := 0;
      while i < |configs|
        invariant i <= |configs|
        invariant Load(configs[..i]).outcome == Complete
        invariant indicators == old(indicators) + Load(configs[..i]).built
      {
        var c := configs[i];
        assert configs[..i + 1][..i] == configs[..i];
        if c.enable {
          var r := CreateStrategy(c.name, ParamsOf(c));
          if r.Fail? {
            outcome := Aborted(r.error);
            AbortIsFinal(configs, i + 1);
            return;
          }
          indicators := indicators + [r.value];
        }
        i := i + 1;
      }
      assert configs[..i] == configs;
    }

    /** `process_indicators`: visits the indicators in list order. An
        exception from `calculate` or `decide_signal` is caught and the
        loop goes on; one from reading `name`, which the handler repeats,
        ends it with `Fail`. */
    method ProcessIndicators<C>(calculate: Strategy<Value> -> Attempt<C>,
                                decide: (Strategy<Value>, C) -> Attempt<Signal>,
                                name: Strategy<Value> -> Attempt<string>)
      returns (r: Result<Board<C>>)
      ensures r == ProcessAll(indicators, calculate, decide, name)
    {
      var results: Board<C> := map[];
      var i := 0;
      while i < |indicators|
        invariant i <= |indicators|
        invariant ProcessAll(indicators[..i], calculate, decide, name) == Ok(results)
      {
        var x := indicators[i];
        assert indicators[..i + 1][..i] == indicators[..i];
        ghost var before := results;
        assert ProcessAll(indicators[..i + 1], calculate, decide, name) ==
               Visit(before, x, calculate, decide, name);
        match calculate(x) {
          case Raised =>
            if name(x).Raised? {
              RaiseIsFinal(indicators, i + 1, calculate, decide, name);
              return Fail(NoName);
            }
          case Returned(c) =>
            if name(x).Raised? {
              RaiseIsFinal(indicators, i + 1, calculate, decide, name);
              return Fail(NoName);
            }
            var n := name(x).value;
            results := results[n := Calculations(c)];
            match decide(x, results[n].calculations) {
              case Raised =>
              case Returned(s) =>
                results := results[n := SignalOnly(s)];
                assert results == before[n := SignalOnly(s)];
            }
        }
        i := i + 1;
      }
      assert indicators[..i] == indicators;
      r := Ok(results);
    }
  }
}
