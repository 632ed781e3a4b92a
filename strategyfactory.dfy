/** The strategy factory: a strategy name from the configuration selects the
    indicator or sentiment class to build, and the remaining configuration
    entries become its constructor arguments. */
module StrategyFactory {
  import opened Results

  /** The eighteen classes the factory can build. */
  datatype Kind =
    | Adx | BollingerBands | DoubleTopBottom | Ewt | FibonacciRetracements
    | HeadAndShoulders | IchimokuCloud | Macd | Oba | Obv | Rsi
    | StochasticOscillator | Supertrend | Triangle | Vwap
    | GoogleTrends | Reddit | Twitter

  /** A built strategy: its class and the keyword arguments it was given. */
  datatype Strategy<V> = Strategy(kind: Kind, params: map<string, V>)

  /** The configuration name that selects each class. */
  function KindName(k: Kind): string
  {
    match k
    case Adx => "ADX"
    case BollingerBands => "BollingerBands"
    case DoubleTopBottom => "DoubleTopBottom"
    case Ewt => "EWT"
    case FibonacciRetracements => "FibonacciRetracements"
    case HeadAndShoulders => "HeadAndShoulders"
    case IchimokuCloud => "IchimokuCloud"
    case Macd => "MACD"
    case Oba => "OBA"
    case Obv => "OBV"
    case Rsi => "RSI"
    case StochasticOscillator => "StochasticOscillator"
    case Supertrend => "Supertrend"
    case Triangle => "Triangle"
    case Vwap => "VWAP"
    case GoogleTrends => "GoogleTrends"
    case Reddit => "Reddit"
    case Twitter => "Twitter"
  }

  /** The keyword arguments each class's constructor takes: every class
      takes `is_test` and `timestamp`, and some add their own tuning
      parameters. */
  function Keywords(k: Kind): (kw: set<string>)
    ensures "is_test" in kw && "timestamp" in kw
    ensures "name" !in kw
  {
    var own: set<string> := match k
      case Adx => {"timeperiod"}
      case BollingerBands => {"window_size", "num_std"}
      case HeadAndShoulders => {"window_size"}
      case IchimokuCloud => {"tenkan_sen_n1", "tenkan_sen_n2", "kijun_sen_n2", "senkou_span_b_n2"}
      case Macd => {"fast_period", "slow_period", "signal_period"}
      case StochasticOscillator => {"interval", "k_period", "d_period", "threshold"}
      case Supertrend => {"lookback", "multiplier"}
      case Reddit => {"args"}
      case Twitter => {"args"}
      case _ => {};
    {"is_test", "timestamp"} + own
  }

  /** The constructor arguments without a default: only the sentiment
      clients need one, their command-line `args`. */
  function Required(k: Kind): (req: set<string>)
    ensures req <= Keywords(k)
    ensures req == {} <==> k != Reddit && k != Twitter
  {
    if k == Reddit || k == Twitter then {"args"} else {}
  }

  /** Python's binding of `Cls(**params)` to the constructor's parameters:
      a keyword the constructor does not take raises first, then a required
      argument left out raises; otherwise the class is bound to the
      arguments as given. */
  function Bind<V>(k: Kind, params: map<string, V>): (r: Result<Strategy<V>>)
    ensures r.Ok? <==> params.Keys <= Keywords(k) && Required(k) <= params.Keys
    ensures r.Ok? ==> r.value == Strategy(k, params)
    ensures !(params.Keys <= Keywords(k)) ==> r == Fail(UnexpectedKeyword(KindName(k)))
    ensures params.Keys <= Keywords(k) && !(Required(k) <= params.Keys) ==>
              r == Fail(MissingArgument(KindName(k)))
  {
    if !(params.Keys <= Keywords(k)) then Fail(UnexpectedKeyword(KindName(k)))
    else if !(Required(k) <= params.Keys) then Fail(MissingArgument(KindName(k)))
    else Ok(Strategy(k, params))
  }

  /** The constructor body, as far as it can raise for every argument:
      FibonacciRetracements reads a global `args` that its module assigns
      only when run as a script, so building it always raises NameError.
      The other bodies are taken to return. */
  function Initialize<V>(s: Strategy<V>): (r: Result<Strategy<V>>)
    ensures r.Fail? <==> s.kind == FibonacciRetracements
    ensures r.Fail? ==> r.error == UndefinedName("args")
    ensures r.Ok? ==> r.value == s
  {
    if s.kind == FibonacciRetracements then Fail(UndefinedName("args")) else Ok(s)
  }

  /** `Cls(**params)`: binding the arguments, then running the body. */
  function Construct<V>(k: Kind, params: map<string, V>): (r: Result<Strategy<V>>)
    ensures r.Ok? <==> Bind(k, params).Ok? && k != FibonacciRetracements
    ensures r.Ok? ==> r.value == Strategy(k, params)
    ensures Bind(k, params).Fail? ==> r == Bind(k, params)
    ensures Bind(k, params).Ok? && k == FibonacciRetracements ==> r == Fail(UndefinedName("args"))
  {
    match Bind(k, params)
    case Fail(e) => Fail(e)
    case Ok(s) => Initialize(s)
  }

  /** `create_strategy(name, **params)`: a `"name"` keyword collides with
      the method's own `name` parameter and raises at the call; otherwise
      the first name in the chain equal to `name` selects its class, which
      is constructed from `params`, and any other name raises. */
  function CreateStrategy<V>(name: string, params: map<string, V>): (r: Result<Strategy<V>>)
    ensures "name" in params ==> r == Fail(DuplicateArgument("name"))
    ensures r.Ok? ==> KindName(r.value.kind) == name && r.value.params == params &&
                      params.Keys <= Keywords(r.value.kind) && Required(r.value.kind) <= params.Keys &&
                      r.value.kind != FibonacciRetracements
    ensures r == Fail(UnknownStrategy(name)) ==> forall k: Kind :: KindName(k) != name
  {
    if "name" in params then Fail(DuplicateArgument("name"))
    else if name == "ADX" then Construct(Adx, params)
    else if name == "BollingerBands" then Construct(BollingerBands, params)
    else if name == "DoubleTopBottom" then Construct(DoubleTopBottom, params)
    else if name == "EWT" then Construct(Ewt, params)
    else if name == "FibonacciRetracements" then Construct(FibonacciRetracements, params)
    else if name == "HeadAndShoulders" then Construct(HeadAndShoulders, params)
    else if name == "IchimokuCloud" then Construct(IchimokuCloud, params)
    else if name == "MACD" then Construct(Macd, params)
    else if name == "OBA" then Construct(Oba, params)
    else LaterNames(name, params)
  }

  /** The second half of the chain, from "OBV" on. */
  function LaterNames<V>(name: string, params: map<string, V>): (r: Result<Strategy<V>>)
    requires name != "ADX" && name != "BollingerBands" && name != "DoubleTopBottom"
    requires name != "EWT" && name != "FibonacciRetracements" && name != "HeadAndShoulders"
    requires name != "IchimokuCloud" && name != "MACD" && name != "OBA"
    ensures r.Ok? ==> KindName(r.value.kind) == name && r.value.params == params &&
                      params.Keys <= Keywords(r.value.kind) && Required(r.value.kind) <= params.Keys
    ensures r == Fail(UnknownStrategy(name)) ==> forall k: Kind :: KindName(k) != name
  {
    if name == "OBV" then Construct(Obv, params)
    else if name == "RSI" then Construct(Rsi, params)
    else if name == "StochasticOscillator" then Construct(StochasticOscillator, params)
    else if name == "Supertrend" then Construct(Supertrend, params)
    else LastNames(name, params)
  }

  /** The end of the chain, from "Triangle" on, and the unknown name. */
  function LastNames<V>(name: string, params: map<string, V>): (r: Result<Strategy<V>>)
    requires name != "ADX" && name != "BollingerBands" && name != "DoubleTopBottom"
    requires name != "EWT" && name != "FibonacciRetracements" && name != "HeadAndShoulders"
    requires name != "IchimokuCloud" && name != "MACD" && name != "OBA" && name != "OBV"
    requires name != "RSI" && name != "StochasticOscillator" && name != "Supertrend"
    ensures r.Ok? ==> KindName(r.value.kind) == name && r.value.params == params &&
                      params.Keys <= Keywords(r.value.kind) && Required(r.value.kind) <= params.Keys
    ensures r == Fail(UnknownStrategy(name)) ==> forall k: Kind :: KindName(k) != name
  {
    if name == "Triangle" then Construct(Triangle, params)
    else if name == "VWAP" then Construct(Vwap, params)
    else if name == "GoogleTrends" then Construct(GoogleTrends, params)
    else if name == "Reddit" then Construct(Reddit, params)
    else if name == "Twitter" then Construct(Twitter, params)
    else
      NoKindNamed(name);
      Fail(UnknownStrategy(name))
  }

  /** A name that is none of the eighteen names selects no class. */
  lemma NoKindNamed(name: string)
    requires name != "ADX" && name != "BollingerBands" && name != "DoubleTopBottom"
    requires name != "EWT" && name != "FibonacciRetracements" && name != "HeadAndShoulders"
    requires name != "IchimokuCloud" && name != "MACD" && name != "OBA" && name != "OBV"
    requires name != "RSI" && name != "StochasticOscillator" && name != "Supertrend"
    requires name != "Triangle" && name != "VWAP" && name != "GoogleTrends"
    requires name != "Reddit" && name != "Twitter"
    ensures forall k: Kind :: KindName(k) != name
  {
    forall k: Kind ensures KindName(k) != name {
      match k {
        case Adx =>
        case BollingerBands =>
        case DoubleTopBottom =>
        case Ewt =>
        case FibonacciRetracements =>
        case HeadAndShoulders =>
        case IchimokuCloud =>
        case Macd =>
        case Oba =>
        case Obv =>
        case Rsi =>
        case StochasticOscillator =>
        case Supertrend =>
        case Triangle =>
        case Vwap =>
        case GoogleTrends =>
        case Reddit =>
        case Twitter =>
      }
    }
  }

  /** Distinct classes have distinct names. */
  lemma NamesInjective(a: Kind, b: Kind)
    requires KindName(a) == KindName(b)
    ensures a == b
  {
  }

  /** Each class's own name constructs exactly that class from the
      arguments, unless they hold a `"name"` keyword. */
  lemma NameSelectsItsKind<V>(k: Kind, params: map<string, V>)
    requires "name" !in params
    ensures CreateStrategy(KindName(k), params) == Construct(k, params)
  {
    match k
    case Adx =>
    case BollingerBands =>
    case DoubleTopBottom =>
    case Ewt =>
    case FibonacciRetracements =>
    case HeadAndShoulders =>
    case IchimokuCloud =>
    case Macd =>
    case Oba =>
    case _ => LaterNameSelectsItsKind(k, params);
  }

  /** The same for the classes of the second half of the chain. */
  lemma LaterNameSelectsItsKind<V>(k: Kind, params: map<string, V>)
    requires k !in {Adx, BollingerBands, DoubleTopBottom, Ewt, FibonacciRetracements,
                    HeadAndShoulders, IchimokuCloud, Macd, Oba}
    ensures KindName(k) != "ADX" && KindName(k) != "BollingerBands" && KindName(k) != "DoubleTopBottom"
    ensures KindName(k) != "EWT" && KindName(k) != "FibonacciRetracements" && KindName(k) != "HeadAndShoulders"
    ensures KindName(k) != "IchimokuCloud" && KindName(k) != "MACD" && KindName(k) != "OBA"
    ensures LaterNames(KindName(k), params) == Construct(k, params)
  {
    match k
    case Obv =>
    case Rsi =>
    case StochasticOscillator =>
    case Supertrend =>
    case _ => LastNameSelectsItsKind(k, params);
  }

  /** The same for the classes from Triangle on. */
  lemma LastNameSelectsItsKind<V>(k: Kind, params: map<string, V>)
    requires k in {Triangle, Vwap, GoogleTrends, Reddit, Twitter}
    ensures KindName(k) != "ADX" && KindName(k) != "BollingerBands" && KindName(k) != "DoubleTopBottom"
    ensures KindName(k) != "EWT" && KindName(k) != "FibonacciRetracements" && KindName(k) != "HeadAndShoulders"
    ensures KindName(k) != "IchimokuCloud" && KindName(k) != "MACD" && KindName(k) != "OBA" && KindName(k) != "OBV"
    ensures KindName(k) != "RSI" && KindName(k) != "StochasticOscillator" && KindName(k) != "Supertrend"
    ensures LastNames(KindName(k), params) == Construct(k, params)
  {
    match k
    case Triangle =>
    case Vwap =>
    case GoogleTrends =>
    case Reddit =>
    case Twitter =>
  }

  /** A name no class has is none of the eighteen names of the chain. */
  lemma NotInChain(name: string)
    requires forall k: Kind :: KindName(k) != name
    ensures name != "ADX" && name != "BollingerBands" && name != "DoubleTopBottom"
    ensures name != "EWT" && name != "FibonacciRetracements" && name != "HeadAndShoulders"
    ensures name != "IchimokuCloud" && name != "MACD" && name != "OBA" && name != "OBV"
    ensures name != "RSI" && name != "StochasticOscillator" && name != "Supertrend"
    ensures name != "Triangle" && name != "VWAP" && name != "GoogleTrends"
    ensures name != "Reddit" && name != "Twitter"
  {
    assert KindName(Adx) != name && KindName(BollingerBands) != name;
    assert KindName(DoubleTopBottom) != name && KindName(Ewt) != name;
    assert KindName(FibonacciRetracements) != name && KindName(HeadAndShoulders) != name;
    assert KindName(IchimokuCloud) != name && KindName(Macd) != name;
    assert KindName(Oba) != name && KindName(Obv) != name;
    assert KindName(Rsi) != name && KindName(StochasticOscillator) != name;
    assert KindName(Supertrend) != name && KindName(Triangle) != name;
    assert KindName(Vwap) != name && KindName(GoogleTrends) != name;
    assert KindName(Reddit) != name && KindName(Twitter) != name;
  }

  /** A name no class has raises the unknown-strategy error, unless the
      arguments hold a `"name"` keyword. */
  lemma UnknownNameRejected<V>(name: string, params: map<string, V>)
    requires "name" !in params
    requires forall k: Kind :: KindName(k) != name
    ensures CreateStrategy(name, params) == Fail(UnknownStrategy(name))
  {
    NotInChain(name);
  }

  /** Every indicator's arguments bind from an empty parameter map or from
      `is_test` and `timestamp` alone, and the indicator is then built,
      except FibonacciRetracements, whose body raises. The sentiment
      clients need `args`. */
  lemma DefaultsBuild<V>(k: Kind, test: V, stamp: V)
    ensures var none: map<string, V> := map[];
            Required(k) == {} ==> Bind(k, none) == Ok(Strategy(k, none))
    ensures var p := map["is_test" := test, "timestamp" := stamp];
            Required(k) == {} ==> Bind(k, p) == Ok(Strategy(k, p))
    ensures var none: map<string, V> := map[];
            Required(k) == {} && k != FibonacciRetracements ==>
              CreateStrategy(KindName(k), none) == Ok(Strategy(k, none))
    ensures var p := map["is_test" := test, "timestamp" := stamp];
            Required(k) == {} && k != FibonacciRetracements ==>
              CreateStrategy(KindName(k), p) == Ok(Strategy(k, p))
    ensures var none: map<string, V> := map[];
            Required(k) != {} ==> CreateStrategy(KindName(k), none) == Fail(MissingArgument(KindName(k)))
  {
    var none: map<string, V> := map[];
    var p := map["is_test" := test, "timestamp" := stamp];
    NameSelectsItsKind(k, none);
    NameSelectsItsKind(k, p);
  }

  /** FibonacciRetracements is never built through the factory: every
      parameter map fails, and one its constructor accepts fails on the
      undefined global `args`. */
  lemma FibonacciNeverBuilds<V>(params: map<string, V>)
    ensures CreateStrategy("FibonacciRetracements", params).Fail?
    ensures "name" !in params && params.Keys <= Keywords(FibonacciRetracements) ==>
              CreateStrategy("FibonacciRetracements", params) == Fail(UndefinedName("args"))
  {
    if "name" !in params {
      NameSelectsItsKind(FibonacciRetracements, params);
    }
  }

  /** RSI's constructor declares no `period`: passing one raises. */
  lemma RsiRejectsPeriod<V>(v: V)
    ensures CreateStrategy("RSI", map["period" := v]) == Fail(UnexpectedKeyword("RSI"))
  {
    var p := map["period" := v];
    assert "period" in p.Keys && "period" !in Keywords(Rsi);
    NameSelectsItsKind(Rsi, p);
  }

  /** `window_size` tunes Bollinger Bands but is unknown to MACD. */
  lemma WindowSizeKeyword<V>(v: V)
    ensures CreateStrategy("BollingerBands", map["window_size" := v]) ==
              Ok(Strategy(BollingerBands, map["window_size" := v]))
    ensures CreateStrategy("MACD", map["window_size" := v]) == Fail(UnexpectedKeyword("MACD"))
  {
    var p := map["window_size" := v];
    assert p.Keys == {"window_size"};
    assert "window_size" !in Keywords(Macd);
    NameSelectsItsKind(BollingerBands, p);
    NameSelectsItsKind(Macd, p);
  }

  /** Matching is exact and case-sensitive. */
  lemma MatchingIsExact<V>(params: map<string, V>)
    requires "name" !in params
    ensures CreateStrategy("rsi", params) == Fail(UnknownStrategy("rsi"))
    ensures CreateStrategy("RSI ", params) == Fail(UnknownStrategy("RSI "))
    ensures CreateStrategy("Macd", params) == Fail(UnknownStrategy("Macd"))
  {
  }
}
