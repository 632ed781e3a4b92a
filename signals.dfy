/** The discrete trading signal every decider produces. */
module Signals {

  datatype Signal = Buy | Sell | Hold | Unknown

  /** The exchanged roles of a buy and a sell decision. */
  function Mirror(s: Signal): (m: Signal)
    ensures m == Buy <==> s == Sell
    ensures m == Sell <==> s == Buy
    ensures m == Hold <==> s == Hold
  {
    match s
    case Buy => Sell
    case Sell => Buy
    case Hold => Hold
    case Unknown => Unknown
  }

  /** The text the program stores for a signal. The text of `Unknown` lives
      in a constants module that is not part of this model. */
  function Text(s: Signal): (t: string)
    ensures s == Buy ==> t == "buy"
    ensures s == Sell ==> t == "sell"
    ensures s == Hold ==> t == "hold"
  {
    match s
    case Buy => "buy"
    case Sell => "sell"
    case Hold => "hold"
    case Unknown => "unknown"
  }

  lemma TextInjective(a: Signal, b: Signal)
    requires Text(a) == Text(b)
    ensures a == b
  {
    match a
    case Buy => assert Text(b)[0] == 'b';
    case Sell => assert Text(b)[0] == 's';
    case Hold => assert Text(b)[0] == 'h';
    case Unknown => assert Text(b)[0] == 'u';
  }
}
