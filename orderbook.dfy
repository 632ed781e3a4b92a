/** Order book analysis: the exchange's order book lists bid and ask price
    levels; the decider compares the total quantity offered on each side. */
module OrderBook {
  import opened Results
  import opened Signals
  import opened Series

  /** One `[price, quantity]` entry of the book. */
  datatype Level = Level(price: real, quantity: real)

  const BidsKey: string := "bids"
  const AsksKey: string := "asks"

  /** The quantity field of each level, in book order. */
  function Quantities(levels: seq<Level>): (q: seq<real>)
    ensures |q| == |levels|
    ensures forall i :: 0 <= i < |levels| ==> q[i] == levels[i].quantity
  {
    seq(|levels|, i requires 0 <= i < |levels| => levels[i].quantity)
  }

  /** `sum([float(level[1]) for level in levels])`. */
  function SideTotal(levels: seq<Level>): real
  {
    Sum(Quantities(levels))
  }

  /** A book with the given sides. */
  function Book(bids: seq<Level>, asks: seq<Level>): (book: map<string, seq<Level>>)
    ensures BidsKey in book && book[BidsKey] == bids
    ensures AsksKey in book && book[AsksKey] == asks
  {
    map[BidsKey := bids, AsksKey := asks]
  }

  /** `decide_buy_sell_hold_signals`: the `bids` lookup raises first, then
      the `asks` lookup; buy when more quantity is bid than asked, sell
      when more is asked, hold when the totals are equal. */
  function Decide(book: map<string, seq<Level>>): (r: Result<Signal>)
    ensures BidsKey !in book ==> r == Fail(MissingKey(BidsKey))
    ensures BidsKey in book && AsksKey !in book ==> r == Fail(MissingKey(AsksKey))
    ensures r.Ok? <==> BidsKey in book && AsksKey in book
    ensures r.Ok? ==> var bid, ask := SideTotal(book[BidsKey]), SideTotal(book[AsksKey]);
      (r.value == Buy <==> bid > ask) &&
      (r.value == Sell <==> ask > bid) &&
      (r.value == Hold <==> bid == ask)
  {
    if BidsKey !in book then Fail(MissingKey(BidsKey))
    else if AsksKey !in book then Fail(MissingKey(AsksKey))
    else
      var bid, ask := SideTotal(book[BidsKey]), SideTotal(book[AsksKey]);
      if bid > ask then Ok(Buy)
      else if ask > bid then Ok(Sell)
      else Ok(Hold)
  }

  /** Prices never reach the decision: books whose sides carry the same
      quantities decide alike. */
  lemma PricesIgnored(bids: seq<Level>, asks: seq<Level>, bids': seq<Level>, asks': seq<Level>)
    requires Quantities(bids) == Quantities(bids')
    requires Quantities(asks) == Quantities(asks')
    ensures Decide(Book(bids, asks)) == Decide(Book(bids', asks'))
  {
  }

  /** Reordering the levels of either side leaves the decision unchanged. */
  lemma ReorderingIgnored(bids: seq<Level>, asks: seq<Level>, bids': seq<Level>, asks': seq<Level>)
    requires multiset(bids) == multiset(bids')
    requires multiset(asks) == multiset(asks')
    ensures Decide(Book(bids, asks)) == Decide(Book(bids', asks'))
  {
    PermutedQuantities(bids, bids');
    PermutedQuantities(asks, asks');
    SumPermutation(Quantities(bids), Quantities(bids'));
    SumPermutation(Quantities(asks), Quantities(asks'));
  }

  /** Reordering levels reorders their quantities. */
  lemma {:induction false} PermutedQuantities(a: seq<Level>, b: seq<Level>)
    requires multiset(a) == multiset(b)
    ensures multiset(Quantities(a)) == multiset(Quantities(b))
    decreases |a|
  {
    if |a| > 0 {
      assert a[0] in multiset(b);
      var j :| 0 <= j < |b| && b[j] == a[0];
      var rest := b[..j] + b[j + 1..];
      PermutationWithoutFirst(a, b, j);
      PermutedQuantities(a[1..], rest);
      assert b == b[..j] + [b[j]] + b[j + 1..];
      assert a == [a[0]] + a[1..];
      QuantitiesAppend([a[0]], a[1..]);
      QuantitiesAppend(b[..j] + [b[j]], b[j + 1..]);
      QuantitiesAppend(b[..j], [b[j]]);
      QuantitiesAppend(b[..j], b[j + 1..]);
      assert Quantities([a[0]]) == [a[0].quantity];
      calc {
        multiset(Quantities(b));
        multiset(Quantities(b[..j])) + multiset{a[0].quantity} + multiset(Quantities(b[j + 1..]));
        multiset(Quantities(rest)) + multiset{a[0].quantity};
        multiset(Quantities(a[1..])) + multiset{a[0].quantity};
        multiset(Quantities(a));
      }
    } else {
      assert |b| == |multiset(b)| == 0;
    }
  }

  lemma QuantitiesAppend(x: seq<Level>, y: seq<Level>)
    ensures Quantities(x + y) == Quantities(x) + Quantities(y)
  {
  }

  /** An empty book holds. */
  lemma EmptyBookHolds()
    ensures Decide(Book([], [])) == Ok(Hold)
  {
    assert Quantities([]) == [];
  }

  /** Exchanging the two sides exchanges buy and sell. */
  lemma SwapMirrors(bids: seq<Level>, asks: seq<Level>)
    ensures Decide(Book(asks, bids)).value == Mirror(Decide(Book(bids, asks)).value)
  {
  }
}
