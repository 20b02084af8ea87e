/** Choosing one bid and one ask for a time bucket so that, if possible, they do not cross. */
module Quotes {
  import opened Wrappers
  import opened DomModel

  ghost predicate Increasing(s: seq<Price>) {
    forall i, j :: 0 <= i < j < |s| ==> s[i] < s[j]
  }

  ghost predicate Decreasing(s: seq<Price>) {
    forall i, j :: 0 <= i < j < |s| ==> s[i] > s[j]
  }

  ghost predicate Lists(s: seq<Price>, prices: set<Price>) {
    forall p :: p in s <==> p in prices
  }

  lemma Member<T>(s: set<T>) returns (x: T)
    requires s != {}
    ensures x in s
  {
    x :| x in s;
  }

  lemma SamePrices(a: set<Price>, b: set<Price>)
    requires forall p :: p in a <==> p in b
    ensures a == b
  {
    if a - b != {} {
      var p := Member(a - b);
    }
    if b - a != {} {
      var p := Member(b - a);
    }
    assert a == a - (a - b) + (b - a);
  }

  method Ascending(prices: set<Price>) returns (s: seq<Price>)
    ensures Increasing(s) && Lists(s, prices)
  {
    s := [];
    var rest := prices;
    while rest != {}
      invariant rest <= prices && Increasing(s) && Lists(s, prices - rest)
    {
      ghost var some := Member(rest);
      var p :| p in rest;
      var i := 0;
      while i < |s| && s[i] < p
        invariant 0 <= i <= |s| && forall k :: 0 <= k < i ==> s[k] < p
      {
        i := i + 1;
      }
      assert p !in s;
      assert forall q :: q in s[..i] + [p] + s[i..] <==> q in s || q == p by {
        assert s == s[..i] + s[i..];
      }
      s := s[..i] + [p] + s[i..];
      rest := rest - {p};
    }
    assert prices - rest == prices;
  }

  method Descending(prices: set<Price>) returns (s: seq<Price>)
    ensures Decreasing(s) && Lists(s, prices)
  {
    var up := Ascending(prices);
    s := seq(|up|, i requires 0 <= i < |up| => up[|up| - 1 - i]);
    forall p ensures p in s <==> p in up {
      if p in up {
        var i :| 0 <= i < |up| && up[i] == p;
        assert s[|up| - 1 - i] == p;
      }
    }
  }

  /** Some bid of the bucket lies below some ask of the bucket. */
  ghost predicate Separable(bids: set<Price>, asks: set<Price>) {
    exists b, a :: b in bids && a in asks && b < a
  }

  /** The pair has the least positive spread, and the highest bid among those. */
  ghost predicate BestPair(b: Price, a: Price, bids: set<Price>, asks: set<Price>) {
    && b in bids && a in asks && b < a
    && forall x, y :: x in bids && y in asks && x < y ==> a - b < y - x || (a - b == y - x && x <= b)
  }

  ghost predicate BidBelow(bids: set<Price>, previousAsk: Option<Price>) {
    previousAsk.Some? && exists b :: b in bids && b < previousAsk.value
  }

  ghost predicate AskAbove(asks: set<Price>, previousBid: Option<Price>) {
    previousBid.Some? && exists a :: a in asks && a > previousBid.value
  }

  /** Without a pair: the highest bid below the previous ask, else the previous bid. */
  ghost predicate FallbackBid(bid: Option<Price>, bids: set<Price>, previousBid: Option<Price>,
                              previousAsk: Option<Price>) {
    if BidBelow(bids, previousAsk) then
      && bid.Some? && bid.value in bids && bid.value < previousAsk.value
      && forall b :: b in bids && b < previousAsk.value ==> b <= bid.value
    else bid == previousBid
  }

  ghost predicate FallbackAsk(ask: Option<Price>, asks: set<Price>, previousBid: Option<Price>,
                              previousAsk: Option<Price>) {
    if AskAbove(asks, previousBid) then
      && ask.Some? && ask.value in asks && ask.value > previousBid.value
      && forall a :: a in asks && a > previousBid.value ==> ask.value <= a
    else ask == previousAsk
  }

  /** When a returned pair of quotes does not cross, told from the inputs alone. */
  ghost predicate KeepsApart(bids: set<Price>, asks: set<Price>, previousBid: Option<Price>,
                             previousAsk: Option<Price>) {
    || Separable(bids, asks)
    || BidBelow(bids, previousAsk) != AskAbove(asks, previousBid)
    || (!BidBelow(bids, previousAsk) && !AskAbove(asks, previousBid)
        && previousBid.Some? && previousAsk.Some? && previousBid.value < previousAsk.value)
  }

  /** The scan over bids, best first: each bid is paired with the lowest ask above it, and a later
      bid replaces an earlier one only with a strictly smaller spread. */
  method ClosestPair(bids: seq<Price>, asks: seq<Price>, ghost bidPrices: set<Price>, ghost askPrices: set<Price>)
    returns (best: Option<(Price, Price)>)
    requires Decreasing(bids) && Lists(bids, bidPrices) && Increasing(asks) && Lists(asks, askPrices)
    ensures best.Some? <==> Separable(bidPrices, askPrices)
    ensures best.Some? ==> BestPair(best.value.0, best.value.1, bidPrices, askPrices)
  {
    best := None;
    ghost var done: set<Price> := {};
    for i := 0 to |bids|
      invariant forall x :: x in done <==> x in bids[..i]
      invariant best.Some? <==> Separable(done, askPrices)
      invariant best.Some? ==> BestPair(best.value.0, best.value.1, done, askPrices)
    {
      var j := 0;
      while j < |asks| && asks[j] - bids[i] <= 0.0
        invariant 0 <= j <= |asks| && forall k :: 0 <= k < j ==> asks[k] <= bids[i]
      {
        j := j + 1;
      }
      forall y | y in askPrices && bids[i] < y ensures j < |asks| && asks[j] <= y {
        assert y in asks;
      }
      assert j < |asks| ==> asks[j] in askPrices;
      assert forall x :: x in done ==> x > bids[i];
      done := done + {bids[i]};
      assert bids[..i + 1] == bids[..i] + [bids[i]];
      if j < |asks| && (best.None? || asks[j] - bids[i] < best.value.1 - best.value.0) {
        best := Some((bids[i], asks[j]));
      }
    }
    assert bids[..|bids|] == bids;
    SamePrices(done, bidPrices);
  }

  method HighestBelow(bids: seq<Price>, ghost bidPrices: set<Price>, previousAsk: Option<Price>,
                      previousBid: Option<Price>)
    returns (bid: Option<Price>)
    requires Decreasing(bids) && Lists(bids, bidPrices)
    ensures FallbackBid(bid, bidPrices, previousBid, previousAsk)
  {
    if previousAsk.Some? {
      var i := 0;
      while i < |bids| && bids[i] >= previousAsk.value
        invariant 0 <= i <= |bids| && forall k :: 0 <= k < i ==> bids[k] >= previousAsk.value
      {
        i := i + 1;
      }
      forall b | b in bidPrices && b < previousAsk.value ensures i < |bids| && b <= bids[i] {
        assert b in bids;
      }
      if i < |bids| {
        assert bids[i] in bidPrices;
        return Some(bids[i]);
      }
    }
    bid := previousBid;
  }

  method LowestAbove(asks: seq<Price>, ghost askPrices: set<Price>, previousAsk: Option<Price>,
                     previousBid: Option<Price>)
    returns (ask: Option<Price>)
    requires Increasing(asks) && Lists(asks, askPrices)
    ensures FallbackAsk(ask, askPrices, previousBid, previousAsk)
  {
    if previousBid.Some? {
      var i := 0;
      while i < |asks| && asks[i] <= previousBid.value
        invariant 0 <= i <= |asks| && forall k :: 0 <= k < i ==> asks[k] <= previousBid.value
      {
        i := i + 1;
      }
      forall a | a in askPrices && a > previousBid.value ensures i < |asks| && asks[i] <= a {
        assert a in asks;
      }
      if i < |asks| {
        assert asks[i] in askPrices;
        return Some(asks[i]);
      }
    }
    ask := previousAsk;
  }

  /** Main result: the least positive spread when there is one, else the fallbacks; and the exact
      condition under which the returned pair does not cross. */
  method NonCrossedQuote(bidPrices: set<Price>, askPrices: set<Price>, previousBid: Option<Price>,
                         previousAsk: Option<Price>)
    returns (bid: Option<Price>, ask: Option<Price>)
    ensures Separable(bidPrices, askPrices) ==>
              bid.Some? && ask.Some? && BestPair(bid.value, ask.value, bidPrices, askPrices)
    ensures !Separable(bidPrices, askPrices) ==>
              && FallbackBid(bid, bidPrices, previousBid, previousAsk)
              && FallbackAsk(ask, askPrices, previousBid, previousAsk)
    ensures bid.Some? && ask.Some? ==>
              (bid.value < ask.value <==> KeepsApart(bidPrices, askPrices, previousBid, previousAsk))
  {
    var bids := Descending(bidPrices);
    var asks := Ascending(askPrices);
    var best := ClosestPair(bids, asks, bidPrices, askPrices);
    if best.Some? {
      return Some(best.value.0), Some(best.value.1);
    }
    bid := HighestBelow(bids, bidPrices, previousAsk, previousBid);
    ask := LowestAbove(asks, askPrices, previousAsk, previousBid);
  }

  /** The name notwithstanding, the chosen quotes can cross. */
  lemma QuotesCanCross()
    ensures !KeepsApart({10.0}, {9.0}, Some(8.0), Some(11.0))
    ensures FallbackBid(Some(10.0), {10.0}, Some(8.0), Some(11.0))
    ensures FallbackAsk(Some(9.0), {9.0}, Some(8.0), Some(11.0))
  {
    assert 10.0 in {10.0} && 9.0 in {9.0};
  }
}
