/**
  One clearing cycle as a function of the ordered index and the bid queue,
  and what it guarantees: every match is affordable and not a self-purchase,
  no offer is sold twice, bids are served highest first, and each bid buys
  at most one house.
 */
module Clearing {
  import opened Records
  import opened OfferIndex
  import opened BidQueue

  /** Serve the head of the queue, search the index from ceiling `c`, take the
      found offer out of the index, and go on until the queue is empty. */
  function ClearRun(s: seq<SaleRecord>, bids: seq<BidRecord>, c: int): seq<Match>
    requires QualitiesNonNeg(s)
    decreases |bids|
  {
    if |bids| == 0 then []
    else
      var k := Top(bids);
      var b := bids[k];
      match Search(s, b, c)
      case None => ClearRun(s, RemoveAt(bids, k), c)
      case Some(i) => [Match(b, s[i])] + ClearRun(s[..i] + s[i + 1..], RemoveAt(bids, k), c)
  }

  /** A round whose buyer finds nothing leaves the index as it was. */
  lemma ClearRunSkip(s: seq<SaleRecord>, bids: seq<BidRecord>, c: int)
    requires QualitiesNonNeg(s) && |bids| > 0
    requires Search(s, bids[Top(bids)], c).None?
    ensures ClearRun(s, bids, c) == ClearRun(s, RemoveAt(bids, Top(bids)), c)
  {
  }

  /** A round whose buyer finds the offer at i records that match and takes
      the offer out of the index. */
  lemma ClearRunSell(s: seq<SaleRecord>, bids: seq<BidRecord>, c: int, i: nat)
    requires QualitiesNonNeg(s) && |bids| > 0
    requires Search(s, bids[Top(bids)], c) == Some(i)
    ensures i < |s| && QualitiesNonNeg(s[..i] + s[i + 1..])
    ensures ClearRun(s, bids, c) ==
      [Match(bids[Top(bids)], s[i])] + ClearRun(s[..i] + s[i + 1..], RemoveAt(bids, Top(bids)), c)
  {
    RemoveKeepsQualities(s, i);
  }

  lemma RemoveKeepsQualities(s: seq<SaleRecord>, i: nat)
    requires i < |s| && QualitiesNonNeg(s)
    ensures QualitiesNonNeg(s[..i] + s[i + 1..])
  {
    var s' := s[..i] + s[i + 1..];
    assert forall a :: 0 <= a < |s'| ==> s'[a] == s[if a < i then a else a + 1];
  }

  /** Two stretches of a clearing run joined into one. */
  lemma ClearRunChain(s0: seq<SaleRecord>, b0: seq<BidRecord>, c: int, done: seq<Match>,
                      s1: seq<SaleRecord>, b1: seq<BidRecord>, ms: seq<Match>, s2: seq<SaleRecord>, b2: seq<BidRecord>)
    requires QualitiesNonNeg(s0) && QualitiesNonNeg(s1) && QualitiesNonNeg(s2)
    requires ClearRun(s0, b0, c) == done + ClearRun(s1, b1, c)
    requires ClearRun(s1, b1, c) == ms + ClearRun(s2, b2, c)
    ensures ClearRun(s0, b0, c) == (done + ms) + ClearRun(s2, b2, c)
  {
    AppendAssoc(done, ms, ClearRun(s2, b2, c));
  }

  lemma AppendAssoc(a: seq<Match>, b: seq<Match>, c: seq<Match>)
    ensures a + (b + c) == (a + b) + c
  {
  }

  lemma AppendNothing(a: seq<Match>)
    ensures [] + a == a && a + [] == a
  {
  }

  /** A run whose queue is exhausted has made all its matches. */
  lemma ClearRunDone(s0: seq<SaleRecord>, b0: seq<BidRecord>, c: int, done: seq<Match>, s1: seq<SaleRecord>)
    requires QualitiesNonNeg(s0) && QualitiesNonNeg(s1)
    requires ClearRun(s0, b0, c) == done + ClearRun(s1, [], c)
    ensures ClearRun(s0, b0, c) == done
  {
    AppendNothing(done);
  }

  lemma RemoveAtSubset(bids: seq<BidRecord>, k: nat)
    requires k < |bids|
    ensures forall x :: x in RemoveAt(bids, k) ==> x in bids
  {
    forall x | x in RemoveAt(bids, k) ensures x in bids {
      assert x in multiset(RemoveAt(bids, k));
    }
  }

  lemma RemoveSubset(s: seq<SaleRecord>, i: nat)
    requires i < |s|
    ensures forall x :: x in s[..i] + s[i + 1..] ==> x in s
  {
    assert s == s[..i] + [s[i]] + s[i + 1..];
  }

  /** Every bid of the queue is at most the head's bid. */
  lemma TopIsHighest(bids: seq<BidRecord>)
    requires |bids| > 0
    ensures forall x :: x in bids ==> x.price <= bids[Top(bids)].price
  {
  }

  /** A match the clearing may make from the index s and the queue bids below
      ceiling c: the buyer may take the offer (its price is at most the bid
      and it is not the buyer's own house), the offer is in the index, the
      bid is in the queue, and the offer's band is at most c. */
  ghost predicate MatchOk(m: Match, s: seq<SaleRecord>, bids: seq<BidRecord>, c: int)
  {
    && m.sale.currentPrice <= m.bid.price
    && m.sale.house.owner != m.bid.buyer
    && m.sale in s
    && m.bid in bids
    && m.sale.quality <= c
  }

  ghost predicate AllOk(ms: seq<Match>, s: seq<SaleRecord>, bids: seq<BidRecord>, c: int)
  {
    forall t :: 0 <= t < |ms| ==> MatchOk(ms[t], s, bids, c)
  }

  /** Matches drawn from a smaller index and queue are drawn from the larger ones. */
  lemma AllOkWiden(ms: seq<Match>, s': seq<SaleRecord>, bids': seq<BidRecord>,
                   s: seq<SaleRecord>, bids: seq<BidRecord>, c: int)
    requires AllOk(ms, s', bids', c)
    requires forall x :: x in s' ==> x in s
    requires forall x :: x in bids' ==> x in bids
    ensures AllOk(ms, s, bids, c)
  {
    forall t | 0 <= t < |ms| ensures MatchOk(ms[t], s, bids, c) {
      assert MatchOk(ms[t], s', bids', c);
    }
  }

  lemma AllOkCons(m: Match, ms: seq<Match>, s: seq<SaleRecord>, bids: seq<BidRecord>, c: int)
    requires MatchOk(m, s, bids, c) && AllOk(ms, s, bids, c)
    ensures AllOk([m] + ms, s, bids, c)
  {
    var t := [m] + ms;
    forall u | 0 <= u < |t| ensures MatchOk(t[u], s, bids, c) {
      if u > 0 {
        assert t[u] == ms[u - 1];
      }
    }
  }

  /** Every match pairs a bid of the queue with an offer of the index that the
      buyer may take, below the ceiling; there are no more matches than bids. */
  lemma {:induction false} ClearRunSound(s: seq<SaleRecord>, bids: seq<BidRecord>, c: int)
    requires QualitiesNonNeg(s)
    ensures |ClearRun(s, bids, c)| <= |bids|
    ensures AllOk(ClearRun(s, bids, c), s, bids, c)
    decreases |bids|
  {
    if |bids| > 0 {
      var k := Top(bids);
      var rest := RemoveAt(bids, k);
      RemoveAtSubset(bids, k);
      var r := Search(s, bids[k], c);
      if r.None? {
        var ms := ClearRun(s, rest, c);
        assert ClearRun(s, bids, c) == ms;
        ClearRunSound(s, rest, c);
        AllOkWiden(ms, s, rest, s, bids, c);
      } else {
        var i := r.value;
        var s' := s[..i] + s[i + 1..];
        var ms := ClearRun(s', rest, c);
        assert ClearRun(s, bids, c) == [Match(bids[k], s[i])] + ms;
        ClearRunSound(s', rest, c);
        RemoveSubset(s, i);
        AllOkWiden(ms, s', rest, s, bids, c);
        AllOkCons(Match(bids[k], s[i]), ms, s, bids, c);
      }
    }
  }

  ghost predicate IdsDistinct(s: seq<SaleRecord>)
  {
    forall a, b :: 0 <= a < b < |s| ==> s[a].house.id != s[b].house.id
  }

  /** No two matches sell the same house. */
  ghost predicate SellsOnce(ms: seq<Match>)
  {
    forall a, b :: 0 <= a < b < |ms| ==> ms[a].sale.house.id != ms[b].sale.house.id
  }

  lemma RemoveKeepsIdsDistinct(s: seq<SaleRecord>, i: nat)
    requires i < |s| && IdsDistinct(s)
    ensures IdsDistinct(s[..i] + s[i + 1..])
    ensures forall x :: x in s[..i] + s[i + 1..] ==> x.house.id != s[i].house.id
  {
    var s' := s[..i] + s[i + 1..];
    assert forall a :: 0 <= a < |s'| ==> s'[a] == s[if a < i then a else a + 1];
  }

  lemma ConsSellsOnce(m: Match, ms: seq<Match>)
    requires SellsOnce(ms)
    requires forall t :: 0 <= t < |ms| ==> ms[t].sale.house.id != m.sale.house.id
    ensures SellsOnce([m] + ms)
  {
    var t := [m] + ms;
    forall a, b | 0 <= a < b < |t| ensures t[a].sale.house.id != t[b].sale.house.id {
      assert t[b] == ms[b - 1];
      if a > 0 {
        assert t[a] == ms[a - 1];
      }
    }
  }

  /** When the index holds each house once, no house is sold twice. */
  lemma {:induction false} ClearRunSellsOnce(s: seq<SaleRecord>, bids: seq<BidRecord>, c: int)
    requires QualitiesNonNeg(s) && IdsDistinct(s)
    ensures SellsOnce(ClearRun(s, bids, c))
    decreases |bids|
  {
    if |bids| > 0 {
      var k := Top(bids);
      var rest := RemoveAt(bids, k);
      var r := Search(s, bids[k], c);
      if r.None? {
        assert ClearRun(s, bids, c) == ClearRun(s, rest, c);
        ClearRunSellsOnce(s, rest, c);
      } else {
        var i := r.value;
        var s' := s[..i] + s[i + 1..];
        var ms := ClearRun(s', rest, c);
        var m := Match(bids[k], s[i]);
        assert ClearRun(s, bids, c) == [m] + ms;
        RemoveKeepsIdsDistinct(s, i);
        ClearRunSellsOnce(s', rest, c);
        ClearRunSound(s', rest, c);
        forall t | 0 <= t < |ms| ensures ms[t].sale.house.id != m.sale.house.id {
          assert MatchOk(ms[t], s', rest, c);
        }
        ConsSellsOnce(m, ms);
      }
    }
  }

  /** Bids are matched in order of descending price. */
  ghost predicate HighestFirst(ms: seq<Match>)
  {
    forall a, b :: 0 <= a < b < |ms| ==> ms[a].bid.price >= ms[b].bid.price
  }

  lemma ConsHighestFirst(m: Match, ms: seq<Match>)
    requires HighestFirst(ms)
    requires forall t :: 0 <= t < |ms| ==> ms[t].bid.price <= m.bid.price
    ensures HighestFirst([m] + ms)
  {
    var t := [m] + ms;
    forall a, b | 0 <= a < b < |t| ensures t[a].bid.price >= t[b].bid.price {
      assert t[b] == ms[b - 1];
      if a > 0 {
        assert t[a] == ms[a - 1];
      }
    }
  }

  /** Matches are made in the order the queue serves bids: highest price first. */
  lemma {:induction false} ClearRunHighestFirst(s: seq<SaleRecord>, bids: seq<BidRecord>, c: int)
    requires QualitiesNonNeg(s)
    ensures HighestFirst(ClearRun(s, bids, c))
    decreases |bids|
  {
    if |bids| > 0 {
      var k := Top(bids);
      var rest := RemoveAt(bids, k);
      var r := Search(s, bids[k], c);
      if r.None? {
        assert ClearRun(s, bids, c) == ClearRun(s, rest, c);
        ClearRunHighestFirst(s, rest, c);
      } else {
        var i := r.value;
        var s' := s[..i] + s[i + 1..];
        var ms := ClearRun(s', rest, c);
        var m := Match(bids[k], s[i]);
        assert ClearRun(s, bids, c) == [m] + ms;
        ClearRunHighestFirst(s', rest, c);
        ClearRunSound(s', rest, c);
        RemoveAtSubset(bids, k);
        TopIsHighest(bids);
        forall t | 0 <= t < |ms| ensures ms[t].bid.price <= m.bid.price {
          assert MatchOk(ms[t], s', rest, c);
        }
        ConsHighestFirst(m, ms);
      }
    }
  }

  /** The bids of a sequence of matches, with their multiplicities. */
  function MatchBids(ms: seq<Match>): multiset<BidRecord>
  {
    if ms == [] then multiset{} else multiset{ms[0].bid} + MatchBids(ms[1..])
  }

  /** Each bid buys at most one house: the bids of the matches, counted with
      multiplicity, are among the queued bids. */
  lemma {:induction false} EachBidOnce(s: seq<SaleRecord>, bids: seq<BidRecord>, c: int)
    requires QualitiesNonNeg(s)
    ensures MatchBids(ClearRun(s, bids, c)) <= multiset(bids)
    decreases |bids|
  {
    if |bids| > 0 {
      var k := Top(bids);
      var rest := RemoveAt(bids, k);
      var r := Search(s, bids[k], c);
      if r.None? {
        ClearRunSkip(s, bids, c);
        EachBidOnce(s, rest, c);
        SkipBidOnce(MatchBids(ClearRun(s, rest, c)), rest, bids[k], bids);
      } else {
        var i := r.value;
        var s' := s[..i] + s[i + 1..];
        ClearRunSell(s, bids, c, i);
        RemoveKeepsQualities(s, i);
        EachBidOnce(s', rest, c);
        ConsBidOnce(Match(bids[k], s[i]), ClearRun(s', rest, c), rest, bids);
      }
    }
  }

  /** Matches drawn from the rest of the queue are drawn from the whole queue. */
  lemma SkipBidOnce(found: multiset<BidRecord>, rest: seq<BidRecord>, b: BidRecord, bids: seq<BidRecord>)
    requires found <= multiset(rest)
    requires multiset(rest) + multiset{b} == multiset(bids)
    ensures found <= multiset(bids)
  {
  }

  /** A match for the polled bid, ahead of matches drawn from the rest of the queue. */
  lemma ConsBidOnce(m: Match, ms: seq<Match>, rest: seq<BidRecord>, bids: seq<BidRecord>)
    requires MatchBids(ms) <= multiset(rest)
    requires multiset(rest) + multiset{m.bid} == multiset(bids)
    ensures MatchBids([m] + ms) <= multiset(bids)
  {
    assert ([m] + ms)[1..] == ms;
    assert MatchBids([m] + ms) == multiset{m.bid} + MatchBids(ms);
  }

  /** Scenario: an affordable offer of another owner is bought at its asking price. */
  lemma ScenarioAffordable()
    ensures var h1 := SaleRecord(House(1, 7, 2), 2, 100.0, 100.0, 0);
      var b1 := BidRecord(20, 120.0);
      ClearRun([h1], [b1], 5) == [Match(b1, h1)]
  {
  }

  /** Scenario: a buyer never buys their own house. */
  lemma ScenarioOwnHouse()
    ensures var h1 := SaleRecord(House(1, 20, 2), 2, 100.0, 100.0, 0);
      ClearRun([h1], [BidRecord(20, 120.0)], 5) == []
  {
  }

  /** Scenario: within a band the cheapest offer is taken. */
  lemma ScenarioCheapestInBand()
    ensures var dear := SaleRecord(House(2, 7, 3), 3, 110.0, 110.0, 0);
      var cheap := SaleRecord(House(1, 8, 3), 3, 90.0, 90.0, 0);
      var b := BidRecord(20, 100.0);
      ClearRun([dear, cheap], [b], 5) == [Match(b, cheap)]
  {
  }

  /** Scenario: an unaffordable higher band is passed over for a lower one. */
  lemma ScenarioDescend()
    ensures var low := SaleRecord(House(1, 7, 1), 1, 50.0, 50.0, 0);
      var high := SaleRecord(House(2, 8, 4), 4, 200.0, 200.0, 0);
      var b := BidRecord(20, 60.0);
      ClearRun([low, high], [b], 5) == [Match(b, low)]
  {
    var low := SaleRecord(House(1, 7, 1), 1, 50.0, 50.0, 0);
    var high := SaleRecord(House(2, 8, 4), 4, 200.0, 200.0, 0);
    var b := BidRecord(20, 60.0);
    assert Lower([low, high], 5) == Some(1);
    assert [low, high][..1] == [low];
    assert Lower([low, high], 3) == Some(0);
    assert Search([low, high], b, 5) == Some(0);
    assert RemoveAt([b], 0) == [];
  }

  /** Scenario: when a band's cheapest offer is the buyer's own house, the
      whole band is forfeited, although a dearer affordable offer sits in it. */
  lemma ScenarioBandForfeited()
    ensures var other := SaleRecord(House(2, 7, 2), 2, 60.0, 60.0, 0);
      var own := SaleRecord(House(1, 20, 2), 2, 50.0, 50.0, 0);
      ClearRun([other, own], [BidRecord(20, 100.0)], 5) == []
  {
    var other := SaleRecord(House(2, 7, 2), 2, 60.0, 60.0, 0);
    var own := SaleRecord(House(1, 20, 2), 2, 50.0, 50.0, 0);
    var b := BidRecord(20, 100.0);
    assert Lower([other, own], 5) == Some(1);
    assert [other, own][..1] == [other];
    assert Lower([other, own], 1) == None;
    assert Search([other, own], b, 5) == None;
  }
}
