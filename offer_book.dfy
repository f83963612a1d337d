/**
  Walking the offer book in its own order. The book is a tree map keyed by
  house, so its values are visited in ascending house identity; the
  snapshot's list of offer prices follows that order.
 */
module OfferBook {
  import opened Records

  /** m is the smallest element of s. */
  predicate IsLeast(m: HouseId, s: set<HouseId>)
  {
    m in s && forall y :: y in s ==> m <= y
  }

  lemma {:induction false} MinExists(s: set<HouseId>)
    requires s != {}
    ensures exists m :: IsLeast(m, s)
    decreases |s|
  {
    var x := SomeElement(s);
    if s == {x} {
      assert IsLeast(x, s);
    } else {
      var r := s - {x};
      MinExists(r);
      var m :| IsLeast(m, r);
      var least := if x < m then x else m;
      forall y | y in s
        ensures least <= y
      {
        if y != x {
          assert y in r;
        }
      }
      assert IsLeast(least, s);
    }
  }

  /** The smallest house identity of a non-empty set. */
  function MinKey(s: set<HouseId>): (m: HouseId)
    requires s != {}
    ensures m in s && forall y :: y in s ==> m <= y
  {
    MinExists(s);
    var m :| IsLeast(m, s);
    m
  }

  /** The identities of r strictly increase. */
  predicate Ascending(r: seq<HouseId>)
  {
    forall i, j :: 0 <= i < j < |r| ==> r[i] < r[j]
  }

  /** The keys of the book in the order the tree map visits them. */
  function SortedKeys(ks: set<HouseId>): (r: seq<HouseId>)
    ensures |r| == |ks|
    ensures forall k :: k in r <==> k in ks
    ensures Ascending(r)
    decreases |ks|
  {
    if ks == {} then []
    else
      var k := MinKey(ks);
      var rest := SortedKeys(ks - {k});
      assert forall i :: 0 <= i < |rest| ==> k < rest[i];
      [k] + rest
  }

  /** Every house of ks is listed in m. */
  predicate Listed(m: map<HouseId, SaleRecord>, ks: seq<HouseId>)
  {
    forall i :: 0 <= i < |ks| ==> ks[i] in m
  }

  /** The key walk of a book visits listed houses only, as many as the book holds. */
  lemma KeysListed(m: map<HouseId, SaleRecord>)
    ensures Listed(m, SortedKeys(m.Keys))
    ensures |SortedKeys(m.Keys)| == |m|
  {
    var ks := SortedKeys(m.Keys);
    assert |ks| == |m.Keys| == |m|;
    assert forall i :: 0 <= i < |ks| ==> ks[i] in m.Keys;
  }

  /** The asking prices of the book, one per listed house, in ascending house order. */
  function ListedPrices(m: map<HouseId, SaleRecord>): (r: seq<real>)
    ensures |r| == |m|
    ensures forall i :: 0 <= i < |r| ==> r[i] == m[SortedKeys(m.Keys)[i]].currentPrice
  {
    KeysListed(m);
    PricesAt(m, SortedKeys(m.Keys))
  }

  /** The asking prices of the listed houses ks, in the order of ks. */
  function PricesAt(m: map<HouseId, SaleRecord>, ks: seq<HouseId>): (r: seq<real>)
    requires Listed(m, ks)
    ensures |r| == |ks|
    ensures forall i :: 0 <= i < |r| ==> r[i] == m[ks[i]].currentPrice
  {
    seq(|ks|, i requires 0 <= i < |ks| => m[ks[i]].currentPrice)
  }
}
