/**
  The bid queue: pending bids in submission order, served highest price
  first. Among bids of equal price the earlier submission is served first.
 */
module BidQueue {
  import opened Records

  /** k is the bid the queue serves next: no bid is higher, and every earlier
      bid is strictly lower. */
  ghost predicate IsTop(b: seq<BidRecord>, k: nat)
    requires k < |b|
  {
    && (forall j :: 0 <= j < |b| ==> b[j].price <= b[k].price)
    && (forall j :: 0 <= j < k ==> b[j].price < b[k].price)
  }

  /** The position of the head of the queue (PriorityQueue.poll). */
  function Top(b: seq<BidRecord>): (k: nat)
    requires |b| > 0
    ensures k < |b| && IsTop(b, k)
    decreases |b|
  {
    if |b| == 1 then 0
    else
      var k := Top(b[..|b| - 1]);
      if b[|b| - 1].price > b[k].price then |b| - 1 else k
  }

  /** Only one position can be the head. */
  lemma TopUnique(b: seq<BidRecord>, k1: nat, k2: nat)
    requires k1 < |b| && k2 < |b|
    requires IsTop(b, k1) && IsTop(b, k2)
    ensures k1 == k2
  {
    assert b[k1].price == b[k2].price;
  }

  /** The queue without the bid at k. */
  function RemoveAt(b: seq<BidRecord>, k: nat): (r: seq<BidRecord>)
    requires k < |b|
    ensures |r| == |b| - 1
    ensures multiset(r) + multiset{b[k]} == multiset(b)
  {
    assert b == b[..k] + [b[k]] + b[k + 1..];
    b[..k] + b[k + 1..]
  }

  /** The prices of the pending bids, in queue order. */
  function BidPrices(b: seq<BidRecord>): (r: seq<real>)
    ensures |r| == |b|
    ensures forall i :: 0 <= i < |b| ==> r[i] == b[i].price
  {
    seq(|b|, i requires 0 <= i < |b| => b[i].price)
  }
}
