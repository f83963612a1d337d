/**
  The values the housing market trades in: houses, sale records (one per
  listed house), bid records (one per pending bid) and the matches the
  clearing step produces.
 */
module Records {

  datatype Option<T> = None | Some(value: T)

  /** Houses are keyed by their identity; owners and buyers are opaque identities. */
  type HouseId = int
  type HouseholdId = int

  /** A house: identity, current owner, and its immutable quality band. */
  datatype House = House(id: HouseId, owner: HouseholdId, quality: int)

  /** A listing: the house, its band, the first list price, the current asking
      price and the tick at which it was listed. */
  datatype SaleRecord = SaleRecord(
    house: House,
    quality: int,
    initialListedPrice: real,
    currentPrice: real,
    tInitialListing: int)

  /** A pending bid: who bids and the most they will pay this tick. */
  datatype BidRecord = BidRecord(buyer: HouseholdId, price: real)

  /** One completed transaction. */
  datatype Match = Match(bid: BidRecord, sale: SaleRecord)

  /** A fresh listing of `house` at `price`, made at `tick`. */
  function NewSaleRecord(house: House, price: real, tick: int): (r: SaleRecord)
    ensures r.house == house && r.quality == house.quality
    ensures r.initialListedPrice == price && r.currentPrice == price
    ensures r.tInitialListing == tick
  {
    SaleRecord(house, house.quality, price, price, tick)
  }

  /** A buyer may take an offer when it is affordable and not the buyer's own house. */
  predicate Acceptable(r: SaleRecord, b: BidRecord)
  {
    r.currentPrice <= b.price && r.house.owner != b.buyer
  }

  /** The order of the clearing index: quality ascending, then asking price
      descending, then house identity ascending as the final tie-break.
      Within one band the cheapest offer is therefore the greatest element. */
  predicate Precedes(a: SaleRecord, b: SaleRecord)
  {
    || a.quality < b.quality
    || (a.quality == b.quality && a.currentPrice > b.currentPrice)
    || (a.quality == b.quality && a.currentPrice == b.currentPrice && a.house.id < b.house.id)
  }

  lemma PrecedesStrictOrder(a: SaleRecord, b: SaleRecord, c: SaleRecord)
    ensures !Precedes(a, a)
    ensures Precedes(a, b) ==> !Precedes(b, a)
    ensures Precedes(a, b) && Precedes(b, c) ==> Precedes(a, c)
    ensures a.house.id != b.house.id ==> Precedes(a, b) || Precedes(b, a)
  {
  }

  /** An element of a non-empty set. */
  lemma SomeElement<T>(s: set<T>) returns (x: T)
    requires s != {}
    ensures x in s
  {
    if forall y :: y !in s { assert false; }
    x :| x in s;
  }
}
