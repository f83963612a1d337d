/**
  The house-sale market: an offer book keyed by house, a queue of bids, and
  the clearing step that matches them once per tick, together with the
  market statistics it keeps.

  The market's constants (the decay constants E, F and G, the reference
  mean price and the reference price of each quality band) come in through
  `Config`; the current tick is a parameter of the operations that read it.
 */
module Housing {
  import opened Records
  import opened OfferIndex
  import opened OfferBook
  import opened BidQueue
  import opened Statistics
  import opened Clearing
  import opened MarketDiagnostics

  /** e: decay of the days-on-market and sold-to-list averages; f: decay of
      the house price index appreciation; g: decay of the per-band sale price
      averages; hpiMean: the reference mean house price; referencePrices: the
      reference price of each quality band. */
  datatype Config = Config(e: real, f: real, g: real, hpiMean: real, referencePrices: seq<real>)

  /** The house price index appreciation after one clearing: the old
      appreciation decays by f and the index's change since the last clearing
      is blended in with weight 1 - f. */
  function Appreciation(f: real, appreciation: real, lastIndex: real, index: real): real
  {
    f * appreciation - (1.0 - f) * lastIndex + (1.0 - f) * index
  }

  /** The appreciation is a moving average, with decay f, of the index's
      change since the last clearing. */
  lemma AppreciationIsEma(f: real, appreciation: real, lastIndex: real, index: real)
    ensures Appreciation(f, appreciation, lastIndex, index) == Ema(f, appreciation, index - lastIndex)
  {
    assert (1.0 - f) * (index - lastIndex) == (1.0 - f) * index - (1.0 - f) * lastIndex;
  }

  /** The houses sold by a sequence of matches. */
  function SoldHouses(ms: seq<Match>): set<HouseId>
  {
    set i | 0 <= i < |ms| :: ms[i].sale.house.id
  }

  lemma SoldHousesAppend(xs: seq<Match>, ys: seq<Match>)
    ensures SoldHouses(xs + ys) == SoldHouses(xs) + SoldHouses(ys)
  {
    var t := xs + ys;
    forall h | h in SoldHouses(t) ensures h in SoldHouses(xs) + SoldHouses(ys) {
      var i :| 0 <= i < |t| && t[i].sale.house.id == h;
      if i < |xs| {
        assert t[i] == xs[i];
      } else {
        assert t[i] == ys[i - |xs|];
      }
    }
    forall h | h in SoldHouses(xs) + SoldHouses(ys) ensures h in SoldHouses(t) {
      if h in SoldHouses(xs) {
        var i :| 0 <= i < |xs| && xs[i].sale.house.id == h;
        assert t[i] == xs[i];
      } else {
        var i :| 0 <= i < |ys| && ys[i].sale.house.id == h;
        assert t[|xs| + i] == ys[i];
      }
    }
  }

  /** Taking no houses off the book leaves it as it was. */
  lemma RemoveNothing(book: map<HouseId, SaleRecord>)
    ensures book - {} == book
  {
  }

  lemma SoldHousesSingle(m: Match)
    ensures SoldHouses([m]) == {m.sale.house.id}
  {
    assert [m][0] == m;
  }

  /** While the book is walked: the keys not yet visited are `pending`, and
      `sellers` indexes exactly the records of the visited ones. */
  ghost predicate Walked(m: map<HouseId, SaleRecord>, pending: set<HouseId>,
                         listed: map<HouseId, SaleRecord>, sellers: seq<SaleRecord>)
  {
    && pending <= m.Keys
    && (forall k :: k in listed <==> k in m && k !in pending)
    && (forall k :: k in listed ==> listed[k] == m[k])
    && IsIndexOf(sellers, listed)
  }

  lemma WalkStep(m: map<HouseId, SaleRecord>, pending: set<HouseId>,
                 listed: map<HouseId, SaleRecord>, sellers: seq<SaleRecord>, h: HouseId)
    requires KeysMatch(m) && Walked(m, pending, listed, sellers) && h in pending
    ensures h in m
    ensures forall j :: 0 <= j < |sellers| ==> sellers[j].house.id != m[h].house.id
    ensures Walked(m, pending - {h}, listed[h := m[h]], Insert(sellers, m[h]))
  {
    InsertIndex(sellers, listed, m[h]);
  }

  lemma WalkDone(m: map<HouseId, SaleRecord>, listed: map<HouseId, SaleRecord>, sellers: seq<SaleRecord>)
    requires Walked(m, {}, listed, sellers)
    ensures IsIndexOf(sellers, m)
  {
    forall k | k in listed ensures k in m {
    }
    forall k | k in m ensures k in listed {
      assert k in listed <==> k in m && k !in {};
    }
    assert listed.Keys == m.Keys;
    assert forall k :: k in m ==> listed[k] == m[k];
    assert listed == m;
  }

  /** What one clearing of the book `book` against the queue `bids` makes:
      exactly the matching run over the book's ordered index, no more matches
      than bids, each one affordable, not a self-purchase, taken from the book
      as listed and from the queue, no house sold twice, bids served highest
      first, and every sale in a band of [0, nQuality). */
  ghost predicate Cleared(book: map<HouseId, SaleRecord>, bids: seq<BidRecord>, nQuality: int, matches: seq<Match>)
  {
    && KeysMatch(book)
    && var s := SortedIndex(book);
    && QualitiesNonNeg(s)
    && matches == ClearRun(s, bids, nQuality)
    && |matches| <= |bids|
    && AllOk(matches, s, bids, nQuality)
    && (forall t :: 0 <= t < |matches| ==>
          matches[t].sale.house.id in book && book[matches[t].sale.house.id] == matches[t].sale)
    && SellsOnce(matches)
    && HighestFirst(matches)
    && SalesInBands(matches, nQuality)
  }

  /** The matching run over the index of a book, below the top band, is a clearing of that book. */
  lemma ClearedRun(book: map<HouseId, SaleRecord>, s: seq<SaleRecord>, bids: seq<BidRecord>, nQuality: int)
    requires IsIndexOf(s, book) && InBands(book, nQuality)
    ensures Cleared(book, bids, nQuality, ClearRun(s, bids, nQuality))
  {
    IndexOfUnique(s, SortedIndex(book), book);
    IndexInBands(s, book, nQuality);
    IndexIdsDistinct(s, book);
    var ms := ClearRun(s, bids, nQuality);
    ClearRunSound(s, bids, nQuality);
    ClearRunSellsOnce(s, bids, nQuality);
    ClearRunHighestFirst(s, bids, nQuality);
    forall t | 0 <= t < |ms|
      ensures ms[t].sale.house.id in book && book[ms[t].sale.house.id] == ms[t].sale
      ensures 0 <= ms[t].sale.quality < nQuality
    {
      assert MatchOk(ms[t], s, bids, nQuality);
    }
  }

  class HousingMarket {
    const nQuality: nat
    const config: Config

    var onMarket: map<HouseId, SaleRecord>
    var buyers: seq<BidRecord>

    var averageDaysOnMarket: real
    const averageSalePrice: array<real>
    var hpiAppreciation: real
    var housePriceIndex: real
    var lastHousePriceIndex: real

    const diagnostics: Diagnostics

    ghost predicate Valid()
      reads this`onMarket, diagnostics`offerPrices, diagnostics`bidPrices
    {
      && nQuality > 0
      && averageSalePrice.Length == nQuality
      && |config.referencePrices| == nQuality
      && config.hpiMean > 0.0
      && diagnostics.Valid()
      && diagnostics.nQuality == nQuality
      && diagnostics.e == config.e
      && diagnostics.offerPrices != averageSalePrice
      && diagnostics.bidPrices != averageSalePrice
      && KeysMatch(onMarket)
      && InBands(onMarket, nQuality)
    }

    /** An empty market whose per-band averages start at the reference prices. */
    constructor (nQuality: nat, config: Config)
      requires nQuality > 0
      requires |config.referencePrices| == nQuality && config.hpiMean > 0.0
      ensures Valid()
      ensures this.nQuality == nQuality && this.config == config
      ensures onMarket == map[] && buyers == []
      ensures averageSalePrice[..] == config.referencePrices
      ensures housePriceIndex == 1.0 && lastHousePriceIndex == 1.0 && hpiAppreciation == 0.0
      ensures averageDaysOnMarket == 30.0
      ensures fresh(averageSalePrice) && fresh(diagnostics)
      ensures diagnostics.averageSoldPriceToOLP == 1.0 && diagnostics.saleCount == 0
      ensures diagnostics.nSales == 0 && diagnostics.nBuyers == 0 && diagnostics.nSellers == 0
      ensures diagnostics.averageBidPrice == 0.0 && diagnostics.averageOfferPrice == 0.0
      ensures forall q :: 0 <= q < nQuality ==>
        diagnostics.priceData[0, q] == config.referencePrices[q] && diagnostics.priceData[1, q] == 0.0
      ensures forall q :: 0 <= q < nQuality ==>
        && diagnostics.referencePriceData[0, q] == config.referencePrices[q]
        && diagnostics.referencePriceData[1, q] == config.referencePrices[q]
    {
      this.nQuality := nQuality;
      this.config := config;
      onMarket := map[];
      buyers := [];
      var prices := new real[nQuality];
      for i := 0 to nQuality
        invariant forall q :: 0 <= q < i ==> prices[q] == config.referencePrices[q]
      {
        prices[i] := config.referencePrices[i];
      }
      averageSalePrice := prices;
      housePriceIndex := 1.0;
      lastHousePriceIndex := 1.0;
      hpiAppreciation := 0.0;
      averageDaysOnMarket := 30.0;
      diagnostics := new Diagnostics(nQuality, config.referencePrices, config.e);
    }

    /** Put a house on the market at a list price; a house already listed is
        listed afresh. */
    method Offer(house: House, price: real, tick: int)
      requires Valid()
      requires 0 <= house.quality < nQuality
      modifies this`onMarket
      ensures Valid()
      ensures onMarket == old(onMarket)[house.id := NewSaleRecord(house, price, tick)]
      ensures house.id in onMarket && onMarket[house.id].currentPrice == price
      ensures onMarket.Keys == old(onMarket).Keys + {house.id}
      ensures forall k :: k in old(onMarket) && k != house.id ==> onMarket[k] == old(onMarket)[k]
    {
      onMarket := onMarket[house.id := NewSaleRecord(house, price, tick)];
    }

    /** Change the asking price of a listed house. */
    method UpdateOffer(h: House, newPrice: real)
      requires Valid()
      requires h.id in onMarket
      modifies this`onMarket
      ensures Valid()
      ensures onMarket == old(onMarket)[h.id := old(onMarket)[h.id].(currentPrice := newPrice)]
      ensures onMarket.Keys == old(onMarket).Keys
      ensures onMarket[h.id].currentPrice == newPrice
      ensures onMarket[h.id] == old(onMarket)[h.id].(currentPrice := newPrice)
      ensures forall k :: k in old(onMarket) && k != h.id ==> onMarket[k] == old(onMarket)[k]
    {
      onMarket := onMarket[h.id := onMarket[h.id].(currentPrice := newPrice)];
    }

    /** Take a house off the market; nothing happens when it is not listed. */
    method RemoveOffer(house: House)
      requires Valid()
      modifies this`onMarket
      ensures Valid()
      ensures onMarket == old(onMarket) - {house.id}
      ensures house.id !in onMarket
      ensures house.id !in old(onMarket) ==> onMarket == old(onMarket)
      ensures forall k :: k in old(onMarket) && k != house.id ==> k in onMarket && onMarket[k] == old(onMarket)[k]
    {
      onMarket := onMarket - {house.id};
    }

    /** Queue a bid. */
    method Bid(buyer: HouseholdId, price: real)
      requires Valid()
      modifies this`buyers
      ensures Valid()
      ensures buyers == old(buyers) + [BidRecord(buyer, price)]
    {
      buyers := buyers + [BidRecord(buyer, price)];
    }

    /** The sale record of a house, or nothing when it is not on the market. */
    function GetSaleRecord(h: House): (r: Option<SaleRecord>)
      reads this
      ensures r.None? <==> h.id !in onMarket
      ensures r.Some? ==> r.value == onMarket[h.id]
    {
      if h.id in onMarket then Some(onMarket[h.id]) else None
    }

    /** A house is on the market exactly when it has a sale record. */
    function IsOnMarket(h: House): (r: bool)
      reads this
      ensures r <==> GetSaleRecord(h).Some?
    {
      h.id in onMarket
    }

    /** Take the head of the bid queue. */
    method Poll() returns (b: BidRecord)
      requires |buyers| > 0
      modifies this`buyers
      ensures b == old(buyers)[Top(old(buyers))]
      ensures buyers == RemoveAt(old(buyers), Top(old(buyers)))
      ensures forall x :: x in old(buyers) ==> x.price <= b.price
    {
      var k := Top(buyers);
      b := buyers[k];
      buyers := RemoveAt(buyers, k);
    }

    /** The statistics of one sale: days on market, the sale price average of
        its band, and the diagnostics' sale counter and sold-to-list ratio. */
    method CompleteTransaction(b: BidRecord, sale: SaleRecord, tick: int)
      requires Valid()
      requires 0 <= sale.quality < nQuality
      modifies this`averageDaysOnMarket, averageSalePrice
      modifies diagnostics`averageSoldPriceToOLP, diagnostics`saleCount
      ensures Valid()
      ensures averageDaysOnMarket == Ema(config.e, old(averageDaysOnMarket), DaysListed(sale, tick))
      ensures averageSalePrice[..] ==
        old(averageSalePrice[..])[sale.quality := Ema(config.g, old(averageSalePrice[sale.quality]), sale.currentPrice)]
      ensures diagnostics.saleCount == old(diagnostics.saleCount) + 1
      ensures diagnostics.averageSoldPriceToOLP ==
        if HasListPrice(sale)
        then Ema(config.e, old(diagnostics.averageSoldPriceToOLP), sale.currentPrice / sale.initialListedPrice)
        else old(diagnostics.averageSoldPriceToOLP)
    {
      averageDaysOnMarket := config.e * averageDaysOnMarket + (1.0 - config.e) * (30.0 * (tick - sale.tInitialListing) as real);
      ghost var before := averageSalePrice[..];
      averageSalePrice[sale.quality] := config.g * averageSalePrice[sale.quality] + (1.0 - config.g) * sale.currentPrice;
      assert forall q :: 0 <= q < averageSalePrice.Length ==>
        averageSalePrice[..][q] == before[sale.quality := averageSalePrice[sale.quality]][q];
      assert averageSalePrice[..] == before[sale.quality := averageSalePrice[sale.quality]];
      assert before == old(averageSalePrice[..]);
      assert averageSalePrice[sale.quality] == Ema(config.g, old(averageSalePrice[sale.quality]), sale.currentPrice);
      diagnostics.RecordSale(sale);
      assert averageSalePrice[..] == before[sale.quality := averageSalePrice[sale.quality]];
    }

    /** Update the house price index and its appreciation from the current
        per-band averages, then take the diagnostics snapshot. */
    method RecordMarketStats()
      requires Valid()
      modifies this`hpiAppreciation, this`housePriceIndex
      modifies diagnostics`nSales, diagnostics`saleCount, diagnostics`nSellers, diagnostics`nBuyers
      modifies diagnostics`averageBidPrice, diagnostics`averageOfferPrice, diagnostics`offerPrices, diagnostics`bidPrices
      ensures Valid()
      ensures housePriceIndex == HousePriceIndex(averageSalePrice[..], config.hpiMean)
      ensures hpiAppreciation == Appreciation(config.f, old(hpiAppreciation), old(housePriceIndex), housePriceIndex)
      ensures diagnostics.Snapshot(old(diagnostics.saleCount), onMarket, buyers)
      ensures diagnostics.saleCount == 0
      ensures diagnostics.averageSoldPriceToOLP == old(diagnostics.averageSoldPriceToOLP)
      ensures fresh(diagnostics.offerPrices) && fresh(diagnostics.bidPrices)
      ensures unchanged(this`onMarket, this`buyers, this`averageDaysOnMarket, this`lastHousePriceIndex)
      ensures unchanged(averageSalePrice)
    {
      UpdatePriceIndex();
      diagnostics.Record(onMarket, buyers);
    }

    /** Recompute the house price index from the per-band averages and blend
        its change into the appreciation. */
    method UpdatePriceIndex()
      requires Valid()
      modifies this`hpiAppreciation, this`housePriceIndex
      ensures housePriceIndex == HousePriceIndex(averageSalePrice[..], config.hpiMean)
      ensures hpiAppreciation == Appreciation(config.f, old(hpiAppreciation), old(housePriceIndex), housePriceIndex)
    {
      hpiAppreciation := config.f * hpiAppreciation - (1.0 - config.f) * housePriceIndex;
      housePriceIndex := CurrentPriceIndex();
      hpiAppreciation := hpiAppreciation + (1.0 - config.f) * housePriceIndex;
    }

    /** The house price index of the current per-band averages. */
    method CurrentPriceIndex() returns (index: real)
      requires Valid()
      ensures index == HousePriceIndex(averageSalePrice[..], config.hpiMean)
    {
      index := TotalSalePrice();
      index := index / (nQuality as real * config.hpiMean);
    }

    /** The sum of the per-band average sale prices. */
    method TotalSalePrice() returns (total: real)
      requires Valid()
      ensures total == Sum(averageSalePrice[..])
    {
      total := 0.0;
      for i := 0 to averageSalePrice.Length
        invariant total == Sum(averageSalePrice[..i])
      {
        SumPrefix(averageSalePrice[..], i);
        assert averageSalePrice[..][..i + 1] == averageSalePrice[..i + 1];
        total := total + averageSalePrice[i];
      }
      assert averageSalePrice[..averageSalePrice.Length] == averageSalePrice[..];
    }

    /** The ordered index of the current book, walked in house order. */
    method BuildSellers() returns (sellers: seq<SaleRecord>)
      requires KeysMatch(onMarket)
      ensures IsIndexOf(sellers, onMarket)
    {
      var pending := onMarket.Keys;
      ghost var listed: map<HouseId, SaleRecord> := map[];
      sellers := [];
      while pending != {}
        invariant Walked(onMarket, pending, listed, sellers)
        decreases |pending|
      {
        var h := MinKey(pending);
        WalkStep(onMarket, pending, listed, sellers, h);
        sellers := Insert(sellers, onMarket[h]);
        listed := listed[h := onMarket[h]];
        pending := pending - {h};
      }
      WalkDone(onMarket, listed, sellers);
    }

    /** Look for the buyer's offer: start at the top band and, while the
        cheapest offer of the highest band left is too dear or the buyer's
        own, drop the ceiling below that band. */
    method FindSeller(sellers: seq<SaleRecord>, buyer: BidRecord) returns (found: Option<nat>)
      requires QualitiesNonNeg(sellers)
      ensures found == Search(sellers, buyer, nQuality)
    {
      var ceiling: int := nQuality;
      found := Lower(sellers, ceiling);
      while found.Some? &&
        (sellers[found.value].currentPrice > buyer.price || sellers[found.value].house.owner == buyer.buyer)
        invariant ceiling >= -1
        invariant found == Lower(sellers, ceiling)
        invariant Search(sellers, buyer, ceiling) == Search(sellers, buyer, nQuality)
        decreases ceiling + 1
      {
        ceiling := sellers[found.value].quality - 1;
        found := Lower(sellers, ceiling);
      }
    }

    /** Complete the sale of the offer at position i of the index to the
        buyer, and take it off the market and out of the index: the
        statistics take in the one match made. */
    method Sell(sellers: seq<SaleRecord>, i: nat, buyer: BidRecord, tick: int) returns (rest: seq<SaleRecord>)
      requires Valid()
      requires IsIndexOf(sellers, onMarket) && i < |sellers|
      modifies this`onMarket, this`averageDaysOnMarket, averageSalePrice
      modifies diagnostics`averageSoldPriceToOLP, diagnostics`saleCount
      ensures Valid()
      ensures rest == sellers[..i] + sellers[i + 1..]
      ensures IsIndexOf(rest, onMarket)
      ensures SalesInBands([Match(buyer, sellers[i])], nQuality)
      ensures onMarket == old(onMarket) - SoldHouses([Match(buyer, sellers[i])])
      ensures averageSalePrice[..] == SalePrices(old(averageSalePrice[..]), [Match(buyer, sellers[i])], config.g)
      ensures averageDaysOnMarket == DaysOnMarket(old(averageDaysOnMarket), [Match(buyer, sellers[i])], config.e, tick)
      ensures diagnostics.averageSoldPriceToOLP ==
        SoldToListRatio(old(diagnostics.averageSoldPriceToOLP), [Match(buyer, sellers[i])], config.e)
      ensures diagnostics.saleCount == old(diagnostics.saleCount) + 1
    {
      var seller := sellers[i];
      IndexInBands(sellers, onMarket, nQuality);
      SoldHousesSingle(Match(buyer, seller));
      SingleSale(Match(buyer, seller), averageSalePrice[..], averageDaysOnMarket, diagnostics.averageSoldPriceToOLP,
                 config.g, config.e, tick);
      CompleteTransaction(buyer, seller, tick);
      RemoveIndex(sellers, onMarket, i);
      RemoveOffer(seller.house);
      rest := sellers[..i] + sellers[i + 1..];
    }

    /** Serve the head of the bid queue: find its offer and, if there is one,
        sell it. The ghost result is the match made, if any. */
    method ServeNextBuyer(sellers: seq<SaleRecord>, tick: int) returns (rest: seq<SaleRecord>, ghost ms: seq<Match>)
      requires Valid()
      requires buyers != []
      requires IsIndexOf(sellers, onMarket)
      requires BandsBelow(sellers, nQuality)
      modifies this`buyers, this`onMarket, this`averageDaysOnMarket, averageSalePrice
      modifies diagnostics`averageSoldPriceToOLP, diagnostics`saleCount
      ensures Valid()
      ensures IsIndexOf(rest, onMarket)
      ensures BandsBelow(rest, nQuality)
      ensures buyers == RemoveAt(old(buyers), Top(old(buyers)))
      ensures |buyers| == |old(buyers)| - 1
      ensures |ms| <= 1
      ensures ClearRun(sellers, old(buyers), nQuality) == ms + ClearRun(rest, buyers, nQuality)
      ensures onMarket == old(onMarket) - SoldHouses(ms)
      ensures SalesInBands(ms, nQuality)
      ensures averageSalePrice[..] == SalePrices(old(averageSalePrice[..]), ms, config.g)
      ensures averageDaysOnMarket == DaysOnMarket(old(averageDaysOnMarket), ms, config.e, tick)
      ensures diagnostics.averageSoldPriceToOLP == SoldToListRatio(old(diagnostics.averageSoldPriceToOLP), ms, config.e)
      ensures diagnostics.saleCount == old(diagnostics.saleCount) + |ms|
    {
      ghost var queue := buyers;
      var buyer := Poll();
      var found := FindSeller(sellers, buyer);
      if found.Some? {
        var i := found.value;
        ClearRunSell(sellers, queue, nQuality, i);
        ms := [Match(buyer, sellers[i])];
        RemoveInBands(sellers, i, nQuality);
        rest := Sell(sellers, i, buyer, tick);
      } else {
        ClearRunSkip(sellers, queue, nQuality);
        ms := [];
        assert SoldHouses(ms) == {};
        RemoveNothing(onMarket);
        AppendNothing(ClearRun(sellers, buyers, nQuality));
        rest := sellers;
      }
    }

    /** Part way through serving the queue `bids` against the index `sellers`
        of the book `book`: the sales so far, `done`, are the start of the
        matching run, `index` is what is left of the index and the queue is
        what is left of the bids; the book has lost the houses sold, and the
        statistics have taken in the sales from their starting values. */
    ghost predicate Serving(sellers: seq<SaleRecord>, bids: seq<BidRecord>, done: seq<Match>,
                            book: map<HouseId, SaleRecord>, prices0: seq<real>, days0: real,
                            ratio0: real, count0: int, index: seq<SaleRecord>, tick: int)
      reads this`onMarket, this`buyers, this`averageDaysOnMarket, averageSalePrice
      reads diagnostics`averageSoldPriceToOLP, diagnostics`saleCount
    {
      && QualitiesNonNeg(sellers) && |prices0| == nQuality
      && IsIndexOf(index, onMarket)
      && BandsBelow(index, nQuality)
      && onMarket == book - SoldHouses(done)
      && ClearRun(sellers, bids, nQuality) == done + ClearRun(index, buyers, nQuality)
      && SalesInBands(done, nQuality)
      && averageSalePrice[..] == SalePrices(prices0, done, config.g)
      && averageDaysOnMarket == DaysOnMarket(days0, done, config.e, tick)
      && diagnostics.averageSoldPriceToOLP == SoldToListRatio(ratio0, done, config.e)
      && diagnostics.saleCount == count0 + |done|
    }

    /** Before the first round nothing is sold: the whole index and the whole queue are left. */
    lemma StartServing(sellers: seq<SaleRecord>, tick: int)
      requires IsIndexOf(sellers, onMarket)
      requires BandsBelow(sellers, nQuality)
      requires averageSalePrice.Length == nQuality
      ensures Serving(sellers, buyers, [], onMarket, averageSalePrice[..], averageDaysOnMarket,
                      diagnostics.averageSoldPriceToOLP, diagnostics.saleCount, sellers, tick)
    {
      assert SoldHouses([]) == {};
      RemoveNothing(onMarket);
      AppendNothing(ClearRun(sellers, buyers, nQuality));
    }

    /** Serve the head of the bid queue and carry the accounts of the sales
        made so far, `done`, over to the sales made after this step. */
    method ServeAndAccount(ghost sellers: seq<SaleRecord>, ghost bids: seq<BidRecord>, ghost done: seq<Match>,
                           ghost book: map<HouseId, SaleRecord>, ghost prices0: seq<real>, ghost days0: real,
                           ghost ratio0: real, ghost count0: int, index: seq<SaleRecord>, tick: int)
      returns (rest: seq<SaleRecord>, ghost matches: seq<Match>)
      requires Valid()
      requires buyers != []
      requires Serving(sellers, bids, done, book, prices0, days0, ratio0, count0, index, tick)
      modifies this`buyers, this`onMarket, this`averageDaysOnMarket, averageSalePrice
      modifies diagnostics`averageSoldPriceToOLP, diagnostics`saleCount
      ensures Valid()
      ensures |buyers| == |old(buyers)| - 1
      ensures Serving(sellers, bids, matches, book, prices0, days0, ratio0, count0, rest, tick)
    {
      ghost var queue := buyers;
      ghost var ms;
      rest, ms := ServeNextBuyer(index, tick);
      matches := done + ms;
      SoldHousesAppend(done, ms);
      SalePricesAppend(prices0, done, ms, config.g);
      DaysOnMarketAppend(days0, done, ms, config.e, tick);
      SoldToListRatioAppend(ratio0, done, ms, config.e);
      ClearRunChain(sellers, bids, nQuality, done, index, queue, ms, rest, buyers);
    }

    /** Serve the bid queue until it is empty, against the index `sellers`
        of the book. The ghost result is the sequence of matches made. */
    method MatchBuyers(sellers: seq<SaleRecord>, tick: int) returns (ghost matches: seq<Match>)
      requires Valid()
      requires IsIndexOf(sellers, onMarket)
      requires BandsBelow(sellers, nQuality)
      modifies this`buyers, this`onMarket, this`averageDaysOnMarket, averageSalePrice
      modifies diagnostics`averageSoldPriceToOLP, diagnostics`saleCount
      ensures Valid()
      ensures buyers == []
      ensures matches == ClearRun(sellers, old(buyers), nQuality)
      ensures onMarket == old(onMarket) - SoldHouses(matches)
      ensures SalesInBands(matches, nQuality)
      ensures averageSalePrice[..] == SalePrices(old(averageSalePrice[..]), matches, config.g)
      ensures averageDaysOnMarket == DaysOnMarket(old(averageDaysOnMarket), matches, config.e, tick)
      ensures diagnostics.averageSoldPriceToOLP ==
        SoldToListRatio(old(diagnostics.averageSoldPriceToOLP), matches, config.e)
      ensures diagnostics.saleCount == old(diagnostics.saleCount) + |matches|
    {
      ghost var book := onMarket;
      ghost var bids := buyers;
      ghost var prices0 := averageSalePrice[..];
      ghost var days0 := averageDaysOnMarket;
      ghost var ratio0 := diagnostics.averageSoldPriceToOLP;
      ghost var count0 := diagnostics.saleCount;
      var index := sellers;
      matches := [];
      StartServing(sellers, tick);
      while buyers != []
        invariant Valid()
        invariant Serving(sellers, bids, matches, book, prices0, days0, ratio0, count0, index, tick)
        decreases |buyers|
      {
        index, matches := ServeAndAccount(sellers, bids, matches, book, prices0, days0, ratio0, count0, index, tick);
      }
      ClearRunDone(sellers, bids, nQuality, matches, index);
    }

    /** Build the ordered index of the book and serve the whole bid queue
        against it. The ghost result is the sequence of matches made. */
    method MatchAll(tick: int) returns (ghost matches: seq<Match>)
      requires Valid()
      modifies this`buyers, this`onMarket, this`averageDaysOnMarket, averageSalePrice
      modifies diagnostics`averageSoldPriceToOLP, diagnostics`saleCount
      ensures Valid()
      ensures buyers == []
      ensures Cleared(old(onMarket), old(buyers), nQuality, matches)
      ensures onMarket == old(onMarket) - SoldHouses(matches)
      ensures diagnostics.saleCount == old(diagnostics.saleCount) + |matches|
      ensures averageSalePrice[..] == SalePrices(old(averageSalePrice[..]), matches, config.g)
      ensures averageDaysOnMarket == DaysOnMarket(old(averageDaysOnMarket), matches, config.e, tick)
      ensures diagnostics.averageSoldPriceToOLP ==
        SoldToListRatio(old(diagnostics.averageSoldPriceToOLP), matches, config.e)
      ensures unchanged(this`housePriceIndex, this`hpiAppreciation, this`lastHousePriceIndex)
      ensures unchanged(diagnostics`nSales, diagnostics`nSellers, diagnostics`nBuyers)
      ensures unchanged(diagnostics`averageBidPrice, diagnostics`averageOfferPrice)
      ensures unchanged(diagnostics`offerPrices, diagnostics`bidPrices)
      ensures unchanged(diagnostics.offerPrices, diagnostics.bidPrices)
    {
      var sellers := BuildSellers();
      IndexInBands(sellers, onMarket, nQuality);
      matches := MatchBuyers(sellers, tick);
      ClearedRun(old(onMarket), sellers, old(buyers), nQuality);
    }

    /** One clearing: update the price index and take the diagnostics
        snapshot, then match the queued bids with the offers, highest bid
        first, until the queue is empty. The ghost result is the sequence of
        matches made. */
    method ClearMarket(tick: int) returns (ghost matches: seq<Match>)
      requires Valid()
      modifies this, averageSalePrice, diagnostics
      ensures Valid()
      ensures buyers == []
      ensures Cleared(old(onMarket), old(buyers), nQuality, matches)
      ensures onMarket == old(onMarket) - SoldHouses(matches)
      ensures housePriceIndex == HousePriceIndex(old(averageSalePrice[..]), config.hpiMean)
      ensures hpiAppreciation == Appreciation(config.f, old(hpiAppreciation), old(housePriceIndex), housePriceIndex)
      ensures lastHousePriceIndex == old(lastHousePriceIndex)
      ensures diagnostics.Snapshot(old(diagnostics.saleCount), old(onMarket), old(buyers))
      ensures diagnostics.saleCount == |matches|
      ensures averageSalePrice[..] == SalePrices(old(averageSalePrice[..]), matches, config.g)
      ensures averageDaysOnMarket == DaysOnMarket(old(averageDaysOnMarket), matches, config.e, tick)
      ensures diagnostics.averageSoldPriceToOLP ==
        SoldToListRatio(old(diagnostics.averageSoldPriceToOLP), matches, config.e)
    {
      RecordMarketStats();
      matches := MatchAll(tick);
    }
  }
}
