/**
  The market's diagnostics: a snapshot of the offer book and the bid queue
  taken at the start of each clearing, the running sale counter, and the
  sold-to-first-list-price ratio that each sale updates.

  In the source this is an inner class that reads the market's book and
  queue directly; here they are passed in.
 */
module MarketDiagnostics {
  import opened Records
  import opened OfferBook
  import opened BidQueue
  import opened Statistics

  class Diagnostics {
    const nQuality: nat
    /** Decay constant of the sold-to-list ratio average. */
    const e: real

    var averageSoldPriceToOLP: real
    var averageBidPrice: real
    var averageOfferPrice: real
    var nSales: int
    var saleCount: int
    var nBuyers: int
    var nSellers: int
    const priceData: array2<real>
    const referencePriceData: array2<real>
    var offerPrices: array<real>
    var bidPrices: array<real>

    ghost predicate Valid()
    {
      && priceData.Length0 == 2 && priceData.Length1 == nQuality
      && referencePriceData.Length0 == 2 && referencePriceData.Length1 == nQuality
      && priceData != referencePriceData
    }

    /** The snapshot fields describe the given book and queue, with `sales` sales since the last one. */
    ghost predicate Snapshot(sales: int, onMarket: map<HouseId, SaleRecord>, buyers: seq<BidRecord>)
      reads this`nSales, this`nSellers, this`nBuyers, this`averageBidPrice, this`averageOfferPrice
      reads this`offerPrices, this`bidPrices, offerPrices, bidPrices
    {
      && nSales == sales
      && nSellers == |onMarket|
      && nBuyers == |buyers|
      && averageBidPrice == Mean(BidPrices(buyers))
      && averageOfferPrice == Mean(ListedPrices(onMarket))
      && offerPrices[..] == ListedPrices(onMarket)
      && bidPrices[..] == BidPrices(buyers)
    }

    constructor (nQuality: nat, referencePrices: seq<real>, e: real)
      requires |referencePrices| == nQuality
      ensures Valid() && this.nQuality == nQuality && this.e == e
      ensures fresh(priceData) && fresh(referencePriceData) && fresh(offerPrices) && fresh(bidPrices)
      ensures averageSoldPriceToOLP == 1.0
      ensures saleCount == 0 && nSales == 0 && nBuyers == 0 && nSellers == 0
      ensures averageBidPrice == 0.0 && averageOfferPrice == 0.0
      ensures offerPrices.Length == 0 && bidPrices.Length == 0
      ensures forall q :: 0 <= q < nQuality ==> priceData[0, q] == referencePrices[q] && priceData[1, q] == 0.0
      ensures forall q :: 0 <= q < nQuality ==>
        referencePriceData[0, q] == referencePrices[q] && referencePriceData[1, q] == referencePrices[q]
    {
      this.nQuality := nQuality;
      this.e := e;
      averageSoldPriceToOLP := 1.0;
      averageBidPrice := 0.0;
      averageOfferPrice := 0.0;
      saleCount := 0;
      nSales := 0;
      nBuyers := 0;
      nSellers := 0;
      var prices := new real[2, nQuality]((r, q) => 0.0);
      var references := new real[2, nQuality]((r, q) => 0.0);
      for i := 0 to nQuality
        invariant forall q :: 0 <= q < i ==>
          && prices[0, q] == referencePrices[q]
          && references[0, q] == referencePrices[q]
          && references[1, q] == referencePrices[q]
        invariant forall q :: 0 <= q < nQuality ==> prices[1, q] == 0.0
      {
        prices[0, i] := referencePrices[i];
        references[0, i] := referencePrices[i];
        references[1, i] := referencePrices[i];
      }
      priceData := prices;
      referencePriceData := references;
      offerPrices := new real[0];
      bidPrices := new real[0];
    }

    /** Take the snapshot of the book and the queue and restart the sale counter. */
    method Record(onMarket: map<HouseId, SaleRecord>, buyers: seq<BidRecord>)
      requires Valid()
      modifies this`nSales, this`saleCount, this`nSellers, this`nBuyers
      modifies this`averageBidPrice, this`averageOfferPrice, this`offerPrices, this`bidPrices
      ensures Valid()
      ensures Snapshot(old(saleCount), onMarket, buyers)
      ensures saleCount == 0
      ensures fresh(offerPrices) && fresh(bidPrices)
    {
      nSales := saleCount;
      saleCount := 0;
      nSellers := |onMarket|;
      nBuyers := |buyers|;

      averageBidPrice := AverageBidPrice(buyers);
      averageOfferPrice := AverageOfferPrice(onMarket);
      RecordOfferPrices(onMarket);
      RecordBidPrices(buyers);
    }

    /** The mean price of the pending bids, 0 when there are none. */
    method AverageBidPrice(buyers: seq<BidRecord>) returns (average: real)
      ensures average == Mean(BidPrices(buyers))
    {
      var total := TotalBidPrice(buyers);
      average := if |buyers| > 0 then total / |buyers| as real else 0.0;
    }

    /** The mean asking price of the book, 0 when it is empty. */
    method AverageOfferPrice(onMarket: map<HouseId, SaleRecord>) returns (average: real)
      ensures average == Mean(ListedPrices(onMarket))
    {
      var total := TotalOfferPrice(onMarket);
      average := if |onMarket| > 0 then total / |onMarket| as real else 0.0;
    }

    /** The sum of the prices of the pending bids. */
    method TotalBidPrice(buyers: seq<BidRecord>) returns (total: real)
      ensures total == Sum(BidPrices(buyers))
    {
      ghost var bids := BidPrices(buyers);
      total := 0.0;
      for i := 0 to |buyers|
        invariant total == Sum(bids[..i])
      {
        SumPrefix(bids, i);
        total := total + buyers[i].price;
      }
      assert bids[..|buyers|] == bids;
    }

    /** The sum of the asking prices of the book, visited in house order. */
    method TotalOfferPrice(onMarket: map<HouseId, SaleRecord>) returns (total: real)
      ensures total == Sum(ListedPrices(onMarket))
    {
      var houses := SortedKeys(onMarket.Keys);
      KeysListed(onMarket);
      total := SumPrices(onMarket, houses);
    }

    /** The sum of the asking prices of the listed houses ks, visited in the order of ks. */
    method SumPrices(onMarket: map<HouseId, SaleRecord>, houses: seq<HouseId>) returns (total: real)
      requires Listed(onMarket, houses)
      ensures total == Sum(PricesAt(onMarket, houses))
    {
      ghost var offers := PricesAt(onMarket, houses);
      total := 0.0;
      for i := 0 to |houses|
        invariant total == Sum(offers[..i])
      {
        SumPrefix(offers, i);
        total := total + onMarket[houses[i]].currentPrice;
      }
      assert offers[..|houses|] == offers;
    }

    /** Count one sale, and fold its sold-to-list ratio into the average when
        its first list price is meaningful. */
    method RecordSale(sale: SaleRecord)
      modifies this`averageSoldPriceToOLP, this`saleCount
      ensures saleCount == old(saleCount) + 1
      ensures averageSoldPriceToOLP ==
        if HasListPrice(sale) then Ema(e, old(averageSoldPriceToOLP), sale.currentPrice / sale.initialListedPrice)
        else old(averageSoldPriceToOLP)
    {
      if sale.initialListedPrice > 0.01 {
        averageSoldPriceToOLP := e * averageSoldPriceToOLP + (1.0 - e) * (sale.currentPrice / sale.initialListedPrice);
      }
      saleCount := saleCount + 1;
    }

    /** Copy the book's asking prices, in house order, into a fresh array. */
    method RecordOfferPrices(onMarket: map<HouseId, SaleRecord>)
      modifies this`offerPrices
      ensures fresh(offerPrices)
      ensures offerPrices.Length == |onMarket|
      ensures offerPrices[..] == ListedPrices(onMarket)
    {
      var houses := SortedKeys(onMarket.Keys);
      KeysListed(onMarket);
      offerPrices := CopyPrices(onMarket, houses);
    }

    /** A fresh array of the asking prices of the listed houses ks, in the order of ks. */
    method CopyPrices(onMarket: map<HouseId, SaleRecord>, houses: seq<HouseId>) returns (prices: array<real>)
      requires Listed(onMarket, houses)
      ensures fresh(prices)
      ensures prices[..] == PricesAt(onMarket, houses)
    {
      ghost var offers := PricesAt(onMarket, houses);
      prices := new real[|houses|];
      for i := 0 to |houses|
        invariant forall j :: 0 <= j < i ==> prices[j] == offers[j]
      {
        prices[i] := onMarket[houses[i]].currentPrice;
      }
      assert prices[..] == offers;
    }

    /** Copy the queue's bid prices, in queue order, into a fresh array. */
    method RecordBidPrices(buyers: seq<BidRecord>)
      modifies this`bidPrices
      ensures fresh(bidPrices)
      ensures bidPrices.Length == |buyers|
      ensures bidPrices[..] == BidPrices(buyers)
    {
      var prices := new real[|buyers|];
      var i := 0;
      while i < |buyers|
        invariant 0 <= i <= |buyers|
        invariant forall j :: 0 <= j < i ==> prices[j] == buyers[j].price
      {
        prices[i] := buyers[i].price;
        i := i + 1;
      }
      bidPrices := prices;
    }

    /** Record the market's current per-band average sale prices as the second row of the price data. */
    method Step(averageSalePrice: seq<real>)
      requires Valid()
      requires |averageSalePrice| == nQuality
      modifies priceData
      ensures forall q :: 0 <= q < nQuality ==>
        priceData[1, q] == averageSalePrice[q] && priceData[0, q] == old(priceData[0, q])
    {
      for i := 0 to nQuality
        invariant forall q :: 0 <= q < i ==> priceData[1, q] == averageSalePrice[q]
        invariant forall q :: 0 <= q < nQuality ==> priceData[0, q] == old(priceData[0, q])
      {
        priceData[1, i] := averageSalePrice[i];
      }
    }
  }
}
