# Housing market clearing engine

This project models the house-sale market of the spatial housing model, found in
`src/housing/HousingMarket.java`. The model has these parts:

- **Offer book.** `onMarket` maps each listed house to its sale record. `Offer` upserts a
  record, `UpdateOffer` changes a record's asking price, `RemoveOffer` withdraws a record,
  and `GetSaleRecord`/`IsOnMarket` look a house up.
- **Bid queue.** `buyers` holds the pending bids in submission order. The queue always serves
  the highest bid first; among equal prices it serves the earliest submission (`BidQueue.Top`).
- **Clearing.** `ClearMarket` first updates the price index and takes the diagnostics
  snapshot. It then builds the ordered seller index over the book (`BuildSellers`) and drains
  the queue. For each buyer, `FindSeller` starts with a ceiling above every quality band and
  takes the cheapest offer of the highest occupied band at or below the ceiling. If that offer
  is too dear, or is the buyer's own house, the ceiling drops below that band and the search
  repeats. A found offer is sold (`Sell`): its statistics are recorded, and it leaves both the
  book and the index.
- **Statistics.** The statistics are the per-band average sale prices, the average days on
  market, the sold-price-to-first-list-price ratio, the house price index and its appreciation.
  The `Diagnostics` class holds the snapshot (counts, mean prices, raw price arrays) and the
  per-sale counter.

The imperative parts keep the source's form. `HousingMarket` and `Diagnostics` are classes
whose methods update their fields. The book is a `map` field and the queue a `seq` field.
`averageSalePrice`, `offerPrices` and `bidPrices` are arrays, filled by index loops. Every
method is proved against pure specification functions:

- `OfferIndex.Lower` is the sentinel query `TreeSet.lower` (`src/housing/HousingMarket.java:210, 225, 229`).
- `OfferIndex.Search` is the ceiling-descent search for one buyer (`src/housing/HousingMarket.java:224-230`).
- `Clearing.ClearRun` is the whole matching run: poll the highest bid, search, and sell the
  offer found (`src/housing/HousingMarket.java:222-235`).
- `Statistics.SalePrices`, `Statistics.DaysOnMarket` and `Statistics.SoldToListRatio` are the
  moving averages folded over the sales (`src/housing/HousingMarket.java:101-103, 248-249`).
- `Statistics.HousePriceIndex` is the sum of the per-band averages over the number of bands
  times the reference mean (`src/housing/HousingMarket.java:283-287`).
- `Housing.Appreciation` is the appreciation update (`src/housing/HousingMarket.java:282, 288`).

The lemmas beside these functions prove the matching properties:

- every sale is affordable and never a self-purchase;
- no house is sold twice;
- bids are served highest first;
- the chosen band is the highest one whose cheapest offer is acceptable;
- a band with no sale keeps its average.

Prices are `real`. The decay constants `E`, `F` and `G`, the reference mean price and the
per-band reference prices come in through `Housing.Config`. The current tick is a parameter.

## Model

| member | source | states |
|---|---|---|
| Records.PrecedesStrictOrder | src/housing/HousingMarket.java:214-220 | The seller-index order (quality ascending, then asking price descending, then house identity) is a strict total order on records of distinct houses. |
| OfferBook.SortedKeys | src/housing/HousingMarket.java:302 | The tree map's key walk visits every listed house exactly once, in strictly ascending identity order. |
| OfferBook.ListedPrices | src/housing/HousingMarket.java:85-87 | The book's asking prices, one per listed house: position i holds the price of the i-th house in key order. |
| OfferBook.KeysListed | src/housing/HousingMarket.java:85-87 | The key walk of the book lists only houses that are in the book, one per entry. |
| OfferBook.PricesAt | src/housing/HousingMarket.java:115-118 | Reading the prices of a walk of listed houses gives one price per house, in walk order, each the current asking price of that house's record. |
| BidQueue.Top | src/housing/HousingMarket.java:222-223 | The head of a non-empty queue: no pending bid is higher, and every bid submitted before it is strictly lower. |
| BidQueue.TopUnique | src/housing/HousingMarket.java:223 | The explicit tie-break makes the head unique, so polling is deterministic. |
| BidQueue.RemoveAt | src/housing/HousingMarket.java:223 | Polling removes exactly one bid: the remaining queue plus the polled bid is the old queue as a multiset. |
| BidQueue.BidPrices | src/housing/HousingMarket.java:125-128 | The queue's bid prices, one per pending bid, in queue order. |
| OfferIndex.Insert | src/housing/HousingMarket.java:218-219 | Adding a record of a new house to a sorted index keeps it sorted and adds exactly that record. |
| OfferIndex.InsertIndex | src/housing/HousingMarket.java:217-220 | Inserting a new house's record into the index of a book gives the index of the book extended by that house. |
| OfferIndex.RemoveSorted | src/housing/HousingMarket.java:234 | Removing one element from a sorted index keeps it sorted and removes exactly that element. |
| OfferIndex.RemoveIndex | src/housing/HousingMarket.java:233-234 | Removing a sold record from the index and its house from the book keeps the index equal to the book's index. |
| OfferIndex.IndexExists | src/housing/HousingMarket.java:217-220 | Every book whose entries sit under their own house identity has an ordered index. |
| OfferIndex.IndexGrows | src/housing/HousingMarket.java:219 | The index of a book without house h, with h's record inserted, is the index of the whole book. |
| OfferIndex.IndexUnique | src/housing/HousingMarket.java:217-220 | Two strictly sorted sequences with the same elements are equal, so the index does not depend on the order the book is walked in. |
| OfferIndex.IndexIdsDistinct | src/housing/HousingMarket.java:217-220 | Each house appears at most once in the index of a book. |
| OfferIndex.IndexOfUnique | src/housing/HousingMarket.java:217-220 | A book has exactly one ordered index. |
| OfferIndex.IndexInBands | src/housing/HousingMarket.java:217-220 | The index holds only records whose quality band is in the book's band range. |
| OfferIndex.SortedIndex | src/housing/HousingMarket.java:217-220 | The ordered index of a book, as a value: sorted, and holding exactly the book's records. |
| OfferIndex.Lower | src/housing/HousingMarket.java:210-225 | The sentinel query returns the last record of quality at most c, or nothing when every record lies above c. |
| OfferIndex.LowerIsCheapestOfTopBand | src/housing/HousingMarket.java:225 | The record found is the greatest index element below the sentinel: it is in the highest occupied band at or below c, and it is the cheapest offer of that band. |
| OfferIndex.Search | src/housing/HousingMarket.java:224-230 | A found record is acceptable to the buyer (price at most the bid, not the buyer's own house) and lies at or below the ceiling. The ceiling strictly decreases, so the search ends. |
| OfferIndex.SearchFindsBestBand | src/housing/HousingMarket.java:224-231 | The buyer gets the cheapest offer of the highest band whose cheapest offer is acceptable. The cheapest offer of every higher band is unacceptable, so that band is skipped whole. When no band qualifies, the buyer gets nothing. |
| Clearing.ClearRunSound | src/housing/HousingMarket.java:226-232 | Every match is affordable and not a self-purchase. It pairs a queued bid with an indexed offer below the ceiling. There are no more matches than bids. |
| Clearing.ClearRunSellsOnce | src/housing/HousingMarket.java:231-235 | When the index holds each house once, no house is sold twice in a clearing. |
| Clearing.EachBidOnce | src/housing/HousingMarket.java:222-235 | Each polled bid buys at most one house: the matches' bids, counted with multiplicity, are among the queued bids. |
| Clearing.ClearRunHighestFirst | src/housing/HousingMarket.java:222-223 | Matches are made in the order of descending bid price. |
| Clearing.ScenarioAffordable | src/housing/HousingMarket.java:222-235 | An affordable offer owned by someone else is bought at its asking price. |
| Clearing.ScenarioOwnHouse | src/housing/HousingMarket.java:226-227 | A buyer whose only candidate is their own house buys nothing. |
| Clearing.ScenarioCheapestInBand | src/housing/HousingMarket.java:225 | Of two offers in one band, the cheaper one is sold and the dearer one stays. |
| Clearing.ScenarioDescend | src/housing/HousingMarket.java:226-230 | An unaffordable top band makes the search descend, and the buyer buys in the lower band. |
| Clearing.ScenarioBandForfeited | src/housing/HousingMarket.java:226-230 | When a band's cheapest offer is the buyer's own house, the whole band is forfeited, even though a dearer affordable offer sits in it. |
| Statistics.SumBounds | src/housing/HousingMarket.java:77-87 | A sum of n prices, each between lo and hi, lies between n*lo and n*hi. |
| Statistics.SumPrefix | src/housing/HousingMarket.java:77-79 | Adding the next price to a running total gives the sum of the prefix one longer. |
| Statistics.MeanBetween | src/housing/HousingMarket.java:76-88 | The mean of no prices is 0. Otherwise the mean lies between the smallest and the largest price. |
| Statistics.IndexAtReference | src/housing/HousingMarket.java:283-287 | The price index is normalised: when every band's average equals the reference mean, the index is exactly 1. |
| Statistics.EmaBetween | src/housing/HousingMarket.java:102 | With a decay in [0, 1], a moving-average step lands between the old average and the sample. |
| Statistics.SalePrices | src/housing/HousingMarket.java:249 | Folding the sales into the per-band averages keeps one average per band. |
| Statistics.SalePricesAppend | src/housing/HousingMarket.java:249 | Folding two runs of sales one after the other is the same as folding their concatenation. |
| Statistics.SalePricesUntouched | src/housing/HousingMarket.java:249 | A band in which nothing was sold keeps its average sale price. |
| Statistics.SalePricesBetween | src/housing/HousingMarket.java:249 | The per-band averages stay inside any range that holds the starting averages and every sale price. |
| Statistics.DaysOnMarketAppend | src/housing/HousingMarket.java:248 | The days-on-market average composes over consecutive runs of sales. |
| Statistics.SoldToListRatioAppend | src/housing/HousingMarket.java:101-103 | The sold-to-list ratio average composes over consecutive runs of sales. |
| Statistics.SoldToListRatioUntouched | src/housing/HousingMarket.java:101-103 | Sales whose first list price is at most 0.01 leave the ratio unchanged. |
| Statistics.SingleSale | src/housing/HousingMarket.java:246-251 | Folding one sale changes only the sold band's average sale price, and takes exactly one moving-average step of the days on market and, when the first list price exceeds 0.01, of the ratio. |
| MarketDiagnostics.Diagnostics.constructor | src/housing/HousingMarket.java:51-66 | The ratio starts at 1 and every counter at 0. Rows 0 of priceData, and both rows of referencePriceData, hold the reference prices. |
| MarketDiagnostics.Diagnostics.Record | src/housing/HousingMarket.java:68-91 | The snapshot: nSales takes the old sale count and the counter restarts at 0. nSellers and nBuyers are the sizes of the book and the queue. Each mean price is 0 when its collection is empty. The fresh price arrays hold one price per offer and one per bid. |
| MarketDiagnostics.Diagnostics.AverageBidPrice | src/housing/HousingMarket.java:76-80 | The mean bid price of the queue, or 0 when the queue is empty. |
| MarketDiagnostics.Diagnostics.AverageOfferPrice | src/housing/HousingMarket.java:84-88 | The mean asking price of the book, or 0 when the book is empty. |
| MarketDiagnostics.Diagnostics.TotalBidPrice | src/housing/HousingMarket.java:77-79 | The loop's total is the sum of the queue's bid prices. |
| MarketDiagnostics.Diagnostics.TotalOfferPrice | src/housing/HousingMarket.java:85-87 | The loop's total over the book's values is the sum of the listed asking prices. |
| MarketDiagnostics.Diagnostics.SumPrices | src/housing/HousingMarket.java:85-87 | The loop over a walk of listed houses totals exactly their asking prices. |
| MarketDiagnostics.Diagnostics.RecordSale | src/housing/HousingMarket.java:100-105 | Each sale adds exactly one to the counter. The ratio average changes only when the first list price exceeds 0.01. |
| MarketDiagnostics.Diagnostics.RecordOfferPrices | src/housing/HousingMarket.java:112-119 | A fresh array of length size-of-book holds the asking prices in key order. |
| MarketDiagnostics.Diagnostics.CopyPrices | src/housing/HousingMarket.java:114-118 | The fresh array holds, at each position, the asking price of the house at that position of the walk. |
| MarketDiagnostics.Diagnostics.RecordBidPrices | src/housing/HousingMarket.java:121-129 | A fresh array of length size-of-queue holds the bid prices in queue order. |
| MarketDiagnostics.Diagnostics.Step | src/housing/HousingMarket.java:93-98 | Row 1 of priceData takes the given per-band averages, and row 0 is unchanged. |
| Housing.HousingMarket.constructor | src/housing/HousingMarket.java:140-151 | The market starts empty. The per-band averages equal the reference prices. The index and the last index are 1, the appreciation is 0 and the days on market are 30. The diagnostics start with the ratio at 1, every counter and mean at 0, row 0 of priceData and both rows of referencePriceData at the reference prices, and row 1 of priceData at 0. |
| Housing.HousingMarket.Offer | src/housing/HousingMarket.java:158-160 | Upsert: the house gets a fresh record at the given price, which replaces any earlier listing. Every other house's entry is unchanged. |
| Housing.HousingMarket.UpdateOffer | src/housing/HousingMarket.java:169-171 | Only the current price of the listed house's record changes. The key set and every other record are unchanged. |
| Housing.HousingMarket.RemoveOffer | src/housing/HousingMarket.java:178-180 | Deletes only this house. When the house is not listed, the book is unchanged. |
| Housing.HousingMarket.Bid | src/housing/HousingMarket.java:189-192 | The bid joins the queue, and nothing else changes. |
| Housing.HousingMarket.GetSaleRecord | src/housing/HousingMarket.java:199-201 | Returns the house's record when the house is listed, and nothing exactly when it is not. |
| Housing.HousingMarket.IsOnMarket | src/housing/HousingMarket.java:253-255 | A house is on the market exactly when it has a sale record. |
| Housing.HousingMarket.Poll | src/housing/HousingMarket.java:223 | Removes and returns the head of the queue. No pending bid was higher. |
| Housing.HousingMarket.CompleteTransaction | src/housing/HousingMarket.java:246-251 | Only the sold band's slot of averageSalePrice changes. The days-on-market average takes one step, the sale counter rises by one, and the ratio changes only when the first list price exceeds 0.01. |
| Housing.HousingMarket.RecordMarketStats | src/housing/HousingMarket.java:279-291 | The index is recomputed from the current averages, and the appreciation folds in the index's change. The snapshot then describes the book and queue as they stood before matching. |
| Housing.AppreciationIsEma | src/housing/HousingMarket.java:282-288 | The appreciation update is a moving average, with decay F, of the index's change since the last clearing. |
| Housing.HousingMarket.UpdatePriceIndex | src/housing/HousingMarket.java:282-288 | The new index is the sum of the band averages over the number of bands times the reference mean. The appreciation is a moving average of the index's first difference. |
| Housing.HousingMarket.CurrentPriceIndex | src/housing/HousingMarket.java:283-287 | The loop's result equals the house price index of the current averages. |
| Housing.HousingMarket.TotalSalePrice | src/housing/HousingMarket.java:284-286 | The loop's total is the sum of the per-band averages. |
| Housing.HousingMarket.BuildSellers | src/housing/HousingMarket.java:217-220 | Walking the book in key order and inserting each record gives the book's ordered index. |
| Housing.HousingMarket.FindSeller | src/housing/HousingMarket.java:224-230 | The ceiling-descent loop returns exactly what the search specification returns from the top ceiling. |
| Housing.HousingMarket.Sell | src/housing/HousingMarket.java:231-235 | The statistics become the folds of the old statistics over this one match, and the counter rises by one. The sold house leaves the book, its record leaves the index at the found position, and the index stays the book's index. |
| Housing.HousingMarket.ServeNextBuyer | src/housing/HousingMarket.java:222-235 | Serving one buyer removes exactly the head bid from the queue. It makes at most one match, and that match is the one the run specifies. Only a sold house leaves the book, and the statistics are updated by that match. |
| Housing.HousingMarket.MatchBuyers | src/housing/HousingMarket.java:222-236 | Draining the queue empties it and makes exactly the specified run of matches. Sold houses leave the book and the rest stay listed. Statistics are folded over the matches, and the counter rises by one per match. |
| Housing.ClearedRun | src/housing/HousingMarket.java:214-236 | The matching run over an ordered index of the book has every clearing property: affordable, not self-owned, each house sold at most once, bids served highest first. |
| Housing.HousingMarket.MatchAll | src/housing/HousingMarket.java:214-236 | Over the index of the book: the queue ends empty, and every match is affordable, not self-owned, taken from the book and the queue. No house is sold twice, bids are served highest first, and only sold houses leave the book. |
| Housing.HousingMarket.ClearMarket | src/housing/HousingMarket.java:207-237 | One clearing: the snapshot and the price index come from the state before matching. Then every property of MatchAll holds, and the sale counter equals the number of matches. |

## Left out

- `referencePrice` and `Config`: the log-normal inverse distribution and `Math.exp`/`Math.log` belong to a foreign library and floating point. The per-band reference prices, the reference mean and the decay constants are parameters (`Housing.Config`).
- Floating point: prices and averages are exact reals, so rounding in the moving averages and the index is not modelled.
- `OfferIndex.Lower`: the source's sentinel is a record at the ceiling quality with price 0.0, compared by a `HouseSaleRecord` comparator that is not among these files. The model takes the order to be quality ascending, then price descending, then house identity. It takes the sentinel to rank above every record of its band, so `Lower(s, c)` returns the cheapest record of the highest band at or below c. Under that order, a record of the ceiling's own band c priced below 0 ranks above the price-0.0 sentinel. The source's query skips such a record, but `Lower` returns it. For a record of band c priced exactly 0, the source's result depends on the comparator's tie-break. The identity tie-break is also assumed for `OfferIndex.Insert`. If the comparator has none, `sellers.add` (`src/housing/HousingMarket.java:219`) keeps only one of two offers with equal quality and price. The other offer then cannot sell in that clearing, while `Insert` keeps both.
- The bid order is also defined by a comparator (`HouseBuyerRecord`) that is not among these files. The model serves the highest price first and breaks ties by earliest submission.
- The tree map's house order is unknown. The model visits houses in ascending identity.
- `MarketDiagnostics.Diagnostics.RecordBidPrices`: the priority queue's iterator visits bids in heap order, which the model does not capture. The model records bid prices in submission order.
- Sale records are values. Aliasing is not modelled: in the source `getSaleRecord` hands out the mutable record, and the same object sits in the seller index.
- Houses are values too. The owner compared during clearing is the one captured in the sale record when the house was listed. The source reads the live `seller.house.owner` (`src/housing/HousingMarket.java:227`), which sees any change of owner since listing.
- `MarketDiagnostics.Diagnostics.constructor`: `offerPrices` and `bidPrices` start as fresh empty arrays. In the source they are null until the first `record()`. The model has no null state for them.
- `Housing.HousingMarket.UpdateOffer` requires the house to be listed, because the source dereferences the lookup unchecked.
- `Housing.HousingMarket.Offer` requires the house's quality to lie in [0, number of bands), which the house abstraction guarantees.
- The matches are a ghost result. The source returns no match list and records each transaction only through the statistics.
- `HouseSaleRecord`'s constructor is not part of this model. A new record is assumed to take the house's quality, to have its initial and current prices equal to the list price, and to be listed at the current tick.
- `Diagnostics.step` and `completeTransaction` read the test harness's market and clock. The model passes the averages and the tick in as parameters.
- `recordBid` has an empty body and is not modelled.
- `housePriceAppreciation` and `getHPIAppreciation` are plain getters of `12 * HPIAppreciation` and `HPIAppreciation`.
- The price index and its appreciation are recomputed at the start of each clearing, from the averages of earlier sales, not after matching. `lastHousePriceIndex` is never written after construction. The model follows the code on both points.
- src/main/java/collectors/RegionalHouseholdStats.java is not part of this model. It tallies household objects whose predicates are not visible, and it takes no part in matching.
