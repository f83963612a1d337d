/**
  The arithmetic of the market statistics, on exact reals: sums and means of
  the snapshot, the house price index, and the exponential moving averages
  each sale feeds.
 */
module Statistics {
  import opened Records

  function Sum(s: seq<real>): real
    decreases |s|
  {
    if s == [] then 0.0 else Sum(s[..|s| - 1]) + s[|s| - 1]
  }

  /** Summing one more element of a list adds that element. */
  lemma SumPrefix(s: seq<real>, i: nat)
    requires i < |s|
    ensures Sum(s[..i + 1]) == Sum(s[..i]) + s[i]
  {
    assert s[..i + 1][..i] == s[..i];
  }

  /** The average of a list of prices; 0 when the list is empty. */
  function Mean(s: seq<real>): real
  {
    if |s| > 0 then Sum(s) / |s| as real else 0.0
  }

  lemma {:induction false} SumBounds(s: seq<real>, lo: real, hi: real)
    requires forall i :: 0 <= i < |s| ==> lo <= s[i] <= hi
    ensures |s| as real * lo <= Sum(s) <= |s| as real * hi
    decreases |s|
  {
    if s != [] {
      SumBounds(s[..|s| - 1], lo, hi);
    }
  }

  /** A mean lies between the smallest and the largest price it averages,
      and the mean of nothing is 0. */
  lemma MeanBetween(s: seq<real>, lo: real, hi: real)
    requires forall i :: 0 <= i < |s| ==> lo <= s[i] <= hi
    ensures |s| == 0 ==> Mean(s) == 0.0
    ensures |s| > 0 ==> lo <= Mean(s) <= hi
  {
    if |s| > 0 {
      SumBounds(s, lo, hi);
      var n := |s| as real;
      assert Sum(s) / n * n == Sum(s);
    }
  }

  /** The house price index: the sum of the per-band average sale prices over
      the number of bands times the reference mean price. */
  function HousePriceIndex(averageSalePrice: seq<real>, hpiMean: real): real
    requires |averageSalePrice| > 0 && hpiMean > 0.0
  {
    Sum(averageSalePrice) / (|averageSalePrice| as real * hpiMean)
  }

  /** The index is normalised: when every band sells at the reference mean,
      the index is exactly 1. */
  lemma IndexAtReference(averageSalePrice: seq<real>, hpiMean: real)
    requires |averageSalePrice| > 0 && hpiMean > 0.0
    requires forall i :: 0 <= i < |averageSalePrice| ==> averageSalePrice[i] == hpiMean
    ensures HousePriceIndex(averageSalePrice, hpiMean) == 1.0
  {
    SumBounds(averageSalePrice, hpiMean, hpiMean);
  }

  /** One step of an exponential moving average with the given decay. */
  function Ema(decay: real, average: real, sample: real): real
  {
    decay * average + (1.0 - decay) * sample
  }

  /** With a decay in [0, 1] the new average lies between the old average and the sample. */
  lemma EmaBetween(decay: real, average: real, sample: real, lo: real, hi: real)
    requires 0.0 <= decay <= 1.0
    requires lo <= average <= hi && lo <= sample <= hi
    ensures lo <= Ema(decay, average, sample) <= hi
  {
    assert decay * (average - lo) >= 0.0 && decay * (hi - average) >= 0.0;
    assert (1.0 - decay) * (sample - lo) >= 0.0 && (1.0 - decay) * (hi - sample) >= 0.0;
  }

  predicate SalesInBands(ms: seq<Match>, nQuality: int)
  {
    forall i :: 0 <= i < |ms| ==> 0 <= ms[i].sale.quality < nQuality
  }

  /** The per-band average sale prices after a sequence of sales: each sale
      folds its price into its own band's average. */
  function SalePrices(a: seq<real>, ms: seq<Match>, g: real): (r: seq<real>)
    requires SalesInBands(ms, |a|)
    ensures |r| == |a|
    decreases |ms|
  {
    if ms == [] then a
    else
      var before := SalePrices(a, ms[..|ms| - 1], g);
      var sale := ms[|ms| - 1].sale;
      before[sale.quality := Ema(g, before[sale.quality], sale.currentPrice)]
  }

  lemma SalesInBandsAppend(xs: seq<Match>, ys: seq<Match>, n: int)
    ensures SalesInBands(xs + ys, n) <==> SalesInBands(xs, n) && SalesInBands(ys, n)
  {
    var t := xs + ys;
    assert forall i :: 0 <= i < |xs| ==> t[i] == xs[i];
    assert forall i :: 0 <= i < |ys| ==> t[|xs| + i] == ys[i];
  }

  /** Folding two runs of sales one after the other is folding their concatenation. */
  lemma {:induction false} SalePricesAppend(a: seq<real>, xs: seq<Match>, ys: seq<Match>, g: real)
    requires SalesInBands(xs, |a|) && SalesInBands(ys, |a|)
    ensures SalesInBands(xs + ys, |a|)
    ensures SalePrices(a, xs + ys, g) == SalePrices(SalePrices(a, xs, g), ys, g)
    decreases |ys|
  {
    SalesInBandsAppend(xs, ys, |a|);
    if ys == [] {
      assert xs + ys == xs;
    } else {
      var ys' := ys[..|ys| - 1];
      assert (xs + ys)[..|xs + ys| - 1] == xs + ys';
      assert (xs + ys)[|xs + ys| - 1] == ys[|ys| - 1];
      SalesInBandsAppend(ys', [ys[|ys| - 1]], |a|);
      assert ys' + [ys[|ys| - 1]] == ys;
      SalePricesAppend(a, xs, ys', g);
    }
  }

  /** A band in which nothing was sold keeps its average sale price. */
  lemma {:induction false} SalePricesUntouched(a: seq<real>, ms: seq<Match>, g: real, q: int)
    requires SalesInBands(ms, |a|)
    requires 0 <= q < |a|
    requires forall i :: 0 <= i < |ms| ==> ms[i].sale.quality != q
    ensures SalePrices(a, ms, g)[q] == a[q]
    decreases |ms|
  {
    if ms != [] {
      SalePricesUntouched(a, ms[..|ms| - 1], g, q);
    }
  }

  /** The averages stay within any range that holds the starting averages and
      every sale price. */
  lemma {:induction false} SalePricesBetween(a: seq<real>, ms: seq<Match>, g: real, lo: real, hi: real)
    requires SalesInBands(ms, |a|)
    requires 0.0 <= g <= 1.0
    requires forall i :: 0 <= i < |a| ==> lo <= a[i] <= hi
    requires forall i :: 0 <= i < |ms| ==> lo <= ms[i].sale.currentPrice <= hi
    ensures forall i :: 0 <= i < |a| ==> lo <= SalePrices(a, ms, g)[i] <= hi
    decreases |ms|
  {
    if ms != [] {
      var ms' := ms[..|ms| - 1];
      SalePricesBetween(a, ms', g, lo, hi);
      var before := SalePrices(a, ms', g);
      var sale := ms[|ms| - 1].sale;
      EmaBetween(g, before[sale.quality], sale.currentPrice, lo, hi);
    }
  }

  /** The days on market of a sale: 30 days per tick since it was first listed. */
  function DaysListed(sale: SaleRecord, tick: int): real
  {
    30.0 * (tick - sale.tInitialListing) as real
  }

  /** The average days on market after a sequence of sales at `tick`. */
  function DaysOnMarket(d: real, ms: seq<Match>, e: real, tick: int): real
    decreases |ms|
  {
    if ms == [] then d
    else Ema(e, DaysOnMarket(d, ms[..|ms| - 1], e, tick), DaysListed(ms[|ms| - 1].sale, tick))
  }

  lemma {:induction false} DaysOnMarketAppend(d: real, xs: seq<Match>, ys: seq<Match>, e: real, tick: int)
    ensures DaysOnMarket(d, xs + ys, e, tick) == DaysOnMarket(DaysOnMarket(d, xs, e, tick), ys, e, tick)
    decreases |ys|
  {
    if ys == [] {
      assert xs + ys == xs;
    } else {
      var ys' := ys[..|ys| - 1];
      assert (xs + ys)[..|xs + ys| - 1] == xs + ys';
      assert (xs + ys)[|xs + ys| - 1] == ys[|ys| - 1];
      DaysOnMarketAppend(d, xs, ys', e, tick);
    }
  }

  /** A sale counts towards the sold-to-list ratio only when its first list price exceeds 0.01. */
  predicate HasListPrice(sale: SaleRecord)
  {
    sale.initialListedPrice > 0.01
  }

  /** The average sold-price-to-first-list-price ratio after a sequence of sales. */
  function SoldToListRatio(r: real, ms: seq<Match>, e: real): real
    decreases |ms|
  {
    if ms == [] then r
    else
      var before := SoldToListRatio(r, ms[..|ms| - 1], e);
      var sale := ms[|ms| - 1].sale;
      if HasListPrice(sale) then Ema(e, before, sale.currentPrice / sale.initialListedPrice)
      else before
  }

  lemma {:induction false} SoldToListRatioAppend(r: real, xs: seq<Match>, ys: seq<Match>, e: real)
    ensures SoldToListRatio(r, xs + ys, e) == SoldToListRatio(SoldToListRatio(r, xs, e), ys, e)
    decreases |ys|
  {
    if ys == [] {
      assert xs + ys == xs;
    } else {
      var ys' := ys[..|ys| - 1];
      assert (xs + ys)[..|xs + ys| - 1] == xs + ys';
      assert (xs + ys)[|xs + ys| - 1] == ys[|ys| - 1];
      SoldToListRatioAppend(r, xs, ys', e);
    }
  }

  /** Sales without a meaningful first list price leave the ratio alone. */
  lemma {:induction false} SoldToListRatioUntouched(r: real, ms: seq<Match>, e: real)
    requires forall i :: 0 <= i < |ms| ==> !HasListPrice(ms[i].sale)
    ensures SoldToListRatio(r, ms, e) == r
    decreases |ms|
  {
    if ms != [] {
      SoldToListRatioUntouched(r, ms[..|ms| - 1], e);
    }
  }

  /** The statistics after a single sale are one moving-average step each. */
  lemma SingleSale(m: Match, a: seq<real>, d: real, r: real, g: real, e: real, tick: int)
    requires 0 <= m.sale.quality < |a|
    ensures SalesInBands([m], |a|)
    ensures SalePrices(a, [m], g) == a[m.sale.quality := Ema(g, a[m.sale.quality], m.sale.currentPrice)]
    ensures DaysOnMarket(d, [m], e, tick) == Ema(e, d, DaysListed(m.sale, tick))
    ensures SoldToListRatio(r, [m], e) ==
      if HasListPrice(m.sale) then Ema(e, r, m.sale.currentPrice / m.sale.initialListedPrice) else r
  {
    assert [m][..0] == [];
  }
}
