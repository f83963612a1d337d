/**
  The ordered index of sellers that the clearing step builds over the offer
  book, and the band-descending search that serves one buyer.

  The index is a sequence strictly sorted by `Precedes`. The source queries
  it with "the greatest element below a sentinel of quality c"; with the
  sentinel ranked above every record of band c, that element is the last one
  of quality at most c, which is the cheapest offer of the highest occupied
  band at or below c.
 */
module OfferIndex {
  import opened Records

  ghost predicate Sorted(s: seq<SaleRecord>)
  {
    forall i, j :: 0 <= i < j < |s| ==> Precedes(s[i], s[j])
  }

  predicate QualitiesNonNeg(s: seq<SaleRecord>)
  {
    forall i :: 0 <= i < |s| ==> 0 <= s[i].quality
  }

  /** Every entry of the offer book is stored under its own house's identity. */
  ghost predicate KeysMatch(m: map<HouseId, SaleRecord>)
  {
    forall h :: h in m ==> m[h].house.id == h
  }

  /** `s` is the ordered index of the offer book `m`: sorted, and holding
      exactly the records of `m`. */
  ghost predicate IsIndexOf(s: seq<SaleRecord>, m: map<HouseId, SaleRecord>)
  {
    && KeysMatch(m)
    && Sorted(s)
    && (forall r :: r in s ==> r.house.id in m && m[r.house.id] == r)
    && (forall h :: h in m ==> m[h] in s)
  }

  /** Adding one record to the ordered index (TreeSet.add). */
  function Insert(s: seq<SaleRecord>, r: SaleRecord): (t: seq<SaleRecord>)
    requires Sorted(s)
    requires forall i :: 0 <= i < |s| ==> s[i].house.id != r.house.id
    ensures Sorted(t)
    ensures |t| == |s| + 1
    ensures forall x :: x in t <==> x in s || x == r
    decreases |s|
  {
    if s == [] || Precedes(r, s[0]) then
      assert forall j :: 0 <= j < |s| ==> Precedes(r, s[j]) by {
        forall j | 0 <= j < |s| ensures Precedes(r, s[j]) {
          if j > 0 { PrecedesStrictOrder(r, s[0], s[j]); }
        }
      }
      [r] + s
    else
      PrecedesStrictOrder(r, s[0], r);
      var t' := Insert(s[1..], r);
      assert forall x :: x in t' ==> Precedes(s[0], x) by {
        forall x | x in t' ensures Precedes(s[0], x) {
          if x != r {
            var k :| 1 <= k < |s| && s[k] == x;
          }
        }
      }
      assert s == [s[0]] + s[1..];
      [s[0]] + t'
  }

  lemma {:induction false} InsertIndex(s: seq<SaleRecord>, m: map<HouseId, SaleRecord>, r: SaleRecord)
    requires IsIndexOf(s, m)
    requires r.house.id !in m
    ensures forall i :: 0 <= i < |s| ==> s[i].house.id != r.house.id
    ensures IsIndexOf(Insert(s, r), m[r.house.id := r])
  {
    assert forall i :: 0 <= i < |s| ==> s[i].house.id != r.house.id by {
      forall i | 0 <= i < |s| ensures s[i].house.id != r.house.id {
        assert s[i] in s;
      }
    }
  }

  /** Taking one element out of a strictly sorted sequence keeps it sorted and
      removes exactly that element. */
  lemma {:induction false} RemoveSorted(s: seq<SaleRecord>, i: nat)
    requires Sorted(s)
    requires i < |s|
    ensures Sorted(s[..i] + s[i+1..])
    ensures forall x :: x in s[..i] + s[i+1..] <==> x in s && x != s[i]
  {
    var t := s[..i] + s[i+1..];
    assert |t| == |s| - 1;
    assert forall k :: 0 <= k < |t| ==> t[k] == s[if k < i then k else k + 1];
    forall a, b | 0 <= a < b < |t| ensures Precedes(t[a], t[b]) {
      assert t[a] == s[if a < i then a else a + 1];
      assert t[b] == s[if b < i then b else b + 1];
    }
    forall x ensures x in t <==> x in s && x != s[i] {
      if x in t {
        var k :| 0 <= k < |t| && t[k] == x;
        var k' := if k < i then k else k + 1;
        assert s[k'] == x;
        if k' < i { assert Precedes(s[k'], s[i]); } else { assert Precedes(s[i], s[k']); }
        PrecedesStrictOrder(x, x, x);
      }
      if x in s && x != s[i] {
        var k :| 0 <= k < |s| && s[k] == x;
        if k < i { assert t[k] == x; } else { assert t[k - 1] == x; }
      }
    }
  }

  /** Every record of the index lies in a band of [0, n). */
  predicate BandsBelow(s: seq<SaleRecord>, n: int)
  {
    forall i :: 0 <= i < |s| ==> 0 <= s[i].quality < n
  }

  /** Taking a record out of the index keeps the others in their bands. */
  lemma RemoveInBands(s: seq<SaleRecord>, i: nat, n: int)
    requires i < |s| && BandsBelow(s, n)
    ensures BandsBelow(s[..i] + s[i + 1..], n)
  {
    var t := s[..i] + s[i + 1..];
    assert forall k :: 0 <= k < |t| ==> t[k] == s[if k < i then k else k + 1];
  }

  /** Removing the record at index i from the index and its house from the book
      keeps the two in step (TreeSet.remove together with the book's remove). */
  lemma {:induction false} RemoveIndex(s: seq<SaleRecord>, m: map<HouseId, SaleRecord>, i: nat)
    requires IsIndexOf(s, m)
    requires i < |s|
    ensures IsIndexOf(s[..i] + s[i+1..], m - {s[i].house.id})
  {
    var t := s[..i] + s[i+1..];
    var h := s[i].house.id;
    RemoveSorted(s, i);
    assert s[i] in s;
    forall r | r in t ensures r.house.id in m - {h} && (m - {h})[r.house.id] == r {
      assert r in s && r != s[i];
    }
    forall g | g in m - {h} ensures (m - {h})[g] in t {
      assert m[g] in s;
    }
  }

  lemma {:induction false} IndexExists(m: map<HouseId, SaleRecord>)
    requires KeysMatch(m)
    ensures exists s :: IsIndexOf(s, m)
    decreases |m|
  {
    if |m| == 0 {
      assert m == map[];
      assert IsIndexOf([], m);
    } else {
      assert m.Keys != {};
      var h := SomeElement(m.Keys);
      var m' := m - {h};
      assert |m'| < |m| by { assert m'.Keys == m.Keys - {h}; }
      IndexExists(m');
      var s' :| IsIndexOf(s', m');
      IndexGrows(s', m, h);
    }
  }

  lemma IndexGrows(s: seq<SaleRecord>, m: map<HouseId, SaleRecord>, h: HouseId)
    requires KeysMatch(m) && h in m
    requires IsIndexOf(s, m - {h})
    ensures forall i :: 0 <= i < |s| ==> s[i].house.id != m[h].house.id
    ensures IsIndexOf(Insert(s, m[h]), m)
  {
    InsertIndex(s, m - {h}, m[h]);
    assert (m - {h})[h := m[h]] == m;
  }

  /** Two strictly sorted sequences with the same elements are equal: the
      index does not depend on the order in which the book was walked. */
  lemma {:induction false} IndexUnique(s1: seq<SaleRecord>, s2: seq<SaleRecord>)
    requires Sorted(s1) && Sorted(s2)
    requires forall x :: x in s1 <==> x in s2
    ensures s1 == s2
    decreases |s1|
  {
    assert s2 != [] ==> s2[0] in s2;
    if s1 == [] {
    } else {
      assert s1[0] in s2;
      assert s2 != [];
      assert s1[0] == s2[0] by {
        var j :| 0 <= j < |s2| && s2[j] == s1[0];
        if j > 0 {
          assert s2[0] in s1;
          var i :| 0 <= i < |s1| && s1[i] == s2[0];
          assert Precedes(s2[0], s2[j]);
          PrecedesStrictOrder(s2[0], s2[j], s2[0]);
        }
      }
      forall x ensures x in s1[1..] <==> x in s2[1..] {
        if x in s1[1..] {
          var k :| 1 <= k < |s1| && s1[k] == x;
          assert Precedes(s1[0], s1[k]);
          PrecedesStrictOrder(s1[0], s1[0], s1[0]);
          assert x != s2[0];
          assert x in s2;
          var k2 :| 0 <= k2 < |s2| && s2[k2] == x;
          assert k2 != 0;
          assert s2[1..][k2 - 1] == x;
        }
        if x in s2[1..] {
          var k :| 1 <= k < |s2| && s2[k] == x;
          assert Precedes(s2[0], s2[k]);
          PrecedesStrictOrder(s2[0], s2[0], s2[0]);
          assert x != s1[0];
          assert x in s1;
          var k1 :| 0 <= k1 < |s1| && s1[k1] == x;
          assert k1 != 0;
          assert s1[1..][k1 - 1] == x;
        }
      }
      IndexUnique(s1[1..], s2[1..]);
      assert s1 == [s1[0]] + s1[1..];
      assert s2 == [s2[0]] + s2[1..];
    }
  }

  /** Each house appears at most once in an index of the book. */
  lemma IndexIdsDistinct(s: seq<SaleRecord>, m: map<HouseId, SaleRecord>)
    requires IsIndexOf(s, m)
    ensures forall i, j :: 0 <= i < j < |s| ==> s[i].house.id != s[j].house.id
  {
    forall i, j | 0 <= i < j < |s| ensures s[i].house.id != s[j].house.id {
      assert s[i] in s && s[j] in s;
      PrecedesStrictOrder(s[i], s[j], s[j]);
    }
  }

  /** A book has one index only. */
  lemma IndexOfUnique(s1: seq<SaleRecord>, s2: seq<SaleRecord>, m: map<HouseId, SaleRecord>)
    requires IsIndexOf(s1, m) && IsIndexOf(s2, m)
    ensures s1 == s2
  {
    IndexUnique(s1, s2);
  }

  /** Every listed house has a quality band in [0, n). */
  ghost predicate InBands(m: map<HouseId, SaleRecord>, n: int)
  {
    forall h :: h in m ==> 0 <= m[h].quality < n
  }

  /** The index of a book inherits the book's quality bands. */
  lemma IndexInBands(s: seq<SaleRecord>, m: map<HouseId, SaleRecord>, n: int)
    requires IsIndexOf(s, m) && InBands(m, n)
    ensures BandsBelow(s, n)
  {
    forall i | 0 <= i < |s| ensures 0 <= s[i].quality < n {
      assert s[i] in s;
    }
  }

  /** The ordered index of an offer book, as a value. */
  ghost function SortedIndex(m: map<HouseId, SaleRecord>): (s: seq<SaleRecord>)
    requires KeysMatch(m)
    ensures IsIndexOf(s, m)
  {
    IndexExists(m);
    var s :| IsIndexOf(s, m);
    s
  }

  /** TreeSet.lower on the sentinel of ceiling c: the position of the last
      record whose quality is at most c, if there is one. */
  function Lower(s: seq<SaleRecord>, c: int): (r: Option<nat>)
    ensures r.Some? ==> r.value < |s| && s[r.value].quality <= c
    ensures r.Some? ==> forall j :: r.value < j < |s| ==> s[j].quality > c
    ensures r.None? ==> forall j :: 0 <= j < |s| ==> s[j].quality > c
    decreases |s|
  {
    if s == [] then None
    else if s[|s| - 1].quality <= c then Some(|s| - 1)
    else Lower(s[..|s| - 1], c)
  }

  /** The record at j is the last of its band in the index. */
  ghost predicate LastOfBand(s: seq<SaleRecord>, j: nat)
    requires j < |s|
  {
    forall k :: j < k < |s| ==> s[k].quality != s[j].quality
  }

  /** Each band has one last element. */
  lemma LastOfBandUnique(s: seq<SaleRecord>, i: nat, j: nat)
    requires i < |s| && j < |s|
    requires LastOfBand(s, i) && LastOfBand(s, j)
    requires s[i].quality == s[j].quality
    ensures i == j
  {
  }

  /** The record at i is the cheapest offer of its band. */
  ghost predicate CheapestOfBand(s: seq<SaleRecord>, i: nat)
    requires i < |s|
  {
    forall j :: 0 <= j < |s| && s[j].quality == s[i].quality ==> s[i].currentPrice <= s[j].currentPrice
  }

  /** No record at or below the ceiling c lies in a band above the one of i. */
  ghost predicate HighestBand(s: seq<SaleRecord>, c: int, i: nat)
    requires i < |s|
  {
    forall j :: 0 <= j < |s| && s[j].quality <= c ==> s[j].quality <= s[i].quality
  }

  /** The element Lower finds is the greatest element of the index below the
      sentinel, lies in the highest occupied band at or below c, and is the
      cheapest offer of that band. */
  lemma LowerIsCheapestOfTopBand(s: seq<SaleRecord>, c: int, i: nat)
    requires Sorted(s) && Lower(s, c) == Some(i)
    ensures i < |s| && s[i].quality <= c
    ensures forall j :: 0 <= j < |s| && j != i && s[j].quality <= c ==> Precedes(s[j], s[i])
    ensures LastOfBand(s, i) && HighestBand(s, c, i) && CheapestOfBand(s, i)
  {
    forall j | 0 <= j < |s| && j != i && s[j].quality <= c ensures Precedes(s[j], s[i]) {
      assert j < i;
    }
    forall j | 0 <= j < |s| && s[j].quality == s[i].quality ensures s[i].currentPrice <= s[j].currentPrice {
      if j != i {
        assert j < i && Precedes(s[j], s[i]);
      }
    }
  }

  /** The inner loop of the clearing step as a function: starting from
      ceiling c, take the cheapest offer of the highest occupied band at or
      below c; if the buyer may not take it, drop the ceiling below that band
      and look again. The ceiling strictly decreases. */
  function Search(s: seq<SaleRecord>, b: BidRecord, c: int): (r: Option<nat>)
    requires QualitiesNonNeg(s)
    ensures r.Some? ==> r.value < |s| && Acceptable(s[r.value], b) && s[r.value].quality <= c
    decreases c
  {
    match Lower(s, c)
    case None => None
    case Some(i) =>
      if Acceptable(s[i], b) then Some(i)
      else Search(s, b, s[i].quality - 1)
  }

  /** Every band strictly above lo and at most hi whose cheapest offer the
      buyer may not take: the cheapest offer of each such band is unacceptable. */
  ghost predicate BandsRefused(s: seq<SaleRecord>, b: BidRecord, lo: int, hi: int)
  {
    forall j :: 0 <= j < |s| && lo < s[j].quality <= hi && LastOfBand(s, j) ==> !Acceptable(s[j], b)
  }

  /** When the top band's cheapest offer is refused, refusing the bands below
      it refuses every band up to the ceiling. */
  lemma RefusedBandExtends(s: seq<SaleRecord>, b: BidRecord, c: int, i: nat, lo: int)
    requires Sorted(s) && Lower(s, c) == Some(i)
    requires !Acceptable(s[i], b)
    requires lo < s[i].quality
    requires BandsRefused(s, b, lo, s[i].quality - 1)
    ensures BandsRefused(s, b, lo, c)
  {
    LowerIsCheapestOfTopBand(s, c, i);
    forall j | 0 <= j < |s| && s[i].quality - 1 < s[j].quality <= c && LastOfBand(s, j) ensures j == i {
      LastOfBandUnique(s, i, j);
    }
  }

  /** The record at i is what a buyer who starts at ceiling c should get:
      it is at or below c, acceptable, the cheapest offer of its band, and
      the cheapest offer of every band above it, up to c, is refused. */
  ghost predicate BestBand(s: seq<SaleRecord>, b: BidRecord, c: int, i: nat)
    requires i < |s|
  {
    && s[i].quality <= c && Acceptable(s[i], b)
    && LastOfBand(s, i) && CheapestOfBand(s, i)
    && BandsRefused(s, b, s[i].quality, c)
  }

  /** The buyer is matched to the cheapest offer of the highest band (at or
      below c) whose cheapest offer is acceptable; every higher band's
      cheapest offer is unacceptable, a band whose cheapest offer fails is
      skipped entirely, and if no band qualifies the buyer gets nothing. */
  lemma {:induction false} SearchFindsBestBand(s: seq<SaleRecord>, b: BidRecord, c: int)
    requires Sorted(s) && QualitiesNonNeg(s)
    ensures Search(s, b, c).Some? ==> BestBand(s, b, c, Search(s, b, c).value)
    ensures Search(s, b, c).None? ==> BandsRefused(s, b, -1, c)
    decreases c
  {
    match Lower(s, c)
    case None =>
    case Some(i) =>
      var q := s[i].quality;
      LowerIsCheapestOfTopBand(s, c, i);
      if Acceptable(s[i], b) {
        assert Search(s, b, c) == Some(i);
      } else {
        var r := Search(s, b, q - 1);
        assert Search(s, b, c) == r;
        SearchFindsBestBand(s, b, q - 1);
        if r.Some? {
          var k := r.value;
          RefusedBandExtends(s, b, c, i, s[k].quality);
          assert BestBand(s, b, c, k);
        } else {
          RefusedBandExtends(s, b, c, i, -1);
        }
      }
  }
}
