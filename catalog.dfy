/** The ingredient catalogue and retailer directory as the client receives them,
    the cheapest-source rule, and the two list views over them (the search
    filter and the LOW/HIGH retailer columns). */
module Catalog {
  import opened Wrappers
  import Seqs
  import JsText

  /** One retailer's offer for an ingredient. */
  datatype Source = Source(id: string, pricePerKg: real)

  /** An ingredient record. `sources` is the fetched array itself, shared by the
      catalogue and every recipe item that refers to the ingredient; `null`
      stands for an absent `sources` property. */
  datatype Ingredient = Ingredient(
    id: string,
    name: string,
    caloriesPer100g: real,
    isVegan: bool,
    isVegetarian: bool,
    sources: array?<Source>)

  datatype VolumeType = Low | High

  datatype Retailer = Retailer(id: string, name: string, website: string, volumeType: VolumeType)

  /** Ascending by price: each source is no dearer than the next. */
  predicate SortedByPrice(s: seq<Source>)
  {
    |s| < 2 || (s[0].pricePerKg <= s[1].pricePerKg && SortedByPrice(s[1..]))
  }

  /** A sequence in which every source is no dearer than every later one is
      sorted by price. */
  lemma {:induction false} OrderedPairsAreSorted(s: seq<Source>)
    requires forall i, j :: 0 <= i < j < |s| ==> s[i].pricePerKg <= s[j].pricePerKg
    ensures SortedByPrice(s)
  {
    if |s| >= 2 {
      OrderedPairsAreSorted(s[1..]);
    }
  }

  /** In a sequence sorted by price, no source is cheaper than the first. */
  lemma {:induction false} SortedHeadIsLeast(s: seq<Source>, k: nat)
    requires SortedByPrice(s) && k < |s|
    ensures s[0].pricePerKg <= s[k].pricePerKg
  {
    if k > 1 {
      SortedHeadIsLeast(s[1..], k - 1);
    }
  }

  /** Exchanges two entries of `a`. */
  method Swap(a: array<Source>, i: nat, j: nat)
    requires i < a.Length && j < a.Length
    modifies a
    ensures a[..] == old(a[..])[i := old(a[j])][j := old(a[i])]
    ensures multiset(a[..]) == old(multiset(a[..]))
  {
    a[i], a[j] := a[j], a[i];
  }

  /** Inside the insertion step: every pair of `s[..i + 1]` is in price order
      except the pairs with the moving source at `j`, which is no dearer than
      anything after it. */
  predicate InsertingAt(s: seq<Source>, i: nat, j: nat)
  {
    && j <= i < |s|
    && (forall x, y :: 0 <= x < y <= i && x != j && y != j ==> s[x].pricePerKg <= s[y].pricePerKg)
    && (forall y :: j < y <= i ==> s[j].pricePerKg <= s[y].pricePerKg)
  }

  /** Swapping the moving source with a dearer left neighbour moves it one
      place down. */
  lemma InsertingStep(s: seq<Source>, i: nat, j: nat)
    requires InsertingAt(s, i, j) && 0 < j && s[j - 1].pricePerKg > s[j].pricePerKg
    ensures InsertingAt(s[j - 1 := s[j]][j := s[j - 1]], i, j - 1)
  {
    var t := s[j - 1 := s[j]][j := s[j - 1]];
    forall x, y | 0 <= x < y <= i && x != j - 1 && y != j - 1
      ensures t[x].pricePerKg <= t[y].pricePerKg
    {
      if y == j {
        assert t[y] == s[j - 1] && t[x] == s[x];
      } else if x == j {
        assert t[x] == s[j - 1] && t[y] == s[y];
      }
    }
  }

  /** Once the moving source is at the front or after a source no dearer than
      it, the whole of `s[..i + 1]` is in price order. */
  lemma InsertingDone(s: seq<Source>, i: nat, j: nat)
    requires InsertingAt(s, i, j) && (j == 0 || s[j - 1].pricePerKg <= s[j].pricePerKg)
    ensures forall x, y :: 0 <= x < y <= i ==> s[x].pricePerKg <= s[y].pricePerKg
  {
    forall x, y | 0 <= x < y <= i
      ensures s[x].pricePerKg <= s[y].pricePerKg
    {
      if y == j && x < j - 1 {
        assert s[x].pricePerKg <= s[j - 1].pricePerKg;
      }
    }
  }

  /** One insertion step: with `a[..i]` in price order, moves `a[i]` down
      past every dearer source so that `a[..i + 1]` is in price order. */
  method InsertAt(a: array<Source>, i: nat)
    requires i < a.Length
    requires forall x, y :: 0 <= x < y < i ==> a[x].pricePerKg <= a[y].pricePerKg
    modifies a
    ensures forall x, y :: 0 <= x < y <= i ==> a[x].pricePerKg <= a[y].pricePerKg
    ensures multiset(a[..]) == old(multiset(a[..]))
  {
    var j := i;
    while j > 0 && a[j - 1].pricePerKg > a[j].pricePerKg
      invariant 0 <= j <= i
      invariant InsertingAt(a[..], i, j)
      invariant multiset(a[..]) == old(multiset(a[..]))
    {
      InsertingStep(a[..], i, j);
      Swap(a, j - 1, j);
      j := j - 1;
    }
    InsertingDone(a[..], i, j);
  }

  /** `sources.sort((a, b) => a.pricePerKg - b.pricePerKg)`: an in-place sort
      into ascending price order (an insertion sort here, which is stable like
      the engine's sort). */
  method SortByPrice(a: array<Source>)
    modifies a
    ensures SortedByPrice(a[..])
    ensures multiset(a[..]) == old(multiset(a[..]))
  {
    var i := 0;
    while i < a.Length
      invariant 0 <= i <= a.Length
      invariant forall x, y :: 0 <= x < y < i ==> a[x].pricePerKg <= a[y].pricePerKg
      invariant multiset(a[..]) == old(multiset(a[..]))
    {
      InsertAt(a, i);
      i := i + 1;
    }
    OrderedPairsAreSorted(a[..]);
  }

  /** The lowest price per kilogram among `sources`, or None when there is no
      source at all. */
  function CheapestPrice(sources: seq<Source>): (p: Option<real>)
    ensures p.None? <==> sources == []
    ensures p.Some? ==> exists i :: 0 <= i < |sources| && sources[i].pricePerKg == p.value
    ensures p.Some? ==> forall i :: 0 <= i < |sources| ==> p.value <= sources[i].pricePerKg
  {
    if sources == [] then None
    else
      match CheapestPrice(sources[1..])
      case None => Some(sources[0].pricePerKg)
      case Some(m) =>
        assert forall i :: 1 <= i < |sources| ==> sources[i] == sources[1..][i - 1];
        Some(if sources[0].pricePerKg <= m then sources[0].pricePerKg else m)
  }

  /** Taking the first element after sorting by price finds the cheapest price
      of the unsorted sources. */
  lemma SortedHeadIsCheapest(sorted: seq<Source>, original: seq<Source>)
    requires SortedByPrice(sorted)
    requires multiset(sorted) == multiset(original)
    requires sorted != []
    ensures CheapestPrice(original) == Some(sorted[0].pricePerKg)
  {
    assert sorted[0] in multiset(original);
    assert original != [];
    var m := CheapestPrice(original).value;
    var i :| 0 <= i < |original| && original[i].pricePerKg == m;
    assert original[i] in multiset(sorted);
    var k :| 0 <= k < |sorted| && sorted[k] == original[i];
    SortedHeadIsLeast(sorted, k);
    var j :| 0 <= j < |original| && original[j] == sorted[0];
  }

  /** The cheapest price is no dearer than any source in the multiset. */
  lemma CheapestIsAtMost(t: seq<Source>, x: Source)
    requires x in multiset(t)
    ensures CheapestPrice(t).Some? && CheapestPrice(t).value <= x.pricePerKg
  {
    assert x in t;
    var j :| 0 <= j < |t| && t[j] == x;
  }

  /** The cheapest price is the price of some source: returns its index. */
  lemma CheapestIsAttained(s: seq<Source>) returns (i: nat)
    requires s != []
    ensures i < |s| && CheapestPrice(s) == Some(s[i].pricePerKg)
  {
    i :| i < |s| && s[i].pricePerKg == CheapestPrice(s).value;
  }

  /** The cheapest price depends only on which sources there are, not on their
      order, so sorting the sources array does not change it. */
  lemma CheapestPriceOfPermutation(s: seq<Source>, t: seq<Source>)
    requires multiset(s) == multiset(t)
    ensures CheapestPrice(s) == CheapestPrice(t)
  {
    if s == [] {
      assert |t| == |multiset(t)| == 0;
      assert t == [];
    } else {
      assert t != [] by { assert s[0] in multiset(t); }
      var i := CheapestIsAttained(s);
      assert s[i] in multiset(t) by { assert s[i] in multiset(s); }
      CheapestIsAtMost(t, s[i]);
      var j := CheapestIsAttained(t);
      assert t[j] in multiset(s) by { assert t[j] in multiset(t); }
      CheapestIsAtMost(s, t[j]);
      assert CheapestPrice(s).value == CheapestPrice(t).value;
    }
  }

  /** The seeded Plain Flour offers: its cheapest source is 0.45 per kg,
      whichever order the four offers arrive in. */
  lemma PlainFlourCheapest(offers: seq<Source>)
    requires multiset(offers) == multiset([Source("tesco", 0.80), Source("asda", 0.75),
                                           Source("costco", 0.50), Source("booker", 0.45)])
    ensures CheapestPrice(offers) == Some(0.45)
  {
    var seeded := [Source("tesco", 0.80), Source("asda", 0.75), Source("costco", 0.50), Source("booker", 0.45)];
    CheapestPriceOfPermutation(offers, seeded);
    assert CheapestPrice(seeded[3..]) == Some(0.45);
    assert CheapestPrice(seeded[2..]) == Some(0.45);
    assert CheapestPrice(seeded[1..]) == Some(0.45);
  }

  /** The ingredients whose lower-cased name contains the lower-cased search
      term, in catalogue order. */
  function FilterByName(ingredients: seq<Ingredient>, searchTerm: string): (r: seq<Ingredient>)
    ensures |r| <= |ingredients|
    ensures forall i :: 0 <= i < |r| ==>
      r[i] in ingredients && JsText.Includes(JsText.ToLower(r[i].name), JsText.ToLower(searchTerm))
    ensures forall i :: 0 <= i < |ingredients| ==>
      (JsText.Includes(JsText.ToLower(ingredients[i].name), JsText.ToLower(searchTerm)) ==> ingredients[i] in r)
  {
    var matches := (ing: Ingredient) => JsText.Includes(JsText.ToLower(ing.name), JsText.ToLower(searchTerm));
    Seqs.FilterMembers(ingredients, matches);
    Seqs.Filter(ingredients, matches)
  }

  /** An empty search term lists the whole catalogue. */
  lemma EmptySearchKeepsAll(ingredients: seq<Ingredient>)
    ensures FilterByName(ingredients, "") == ingredients
  {
    var p := (ing: Ingredient) => JsText.Includes(JsText.ToLower(ing.name), JsText.ToLower(""));
    forall i | 0 <= i < |ingredients| ensures p(ingredients[i]) {
      JsText.IncludesEmpty(JsText.ToLower(ingredients[i].name));
    }
    Seqs.FilterKeepsAll(ingredients, p);
  }

  /** The search ignores the letter case of the search term. */
  lemma SearchIgnoresCase(ingredients: seq<Ingredient>, searchTerm: string)
    ensures FilterByName(ingredients, searchTerm) == FilterByName(ingredients, JsText.ToLower(searchTerm))
  {
    JsText.ToLowerIdempotent(searchTerm);
  }

  /** The search results of a catalogue made of two parts are the results of
      each part, in the same order. */
  lemma SearchKeepsOrder(first: seq<Ingredient>, second: seq<Ingredient>, searchTerm: string)
    ensures FilterByName(first + second, searchTerm) == FilterByName(first, searchTerm) + FilterByName(second, searchTerm)
  {
    Seqs.FilterAppend(first, second,
      (ing: Ingredient) => JsText.Includes(JsText.ToLower(ing.name), JsText.ToLower(searchTerm)));
  }

  predicate IsLow(retailer: Retailer)
  {
    retailer.volumeType == Low
  }

  predicate IsHigh(retailer: Retailer)
  {
    retailer.volumeType == High
  }

  /** `retailers.filter((r) => r.volumeType === "LOW")`: the LOW retailers, in
      directory order. */
  function LowVolume(retailers: seq<Retailer>): (r: seq<Retailer>)
    ensures forall i :: 0 <= i < |r| ==> r[i] in retailers && r[i].volumeType == Low
    ensures forall i :: 0 <= i < |retailers| ==> (retailers[i].volumeType == Low ==> retailers[i] in r)
  {
    Seqs.FilterMembers(retailers, IsLow);
    Seqs.Filter(retailers, IsLow)
  }

  /** `retailers.filter((r) => r.volumeType === "HIGH")`: the HIGH retailers, in
      directory order. */
  function HighVolume(retailers: seq<Retailer>): (r: seq<Retailer>)
    ensures forall i :: 0 <= i < |r| ==> r[i] in retailers && r[i].volumeType == High
    ensures forall i :: 0 <= i < |retailers| ==> (retailers[i].volumeType == High ==> retailers[i] in r)
  {
    Seqs.FilterMembers(retailers, IsHigh);
    Seqs.Filter(retailers, IsHigh)
  }

  /** The two columns split the directory: every retailer is listed exactly
      once, in one column or the other. */
  lemma VolumeColumnsPartition(retailers: seq<Retailer>)
    ensures multiset(LowVolume(retailers)) + multiset(HighVolume(retailers)) == multiset(retailers)
    ensures |LowVolume(retailers)| + |HighVolume(retailers)| == |retailers|
  {
    Seqs.FilterPartition(retailers, IsLow, IsHigh);
  }

  /** Both columns keep directory order: the columns of a directory made of
      two parts are the columns of each part, one after the other. */
  lemma VolumeColumnsKeepOrder(first: seq<Retailer>, second: seq<Retailer>)
    ensures LowVolume(first + second) == LowVolume(first) + LowVolume(second)
    ensures HighVolume(first + second) == HighVolume(first) + HighVolume(second)
  {
    Seqs.FilterAppend(first, second, IsLow);
    Seqs.FilterAppend(first, second, IsHigh);
  }
}
