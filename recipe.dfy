/** The recipe being built: an ordered list of (ingredient, grams) items, unique
    by ingredient id, the three edits the builder makes to it, and the totals
    fold (cost from each ingredient's cheapest source, calories, and the vegan
    and vegetarian flags). */
module Recipe {
  import opened Wrappers
  import Seqs
  import JsText
  import opened Catalog

  datatype RecipeItem = RecipeItem(ingredient: Ingredient, quantityG: int)

  /** The quantity, in grams, that a newly added ingredient starts with. */
  const DefaultQuantityG := 100

  predicate HasIngredient(recipe: seq<RecipeItem>, id: string)
  {
    exists i :: 0 <= i < |recipe| && recipe[i].ingredient.id == id
  }

  predicate UniqueIds(recipe: seq<RecipeItem>)
  {
    forall i, j :: 0 <= i < j < |recipe| ==> recipe[i].ingredient.id != recipe[j].ingredient.id
  }

  /** What the builder keeps true of its recipe: no ingredient twice, and no
      negative quantity. */
  predicate Valid(recipe: seq<RecipeItem>)
  {
    && UniqueIds(recipe)
    && forall i :: 0 <= i < |recipe| ==> recipe[i].quantityG >= 0
  }

  /** `recipe.find((item) => item.ingredient.id === id)`: the first item for
      that ingredient, if any. */
  function Find(recipe: seq<RecipeItem>, id: string): (found: Option<RecipeItem>)
    ensures found.None? <==> !HasIngredient(recipe, id)
    ensures found.Some? ==>
      exists i :: 0 <= i < |recipe| && recipe[i] == found.value && found.value.ingredient.id == id && !HasIngredient(recipe[..i], id)
  {
    if recipe == [] then None
    else if recipe[0].ingredient.id == id then
      assert recipe[..0] == [];
      Some(recipe[0])
    else
      var found := Find(recipe[1..], id);
      assert forall i :: 0 <= i < |recipe| - 1 ==> recipe[1..][i] == recipe[i + 1];
      assert forall i :: 0 <= i < |recipe| - 1 ==> recipe[..i + 1] == [recipe[0]] + recipe[1..][..i];
      found
  }

  /** `addToRecipe`: a recipe that already holds the ingredient is left alone;
      otherwise the ingredient is appended with the default quantity. */
  function Add(recipe: seq<RecipeItem>, ingredient: Ingredient): (r: seq<RecipeItem>)
    ensures HasIngredient(recipe, ingredient.id) ==> r == recipe
    ensures !HasIngredient(recipe, ingredient.id) ==> r == recipe + [RecipeItem(ingredient, DefaultQuantityG)]
    ensures HasIngredient(r, ingredient.id)
    ensures Valid(recipe) ==> Valid(r)
  {
    if Find(recipe, ingredient.id).Some? then recipe
    else
      var r := recipe + [RecipeItem(ingredient, DefaultQuantityG)];
      assert r[|recipe|].ingredient.id == ingredient.id;
      r
  }

  /** The quantity `updateQuantity` accepts from the text of the quantity field:
      `parseInt(text, 10)` unless that is NaN or negative. */
  function AcceptedQuantity(text: string): (q: Option<nat>)
    ensures q.Some? <==> JsText.ParseInt(text).Int? && JsText.ParseInt(text).value >= 0
    ensures q.Some? ==> q.value == JsText.ParseInt(text).value
  {
    match JsText.ParseInt(text)
    case NaN => None
    case Int(n) => if n < 0 then None else Some(n)
  }

  /** `recipe.map((item) => item.ingredient.id === id ? { ...item, quantityG: q } : item)` */
  function SetQuantity(recipe: seq<RecipeItem>, id: string, q: int): (r: seq<RecipeItem>)
    ensures |r| == |recipe|
    ensures forall i :: 0 <= i < |r| ==> r[i].ingredient == recipe[i].ingredient
    ensures forall i :: 0 <= i < |r| ==> r[i].quantityG == if recipe[i].ingredient.id == id then q else recipe[i].quantityG
    ensures forall id' :: HasIngredient(r, id') <==> HasIngredient(recipe, id')
    ensures Valid(recipe) && q >= 0 ==> Valid(r)
  {
    seq(|recipe|, i requires 0 <= i < |recipe| =>
      if recipe[i].ingredient.id == id then recipe[i].(quantityG := q) else recipe[i])
  }

  /** `updateQuantity`: rejected text leaves the recipe as it was; accepted text
      changes the quantity of the items for that ingredient and nothing else. */
  function UpdateQuantity(recipe: seq<RecipeItem>, id: string, text: string): (r: seq<RecipeItem>)
    ensures AcceptedQuantity(text).None? ==> r == recipe
    ensures |r| == |recipe|
    ensures forall i :: 0 <= i < |r| ==> r[i].ingredient == recipe[i].ingredient
    ensures forall i :: 0 <= i < |r| ==>
      r[i].quantityG == (if recipe[i].ingredient.id == id && AcceptedQuantity(text).Some? then AcceptedQuantity(text).value
                         else recipe[i].quantityG)
    ensures Valid(recipe) ==> Valid(r)
  {
    match AcceptedQuantity(text)
    case None => recipe
    case Some(q) => SetQuantity(recipe, id, q)
  }

  /** What the number field sends back for a quantity of `n` grams is accepted
      as `n`; a written negative number and an emptied field are rejected. */
  lemma QuantityTextRoundTrip(n: nat, m: nat)
    requires m > 0
    ensures AcceptedQuantity(JsText.DecimalString(n)) == Some(n)
    ensures AcceptedQuantity("-" + JsText.DecimalString(m)) == None
    ensures AcceptedQuantity("") == None
  {
    JsText.ParseIntOfDecimal(n, "");
    assert JsText.DecimalString(n) + "" == JsText.DecimalString(n);
    JsText.ParseIntOfNegative(m, "");
    assert "-" + JsText.DecimalString(m) + "" == "-" + JsText.DecimalString(m);
    JsText.ParseIntWithoutDigits("");
  }

  /** `removeFromRecipe`: every item for the ingredient goes, every other item
      stays, and a recipe without the ingredient is left alone. */
  function Remove(recipe: seq<RecipeItem>, id: string): (r: seq<RecipeItem>)
    ensures !HasIngredient(r, id)
    ensures forall i :: 0 <= i < |r| ==> r[i] in recipe
    ensures forall i :: 0 <= i < |recipe| ==> (recipe[i].ingredient.id != id ==> recipe[i] in r)
    ensures !HasIngredient(recipe, id) ==> r == recipe
  {
    var keep := (item: RecipeItem) => item.ingredient.id != id;
    Seqs.FilterMembers(recipe, keep);
    var r := Seqs.Filter(recipe, keep);
    assert !HasIngredient(recipe, id) ==> r == recipe by {
      if !HasIngredient(recipe, id) {
        Seqs.FilterKeepsAll(recipe, keep);
      }
    }
    r
  }

  /** In a recipe with unique ids, removing an ingredient deletes exactly its
      one item and keeps the others in order. */
  lemma RemoveDeletesOne(recipe: seq<RecipeItem>, k: nat)
    requires UniqueIds(recipe) && k < |recipe|
    ensures Remove(recipe, recipe[k].ingredient.id) == recipe[..k] + recipe[k + 1..]
  {
    var id := recipe[k].ingredient.id;
    Seqs.FilterDropsOne(recipe, (item: RecipeItem) => item.ingredient.id != id, k);
  }

  /** Removing keeps the recipe valid. */
  lemma RemoveKeepsValid(recipe: seq<RecipeItem>, id: string)
    requires Valid(recipe)
    ensures Valid(Remove(recipe, id))
  {
    if HasIngredient(recipe, id) {
      var k :| 0 <= k < |recipe| && recipe[k].ingredient.id == id;
      RemoveDeletesOne(recipe, k);
      DeleteKeepsValid(recipe, k);
    }
  }

  /** Deleting one item from a valid recipe leaves a valid recipe. */
  lemma DeleteKeepsValid(recipe: seq<RecipeItem>, k: nat)
    requires Valid(recipe) && k < |recipe|
    ensures Valid(recipe[..k] + recipe[k + 1..])
  {
    var r := recipe[..k] + recipe[k + 1..];
    forall i | 0 <= i < |r| ensures r[i] == recipe[if i < k then i else i + 1] {
    }
    forall i, j | 0 <= i < j < |r| ensures r[i].ingredient.id != r[j].ingredient.id {
      var i', j' := if i < k then i else i + 1, if j < k then j else j + 1;
      assert i' < j' && r[i] == recipe[i'] && r[j] == recipe[j'];
    }
  }

  /** Removing an ingredient that was just added restores the recipe. */
  lemma AddThenRemove(recipe: seq<RecipeItem>, ingredient: Ingredient)
    requires !HasIngredient(recipe, ingredient.id)
    ensures Remove(Add(recipe, ingredient), ingredient.id) == recipe
  {
    var keep := (item: RecipeItem) => item.ingredient.id != ingredient.id;
    var added := [RecipeItem(ingredient, DefaultQuantityG)];
    Seqs.FilterAppend(recipe, added, keep);
    Seqs.FilterKeepsAll(recipe, keep);
    assert Seqs.Filter(added, keep) == [] by {
      assert added[1..] == [];
    }
  }

  // ---- Totals ----

  datatype Totals = Totals(cost: real, calories: real, isAllVegan: bool, isAllVegetarian: bool)

  /** The totals of an empty recipe: nothing to pay, no calories, and both
      dietary flags set. */
  const NoTotals := Totals(0.0, 0.0, true, true)

  /** The current contents of an ingredient's sources array (none when the
      property is absent). */
  function SourcesOf(ingredient: Ingredient): seq<Source>
    reads ingredient.sources
  {
    if ingredient.sources == null then [] else ingredient.sources[..]
  }

  /** The sources arrays a recipe refers to. */
  function Footprint(recipe: seq<RecipeItem>): set<array<Source>>
  {
    set item | item in recipe && item.ingredient.sources != null :: item.ingredient.sources
  }

  /** The current sources of each item of a recipe, item by item. */
  function SourceLists(recipe: seq<RecipeItem>): (lists: seq<seq<Source>>)
    reads Footprint(recipe)
    ensures |lists| == |recipe|
    ensures forall k :: 0 <= k < |recipe| ==> lists[k] == SourcesOf(recipe[k].ingredient)
  {
    if recipe == [] then []
    else
      assert Footprint(recipe[1..]) <= Footprint(recipe) by {
        forall item | item in recipe[1..] ensures item in recipe { }
      }
      assert recipe[0] in recipe;
      [SourcesOf(recipe[0].ingredient)] + SourceLists(recipe[1..])
  }

  /** The share of a per-`amount` figure (a price per 1000 g, calories per
      100 g) that `quantityG` grams carry. */
  function Portion(perAmount: real, amount: real, quantityG: int): real
    requires amount > 0.0
  {
    perAmount / amount * quantityG as real
  }

  /** What one item adds to the cost when its ingredient's sources are
      `sources`: the cheapest price per kilogram, per gram, times the quantity;
      nothing when there is no source. */
  function ItemCost(item: RecipeItem, sources: seq<Source>): real
  {
    match CheapestPrice(sources)
    case None => 0.0
    case Some(price) => Portion(price, 1000.0, item.quantityG)
  }

  /** What one item adds to the calories: calories per 100 g, per gram, times
      its quantity. */
  function ItemCalories(item: RecipeItem): real
  {
    Portion(item.ingredient.caloriesPer100g, 100.0, item.quantityG)
  }

  /** One step of the fold. */
  function Accumulate(t: Totals, item: RecipeItem, sources: seq<Source>): Totals
  {
    Totals(t.cost + ItemCost(item, sources), t.calories + ItemCalories(item),
      t.isAllVegan && item.ingredient.isVegan, t.isAllVegetarian && item.ingredient.isVegetarian)
  }

  /** The totals of a recipe whose items' sources are `lists`, accumulated
      item by item in recipe order. The dietary flags are "for all items": a
      recipe is vegan exactly when every ingredient in it is vegan, and likewise
      for vegetarian. */
  function Fold(recipe: seq<RecipeItem>, lists: seq<seq<Source>>): (t: Totals)
    requires |lists| == |recipe|
    ensures t.isAllVegan <==> forall i :: 0 <= i < |recipe| ==> recipe[i].ingredient.isVegan
    ensures t.isAllVegetarian <==> forall i :: 0 <= i < |recipe| ==> recipe[i].ingredient.isVegetarian
  {
    if recipe == [] then NoTotals
    else
      var prefix := recipe[..|recipe| - 1];
      assert forall i :: 0 <= i < |prefix| ==> prefix[i] == recipe[i];
      Accumulate(Fold(prefix, lists[..|lists| - 1]), recipe[|recipe| - 1], lists[|lists| - 1])
  }

  /** The totals of a recipe, from the current contents of its sources. */
  function Expected(recipe: seq<RecipeItem>): Totals
    reads Footprint(recipe)
  {
    Fold(recipe, SourceLists(recipe))
  }

  /** Totals of two recipes side by side. */
  function Combine(s: Totals, t: Totals): Totals
  {
    Totals(s.cost + t.cost, s.calories + t.calories,
      s.isAllVegan && t.isAllVegan, s.isAllVegetarian && t.isAllVegetarian)
  }

  /** The fold over one more item is one more step. */
  lemma FoldStep(recipe: seq<RecipeItem>, lists: seq<seq<Source>>, i: nat)
    requires i < |recipe| == |lists|
    ensures Fold(recipe[..i + 1], lists[..i + 1]) == Accumulate(Fold(recipe[..i], lists[..i]), recipe[i], lists[i])
  {
    assert recipe[..i + 1][..i] == recipe[..i];
    assert lists[..i + 1][..i] == lists[..i];
  }

  /** After the first `i` items of a pass: every sources array of the recipe
      holds a permutation of what it held before the pass (`lists`), and the
      arrays of the first `i` items are sorted by price. */
  predicate Processed(recipe: seq<RecipeItem>, lists: seq<seq<Source>>, i: nat)
    reads Footprint(recipe)
  {
    && i <= |recipe| == |lists|
    && (forall k :: 0 <= k < |recipe| ==> multiset(SourcesOf(recipe[k].ingredient)) == multiset(lists[k]))
    && (forall k :: 0 <= k < i ==> SortedByPrice(SourcesOf(recipe[k].ingredient)))
  }

  /** First half of the `forEach` callback of the `totals` memo, for item
      `i`: sorts the item's sources array in place by price. Items sharing the
      array see it sorted too; every other array is untouched. `lists` is what
      the sources held before the pass began. */
  method SortItemSources(recipe: seq<RecipeItem>, i: nat, ghost lists: seq<seq<Source>>)
    requires i < |recipe| && Processed(recipe, lists, i)
    modifies recipe[i].ingredient.sources
    ensures Processed(recipe, lists, i + 1)
  {
    var sources := recipe[i].ingredient.sources;
    if sources != null {
      SortByPrice(sources);
    }
    forall k | 0 <= k < |recipe|
      ensures multiset(SourcesOf(recipe[k].ingredient)) == multiset(lists[k])
      ensures k <= i ==> SortedByPrice(SourcesOf(recipe[k].ingredient))
    {
      if recipe[k].ingredient.sources == sources {
        assert SourcesOf(recipe[k].ingredient) == SourcesOf(recipe[i].ingredient);
      } else {
        assert SourcesOf(recipe[k].ingredient) == old(SourcesOf(recipe[k].ingredient));
      }
    }
  }

  /** Second half of the callback: with the item's sources sorted, prices the
      item at the first, cheapest, source and adds its cost, its calories and
      its dietary flags to the running totals. */
  method PriceItem(t: Totals, item: RecipeItem, ghost list: seq<Source>) returns (r: Totals)
    requires SortedByPrice(SourcesOf(item.ingredient))
    requires multiset(SourcesOf(item.ingredient)) == multiset(list)
    ensures r == Accumulate(t, item, list)
  {
    var cost, calories, isAllVegan, isAllVegetarian := t.cost, t.calories, t.isAllVegan, t.isAllVegetarian;
    var sources := item.ingredient.sources;
    if sources == null || sources.Length == 0 {
      assert |list| == |multiset(list)|;
    } else {
      SortedHeadIsCheapest(sources[..], list);
      cost := cost + Portion(sources[0].pricePerKg, 1000.0, item.quantityG);
    }
    calories := calories + Portion(item.ingredient.caloriesPer100g, 100.0, item.quantityG);
    if !item.ingredient.isVegan {
      isAllVegan := false;
    }
    if !item.ingredient.isVegetarian {
      isAllVegetarian := false;
    }
    r := Totals(cost, calories, isAllVegan, isAllVegetarian);
  }

  /** The body of the `totals` memo: one pass over the recipe that sorts each
      ingredient's sources in place, takes the first as the cheapest, and
      accumulates cost, calories and the two dietary flags. An ingredient may
      appear under several items sharing one array; sorting it again changes
      nothing the totals depend on. */
  method ComputeTotals(recipe: seq<RecipeItem>) returns (t: Totals)
    modifies Footprint(recipe)
    ensures t == old(Expected(recipe))
    ensures forall i :: 0 <= i < |recipe| ==>
      && SortedByPrice(SourcesOf(recipe[i].ingredient))
      && multiset(SourcesOf(recipe[i].ingredient)) == old(multiset(SourcesOf(recipe[i].ingredient)))
  {
    ghost var lists := SourceLists(recipe);
    t := NoTotals;
    var i := 0;
    assert recipe[..0] == [] && lists[..0] == [];
    while i < |recipe|
      invariant 0 <= i <= |recipe|
      invariant t == Fold(recipe[..i], lists[..i])
      invariant Processed(recipe, lists, i)
    {
      FoldStep(recipe, lists, i);
      assert recipe[i] in recipe;
      SortItemSources(recipe, i, lists);
      t := PriceItem(t, recipe[i], lists[i]);
      i := i + 1;
    }
    assert recipe[..i] == recipe;
    assert lists[..i] == lists;
  }

  /** The totals depend on each item's sources only up to order: reordering
      any of them (as the in-place sort does) leaves the totals as they were. */
  lemma {:induction false} FoldOfPermutations(recipe: seq<RecipeItem>, lists: seq<seq<Source>>, others: seq<seq<Source>>)
    requires |lists| == |recipe| && |others| == |recipe|
    requires forall k :: 0 <= k < |recipe| ==> multiset(lists[k]) == multiset(others[k])
    ensures Fold(recipe, lists) == Fold(recipe, others)
  {
    if recipe != [] {
      var n := |recipe| - 1;
      FoldOfPermutations(recipe[..n], lists[..n], others[..n]);
      CheapestPriceOfPermutation(lists[n], others[n]);
    }
  }

  /** Running the totals pass a second time over the same recipe gives the
      same totals, although the first pass reordered the sources arrays. */
  method TotalsAreRepeatable(recipe: seq<RecipeItem>) returns (first: Totals, second: Totals)
    modifies Footprint(recipe)
    ensures first == second == old(Expected(recipe))
  {
    ghost var before := SourceLists(recipe);
    first := ComputeTotals(recipe);
    ghost var between := SourceLists(recipe);
    second := ComputeTotals(recipe);
    FoldOfPermutations(recipe, before, between);
  }

  /** The totals of a recipe made of two parts combine the totals of the parts;
      in particular the cost is the sum of the per-item cheapest costs. */
  lemma {:induction false} FoldAppend(first: seq<RecipeItem>, second: seq<RecipeItem>,
                                      firstLists: seq<seq<Source>>, secondLists: seq<seq<Source>>)
    requires |firstLists| == |first| && |secondLists| == |second|
    ensures Fold(first + second, firstLists + secondLists) == Combine(Fold(first, firstLists), Fold(second, secondLists))
    decreases |second|
  {
    if second == [] {
      assert first + second == first;
      assert firstLists + secondLists == firstLists;
    } else {
      var whole, wholeLists := first + second, firstLists + secondLists;
      var prefix, prefixLists := second[..|second| - 1], secondLists[..|secondLists| - 1];
      assert whole[..|whole| - 1] == first + prefix;
      assert wholeLists[..|wholeLists| - 1] == firstLists + prefixLists;
      assert whole[|whole| - 1] == second[|second| - 1];
      assert wholeLists[|wholeLists| - 1] == secondLists[|secondLists| - 1];
      var last, lastList := second[|second| - 1], secondLists[|secondLists| - 1];
      assert Fold(whole, wholeLists) == Accumulate(Fold(first + prefix, firstLists + prefixLists), last, lastList);
      assert Fold(second, secondLists) == Accumulate(Fold(prefix, prefixLists), last, lastList);
      FoldAppend(first, prefix, firstLists, prefixLists);
      AccumulateCombined(Fold(first, firstLists), Fold(prefix, prefixLists), last, lastList);
    }
  }

  /** One more item on the right of two combined totals is one more item on
      the second of them. */
  lemma AccumulateCombined(f: Totals, p: Totals, item: RecipeItem, sources: seq<Source>)
    ensures Accumulate(Combine(f, p), item, sources) == Combine(f, Accumulate(p, item, sources))
  {
  }

  /** Adding an ingredient the recipe does not hold adds exactly that item's
      cost and calories and can only clear the dietary flags; a non-vegan
      ingredient makes the recipe non-vegan. */
  lemma AddAccumulates(recipe: seq<RecipeItem>, ingredient: Ingredient)
    requires !HasIngredient(recipe, ingredient.id)
    ensures Expected(Add(recipe, ingredient))
      == Accumulate(Expected(recipe), RecipeItem(ingredient, DefaultQuantityG), SourcesOf(ingredient))
    ensures !ingredient.isVegan ==> !Expected(Add(recipe, ingredient)).isAllVegan
    ensures !ingredient.isVegetarian ==> !Expected(Add(recipe, ingredient)).isAllVegetarian
  {
    var r := Add(recipe, ingredient);
    assert r[..|r| - 1] == recipe;
    assert SourceLists(r)[..|r| - 1] == SourceLists(recipe);
  }

  /** Taking one item out of a recipe takes exactly its cost and its calories
      out of the totals. */
  lemma FoldWithoutOne(recipe: seq<RecipeItem>, lists: seq<seq<Source>>, k: nat)
    requires |lists| == |recipe| && k < |recipe|
    ensures Fold(recipe[..k] + recipe[k + 1..], lists[..k] + lists[k + 1..]).cost
      == Fold(recipe, lists).cost - ItemCost(recipe[k], lists[k])
    ensures Fold(recipe[..k] + recipe[k + 1..], lists[..k] + lists[k + 1..]).calories
      == Fold(recipe, lists).calories - ItemCalories(recipe[k])
  {
    var before, after := recipe[..k], recipe[k + 1..];
    var beforeLists, afterLists := lists[..k], lists[k + 1..];
    assert recipe == (before + [recipe[k]]) + after;
    assert lists == (beforeLists + [lists[k]]) + afterLists;
    FoldAppend(before, after, beforeLists, afterLists);
    FoldAppend(before + [recipe[k]], after, beforeLists + [lists[k]], afterLists);
    FoldStep(recipe, lists, k);
    assert recipe[..k + 1] == before + [recipe[k]];
    assert lists[..k + 1] == beforeLists + [lists[k]];
  }

  /** Removing an ingredient from a valid recipe subtracts exactly its item's
      cost and calories; `lists` holds each item's sources. */
  lemma RemoveSubtracts(recipe: seq<RecipeItem>, lists: seq<seq<Source>>, k: nat)
    requires Valid(recipe) && |lists| == |recipe| && k < |recipe|
    ensures var r := Remove(recipe, recipe[k].ingredient.id);
      && |r| == |recipe| - 1
      && Fold(r, lists[..k] + lists[k + 1..]).cost == Fold(recipe, lists).cost - ItemCost(recipe[k], lists[k])
      && Fold(r, lists[..k] + lists[k + 1..]).calories == Fold(recipe, lists).calories - ItemCalories(recipe[k])
  {
    RemoveDeletesOne(recipe, k);
    FoldWithoutOne(recipe, lists, k);
  }

  /** A recipe holding a non-vegan (non-vegetarian) ingredient is not vegan
      (vegetarian), whatever else it holds. */
  lemma OneItemClearsFlags(recipe: seq<RecipeItem>, k: nat)
    requires k < |recipe|
    ensures !recipe[k].ingredient.isVegan ==> !Expected(recipe).isAllVegan
    ensures !recipe[k].ingredient.isVegetarian ==> !Expected(recipe).isAllVegetarian
  {
  }

  /** The totals of a one-item recipe are that item's contribution. */
  lemma SingleItemTotals(item: RecipeItem)
    ensures Expected([item]) == Accumulate(NoTotals, item, SourcesOf(item.ingredient))
  {
    var recipe, lists := [item], SourceLists([item]);
    assert lists == [SourcesOf(item.ingredient)];
    assert recipe[..0] == [] && lists[..0] == [];
    assert Fold(recipe, lists) == Accumulate(Fold([], []), item, lists[0]);
  }

  /** 100 g of flour at 1.50 per kilogram costs 0.15 and has 364 kcal. */
  lemma FlourAt100Grams(flour: Ingredient)
    requires flour.caloriesPer100g == 364.0 && flour.isVegan && flour.isVegetarian
    requires SourcesOf(flour) == [Source("tesco-flour", 1.50)]
    ensures Add([], flour) == [RecipeItem(flour, 100)]
    ensures Expected(Add([], flour)) == Totals(0.15, 364.0, true, true)
  {
    var recipe := Add([], flour);
    assert recipe == [RecipeItem(flour, 100)];
    SingleItemTotals(recipe[0]);
    assert CheapestPrice(SourcesOf(flour)) == Some(1.50);
  }

  /** Setting the quantity field of the only item to "0" sets its quantity
      to 0. */
  lemma QuantitySetToZero(item: RecipeItem)
    ensures UpdateQuantity([item], item.ingredient.id, "0") == [item.(quantityG := 0)]
  {
    JsText.ParseIntOfDecimal(0, "");
    assert JsText.DecimalString(0) + "" == "0";
    assert AcceptedQuantity("0") == Some(0);
  }

  /** No grams of an ingredient cost nothing and carry no calories, whatever
      its price. */
  lemma NothingCostsNothing(item: RecipeItem, sources: seq<Source>)
    requires item.quantityG == 0
    ensures ItemCost(item, sources) == 0.0 && ItemCalories(item) == 0.0
  {
  }

  /** Setting the flour's quantity field to "0" brings cost and calories to 0,
      whatever the sources then hold. */
  lemma FlourAtZeroGrams(flour: Ingredient)
    requires flour.id == "1" && flour.isVegan && flour.isVegetarian
    ensures UpdateQuantity(Add([], flour), "1", "0") == [RecipeItem(flour, 0)]
    ensures Expected(UpdateQuantity(Add([], flour), "1", "0")) == Totals(0.0, 0.0, true, true)
  {
    var item := RecipeItem(flour, 100);
    assert Add([], flour) == [item];
    QuantitySetToZero(item);
    var zero := RecipeItem(flour, 0);
    SingleItemTotals(zero);
    NothingCostsNothing(zero, SourcesOf(flour));
  }

  /** The two numeric cases the page is checked against: the totals pass over
      a recipe of 100 g of flour, then over the same recipe at 0 g. */
  method FlourScenario() returns (at100: Totals, at0: Totals)
    ensures at100 == Totals(0.15, 364.0, true, true)
    ensures at0 == Totals(0.0, 0.0, true, true)
  {
    var sources := new Source[] [Source("tesco-flour", 1.50)];
    var flour := Ingredient("1", "Flour", 364.0, true, true, sources);
    FlourAt100Grams(flour);
    var recipe := Add([], flour);
    assert Footprint(recipe) == {sources} by {
      assert recipe == [RecipeItem(flour, 100)];
    }
    at100 := ComputeTotals(recipe);
    FlourAtZeroGrams(flour);
    var zero := UpdateQuantity(recipe, "1", "0");
    assert Footprint(zero) == {sources} by {
      assert zero == [RecipeItem(flour, 0)];
    }
    at0 := ComputeTotals(zero);
  }
}
