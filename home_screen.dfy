/**
 * What the home screen derives from the provider's state: the price list of
 * the selected market, the list after search and category filtering, and
 * the favourite mark of each item.
 */
module HomeScreen {
  import opened Wrappers
  import opened Lists
  import opened MockData
  import opened MarketContext

  /** The category chips: 'Tümü' (all), or one category. */
  datatype CategoryFilter = All | Only(category: Category)

  // ---------------------------------------------------------------------
  // Price lookup

  /**
   * `marketItems` as written: nothing until a city, a market and a dataset
   * are there; then the list stored under the market's own id, or nothing.
   */
  function MarketItems(city: Option<City>, district: Option<District>, data: Option<MarketData>): (r: seq<MarketItem>)
    ensures city.None? || district.None? || data.None? ==> r == []
    ensures r != [] ==> district.value.id in data.value.prices && r == data.value.prices[district.value.id]
    ensures city.Some? && district.Some? && data.Some? && district.value.id in data.value.prices ==>
      r == data.value.prices[district.value.id]
    ensures city.Some? && district.Some? && data.Some? && district.value.id !in data.value.prices ==> r == []
  {
    if city.None? || district.None? || data.None? then []
    else if district.value.id in data.value.prices then data.value.prices[district.value.id]
    else []
  }

  /**
   * The fallback dataset stores prices under `cityId-id`, so looking a
   * catalogue market up by its id alone finds nothing: offline, every
   * market shows an empty list.
   */
  lemma FallbackLookupMisses(city: City, district: District)
    requires district in Districts
    ensures MarketItems(Some(city), Some(district), Some(FallbackData())) == []
  {
    var k :| 0 <= k < |Districts| && Districts[k] == district;
    CatalogueIdLengths();
    assert |district.id| == 4;
    assert forall key :: key in PriceKeys(Districts) ==> |key| == 7 by {
      forall key | key in PriceKeys(Districts) ensures |key| == 7 {
        var d :| d in Districts && PriceKey(d) == key;
        var j :| 0 <= j < |Districts| && Districts[j] == d;
      }
    }
    assert district.id !in FallbackData().prices;
  }

  /** The lookup with the key the datasets are written under: `cityId-id`. */
  function MarketItemsByPriceKey(city: Option<City>, district: Option<District>, data: Option<MarketData>): (r: seq<MarketItem>)
    ensures city.None? || district.None? || data.None? ==> r == []
    ensures r != [] ==> PriceKey(district.value) in data.value.prices && r == data.value.prices[PriceKey(district.value)]
    ensures city.Some? && district.Some? && data.Some? && PriceKey(district.value) in data.value.prices ==>
      r == data.value.prices[PriceKey(district.value)]
    ensures city.Some? && district.Some? && data.Some? && PriceKey(district.value) !in data.value.prices ==> r == []
  {
    if city.None? || district.None? || data.None? then []
    else if PriceKey(district.value) in data.value.prices then data.value.prices[PriceKey(district.value)]
    else []
  }

  /** Keyed by `cityId-id`, every catalogue market finds its twelve synthetic prices in the fallback. */
  lemma FallbackLookupByPriceKey(city: City, district: District)
    requires district in Districts
    ensures IsDigitString(district.cityId)
    ensures MarketItemsByPriceKey(Some(city), Some(district), Some(FallbackData()))
      == GetMarketPrices(district.cityId, district.id)
    ensures |MarketItemsByPriceKey(Some(city), Some(district), Some(FallbackData()))| == 12
  {
    FallbackDataPrices();
  }

  // ---------------------------------------------------------------------
  // Search and category filter

  /** An ASCII upper-case letter. */
  predicate IsUpper(c: char)
  {
    'A' <= c <= 'Z'
  }

  /** `toLowerCase` on the ASCII letters; every other character is kept. */
  function LowerChar(c: char): char
  {
    if IsUpper(c) then (c as int - 'A' as int + 'a' as int) as char else c
  }

  /**
   * `toLowerCase` on ASCII: same length, no upper-case letter left, every
   * upper-case letter replaced by its lower-case partner and every other
   * character kept.
   */
  function Lower(s: string): (r: string)
    ensures |r| == |s|
    ensures forall i :: 0 <= i < |r| ==> !IsUpper(r[i])
    ensures forall i :: 0 <= i < |s| && IsUpper(s[i]) ==> r[i] as int == s[i] as int + 32
    ensures forall i :: 0 <= i < |s| && !IsUpper(s[i]) ==> r[i] == s[i]
  {
    seq(|s|, i requires 0 <= i < |s| => LowerChar(s[i]))
  }

  /** Lower-casing twice is lower-casing once. */
  lemma LowerIdempotent(s: string)
    ensures Lower(Lower(s)) == Lower(s)
  {
  }

  /** `needle` occurs in `hay` starting at position `i`. */
  ghost predicate OccursAt(hay: string, needle: string, i: int)
  {
    0 <= i && i + |needle| <= |hay| && hay[i..i + |needle|] == needle
  }

  /** `hay.includes(needle)`: true exactly when `needle` occurs somewhere in `hay`. */
  function Contains(hay: string, needle: string): (r: bool)
    ensures r <==> exists i :: OccursAt(hay, needle, i)
    decreases |hay|
  {
    if |needle| > |hay| then false
    else if hay[..|needle|] == needle then
      assert OccursAt(hay, needle, 0);
      true
    else
      var r := Contains(hay[1..], needle);
      assert r <==> exists i :: OccursAt(hay, needle, i) by {
        if exists i :: OccursAt(hay[1..], needle, i) {
          var i :| OccursAt(hay[1..], needle, i);
          assert hay[1..][i..i + |needle|] == hay[i + 1..i + 1 + |needle|];
          assert OccursAt(hay, needle, i + 1);
        }
        if exists i :: OccursAt(hay, needle, i) {
          var i :| OccursAt(hay, needle, i);
          assert i != 0;
          assert hay[1..][i - 1..i - 1 + |needle|] == hay[i..i + |needle|];
          assert OccursAt(hay[1..], needle, i - 1);
        }
      }
      r
  }

  /** The empty search text is found in every name. */
  lemma ContainsEmpty(hay: string)
    ensures Contains(hay, "")
  {
  }

  predicate Matches(item: MarketItem, query: string, category: CategoryFilter)
  {
    Contains(Lower(item.name), Lower(query)) && (category.All? || item.category == category.category)
  }

  /** `filteredItems`: the listed items whose name contains the search text and whose category is chosen. */
  function FilteredItems(items: seq<MarketItem>, query: string, category: CategoryFilter): (r: seq<MarketItem>)
    ensures IsSubsequence(r, items)
    ensures forall x :: x in r <==> x in items && Matches(x, query, category)
    ensures forall x :: x in r ==> exists i :: OccursAt(Lower(x.name), Lower(query), i)
    ensures category.Only? ==> forall x :: x in r ==> x.category == category.category
    ensures forall x {:trigger multiset(r)[x]} ::
      multiset(r)[x] == if Matches(x, query, category) then multiset(items)[x] else 0
  {
    Filter(items, (x: MarketItem) => Matches(x, query, category))
  }

  /** With no search text and 'Tümü' chosen, the whole list is shown. */
  lemma FilterWithoutCriteria(items: seq<MarketItem>)
    ensures FilteredItems(items, "", All) == items
  {
    assert Lower("") == "";
    forall x | x in items ensures Matches(x, "", All) {
      ContainsEmpty(Lower(x.name));
    }
    FilterAllPass(items, (x: MarketItem) => Matches(x, "", All));
  }

  /** Filtering the filtered list again with the same criteria changes nothing. */
  lemma FilterAgainUnchanged(items: seq<MarketItem>, query: string, category: CategoryFilter)
    ensures FilteredItems(FilteredItems(items, query, category), query, category) == FilteredItems(items, query, category)
  {
    FilterIdempotent(items, (x: MarketItem) => Matches(x, query, category));
  }

  // ---------------------------------------------------------------------
  // Favourite mark

  /** `favorites.includes(item.id)`. */
  predicate IsFavorite(favorites: seq<string>, itemId: string)
  {
    itemId in favorites
  }

  /** Tapping the star flips that item's mark and no other. */
  lemma ToggleFlipsMark(favorites: seq<string>, itemId: string, other: string)
    ensures IsFavorite(Toggle(favorites, itemId), itemId) == !IsFavorite(favorites, itemId)
    ensures other != itemId ==> IsFavorite(Toggle(favorites, itemId), other) == IsFavorite(favorites, other)
  {
  }
}
