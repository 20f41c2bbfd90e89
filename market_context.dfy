/**
 * The market-data controller: it obtains a dataset (remote first, synthetic
 * fallback second), resolves the saved city, market and favourites against
 * the static catalogue, and writes every later user choice through to the
 * device's key-value storage.
 *
 * The network is a `FetchOutcome` parameter, the key-value storage a map
 * field, and JSON (de)serialisation of the favourites list an injected
 * `JsonCodec`; awaiting is plain sequencing.
 */
module MarketContext {
  import opened Wrappers
  import opened Lists
  import opened MockData

  /** The dataset the provider exposes: cities, markets and a price list per key. */
  datatype MarketData = MarketData(
    cities: seq<City>, districts: seq<District>, prices: map<string, seq<MarketItem>>)

  /**
   * What the single request for the published dataset gave: a response with
   * its `ok` flag and its body (None when `response.json()` throws), or a
   * transport failure thrown by `fetch` itself.
   */
  datatype FetchOutcome = Response(ok: bool, body: Option<MarketData>) | NetworkError

  /** JSON.stringify of a list of ids, and JSON.parse back (None when it throws). */
  datatype JsonCodec = JsonCodec(stringify: seq<string> -> string, parse: string -> Option<seq<string>>)

  const CityKey := "selectedCityId"
  const DistrictKey := "selectedDistrictId"
  const FavoritesKey := "favorites"

  const DefaultCityId := "07"
  const DefaultDistrictId := "07-1"

  /** `AsyncStorage.getItem`: the stored string, or null. */
  function GetItem(storage: map<string, string>, key: string): Option<string>
  {
    if key in storage then Some(storage[key]) else None
  }

  /** JavaScript truthiness of a `string | null`: null and "" are falsy. */
  predicate IsTruthy(v: Option<string>)
  {
    v.Some? && v.value != ""
  }

  // ---------------------------------------------------------------------
  // The dataset: remote or synthetic fallback

  /** The key under which the fallback stores a market's prices: `${cityId}-${id}`. */
  function PriceKey(d: District): string
  {
    d.cityId + "-" + d.id
  }

  ghost predicate AllDigitCityIds(ds: seq<District>)
  {
    forall i :: 0 <= i < |ds| ==> IsDigitString(ds[i].cityId)
  }

  ghost predicate DistinctPriceKeys(ds: seq<District>)
  {
    forall i, j :: 0 <= i < j < |ds| ==> PriceKey(ds[i]) != PriceKey(ds[j])
  }

  /** The set of keys a list of markets is stored under. */
  ghost function PriceKeys(ds: seq<District>): set<string>
  {
    set d | d in ds :: PriceKey(d)
  }

  lemma PriceKeysSnoc(init: seq<District>, last: District)
    ensures PriceKeys(init + [last]) == PriceKeys(init) + {PriceKey(last)}
  {
    assert forall d :: d in init + [last] <==> d in init || d == last;
  }

  /** The map the fallback's `forEach` has built after visiting `ds`, in order. */
  function FallbackPrices(ds: seq<District>): (prices: map<string, seq<MarketItem>>)
    requires AllDigitCityIds(ds)
    ensures prices.Keys == PriceKeys(ds)
  {
    if ds == [] then map[]
    else
      var init, last := ds[..|ds| - 1], ds[|ds| - 1];
      assert ds == init + [last];
      PriceKeysSnoc(init, last);
      FallbackPrices(init)[PriceKey(last) := GetMarketPrices(last.cityId, last.id)]
  }

  /** The fallback's `forEach`: one synthetic list per market, written under its `cityId-id` key. */
  method BuildPrices(ds: seq<District>) returns (prices: map<string, seq<MarketItem>>)
    requires AllDigitCityIds(ds)
    ensures prices == FallbackPrices(ds)
    ensures prices.Keys == PriceKeys(ds)
  {
    prices := map[];
    var i := 0;
    while i < |ds|
      invariant 0 <= i <= |ds|
      invariant AllDigitCityIds(ds[..i])
      invariant prices == FallbackPrices(ds[..i])
    {
      var d := ds[i];
      assert ds[..i + 1][..i] == ds[..i];
      prices := prices[PriceKey(d) := GetMarketPrices(d.cityId, d.id)];
      i := i + 1;
    }
    assert ds[..i] == ds;
  }

  /** The market at index `i` finds its synthetic list under its key. */
  lemma {:induction false} FallbackPricesAt(ds: seq<District>, i: int)
    requires AllDigitCityIds(ds) && DistinctPriceKeys(ds)
    requires 0 <= i < |ds|
    ensures PriceKey(ds[i]) in FallbackPrices(ds)
    ensures FallbackPrices(ds)[PriceKey(ds[i])] == GetMarketPrices(ds[i].cityId, ds[i].id)
  {
    var init, last := ds[..|ds| - 1], ds[|ds| - 1];
    if i < |ds| - 1 {
      assert init[i] == ds[i];
      assert AllDigitCityIds(init) && DistinctPriceKeys(init) by {
        forall j | 0 <= j < |init| ensures init[j] == ds[j] { }
      }
      FallbackPricesAt(init, i);
      assert PriceKey(ds[i]) != PriceKey(last);
    }
  }

  lemma FallbackPricesValues(ds: seq<District>)
    requires AllDigitCityIds(ds) && DistinctPriceKeys(ds)
    ensures forall d :: d in ds ==>
      PriceKey(d) in FallbackPrices(ds) && FallbackPrices(ds)[PriceKey(d)] == GetMarketPrices(d.cityId, d.id)
  {
    forall d | d in ds
      ensures PriceKey(d) in FallbackPrices(ds) && FallbackPrices(ds)[PriceKey(d)] == GetMarketPrices(d.cityId, d.id)
    {
      var i :| 0 <= i < |ds| && ds[i] == d;
      FallbackPricesAt(ds, i);
    }
  }

  lemma {:induction false} FallbackPricesSize(ds: seq<District>)
    requires AllDigitCityIds(ds) && DistinctPriceKeys(ds)
    ensures |FallbackPrices(ds)| == |ds|
  {
    if ds != [] {
      var init, last := ds[..|ds| - 1], ds[|ds| - 1];
      assert AllDigitCityIds(init) && DistinctPriceKeys(init) by {
        forall i | 0 <= i < |init| ensures init[i] == ds[i] { }
      }
      FallbackPricesSize(init);
      var m := FallbackPrices(init);
      assert PriceKey(last) !in m by {
        forall d | d in init ensures PriceKey(d) != PriceKey(last) {
          var i :| 0 <= i < |init| && init[i] == d;
          assert ds[i] == d;
        }
      }
      assert FallbackPrices(ds) == m[PriceKey(last) := GetMarketPrices(last.cityId, last.id)];
    }
  }

  /** Over markets with distinct keys the fallback map has one entry per market and nothing else. */
  lemma FallbackPricesExact(ds: seq<District>)
    requires AllDigitCityIds(ds) && DistinctPriceKeys(ds)
    ensures FallbackPrices(ds).Keys == PriceKeys(ds)
    ensures |FallbackPrices(ds)| == |ds|
    ensures forall d :: d in ds ==>
      PriceKey(d) in FallbackPrices(ds) && FallbackPrices(ds)[PriceKey(d)] == GetMarketPrices(d.cityId, d.id)
  {
    FallbackPricesValues(ds);
    FallbackPricesSize(ds);
  }

  /** Among city ids of one length, the key `cityId-id` gives back both the city id and the id. */
  lemma PriceKeyInjective(a: District, b: District)
    requires |a.cityId| == |b.cityId|
    requires PriceKey(a) == PriceKey(b)
    ensures a.cityId == b.cityId && a.id == b.id
  {
    var n := |a.cityId| + 1;
    assert PriceKey(a)[..n - 1] == a.cityId;
    assert PriceKey(b)[..n - 1] == b.cityId;
    assert PriceKey(a)[n..] == a.id;
    assert PriceKey(b)[n..] == b.id;
  }

  lemma CatalogueDistinctPriceKeys()
    ensures DistinctPriceKeys(Districts)
  {
    CatalogueIdLengths();
    DistrictIdsUnique();
    forall i, j | 0 <= i < j < |Districts| ensures PriceKey(Districts[i]) != PriceKey(Districts[j]) {
      if PriceKey(Districts[i]) == PriceKey(Districts[j]) {
        PriceKeyInjective(Districts[i], Districts[j]);
      }
    }
  }

  /** The dataset `fetchData` builds from the catalogue when the remote one is not adopted. */
  function FallbackData(): (data: MarketData)
    ensures data.cities == Cities && data.districts == Districts
    ensures data.prices.Keys == PriceKeys(Districts)
  {
    assert AllDigitCityIds(Districts) by { DistrictCityIdsDigits(); }
    MarketData(Cities, Districts, FallbackPrices(Districts))
  }

  /** The fallback price map: one entry per catalogue market, keyed `cityId-id`, never empty. */
  lemma FallbackDataPrices()
    ensures FallbackData().prices.Keys == PriceKeys(Districts)
    ensures |FallbackData().prices| == |Districts| == 8
    ensures forall d :: d in Districts ==>
      IsDigitString(d.cityId) && FallbackData().prices[PriceKey(d)] == GetMarketPrices(d.cityId, d.id)
    ensures forall d :: d in Districts ==> |FallbackData().prices[PriceKey(d)]| == 12
  {
    DistrictCityIdsDigits();
    CatalogueDistinctPriceKeys();
    FallbackPricesExact(Districts);
    forall d | d in Districts ensures IsDigitString(d.cityId) {
      var i :| 0 <= i < |Districts| && Districts[i] == d;
    }
  }

  /** The dataset `fetchData` settles on: the body only of an ok response that parsed. */
  function AcceptedData(outcome: FetchOutcome): (data: MarketData)
    ensures outcome.Response? && outcome.ok && outcome.body.Some? ==> data == outcome.body.value
    ensures !(outcome.Response? && outcome.ok && outcome.body.Some?) ==>
      data.cities == Cities && data.districts == Districts && data.prices == FallbackData().prices
  {
    match outcome
    case Response(true, Some(body)) => body
    case _ => FallbackData()
  }

  /** A failed fetch leaves the app with the five catalogue cities and a non-empty price list per market. */
  lemma FailedFetchFallsBack(outcome: FetchOutcome)
    requires !outcome.Response? || !outcome.ok || outcome.body.None?
    ensures |AcceptedData(outcome).cities| == 5
    ensures forall d :: d in AcceptedData(outcome).districts ==>
      PriceKey(d) in AcceptedData(outcome).prices && AcceptedData(outcome).prices[PriceKey(d)] != []
  {
    FallbackDataPrices();
  }

  // ---------------------------------------------------------------------
  // Resolving the saved preferences against the static catalogue

  /** `cities.find(c => c.id === id)`: the first city with that id. */
  function FindCity(cities: seq<City>, id: string): (r: Option<City>)
    ensures r.Some? ==> r.value in cities && r.value.id == id
    ensures r.None? <==> forall c :: c in cities ==> c.id != id
  {
    if cities == [] then None
    else if cities[0].id == id then Some(cities[0])
    else
      FindCity(cities[1..], id)
  }

  /** `districts.find(d => d.id === id)`: the first market with that id. */
  function FindDistrict(districts: seq<District>, id: string): (r: Option<District>)
    ensures r.Some? ==> r.value in districts && r.value.id == id
    ensures r.None? <==> forall d :: d in districts ==> d.id != id
  {
    if districts == [] then None
    else if districts[0].id == id then Some(districts[0])
    else
      FindDistrict(districts[1..], id)
  }

  /** `find` stops at the first match: when the first entry with `id` sits at `k`, that entry is the result. */
  lemma {:induction false} FindCityFirst(cities: seq<City>, id: string, k: nat)
    requires k < |cities| && cities[k].id == id
    requires forall j :: 0 <= j < k ==> cities[j].id != id
    ensures FindCity(cities, id) == Some(cities[k])
  {
    if k > 0 {
      assert cities[0].id != id;
      assert cities[1..][k - 1] == cities[k];
      FindCityFirst(cities[1..], id, k - 1);
    }
  }

  /** With unique ids, looking a city up by its own id finds that city. */
  lemma {:induction false} FindCityOwnId(cities: seq<City>, c: City)
    requires UniqueCityIds(cities) && c in cities
    ensures FindCity(cities, c.id) == Some(c)
  {
    if cities[0] != c {
      assert cities[0].id != c.id by {
        var k :| 0 <= k < |cities| && cities[k] == c;
      }
      assert UniqueCityIds(cities[1..]) by {
        forall i, j | 0 <= i < j < |cities[1..]| ensures cities[1..][i].id != cities[1..][j].id {
          assert cities[1..][i] == cities[i + 1] && cities[1..][j] == cities[j + 1];
        }
      }
      FindCityOwnId(cities[1..], c);
    }
  }

  /** `find` stops at the first match: when the first entry with `id` sits at `k`, that entry is the result. */
  lemma {:induction false} FindDistrictFirst(districts: seq<District>, id: string, k: nat)
    requires k < |districts| && districts[k].id == id
    requires forall j :: 0 <= j < k ==> districts[j].id != id
    ensures FindDistrict(districts, id) == Some(districts[k])
  {
    if k > 0 {
      assert districts[0].id != id;
      assert districts[1..][k - 1] == districts[k];
      FindDistrictFirst(districts[1..], id, k - 1);
    }
  }

  /** With unique ids, looking a market up by its own id finds that market. */
  lemma {:induction false} FindDistrictOwnId(districts: seq<District>, d: District)
    requires UniqueDistrictIds(districts) && d in districts
    ensures FindDistrict(districts, d.id) == Some(d)
  {
    if districts[0] != d {
      assert districts[0].id != d.id by {
        var k :| 0 <= k < |districts| && districts[k] == d;
      }
      assert UniqueDistrictIds(districts[1..]) by {
        forall i, j | 0 <= i < j < |districts[1..]| ensures districts[1..][i].id != districts[1..][j].id {
          assert districts[1..][i] == districts[i + 1] && districts[1..][j] == districts[j + 1];
        }
      }
      FindDistrictOwnId(districts[1..], d);
    }
  }

  /**
   * The city after loading preferences: a saved id found in the catalogue
   * selects that city, a saved id not found leaves `current`, and no saved
   * id (or "") selects Antalya.
   */
  function ResolveCity(saved: Option<string>, current: Option<City>): (r: Option<City>)
    ensures !IsTruthy(saved) ==> r == Some(City("07", "Antalya"))
    ensures IsTruthy(saved) && IsCityId(saved.value) ==> r.Some? && r.value in Cities && r.value.id == saved.value
    ensures IsTruthy(saved) && !IsCityId(saved.value) ==> r == current
  {
    if IsTruthy(saved) then
      match FindCity(Cities, saved.value)
      case Some(city) => Some(city)
      case None =>
        assert forall j :: 0 <= j < |Cities| ==> Cities[j] in Cities;
        current
    else
      FindCityFirst(Cities, DefaultCityId, 2);
      FindCity(Cities, DefaultCityId)
  }

  /**
   * The market after loading preferences: a saved id found in the catalogue
   * selects that market whatever the city, a saved id not found leaves
   * `current`, and no saved id (or "") selects Antalya's market "07-1".
   */
  function ResolveDistrict(saved: Option<string>, current: Option<District>): (r: Option<District>)
    ensures !IsTruthy(saved) ==> r == Some(District("07-1", "07", "Antalya Merkez Hali"))
    ensures IsTruthy(saved) && (exists d :: d in Districts && d.id == saved.value) ==>
      r.Some? && r.value in Districts && r.value.id == saved.value
    ensures IsTruthy(saved) && (forall d :: d in Districts ==> d.id != saved.value) ==> r == current
  {
    if IsTruthy(saved) then
      match FindDistrict(Districts, saved.value)
      case Some(district) => Some(district)
      case None => current
    else
      FindDistrictFirst(Districts, DefaultDistrictId, 3);
      FindDistrict(Districts, DefaultDistrictId)
  }

  /** The favourites after loading: the parsed saved list, or `current` when none is saved or it does not parse. */
  function ResolveFavorites(saved: Option<string>, codec: JsonCodec, current: seq<string>): (r: seq<string>)
    ensures IsTruthy(saved) && codec.parse(saved.value).Some? ==> r == codec.parse(saved.value).value
    ensures !IsTruthy(saved) || codec.parse(saved.value).None? ==> r == current
  {
    if IsTruthy(saved) then
      match codec.parse(saved.value)
      case Some(list) => list
      case None => current
    else current
  }

  // ---------------------------------------------------------------------
  // Favourites

  /** All occurrences of `x` removed, the rest in order: `favorites.filter(id => id !== x)`. */
  function RemoveAll(favorites: seq<string>, x: string): (r: seq<string>)
    ensures forall y :: y in r <==> y in favorites && y != x
    ensures forall y :: multiset(r)[y] == if y == x then 0 else multiset(favorites)[y]
    ensures IsSubsequence(r, favorites)
  {
    Filter(favorites, (y: string) => y != x)
  }

  /** The new favourites list: `x` dropped if present, appended otherwise. */
  function Toggle(favorites: seq<string>, x: string): (r: seq<string>)
    ensures x in r <==> x !in favorites
    ensures forall y :: y != x ==> (y in r <==> y in favorites)
  {
    if x in favorites then RemoveAll(favorites, x) else favorites + [x]
  }

  lemma ToggleKeepsNoDuplicates(favorites: seq<string>, x: string)
    requires NoDuplicates(favorites)
    ensures NoDuplicates(Toggle(favorites, x))
  {
    if x in favorites {
      FilterNoDuplicates(favorites, (y: string) => y != x);
    } else {
      var r := favorites + [x];
      forall i, j | 0 <= i < j < |r| ensures r[i] != r[j] {
        if j == |favorites| { assert r[i] == favorites[i]; }
      }
    }
  }

  /** Toggling an absent id twice gives back exactly the same list. */
  lemma ToggleTwiceAbsent(favorites: seq<string>, x: string)
    requires x !in favorites
    ensures Toggle(Toggle(favorites, x), x) == favorites
  {
    var p := (y: string) => y != x;
    FilterConcat(favorites, [x], p);
    FilterAllPass(favorites, p);
    assert Filter([x], p) == [];
  }

  /** Toggling twice always gives back the same set of ids (the order may change). */
  lemma ToggleTwiceSameMembers(favorites: seq<string>, x: string)
    ensures forall y :: y in Toggle(Toggle(favorites, x), x) <==> y in favorites
  {
  }

  // ---------------------------------------------------------------------
  // The provider

  /** The storage `SetCity(c)` leaves behind. */
  function StorageAfterSetCity(storage: map<string, string>, c: City): map<string, string>
  {
    storage[CityKey := c.id] - {DistrictKey}
  }

  class MarketProvider {
    var selectedCity: Option<City>
    var selectedDistrict: Option<District>
    var favorites: seq<string>
    var isLoading: bool
    var marketData: Option<MarketData>
    /** The device's key-value storage. */
    var storage: map<string, string>
    /** Every value `isLoading` has been given, in order. */
    ghost var loadingHistory: seq<bool>
    const codec: JsonCodec

    /** A freshly mounted provider: nothing selected, no data, loading. */
    constructor (storage: map<string, string>, codec: JsonCodec)
      ensures selectedCity == None && selectedDistrict == None && favorites == []
      ensures isLoading && loadingHistory == [true] && marketData == None
      ensures this.storage == storage && this.codec == codec
    {
      selectedCity := None;
      selectedDistrict := None;
      favorites := [];
      isLoading := true;
      loadingHistory := [true];
      marketData := None;
      this.storage := storage;
      this.codec := codec;
    }

    /** Load the dataset, then the preferences, and in every case stop loading. */
    method Initialize(outcome: FetchOutcome)
      modifies this`marketData, this`selectedCity, this`selectedDistrict, this`favorites
      modifies this`isLoading, this`loadingHistory
      ensures marketData == Some(AcceptedData(outcome))
      ensures selectedCity == ResolveCity(GetItem(storage, CityKey), old(selectedCity))
      ensures selectedDistrict == ResolveDistrict(GetItem(storage, DistrictKey), old(selectedDistrict))
      ensures favorites == ResolveFavorites(GetItem(storage, FavoritesKey), codec, old(favorites))
      ensures !isLoading && loadingHistory == old(loadingHistory) + [false]
    {
      FetchData(outcome);
      LoadPreferences();
      isLoading := false;
      loadingHistory := loadingHistory + [false];
    }

    /** Adopt the remote body of an ok response that parsed; otherwise build the fallback dataset. */
    method FetchData(outcome: FetchOutcome)
      modifies this`marketData
      ensures marketData == Some(AcceptedData(outcome))
    {
      if outcome.Response? && outcome.ok && outcome.body.Some? {
        marketData := Some(outcome.body.value);
        return;
      }
      DistrictCityIdsDigits();
      var prices := BuildPrices(Districts);
      marketData := Some(MarketData(Cities, Districts, prices));
    }

    /** Read the three saved keys and resolve them against the static catalogue. */
    method LoadPreferences()
      modifies this`selectedCity, this`selectedDistrict, this`favorites
      ensures selectedCity == ResolveCity(GetItem(old(storage), CityKey), old(selectedCity))
      ensures selectedDistrict == ResolveDistrict(GetItem(old(storage), DistrictKey), old(selectedDistrict))
      ensures favorites == ResolveFavorites(GetItem(old(storage), FavoritesKey), codec, old(favorites))
    {
      var cityId := GetItem(storage, CityKey);
      var districtId := GetItem(storage, DistrictKey);
      var savedFavorites := GetItem(storage, FavoritesKey);
      // React applies the three state updates together once the handler ends.
      var city, district, favs := selectedCity, selectedDistrict, favorites;

      if IsTruthy(cityId) {
        var found := FindCity(Cities, cityId.value);
        if found.Some? {
          city := found;
        }
      } else {
        city := FindCity(Cities, DefaultCityId);
      }
      assert city == ResolveCity(cityId, selectedCity);

      if IsTruthy(districtId) {
        var found := FindDistrict(Districts, districtId.value);
        if found.Some? {
          district := found;
        }
      } else {
        district := FindDistrict(Districts, DefaultDistrictId);
      }
      assert district == ResolveDistrict(districtId, selectedDistrict);

      if IsTruthy(savedFavorites) {
        // A None here is JSON.parse throwing: the error is caught and logged.
        var parsed := codec.parse(savedFavorites.value);
        if parsed.Some? {
          favs := parsed.value;
        }
      }
      selectedCity, selectedDistrict, favorites := city, district, favs;
    }

    /** Select a city, forget the market, and persist both changes. */
    method SetCity(city: City)
      modifies this`selectedCity, this`selectedDistrict, this`storage
      ensures selectedCity == Some(city) && selectedDistrict == None
      ensures storage == StorageAfterSetCity(old(storage), city)
    {
      selectedCity := Some(city);
      selectedDistrict := None;
      storage := storage[CityKey := city.id];
      storage := storage - {DistrictKey};
    }

    /** Select a market (its city is not checked) and persist it. */
    method SetDistrict(district: District)
      modifies this`selectedDistrict, this`storage
      ensures selectedDistrict == Some(district)
      ensures storage == old(storage)[DistrictKey := district.id]
    {
      selectedDistrict := Some(district);
      storage := storage[DistrictKey := district.id];
    }

    /** Flip one id in the favourites and persist the whole new list as JSON. */
    method ToggleFavorite(itemId: string)
      modifies this`favorites, this`storage
      ensures favorites == Toggle(old(favorites), itemId)
      ensures storage == old(storage)[FavoritesKey := codec.stringify(favorites)]
    {
      var newFavorites := Toggle(favorites, itemId);
      favorites := newFavorites;
      storage := storage[FavoritesKey := codec.stringify(newFavorites)];
    }
  }

  /**
   * Mounting the provider: construct it and run the startup sequence.
   * `isLoading` is true, then false, and nothing else.
   */
  method Mount(storage: map<string, string>, codec: JsonCodec, outcome: FetchOutcome) returns (p: MarketProvider)
    ensures fresh(p) && p.storage == storage && p.codec == codec
    ensures p.loadingHistory == [true, false] && !p.isLoading
    ensures p.marketData == Some(AcceptedData(outcome))
    ensures p.selectedCity == ResolveCity(GetItem(p.storage, CityKey), None)
    ensures p.selectedDistrict == ResolveDistrict(GetItem(p.storage, DistrictKey), None)
    ensures p.favorites == ResolveFavorites(GetItem(p.storage, FavoritesKey), p.codec, [])
  {
    p := new MarketProvider(storage, codec);
    p.Initialize(outcome);
  }

  // ---------------------------------------------------------------------
  // What a later launch sees

  /**
   * After `SetCity(c)` for a catalogue city `c` a relaunch selects `c` again
   * but, the market key having been removed, selects Antalya's market "07-1"
   * whatever `c` is.
   */
  lemma ReloadAfterSetCity(storage: map<string, string>, c: City)
    requires c in Cities
    ensures ResolveCity(GetItem(StorageAfterSetCity(storage, c), CityKey), None) == Some(c)
    ensures ResolveDistrict(GetItem(StorageAfterSetCity(storage, c), DistrictKey), None)
      == Some(District("07-1", "07", "Antalya Merkez Hali"))
    ensures c.id != "07" ==>
      ResolveDistrict(GetItem(StorageAfterSetCity(storage, c), DistrictKey), None).value.cityId != c.id
  {
    var after := StorageAfterSetCity(storage, c);
    assert GetItem(after, CityKey) == Some(c.id) && GetItem(after, DistrictKey) == None;
    assert ResolveCity(Some(c.id), None) == Some(c) by {
      var k :| 0 <= k < |Cities| && Cities[k] == c;
      assert IsDigitString(GetCities()[k].id);
      CityIdsUnique();
      FindCityOwnId(Cities, c);
    }
    assert ResolveDistrict(None, None) == Some(Districts[3]) by {
      DistrictIdsUnique();
      FindDistrictOwnId(Districts, Districts[3]);
    }
  }

  /**
   * `SetCity` also takes cities of a fetched list, but the saved id is
   * resolved against the catalogue only. After `SetCity(c)` a relaunch
   * selects the catalogue city with `c`'s id, whatever `c`'s name; no city
   * when the catalogue lacks the id; Antalya when the id is "". The market
   * is "07-1" in every case.
   */
  lemma ReloadAfterSetAnyCity(storage: map<string, string>, c: City)
    ensures var r := ResolveCity(GetItem(StorageAfterSetCity(storage, c), CityKey), None);
      IsCityId(c.id) ==> r.Some? && r.value in Cities && r.value.id == c.id
    ensures !IsCityId(c.id) && c.id != "" ==> ResolveCity(GetItem(StorageAfterSetCity(storage, c), CityKey), None) == None
    ensures c.id == "" ==> ResolveCity(GetItem(StorageAfterSetCity(storage, c), CityKey), None) == Some(City("07", "Antalya"))
    ensures ResolveDistrict(GetItem(StorageAfterSetCity(storage, c), DistrictKey), None)
      == Some(District("07-1", "07", "Antalya Merkez Hali"))
  {
    var after := StorageAfterSetCity(storage, c);
    assert GetItem(after, CityKey) == Some(c.id) && GetItem(after, DistrictKey) == None;
    if c.id == "" {
      assert !IsTruthy(Some(c.id));
      assert !IsCityId(c.id) by {
        assert forall j :: 0 <= j < |Cities| ==> IsDigitString(GetCities()[j].id);
      }
    } else {
      assert IsTruthy(Some(c.id));
    }
  }

  /** After `SetDistrict(d)` for a catalogue market, a relaunch selects `d` again. */
  lemma ReloadAfterSetDistrict(storage: map<string, string>, d: District, current: Option<District>)
    requires d in Districts
    ensures ResolveDistrict(GetItem(storage[DistrictKey := d.id], DistrictKey), current) == Some(d)
  {
    var k :| 0 <= k < |Districts| && Districts[k] == d;
    CatalogueIdLengths();
    assert |d.id| == 4;
    var saved := GetItem(storage[DistrictKey := d.id], DistrictKey);
    assert saved == Some(d.id) && IsTruthy(saved);
    DistrictIdsUnique();
    FindDistrictOwnId(Districts, d);
  }

  /**
   * A saved market is selected even when it belongs to another city than the
   * saved one: nothing checks the pair, so the app can show, say, Istanbul
   * with Izmir's market.
   */
  lemma SavedDistrictNotCheckedAgainstCity(storage: map<string, string>, c: City, d: District)
    requires c in Cities && d in Districts
    requires GetItem(storage, CityKey) == Some(c.id) && GetItem(storage, DistrictKey) == Some(d.id)
    ensures ResolveCity(GetItem(storage, CityKey), None) == Some(c)
    ensures ResolveDistrict(GetItem(storage, DistrictKey), None) == Some(d)
    ensures d.cityId != c.id ==>
      ResolveDistrict(GetItem(storage, DistrictKey), None).value.cityId != ResolveCity(GetItem(storage, CityKey), None).value.id
  {
    assert ResolveCity(Some(c.id), None) == Some(c) by {
      var k :| 0 <= k < |Cities| && Cities[k] == c;
      assert IsDigitString(GetCities()[k].id);
      CityIdsUnique();
      FindCityOwnId(Cities, c);
    }
    assert ResolveDistrict(Some(d.id), None) == Some(d) by {
      var k :| 0 <= k < |Districts| && Districts[k] == d;
      CatalogueIdLengths();
      assert |d.id| == 4;
      DistrictIdsUnique();
      FindDistrictOwnId(Districts, d);
    }
  }

  /** Istanbul ("34") saved with Izmir's market "35-1" reloads as exactly that pair. */
  lemma IstanbulWithIzmirMarket(storage: map<string, string>)
    requires GetItem(storage, CityKey) == Some("34") && GetItem(storage, DistrictKey) == Some("35-1")
    ensures ResolveCity(GetItem(storage, CityKey), None) == Some(Cities[0])
    ensures ResolveDistrict(GetItem(storage, DistrictKey), None) == Some(Districts[7])
    ensures Districts[7].cityId == "35" && Cities[0].id == "34"
  {
    SavedDistrictNotCheckedAgainstCity(storage, Cities[0], Districts[7]);
  }

  /** The list `ToggleFavorite` writes reloads as the same list when the codec round-trips it. */
  lemma FavoritesReloadAfterToggle(storage: map<string, string>, codec: JsonCodec, favorites: seq<string>, x: string, current: seq<string>)
    requires codec.stringify(Toggle(favorites, x)) != ""
    requires codec.parse(codec.stringify(Toggle(favorites, x))) == Some(Toggle(favorites, x))
    ensures ResolveFavorites(GetItem(storage[FavoritesKey := codec.stringify(Toggle(favorites, x))], FavoritesKey), codec, current)
      == Toggle(favorites, x)
  {
  }
}
