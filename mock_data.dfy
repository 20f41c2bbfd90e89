/**
 * The static catalogue of the app: the cities and wholesale markets
 * ("hal") it knows, the twelve base items, and the deterministic price
 * synthesiser used when no remote dataset is available.
 */
module MockData {
  import opened Lists

  datatype City = City(id: string, name: string)

  /** A wholesale market; `cityId` names the city it belongs to. */
  datatype District = District(id: string, cityId: string, name: string)

  /** 'Meyve' (fruit) or 'Sebze' (vegetable). */
  datatype Category = Meyve | Sebze

  /** 'kg', 'kasa' (crate), 'adet' (piece), 'bağ' (bunch). */
  datatype Unit = Kg | Kasa | Adet | Bag

  datatype Trend = Up | Down | Stable

  /** Prices are whole Turkish lira in the static catalogue. */
  datatype MarketItem = MarketItem(
    id: string, name: string, category: Category, unit: Unit,
    lowPrice: int, highPrice: int, avgPrice: int, trend: Trend)

  const Cities: seq<City> := [
    City("34", "İstanbul"),
    City("06", "Ankara"),
    City("07", "Antalya"),
    City("33", "Mersin"),
    City("35", "İzmir")
  ]

  const Districts: seq<District> := [
    District("34-1", "34", "Bayrampaşa Hali"),
    District("34-2", "34", "Ataşehir Hali"),
    District("06-1", "06", "Ankara Toptancı Hali"),
    District("07-1", "07", "Antalya Merkez Hali"),
    District("07-2", "07", "Gazipaşa Hali"),
    District("07-3", "07", "Kumluca Hali"),
    District("33-1", "33", "Mersin Merkez Hali"),
    District("35-1", "35", "İzmir Merkez Hali")
  ]

  const MockItems: seq<MarketItem> := [
    MarketItem("1", "Domates (Salkım)", Sebze, Kg, 25, 35, 30, Up),
    MarketItem("2", "Domates (Beef)", Sebze, Kg, 30, 45, 38, Stable),
    MarketItem("3", "Salatalık", Sebze, Kg, 15, 22, 18, Down),
    MarketItem("4", "Biber (Çarliston)", Sebze, Kg, 20, 28, 24, Up),
    MarketItem("5", "Patlıcan", Sebze, Kg, 18, 25, 22, Stable),
    MarketItem("6", "Patates", Sebze, Kg, 12, 18, 15, Stable),
    MarketItem("7", "Soğan (Kuru)", Sebze, Kg, 10, 16, 13, Down),
    MarketItem("8", "Elma (Starking)", Meyve, Kg, 20, 30, 25, Stable),
    MarketItem("9", "Muz (Yerli)", Meyve, Kg, 35, 45, 40, Up),
    MarketItem("10", "Portakal (Washington)", Meyve, Kg, 15, 22, 18, Down),
    MarketItem("11", "Limon", Meyve, Kasa, 150, 200, 175, Up),
    MarketItem("12", "Çilek", Meyve, Kg, 60, 90, 75, Down)
  ]

  /** The catalogue invariant lowPrice <= avgPrice <= highPrice. */
  ghost predicate PricesOrdered(item: MarketItem)
  {
    item.lowPrice <= item.avgPrice <= item.highPrice
  }

  ghost predicate UniqueCityIds(cities: seq<City>)
  {
    forall i, j :: 0 <= i < j < |cities| ==> cities[i].id != cities[j].id
  }

  ghost predicate UniqueDistrictIds(districts: seq<District>)
  {
    forall i, j :: 0 <= i < j < |districts| ==> districts[i].id != districts[j].id
  }

  // ---------------------------------------------------------------------
  // parseInt on the city ids

  predicate IsDigit(c: char)
  {
    '0' <= c <= '9'
  }

  /** A non-empty string of decimal digits, the shape of every city id. */
  predicate IsDigitString(s: string)
  {
    |s| > 0 && forall i :: 0 <= i < |s| ==> IsDigit(s[i])
  }

  /** 10 to the power `n`. */
  function Pow10(n: nat): (r: nat)
    ensures r >= 1
  {
    if n == 0 then 1 else 10 * Pow10(n - 1)
  }

  /** The decimal value of a string of digits, read left to right: below 10 to its length. */
  function DigitsValue(s: string): (r: nat)
    requires forall i :: 0 <= i < |s| ==> IsDigit(s[i])
    ensures r < Pow10(|s|)
  {
    if s == [] then 0
    else
      assert IsDigit(s[|s| - 1]);
      DigitsValue(s[..|s| - 1]) * 10 + (s[|s| - 1] as int - '0' as int)
  }

  /** `parseInt(s)` for a digit string: leading zeros are read as digits of value 0. */
  function ParseInt(s: string): (r: nat)
    requires IsDigitString(s)
    ensures r < Pow10(|s|)
    ensures r % 10 == s[|s| - 1] as int - '0' as int
    ensures |s| > 1 ==> r / 10 == ParseInt(s[..|s| - 1])
  {
    DigitsValue(s)
  }

  /** A leading zero does not change the value of a string of digits. */
  lemma {:induction false} LeadingZeroIgnored(s: string)
    requires forall i :: 0 <= i < |s| ==> IsDigit(s[i])
    ensures forall i :: 0 <= i < |"0" + s| ==> IsDigit(("0" + s)[i])
    ensures DigitsValue("0" + s) == DigitsValue(s)
  {
    if s != [] {
      var init := s[..|s| - 1];
      assert ("0" + s)[..|"0" + s| - 1] == "0" + init;
      LeadingZeroIgnored(init);
    } else {
      assert ("0" + s)[..0] == [];
    }
  }

  /** `parseInt` reads "0" + s as it reads s: "07" is 7. */
  lemma ParseIntLeadingZero(s: string)
    requires IsDigitString(s)
    ensures IsDigitString("0" + s)
    ensures ParseInt("0" + s) == ParseInt(s)
  {
    LeadingZeroIgnored(s);
  }

  /** The per-city price offset of the fallback data: `parseInt(cityId) % 5`. */
  function Modifier(cityId: string): (m: int)
    requires IsDigitString(cityId)
    ensures 0 <= m <= 4
  {
    ParseInt(cityId) % 5
  }

  lemma ModifierExamples()
    ensures Modifier("34") == 4 && Modifier("06") == 1 && Modifier("07") == 2
    ensures Modifier("33") == 3 && Modifier("35") == 0
  {
  }

  // ---------------------------------------------------------------------
  // getMarketPrices, getCities, getDistricts

  /** One catalogue item with the same offset added to all three prices. */
  function Adjust(item: MarketItem, modifier: int): MarketItem
  {
    item.(lowPrice := item.lowPrice + modifier,
          highPrice := item.highPrice + modifier,
          avgPrice := item.avgPrice + modifier)
  }

  /**
   * The synthetic price list of a market: the catalogue, item by item and in
   * order, shifted by the city's modifier. The district id is not used.
   */
  function GetMarketPrices(cityId: string, districtId: string): (r: seq<MarketItem>)
    requires IsDigitString(cityId)
    ensures |r| == |MockItems| == 12
    ensures forall i :: 0 <= i < |r| ==> PricesOrdered(r[i])
  {
    MockItemsOrdered();
    seq(|MockItems|, i requires 0 <= i < |MockItems| => Adjust(MockItems[i], Modifier(cityId)))
  }

  lemma MockItemsOrdered()
    ensures forall i :: 0 <= i < |MockItems| ==> PricesOrdered(MockItems[i])
  {
  }

  /** Every item keeps its identity and listing fields and gains the same offset on each price. */
  lemma MarketPricesShape(cityId: string, districtId: string, i: int)
    requires IsDigitString(cityId)
    requires 0 <= i < |MockItems|
    ensures var item, base := GetMarketPrices(cityId, districtId)[i], MockItems[i];
      && item.id == base.id && item.name == base.name && item.category == base.category
      && item.unit == base.unit && item.trend == base.trend
      && item.lowPrice == base.lowPrice + Modifier(cityId)
      && item.highPrice == base.highPrice + Modifier(cityId)
      && item.avgPrice == base.avgPrice + Modifier(cityId)
  {
  }

  /** Two markets of one city get the same prices. */
  lemma MarketPricesIgnoreDistrict(cityId: string, d1: string, d2: string)
    requires IsDigitString(cityId)
    ensures GetMarketPrices(cityId, d1) == GetMarketPrices(cityId, d2)
  {
  }

  /** Istanbul's modifier is 4: the {25, 35, 30} tomato becomes {29, 39, 34}. */
  lemma IstanbulTomato(districtId: string)
    ensures var item := GetMarketPrices("34", districtId)[0];
      item.lowPrice == 29 && item.highPrice == 39 && item.avgPrice == 34
  {
    ModifierExamples();
  }

  function GetCities(): (r: seq<City>)
    ensures |r| == 5 && UniqueCityIds(r)
    ensures forall i :: 0 <= i < |r| ==> IsDigitString(r[i].id)
  {
    Cities
  }

  /** The markets of one city, in catalogue order. */
  function GetDistricts(cityId: string): (r: seq<District>)
    ensures IsSubsequence(r, Districts)
    ensures forall d :: d in r <==> d in Districts && d.cityId == cityId
  {
    Filter(Districts, (d: District) => d.cityId == cityId)
  }

  lemma CityIdsUnique()
    ensures UniqueCityIds(Cities)
  {
  }

  lemma DistrictIdsUnique()
    ensures UniqueDistrictIds(Districts)
  {
  }

  /** Some city of the catalogue has this id. */
  ghost predicate IsCityId(id: string)
  {
    exists j :: 0 <= j < |Cities| && Cities[j].id == id
  }

  lemma DistrictCitiesKnown()
    ensures forall d :: d in Districts ==> IsCityId(d.cityId)
  {
    forall i | 0 <= i < |Districts|
      ensures IsCityId(Districts[i].cityId)
    {
      var j := [0, 0, 1, 2, 2, 2, 3, 4][i];
      assert Cities[j].id == Districts[i].cityId;
    }
  }

  lemma DistrictCityIdsDigits()
    ensures forall i :: 0 <= i < |Districts| ==> IsDigitString(Districts[i].cityId)
  {
  }

  /** Catalogue city ids have two digits and market ids four characters. */
  lemma CatalogueIdLengths()
    ensures forall i :: 0 <= i < |Districts| ==> |Districts[i].cityId| == 2 && |Districts[i].id| == 4
  {
  }
}
