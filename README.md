# halApp market-data core, modelled in Dafny

halApp shows wholesale produce prices ("hal" prices) for a chosen city and
market. This project models the app's market-data state layer and the pure
helpers it depends on:

- **`MockData`** (`mock_data.dfy`, from `data/mockData.ts`). It holds the
  static catalogue: five cities, eight markets and twelve items. It also
  holds `parseInt` on digit strings, the price synthesiser `getMarketPrices`
  (every price plus `parseInt(cityId) % 5`), `getCities` and `getDistricts`.
- **`MarketContext`** (`market_context.dfy`, from `context/MarketContext.tsx`).
  The provider is the class `MarketProvider`. Its fields are the provider's
  state (`selectedCity`, `selectedDistrict`, `favorites`, `isLoading`,
  `marketData`) and the device's key-value storage, a `map<string, string>`.
  `Initialize` runs `FetchData` and then `LoadPreferences`, and then clears
  `isLoading`. `FetchData` builds the fallback price map with `BuildPrices`,
  a loop over the markets, as the code's `forEach` does. `SetCity`,
  `SetDistrict` and `ToggleFavorite` write through to storage. Each method's frame names the fields it may
  change. For example, neither `FetchData` nor `LoadPreferences` can touch
  `isLoading`. A ghost field records every value `isLoading` takes.
- **`HomeScreen`** (`home_screen.dfy`, from `app/index.tsx`). It models the
  price lookup for the selected market, the search and category filter, and
  the favourite mark.
- **`Lists`** and **`Wrappers`** are helpers. `Lists.Filter` is
  `Array.prototype.filter`, and `Wrappers.Option` is `T | null`.

The network is a `FetchOutcome` parameter. It is either a response, with its
`ok` flag and a body that parsed or did not, or a transport error. JSON
encoding and decoding of the favourites list is a `JsonCodec` given to the
provider's constructor. Its `parse` returns `None` where `JSON.parse`
throws.

Some properties are proved exactly as the code behaves, which is not always
what one might expect:

- Saved ids are resolved against the static `CITIES` and `DISTRICTS`, not
  against the fetched dataset.
- A saved market is selected even when it belongs to another city
  (`SavedDistrictNotCheckedAgainstCity`).
- When no market is saved, Antalya's market `07-1` is selected whatever the
  city. So after `setCity` and a relaunch, the selected market belongs to a
  different city for every city but Antalya (`ReloadAfterSetCity`).
- A saved city id that is not in the catalogue leaves the city unchanged.
  On a fresh provider that means `null`. `setCity` also takes the cities of
  a fetched list, so choosing a city the catalogue lacks is forgotten at the
  next launch (`ReloadAfterSetAnyCity`).

Three more behaviours of the code are kept as they are:

- When a saved city or market id is missing, the code falls back only to
  Antalya and `07-1`. It never picks the first city of the list or the
  first market of the selected city.
- The fallback price map is keyed `cityId-districtId` (for example
  `34-34-1`). The market id alone is not a key.
- The request has no timeout. Any JSON body of an ok response is adopted,
  whatever its shape.

## Model

| member | source | states |
|---|---|---|
| `MockData.ParseInt` | data/mockData.ts:59 | `parseInt` of a digit string is below 10 to its length, its last digit is the units digit, and dropping that digit divides the value by ten |
| `MockData.ParseIntLeadingZero` | data/mockData.ts:59 | `parseInt` reads a leading zero as a zero digit: "0" + s is still a digit string with the value of s, so "07" is 7 |
| `MockData.Modifier` | data/mockData.ts:59 | the city offset `parseInt(cityId) % 5` of a digit-string id lies in [0, 4] |
| `MockData.ModifierExamples` | data/mockData.ts:59 | the catalogue cities' offsets: "34" gives 4, "06" gives 1, "07" gives 2, "33" gives 3, "35" gives 0 |
| `MockData.GetMarketPrices` | data/mockData.ts:58-65 | the synthetic list has as many items (12) as the catalogue, and every item keeps lowPrice <= avgPrice <= highPrice |
| `MockData.MockItemsOrdered` | data/mockData.ts:42-55 | every catalogue item has lowPrice <= avgPrice <= highPrice |
| `MockData.MarketPricesShape` | data/mockData.ts:60-65 | item i of the list is catalogue item i, with the same id, name, category, unit and trend, and with the city offset added to each of the three prices |
| `MockData.MarketPricesIgnoreDistrict` | data/mockData.ts:58-65 | the list does not depend on the market id |
| `MockData.IstanbulTomato` | data/mockData.ts:43-64 | in Istanbul the {25, 35, 30} tomato is priced {29, 39, 34} |
| `MockData.GetCities` | data/mockData.ts:68 | five cities with unique digit-string ids |
| `MockData.GetDistricts` | data/mockData.ts:69 | exactly the catalogue markets of that city, in catalogue order |
| `MockData.CityIdsUnique` | data/mockData.ts:23-29 | no two catalogue cities share an id |
| `MockData.DistrictIdsUnique` | data/mockData.ts:31-40 | no two catalogue markets share an id |
| `MockData.DistrictCitiesKnown` | data/mockData.ts:23-40 | every market's `cityId` names a catalogue city |
| `MockData.DistrictCityIdsDigits` | data/mockData.ts:31-40 | every market's `cityId` is a digit string, so `parseInt` reads a number from it |
| `MockData.CatalogueIdLengths` | data/mockData.ts:31-40 | market city ids have two characters and market ids four |
| `MarketContext.PriceKeyInjective` | context/MarketContext.tsx:67 | two markets whose city ids have one length share a `${cityId}-${id}` key only if they share both the city id and the id |
| `MarketContext.FallbackPrices` | context/MarketContext.tsx:66-68 | the keys of the map the `forEach` builds are exactly the `cityId-id` keys of the markets visited |
| `MarketContext.FallbackPricesExact` | context/MarketContext.tsx:66-68 | over markets with distinct keys, the map the loop builds has exactly one entry per market, under `cityId-id`, holding `getMarketPrices(cityId, id)` |
| `MarketContext.CatalogueDistinctPriceKeys` | context/MarketContext.tsx:66-68 | no two catalogue markets share a `cityId-id` key |
| `MarketContext.FallbackData` | context/MarketContext.tsx:59-68 | the fallback dataset holds the catalogue cities and markets, and its price keys are exactly the catalogue markets' `cityId-id` keys |
| `MarketContext.FallbackDataPrices` | context/MarketContext.tsx:58-68 | the fallback map has 8 entries, one per catalogue market under `cityId-id`, each a 12-item synthetic list |
| `MarketContext.AcceptedData` | context/MarketContext.tsx:44-70 | the remote body is adopted only from an ok response whose body parsed; otherwise the data is the fallback, with the catalogue cities and markets |
| `MarketContext.FailedFetchFallsBack` | context/MarketContext.tsx:58-70 | after a failed fetch there are five cities and every market has a non-empty price list under its key |
| `MarketContext.FindCity` | context/MarketContext.tsx:81 | `find` returns a city of the list with that id, or nothing exactly when no city has it |
| `MarketContext.FindDistrict` | context/MarketContext.tsx:88 | `find` returns a market of the list with that id, or nothing exactly when no market has it |
| `MarketContext.FindCityFirst` | context/MarketContext.tsx:81 | `find` returns the first city with that id: the one at index k when no city before k has the id |
| `MarketContext.FindDistrictFirst` | context/MarketContext.tsx:88 | `find` returns the first market with that id: the one at index k when no market before k has the id |
| `MarketContext.FindCityOwnId` | context/MarketContext.tsx:81 | with unique ids, looking a city up by its id returns that city |
| `MarketContext.FindDistrictOwnId` | context/MarketContext.tsx:88 | with unique ids, looking a market up by its id returns that market |
| `MarketContext.ResolveCity` | context/MarketContext.tsx:80-85 | a saved id that is in the catalogue selects that city; a saved id that is not leaves the current city; no saved id, or "", selects Antalya ("07") |
| `MarketContext.ResolveDistrict` | context/MarketContext.tsx:87-92 | a saved id that is in the catalogue selects that market, whatever the city; a saved id that is not leaves the current market; no saved id, or "", selects "07-1" |
| `MarketContext.ResolveFavorites` | context/MarketContext.tsx:94-99 | a saved list that parses replaces the favourites; a missing list, "" or a parse failure leaves them as they are |
| `MarketContext.RemoveAll` | context/MarketContext.tsx:116 | every occurrence of the id is removed, every other id keeps its number of occurrences, and the kept ids stay in order |
| `MarketContext.Toggle` | context/MarketContext.tsx:115-117 | the id is a member afterwards exactly when it was not before, and every other id keeps its membership |
| `MarketContext.ToggleKeepsNoDuplicates` | context/MarketContext.tsx:115-117 | toggling keeps a list free of duplicates |
| `MarketContext.ToggleTwiceAbsent` | context/MarketContext.tsx:115-117 | toggling an absent id twice restores exactly the same list |
| `MarketContext.ToggleTwiceSameMembers` | context/MarketContext.tsx:115-117 | toggling any id twice restores the same set of members |
| `MarketContext.MarketProvider.constructor` | context/MarketContext.tsx:23-27 | a fresh provider has no city, no market, no favourites and no data, and is loading |
| `MarketContext.MarketProvider.Initialize` | context/MarketContext.tsx:33-42 | the data is the accepted dataset, the selection and favourites are resolved from storage, and `isLoading` is set to false once |
| `MarketContext.BuildPrices` | context/MarketContext.tsx:66-68 | the loop builds the map `FallbackPrices` describes: one entry per visited market under its `cityId-id` key, and no other key |
| `MarketContext.MarketProvider.FetchData` | context/MarketContext.tsx:44-72 | the data becomes the accepted dataset: the parsed body of an ok response, or else the catalogue with the map `BuildPrices` builds |
| `MarketContext.MarketProvider.LoadPreferences` | context/MarketContext.tsx:74-100 | city, market and favourites become the resolutions of the three stored keys; nothing else changes |
| `MarketContext.MarketProvider.SetCity` | context/MarketContext.tsx:102-107 | the city is set and the market cleared; storage gains `selectedCityId` and loses `selectedDistrictId`; favourites are untouched |
| `MarketContext.MarketProvider.SetDistrict` | context/MarketContext.tsx:109-112 | the market is set and its id stored, with no check against the city |
| `MarketContext.MarketProvider.ToggleFavorite` | context/MarketContext.tsx:114-121 | the favourites become the toggled list, and the list is stored under `favorites` as JSON |
| `MarketContext.Mount` | context/MarketContext.tsx:22-42 | after mounting, `isLoading` has been true and then false, and the selection is resolved from storage starting from nothing |
| `MarketContext.ReloadAfterSetCity` | context/MarketContext.tsx:80-107 | after `setCity(c)` for a catalogue city `c`, a relaunch selects `c` again, but selects market "07-1", which belongs to another city unless `c` is Antalya |
| `MarketContext.ReloadAfterSetAnyCity` | context/MarketContext.tsx:80-107 | after `setCity(c)` for any city, for example one of a fetched list, a relaunch selects the catalogue city with `c`'s id whatever `c`'s name, no city when the catalogue lacks that id, and Antalya when the id is ""; the market is "07-1" in every case |
| `MarketContext.ReloadAfterSetDistrict` | context/MarketContext.tsx:87-112 | after `setDistrict(d)` for a catalogue market, a relaunch selects `d` again |
| `MarketContext.SavedDistrictNotCheckedAgainstCity` | context/MarketContext.tsx:80-92 | any saved catalogue city with any saved catalogue market reloads as exactly that pair, so a market of another city is selected beside the city |
| `MarketContext.IstanbulWithIzmirMarket` | context/MarketContext.tsx:80-92 | saved city "34" with saved market "35-1" reloads as Istanbul with Izmir's market |
| `MarketContext.FavoritesReloadAfterToggle` | context/MarketContext.tsx:94-121 | the list `toggleFavorite` stores reloads as the same list when the JSON codec round-trips it |
| `HomeScreen.MarketItems` | app/index.tsx:14-20 | the list is empty without a city, a market or data; with all three it is the list stored under the market's own id, or empty when that key is absent |
| `HomeScreen.FallbackLookupMisses` | app/index.tsx:14-20 | with the fallback data, every catalogue market's lookup returns the empty list |
| `HomeScreen.MarketItemsByPriceKey` | app/index.tsx:14-20 | the same lookup under the `cityId-id` key that the datasets are written with: empty without a city, a market or data, else the list under that key or empty when it is absent |
| `HomeScreen.FallbackLookupByPriceKey` | app/index.tsx:14-20 | under `cityId-id`, every catalogue market finds its 12 synthetic prices in the fallback |
| `HomeScreen.Lower` | app/index.tsx:24 | lower-casing keeps the length, leaves no letter A-Z, turns each of them into its lower-case letter and keeps every other character |
| `HomeScreen.LowerIdempotent` | app/index.tsx:24 | lower-casing a lower-cased text changes nothing |
| `HomeScreen.Contains` | app/index.tsx:24 | `includes` holds exactly when the search text occurs at some position of the name |
| `HomeScreen.ContainsEmpty` | app/index.tsx:24 | the empty search text is found in every name |
| `HomeScreen.FilteredItems` | app/index.tsx:22-28 | an order-preserving subsequence of the listed items, holding exactly those whose lower-cased name contains the lower-cased query and whose category is the chosen one (any category for 'Tümü'), each as many times as in the list |
| `HomeScreen.FilterWithoutCriteria` | app/index.tsx:22-28 | with query "" and 'Tümü', the filtered list is the whole list |
| `HomeScreen.FilterAgainUnchanged` | app/index.tsx:22-28 | filtering the filtered list again with the same criteria changes nothing |
| `HomeScreen.ToggleFlipsMark` | app/index.tsx:101 | toggling an item flips its favourite mark and leaves every other item's mark alone |

## Findings

| source | as written | input that shows it | evidently intended | confidence | as-written member | corrected member |
|---|---|---|---|---|---|---|
| app/index.tsx:19 | the home screen reads `marketData.prices[selectedDistrict.id]`, but the fallback (context/MarketContext.tsx:67) and the generated dataset (scripts/scrape.js:68) store each list under `cityId-districtId` | start offline with market `34-1` selected: the list is stored under `34-34-1`, the screen looks up `34-1` and shows no items | the comment at app/index.tsx:18 says the key is the market id, so either the reader or the writers are wrong: look the list up under `selectedDistrict.cityId + "-" + selectedDistrict.id`, or write the lists under the market id alone at context/MarketContext.tsx:67 and scripts/scrape.js:68; the model takes the first fix | high (not executed) | `HomeScreen.FallbackLookupMisses` | `HomeScreen.FallbackLookupByPriceKey` |

`HomeScreen.MarketItems` is the lookup as written. `HomeScreen.MarketItemsByPriceKey`
is the corrected lookup. The filter takes either list.

## Left out

- Asynchrony and I/O. `fetch` becomes the `FetchOutcome` parameter. AsyncStorage becomes the `storage` map field, whose reads and writes always succeed. A rejected `getItem` or `setItem` is not modelled.
- The fixed `DATA_URL` and `console.log`/`console.error` logging. Neither affects state.
- The `catch` in `initialize`. In the model neither step can throw, so only the `finally` part is modelled.
- JSON. `JSON.stringify` and `JSON.parse` are the injected `JsonCodec`. A saved favourites value that parses to something other than a list of strings is not modelled.
- The shape of a remote body. It is typed as `MarketData`. A body of another shape, and the one-decimal prices of the generated dataset, are not modelled: prices are whole numbers, as in the catalogue.
- React plumbing: hooks, context, and the `useMarket` provider check. React applies state updates asynchronously, so two quick taps on one star may both read the same stale `favorites`. The model treats every update as immediate.
- `scripts/scrape.js` (`generateData`, `saveData`), because it uses `Math.random`, float rounding and the filesystem. Only its `cityId-districtId` key format appears, in the Finding above.
- `toLowerCase` beyond ASCII. `HomeScreen.Lower` maps A–Z only, so Turkish case mapping (İ, I, ı) is not modelled.
- `ParseInt`, `Modifier` and `GetMarketPrices` require a non-empty digit-string city id, and every catalogue id is one. For other ids JavaScript's `parseInt` behaves differently, and none of this is modelled: it reads a leading digit prefix ("12x" is 12); it accepts a sign, and since `%` truncates toward zero a negative id gives a negative offset ("-3" gives -3); it returns NaN for an id with no leading digit, which makes every price NaN.
- `ParseInt`: the value is exact for any length, while a JavaScript number loses precision above 2^53. Ids that long are not modelled.
- Presentation files: components/PriceCard.tsx, components/CitySelector.tsx, app/city-selection.tsx (its market filter repeats `getDistricts`) and app/_layout.tsx.
