# LocaList (PinGuin) core, modelled in Dafny

LocaList is a collaborative map. Visitors search OpenStreetMap places and pin
them, rate and favourite them, and sign in with a password or with Google.
This project models the logic behind that front end:

- the search box controller in `search.svelte.ts`, covering:
  - the exact cache and the autocomplete cache;
  - result de-duplication;
  - the API request with its language fallback;
  - keyboard navigation;
  - the selection history;
- the map controller that places the marker and moves the viewport;
- the offline store of pins, reviews and favourites;
- the stores for the details sheet, the candidate pin and the theme;
- locale detection and the i18n store;
- the page head builder;
- the rating colour table;
- the input validators and sanitisers;
- the address formatter;
- the central error handler;
- the server side of the sign-up and login pages.

How the source's forms are carried over:

- A store or controller whose methods update fields is a Dafny `class`. Each
  method's `ensures` gives the whole new state as a function of the old one.
- That function is specified by lemmas: the invariants it keeps, the
  round-trips it completes, and what a sequence of calls leaves behind.
- Pure helpers are functions whose results are characterised by their
  `ensures` clauses or by lemmas beside them.
- Outside effects become visible state or parameters:
  - `localStorage` is a `Stored<T>` slot: absent, parsed, or corrupt;
  - the clock is a `now` argument;
  - `fetch` and the Supabase calls are oracle functions, and the model
    records the requests made to them;
  - notifications are a list of toasts;
  - the Leaflet map is a fake map that records the calls made on it.

Modules: `Wrappers` (Option), `JsString` (trim, lower case, `includes`,
`startsWith`, `join`, `filter`, subsequences), `Storage`, `Toasts`, `Osm`,
`SearchHistory`, `SearchCache`, `SearchResults`, `Search`, `MapControl`,
`LocalData`, `Seo`, `RatingColors`, `Locales`, `PageActions`, `SignupPage`,
`LoginPage`, `Validation`, `BottomSheet`, `GhostPin`, `Theme`, `Geocoding`,
`ErrorHandling`.

## Model

| member | source | states |
|---|---|---|
| Osm.PlaceTypeIsArea | src/lib/utils/osm.ts:19-40 | a place is an area exactly when its `osm_value` is one of the ten area values or its key is `landuse`/`boundary` |
| Osm.GetPlaceType | src/lib/utils/osm.ts:19-40 | `getPlaceType`; specified by `PlaceTypeIsArea` |
| Osm.UnderscoresToSpaces | src/lib/utils/osm.ts:15 | same length; every `_` becomes a space and every other character is kept |
| Osm.CapitalizeWords | src/lib/utils/osm.ts:16 | same length; exactly the word characters that start a word are upper-cased |
| Osm.PlaceLabelFromDictionary | src/lib/utils/osm.ts:4-11 | a non-empty dictionary entry for `key:value` is the label |
| Osm.FallbackLabel | src/lib/utils/osm.ts:13-16 | without a non-empty entry (absent, or the empty string) the label is the value with `_` as spaces and each word's first letter upper-cased, character by character |
| Osm.GetPlaceLabel | src/lib/utils/osm.ts:4-17 | `getPlaceLabel`; specified by `PlaceLabelFromDictionary` and `FallbackLabel` |
| SearchHistory.AddToHistoryShape | src/lib/components/search/search.svelte.ts:387-405 | the new entry comes first; the rest are the leading (most recent) older entries for other queries, in order; the length is capped at 5 |
| SearchHistory.AddToHistory | src/lib/components/search/search.svelte.ts:387-405 | the list `saveToHistory` keeps; specified by `AddToHistoryShape`, `AddToHistoryNoDuplicates` and `SixthSelectionDropsOldest` |
| SearchHistory.AddToHistoryNoDuplicates | src/lib/components/search/search.svelte.ts:391-400 | a history without repeated queries (case-insensitively) stays so |
| SearchHistory.SixthSelectionDropsOldest | src/lib/components/search/search.svelte.ts:402-405 | a new query on a full history drops exactly the oldest entry |
| SearchCache.FindQuery | src/lib/components/search/search.svelte.ts:271 | none exactly when no entry has the query case-insensitively; otherwise the first such entry |
| SearchCache.Lookup | src/lib/components/search/search.svelte.ts:269-278 | `getFromCache`; specified by `WriteThenLookup` and `ExpiredIsAbsent` |
| SearchCache.Write | src/lib/components/search/search.svelte.ts:333-349 | the list `saveToCache` writes; specified by `WriteShape` and `WritePreservesNoDuplicates` |
| SearchCache.WriteShape | src/lib/components/search/search.svelte.ts:333-349 | the new entry is last; before it come the other queries' entries in order, minus the oldest when the list was full; the size stays within `MAX_ENTRIES` |
| SearchCache.WritePreservesNoDuplicates | src/lib/components/search/search.svelte.ts:337-348 | writing keeps the cache free of duplicate queries |
| SearchCache.WriteThenLookup | src/lib/components/search/search.svelte.ts:269-278 | a fresh lookup of the same query, in any case, finds exactly the results written |
| SearchCache.ExpiredIsAbsent | src/lib/components/search/search.svelte.ts:273-277 | an entry older than the TTL is not returned |
| SearchCache.FreshEntries | src/lib/components/search/search.svelte.ts:361-363 | the kept entries are exactly the fresh ones, in order; nothing is dropped exactly when all are fresh |
| SearchCache.Collected | src/lib/components/search/search.svelte.ts:294-306 | a feature is collected exactly when its normalised name contains the query and some entry holds it |
| SearchCache.CollectMatchesFromCache | src/lib/components/search/search.svelte.ts:294-306 | the loop computes `Collected` |
| SearchCache.FirstByIdDistinct | src/lib/components/search/search.svelte.ts:308-318 | the de-duplicated matches have distinct `osm_id`s |
| SearchCache.FirstByIdComplete | src/lib/components/search/search.svelte.ts:311-315 | the first match of every id is kept |
| SearchCache.FirstByIdKeepsEveryId | src/lib/components/search/search.svelte.ts:308-318 | every id of the matches survives de-duplication |
| SearchCache.FirstById | src/lib/components/search/search.svelte.ts:308-318 | the result of `deduplicateMatches`; specified by `FirstByIdDistinct`, `FirstByIdComplete`, `FirstByIdOnlyFirsts` and `FirstByIdKeepsEveryId` |
| SearchCache.DeduplicateMatches | src/lib/components/search/search.svelte.ts:308-318 | the loop computes the first match per id, in order |
| SearchCache.FirstByIdOnlyFirsts | src/lib/components/search/search.svelte.ts:308-318 | only a match that is the first of its `osm_id`, in cache order, is kept |
| SearchCache.PartitionOrder | src/lib/components/search/search.svelte.ts:320-331 | after sorting, no prefix match comes after a non-prefix match |
| SearchCache.PartitionIsStable | src/lib/components/search/search.svelte.ts:320-331 | the sort is stable: a permutation of its input whose first part is the prefix matches and whose second part is the rest, each group a subsequence of the input in its original order |
| SearchCache.SortByRelevance | src/lib/components/search/search.svelte.ts:320-331 | `sortByRelevance`; specified by `PartitionOrder` and `PartitionIsStable` |
| SearchCache.SearchInCacheNone | src/lib/components/search/search.svelte.ts:280-286 | none exactly when no cached feature's name contains the normalised query |
| SearchCache.SearchInCacheSome | src/lib/components/search/search.svelte.ts:280-331 | 1 to `MAX_DISPLAYED_RESULTS` matching cached features with distinct ids, prefix matches first; the result is the head of the stably sorted first-per-id matches, and each shown feature is the first match of its id in cache order |
| SearchCache.SearchInCache | src/lib/components/search/search.svelte.ts:280-331 | `searchInCache`; specified by `SearchInCacheNone` and `SearchInCacheSome` |
| SearchResults.HighwayKeyIgnoresStreet | src/lib/components/search/search.svelte.ts:246-254 | two roads with the same normalised name and city share a key, whatever the street |
| SearchResults.PoiKeyIncludesStreet | src/lib/components/search/search.svelte.ts:255-256 | for two places with the same name and city, the keys agree exactly when the streets do |
| SearchResults.UniqueKey | src/lib/components/search/search.svelte.ts:246-257 | `generateUniqueKey`; specified by `HighwayKeyIgnoresStreet` and `PoiKeyIncludesStreet` |
| SearchResults.FixCountry | src/lib/components/search/search.svelte.ts:226-228 | `Brazil` becomes `Brasil`; any other country leaves the feature untouched; the geometry and every other property are kept |
| SearchResults.IdsSeenSpec | src/lib/components/search/search.svelte.ts:230-233 | the id set after a prefix holds exactly the truthy ids of that prefix |
| SearchResults.KeysSeenSpec | src/lib/components/search/search.svelte.ts:235-241 | the key set after a prefix holds exactly the keys of the named features that passed the id test |
| SearchResults.KeptIndicesSpec | src/lib/components/search/search.svelte.ts:225-243 | the kept indices increase and are exactly those the filter keeps |
| SearchResults.FilterDuplicates | src/lib/components/search/search.svelte.ts:219-244 | the loop with its two sets computes `Deduplicated` |
| SearchResults.Deduplicated | src/lib/components/search/search.svelte.ts:219-244 | what `filterDuplicates` returns; specified by `FilterDuplicates` and the `Deduplicated…` lemmas |
| SearchResults.DeduplicatedIsOrderedSelection | src/lib/components/search/search.svelte.ts:225-243 | the result is the kept features in input order, with the country fixed |
| SearchResults.DeduplicatedIdsDistinct | src/lib/components/search/search.svelte.ts:230-233 | no truthy id appears twice in the result |
| SearchResults.NamelessKept | src/lib/components/search/search.svelte.ts:236-238 | a feature with an empty normalised name is dropped only when its id was seen before |
| SearchResults.DeduplicatedHasNoBrazil | src/lib/components/search/search.svelte.ts:226-228 | no result says `Brazil` |
| SearchResults.SecondRoadDropped | src/lib/components/search/search.svelte.ts:230-241 | a second road with the same name and city is dropped, whatever either id |
| SearchResults.PoisOnDifferentStreetsKept | src/lib/components/search/search.svelte.ts:230-256 | two places on different streets that do not share a truthy id are both kept, including two without an id or with id 0 |
| SearchResults.SameIdKeepsFirst | src/lib/components/search/search.svelte.ts:230-232 | of two features with the same truthy id, only the first is kept |
| Search.FallbackRequest | src/lib/components/search/search.svelte.ts:186-191 | a fallback exists exactly when the default language was requested; it drops only the language |
| Search.FetchFromApi | src/lib/components/search/search.svelte.ts:159-168 | one request, or a second one exactly when the first failed with the default language; the outcome is the body of the last response |
| Search.FallbackOnce | src/lib/components/search/search.svelte.ts:186-196 | when both requests fail, exactly the two requests are made and there is no outcome |
| Search.NextIndex | src/lib/components/search/search.svelte.ts:77-84 | the next index, wrapping from the last to the first; unchanged without results |
| Search.PrevIndex | src/lib/components/search/search.svelte.ts:86-93 | the previous index, wrapping from the first or from none to the last |
| Search.NavigateInverse | src/lib/components/search/search.svelte.ts:77-93 | down then up, or up then down, returns to the same index |
| Search.CleanedStoreSpec | src/lib/components/search/search.svelte.ts:356-369 | after cleaning, the cache holds the fresh entries; the slot is rewritten exactly when some entry expired; the cache invariant is kept |
| Search.SavedStoreSpec | src/lib/components/search/search.svelte.ts:333-354 | saving keeps the cache invariant, then a fresh lookup of the query finds the results; without storage nothing changes |
| Search.InitializedSpec | src/lib/components/search/search.svelte.ts:33-39 | only the initialised flag, the cache and the history change; this happens once, and only with storage; the cache keeps only its fresh entries |
| Search.TypedSpec | src/lib/components/search/search.svelte.ts:50-75 | the query is set, the focus and the selection are reset; a short query shows nothing; otherwise at most `MAX_DISPLAYED_RESULTS` cached matches |
| Search.Typed | src/lib/components/search/search.svelte.ts:50-75 | the fields after `setQuery`; specified by `TypedSpec` |
| Search.SelectedSpec | src/lib/components/search/search.svelte.ts:136-150 | the query becomes the name; results are cleared; the history gets the entry; no search follows |
| Search.Selected | src/lib/components/search/search.svelte.ts:136-150 | the fields after `selectResult`; specified by `SelectedSpec` |
| Search.SearchGuard | src/lib/components/search/search.svelte.ts:107-157 | without a reason to search only the initialisation happens; otherwise the search ends with the query as the last one searched |
| Search.SearchRepeatIsNoOp | src/lib/components/search/search.svelte.ts:152-217 | a second search right after one changes nothing |
| Search.SearchedCacheHit | src/lib/components/search/search.svelte.ts:116-122 | a fresh exact cache entry is shown, with no request and no notice |
| Search.SearchedFailure | src/lib/components/search/search.svelte.ts:124-133 | a failed request empties the results and adds one error toast |
| Search.SearchedSuccess | src/lib/components/search/search.svelte.ts:124-211 | the de-duplicated features, capped, are shown and cached for the query |
| Search.SearchedKeepsInvariants | src/lib/components/search/search.svelte.ts:107-134 | a search keeps the focus valid and the cache free of duplicates and within size |
| Search.Searched | src/lib/components/search/search.svelte.ts:107-217 | the fields after `search()`; specified by `SearchGuard`, `SearchRepeatIsNoOp`, `SearchedCacheHit`, `SearchedFailure`, `SearchedSuccess` and `SearchedKeepsInvariants` |
| Search.ProcessedSpec | src/lib/components/search/search.svelte.ts:201-243 | no features: nothing shown or saved; a non-array: nothing shown, an empty list saved; a list: at most `MAX_DISPLAYED_RESULTS` de-duplicated features, no `Brazil`, no truthy id twice, saved |
| Search.Processed | src/lib/components/search/search.svelte.ts:201-211 | what `processResults` shows and whether it saves; specified by `ProcessedSpec` |
| Search.SearchState.constructor | src/lib/components/search/search.svelte.ts:17-28 | the initial field values |
| Search.SearchState.Cache | src/lib/components/search/search.svelte.ts:259-267 | the cache as read, where a missing or corrupt slot reads as empty |
| Search.SearchState.CleanOldCache | src/lib/components/search/search.svelte.ts:356-369 | only the cache slot changes, as `CleanedStore` |
| Search.SearchState.LoadHistory | src/lib/components/search/search.svelte.ts:373-385 | only the history changes, as `LoadedHistory` |
| Search.SearchState.EnsureInitialized | src/lib/components/search/search.svelte.ts:33-39 | the state becomes `Initialized` |
| Search.SearchState.SaveToCache | src/lib/components/search/search.svelte.ts:333-354 | only the cache slot changes, as `SavedStore` |
| Search.SearchState.SaveToHistory | src/lib/components/search/search.svelte.ts:387-412 | the history gets the entry and the slot stores it, when there is storage |
| Search.SearchState.ClearHistory | src/lib/components/search/search.svelte.ts:414-423 | with storage the history is empty and the slot removed; without it nothing changes |
| Search.SearchState.Clear | src/lib/components/search/search.svelte.ts:41-48 | exactly the six fields are reset |
| Search.SearchState.SearchInCache | src/lib/components/search/search.svelte.ts:280-292 | the autocomplete over the cache as read |
| Search.SearchState.SetQuery | src/lib/components/search/search.svelte.ts:50-75 | the state becomes `Typed` |
| Search.SearchState.NavigateDown | src/lib/components/search/search.svelte.ts:77-84 | only the focus moves, by `NextIndex` |
| Search.SearchState.NavigateUp | src/lib/components/search/search.svelte.ts:86-93 | only the focus moves, by `PrevIndex` |
| Search.SearchState.CloseResults | src/lib/components/search/search.svelte.ts:101-105 | unfocused, no focus index, no results |
| Search.SearchState.SelectResult | src/lib/components/search/search.svelte.ts:136-150 | the state becomes `Selected` and the map selects the location |
| Search.SearchState.SelectFocused | src/lib/components/search/search.svelte.ts:95-99 | a valid focus selects that result; otherwise nothing changes, including the map |
| Search.SearchState.FinishSearch | src/lib/components/search/search.svelte.ts:213-217 | not loading, searched, and the last searched query is the query |
| Search.SearchState.ProcessResults | src/lib/components/search/search.svelte.ts:201-211 | the state becomes `AfterProcess` |
| Search.SearchState.FetchAndProcess | src/lib/components/search/search.svelte.ts:124-199 | the requests of `FetchFromApi` are logged and their outcome handled |
| Search.SearchState.RunSearch | src/lib/components/search/search.svelte.ts:111-133 | the try/catch/finally body after the guard |
| Search.SearchState.Search | src/lib/components/search/search.svelte.ts:107-134 | the state becomes `Searched` |
| MapControl.LocateErrorMessage | src/lib/components/map/map.svelte.ts:43-53 | code 1 is denied, code 3 is timeout, anything else is unavailable |
| MapControl.LocateNotice | src/lib/components/map/map.svelte.ts:36-57 | success exactly on a position; without geolocation the unavailable error; otherwise the code's error |
| MapControl.MarkerClass | src/lib/components/map/map.svelte.ts:65-71 | `area-marker` exactly for areas, `pin-marker` exactly for points |
| MapControl.MarkerFor | src/lib/components/map/map.svelte.ts:63-79 | the marker is at the feature's `[lat, lng]`, with its class |
| MapControl.ViewportCall | src/lib/components/map/map.svelte.ts:81-96 | fit the bounds exactly when there is an extent, with the corners reordered; otherwise fly to the point at the search zoom |
| MapControl.RemoveMarker | src/lib/components/map/map.svelte.ts:67-69 | exactly the other layers remain |
| MapControl.PlaceMarkerLeavesOne | src/lib/components/map/map.svelte.ts:67-79 | with only the current marker on the map, placing leaves just the new one |
| MapControl.SelectedMapSpec | src/lib/components/map/map.svelte.ts:60-97 | without a map or Leaflet nothing changes; otherwise remove the old marker, add the new one, and move the viewport, with the call log extended by exactly these calls |
| MapControl.MapState.constructor | src/lib/components/map/map.svelte.ts:9-12 | no map, no Leaflet, no marker |
| MapControl.MapState.SetMap | src/lib/components/map/map.svelte.ts:14-17 | map and library set; nothing else changes |
| MapControl.MapState.GetCenter | src/lib/components/map/map.svelte.ts:23-26 | none exactly without a map, otherwise the map's centre |
| MapControl.MapState.SetCenter | src/lib/components/map/map.svelte.ts:28-31 | with a map, one `setView` at the search zoom is logged; without one nothing changes |
| MapControl.MapState.LocateUser | src/lib/components/map/map.svelte.ts:33-58 | with a map, one notice per attempt, and a fly-to only on success; without one nothing changes |
| MapControl.MapState.SelectLocation | src/lib/components/map/map.svelte.ts:60-97 | the fields become `SelectedMap` |
| LocalData.NewPin | src/lib/stores/localData.svelte.ts:70-76 | the input fields plus the new id and timestamp, marked local |
| LocalData.NewReview | src/lib/stores/localData.svelte.ts:83-90 | the input fields, no photos, the new id and timestamp, marked local |
| LocalData.IndexOf | src/lib/stores/localData.svelte.ts:98 | -1 exactly when absent, otherwise the first position |
| LocalData.ToggledSpec | src/lib/stores/localData.svelte.ts:97-103 | a present id is spliced out at its first position; an absent one is appended |
| LocalData.Toggled | src/lib/stores/localData.svelte.ts:97-103 | the favourites after `toggleFavorite`; specified by `ToggledSpec`, `ToggledMembership` and `ToggleTwice` |
| LocalData.ToggledMembership | src/lib/stores/localData.svelte.ts:97-103 | on a duplicate-free list the id's membership flips, the rest is untouched, and there are still no duplicates |
| LocalData.ToggleTwice | src/lib/stores/localData.svelte.ts:97-103 | toggling twice restores an absent id exactly, and a duplicate-free list by membership |
| LocalData.WithoutPin | src/lib/stores/localData.svelte.ts:132-135 | exactly the pins with other ids, each as often as it occurs, in order |
| LocalData.WithoutReview | src/lib/stores/localData.svelte.ts:138-141 | exactly the reviews with other ids, each as often as it occurs, in order |
| LocalData.LocalDataStore.HasLocalData | src/lib/stores/localData.svelte.ts:114-123 | true exactly when the total count is positive, that is, some list is non-empty |
| LocalData.LocalDataStore.IsFavorite | src/lib/stores/localData.svelte.ts:109-111 | agrees with `indexOf` |
| LocalData.LocalDataStore.constructor | src/lib/stores/localData.svelte.ts:37-59 | the stored data in a browser when it parses, otherwise empty |
| LocalData.LocalDataStore.Save | src/lib/stores/localData.svelte.ts:61-67 | the data is unchanged and persisted |
| LocalData.LocalDataStore.AddPin | src/lib/stores/localData.svelte.ts:70-80 | the new pin is returned and appended; in a browser the slot holds the new data, outside one it is left as it was |
| LocalData.LocalDataStore.AddReview | src/lib/stores/localData.svelte.ts:83-94 | the new review is returned and appended; in a browser the slot holds the new data, outside one it is left as it was |
| LocalData.LocalDataStore.ToggleFavorite | src/lib/stores/localData.svelte.ts:97-106 | returns whether the id was absent, which is the new favourite state; the favourites become `Toggled`; the slot holds the new data in a browser and is left as it was outside one |
| LocalData.LocalDataStore.Clear | src/lib/stores/localData.svelte.ts:126-129 | empty data, no local data; the slot holds it in a browser and is left as it was outside one |
| LocalData.LocalDataStore.RemovePin | src/lib/stores/localData.svelte.ts:132-135 | pins become `WithoutPin`; the slot holds the new data in a browser and is left as it was outside one |
| LocalData.LocalDataStore.RemoveReview | src/lib/stores/localData.svelte.ts:138-141 | reviews become `WithoutReview`; the slot holds the new data in a browser and is left as it was outside one |
| Seo.Values | src/lib/utils/seo.ts:23-51 | the contents the tags of a key carry |
| Seo.MetaTags | src/lib/utils/seo.ts:11-52 | `generateMetaTags` as a list of tags; specified by `ValuesOfMetaTags`, `TitleAndDescription`, `ImageTags`, `TypeTag`, `UrlEverywhere` and `OptionalTags` |
| Seo.ValuesOfMetaTags | src/lib/utils/seo.ts:23-51 | an emitted key carries its content alone; a key left out carries nothing |
| Seo.TitleAndDescription | src/lib/utils/seo.ts:15-44 | the title (default when empty) fills the title tag and the three title metas; likewise the description |
| Seo.ImageTags | src/lib/utils/seo.ts:13-45 | both image tags carry the image, defaulting to `/og-image.png` |
| Seo.TypeTag | src/lib/utils/seo.ts:21-32 | `og:type` carries the type, defaulting to `website` |
| Seo.UrlEverywhere | src/lib/utils/seo.ts:20-50 | url metas and the one canonical link, which is last, carry the url, defaulting to the site |
| Seo.OptionalTags | src/lib/utils/seo.ts:28-29 | keywords exactly when an array is given, joined with `, `; author exactly when non-empty |
| Seo.PinPage | src/lib/utils/seo.ts:72-79 | an article titled `<name> - LocaList`, with the description or the default naming the pin, and no keywords or author |
| Seo.SeoForPin | src/lib/utils/seo.ts:72-79 | `getSEOForPin`; specified by `PinPage` |
| Seo.FavoritesPage | src/lib/utils/seo.ts:81-87 | the title names the user exactly when a name is given; website type |
| Seo.SeoForFavorites | src/lib/utils/seo.ts:81-87 | `getSEOForFavorites`; specified by `FavoritesPage` |
| RatingColors.RatingColor | src/lib/utils/ratingColors.ts:26-44 | grey exactly for no rating, then green at 4 or more, yellow at 2.5, orange at 1.5, else red |
| RatingColors.RatingLabel | src/lib/utils/ratingColors.ts:51-57 | `getRatingLabel`; specified by `LabelMatchesColor`: the label of the colour's scheme |
| RatingColors.LabelMatchesColor | src/lib/utils/ratingColors.ts:13-57 | the label and the colour always belong to one scheme of the table |
| RatingColors.FindScheme | src/lib/utils/ratingColors.ts:65-68 | a found scheme contains the rating; none exactly when none contains it |
| RatingColors.FindSchemeInTable | src/lib/utils/ratingColors.ts:13-68 | the ranges of the table, with their gaps |
| RatingColors.RatingCategoryAsWritten | src/lib/utils/ratingColors.ts:64-71 | `getRatingCategory` as written; specified by `FindSchemeInTable`, `CategoryAgreesWhereCovered` and `CategoryGapCounterexample` |
| RatingColors.CategoryAgreesWhereCovered | src/lib/utils/ratingColors.ts:64-71 | where the table covers the rating, the category is the label |
| RatingColors.CategoryGapCounterexample | src/lib/utils/ratingColors.ts:64-71 | 3.995, 5.5, -1 and 0.005 get a tier label but an unrated category |
| RatingColors.RatingCategory | src/lib/utils/ratingColors.ts:64-71 | the corrected category is the label |
| RatingColors.RatingCategoryRepairsGaps | src/lib/utils/ratingColors.ts:13-71 | the corrected category matches the colour's scheme and agrees with the source where that is covered |
| RatingColors.IsGoodRating | src/lib/utils/ratingColors.ts:78-80 | good exactly for green or yellow, that is, a truthy rating of at least 2.5 |
| Locales.ParseLocale | src/lib/i18n/i18n.svelte.ts:6-9 | only `pt-BR` and `en-US` are locales |
| Locales.ParseLocaleCode | src/lib/i18n/i18n.svelte.ts:6-9 | a locale's code parses back to it |
| Locales.BrowserLanguage | src/lib/i18n/i18n.svelte.ts:19 | never empty; `navigator.language` when truthy |
| Locales.FromBrowser | src/lib/i18n/i18n.svelte.ts:22-26 | English exactly for an `en…` language that is not `pt…` |
| Locales.DetectLanguageAsWritten | src/lib/i18n/i18n.svelte.ts:11-27 | `detectLanguage` as written; specified by `DetectLanguageAcceptsInheritedName` and `DetectLanguageAgrees` |
| Locales.DetectLanguageAcceptsInheritedName | src/lib/i18n/i18n.svelte.ts:15-16 | the source accepts a saved `toString`, which is not a locale |
| Locales.DetectLanguage | src/lib/i18n/i18n.svelte.ts:11-27 | Portuguese outside a browser; a saved locale wins; otherwise the browser decides |
| Locales.DetectLanguageAgrees | src/lib/i18n/i18n.svelte.ts:11-27 | the corrected detection agrees with the source except on inherited names |
| Locales.SetLocaleIsRemembered | src/lib/i18n/i18n.svelte.ts:15-59 | a locale that is set is detected again on the next load |
| Locales.I18n.constructor | src/lib/i18n/i18n.svelte.ts:29-31 | Portuguese, not initialised |
| Locales.I18n.UpdateHtmlLang | src/lib/i18n/i18n.svelte.ts:61-65 | the document language is the locale's code, in a browser |
| Locales.I18n.Init | src/lib/i18n/i18n.svelte.ts:33-39 | once, in a browser, the locale found by the corrected detection is set and written to the document |
| Locales.I18n.GetLocale | src/lib/i18n/i18n.svelte.ts:41-50 | reports the locale; on the first call in a browser it is the locale of the corrected detection, the store is initialised and the document language is set; otherwise nothing changes |
| Locales.I18n.SetLocale | src/lib/i18n/i18n.svelte.ts:52-59 | the locale is set; in a browser it is also saved and written to the document |
| Locales.I18n.T | src/lib/i18n/i18n.svelte.ts:67-70 | the current locale's dictionary; on the first call in a browser the locale of the corrected detection is set, the store initialised and the document language written; otherwise nothing changes |
| PageActions.Load | src/routes/signup/+page.server.ts:4-12 | a 303 home exactly with a session, otherwise the page data |
| PageActions.OAuthOutcome | src/routes/signup/+page.server.ts:60-66 | 400 exactly on an error; a 303 to the provider url exactly when there is no error and a url |
| SignupPage.Rejection | src/routes/signup/+page.server.ts:21-31 | no rejection exactly when all fields are given, match, and have 6 or more characters |
| SignupPage.SignUpErrorMessage | src/routes/signup/+page.server.ts:41-46 | the already-registered text exactly for that provider error |
| SignupPage.SignupChecks | src/routes/signup/+page.server.ts:15-39 | the three checks in order, with no call on a rejection and exactly one call with the callback url otherwise |
| SignupPage.SignupAnswer | src/routes/signup/+page.server.ts:33-49 | 303 home exactly when the call succeeds, otherwise the mapped 400 |
| SignupPage.Signup | src/routes/signup/+page.server.ts:15-49 | the `signup` action; specified by `SignupChecks`, `SignupAnswer` and `ShortMismatchReportsMismatch` |
| SignupPage.ShortMismatchReportsMismatch | src/routes/signup/+page.server.ts:25-31 | a short mismatched password reports the mismatch |
| SignupPage.SignupWithGoogleSpec | src/routes/signup/+page.server.ts:52-67 | asks for the callback url; 400 on an error, 303 to the provider url, else nothing |
| LoginPage.RedirectTarget | src/routes/login/+page.server.ts:37 | the `redirect` parameter when truthy, else `/` |
| LoginPage.SignInErrorMessage | src/routes/login/+page.server.ts:29-35 | the invalid-credentials text exactly for that provider error |
| LoginPage.LoginFlow | src/routes/login/+page.server.ts:15-39 | missing fields fail with no call; otherwise one call, then the mapped 400 or a 303 to the target |
| LoginPage.Login | src/routes/login/+page.server.ts:15-39 | the `login` action; specified by `LoginFlow` |
| LoginPage.LoginWithGoogleSpec | src/routes/login/+page.server.ts:41-57 | the callback carries the encoded target, which is home when empty; 400 on an error, 303 to the provider url, else nothing |
| Validation.IsValidCoords | src/lib/utils/validation.ts:7-17 | both coordinates are within their closed ranges |
| Validation.IsValidPinName | src/lib/utils/validation.ts:20-23 | valid exactly when the trimmed name (`JsString.TrimSpec`: the input less its leading and trailing whitespace) has 3 to 255 characters; so a valid name has a non-space character |
| JsString.TrimSpec | src/lib/utils/validation.ts:21 | `trim()` leaves a slice of the input with only whitespace before and after it and no whitespace at either of its ends |
| Validation.IsValidDescription | src/lib/utils/validation.ts:25-27 | at most 1000 characters |
| Validation.IsValidComment | src/lib/utils/validation.ts:29-32 | valid exactly when the trimmed comment has 1 to 500 characters, that is, it has a non-space character and its trimmed length is at most 500 |
| Validation.TrimmedInputJudgedAlike | src/lib/utils/validation.ts:20-32 | trimming first changes neither verdict |
| Validation.IsValidEmail | src/lib/utils/validation.ts:35-38 | exactly the strings `[^\s@]+@[^\s@]+\.[^\s@]+` matches |
| Validation.IsValidUUID | src/lib/utils/validation.ts:41-44 | exactly the 8-4-4-4-12 hexadecimal shape |
| Validation.UuidCaseInsensitive | src/lib/utils/validation.ts:42 | the `i` flag: lower-casing changes no verdict |
| Validation.IsValidImageType | src/lib/utils/validation.ts:47-50 | exactly the four image types |
| Validation.IsValidImageSize | src/lib/utils/validation.ts:52-54 | the default allows up to 10485760 bytes |
| Validation.ImageSizeMonotone | src/lib/utils/validation.ts:52-54 | a larger limit accepts everything a smaller one does |
| Validation.IsValidRating | src/lib/utils/validation.ts:57-59 | exactly the integers 1 to 5 |
| Validation.RemoveAngles | src/lib/utils/validation.ts:63 | no angle brackets remain; every other character occurs exactly as often as in the input, and in the same order |
| Validation.SanitizeString | src/lib/utils/validation.ts:62-64 | the trimmed text with every `<` and `>` deleted: each other character kept as often as in the trimmed text, in order |
| Validation.SanitizeStringLeavesSpace | src/lib/utils/validation.ts:62-64 | the bracket is removed after trimming, so `"a <"` keeps its space |
| Validation.TagFreeMeaning | src/lib/utils/validation.ts:68 | tag-free means no `>` after any `<` |
| Validation.SanitizeHTML | src/lib/utils/validation.ts:66-69 | the result is tag-free, no longer than the input, and the input itself when it has no `<` |
| Validation.StripTags | src/lib/utils/validation.ts:68 | the scan of `/<[^>]*>/g`; specified by the lemmas below: text before the first `<` is kept, a complete tag is deleted, and no tag is left |
| Validation.StripTagsPlainPrefix | src/lib/utils/validation.ts:68 | text before the first `<` is kept as it is, and the rest is sanitised in turn |
| Validation.StripTagsSpan | src/lib/utils/validation.ts:68 | a tag `<…>` is deleted, the text before it is kept and the text after it is sanitised in turn |
| Validation.StripTagsPlain | src/lib/utils/validation.ts:68 | a text without `<` is left as it is |
| Validation.StripTagsLeavesNoTag | src/lib/utils/validation.ts:68 | no tag survives |
| Validation.StripTagsKeepsTagFree | src/lib/utils/validation.ts:68 | a tag-free text is left as it is |
| Validation.SanitizeHTMLIdempotent | src/lib/utils/validation.ts:66-69 | sanitising twice equals sanitising once |
| Validation.SanitizeHTMLExamples | src/lib/utils/validation.ts:66-69 | `a<b>c` becomes `ac`; a lone `<` is kept |
| BottomSheet.OpenedSpec | src/lib/stores/bottomSheet.svelte.ts:15-19 | the pin is shown; each flag is set exactly when its option is true |
| BottomSheet.TransitionsSpec | src/lib/stores/bottomSheet.svelte.ts:33-50 | expand keeps the pin and form; collapse keeps the pin; toggle twice is the identity; expand and collapse are idempotent |
| BottomSheet.BottomSheetState.constructor | src/lib/stores/bottomSheet.svelte.ts:8-10 | closed |
| BottomSheet.BottomSheetState.Open | src/lib/stores/bottomSheet.svelte.ts:15-19 | the state is `Opened` |
| BottomSheet.BottomSheetState.Close | src/lib/stores/bottomSheet.svelte.ts:24-28 | closed |
| BottomSheet.BottomSheetState.Expand | src/lib/stores/bottomSheet.svelte.ts:33-35 | `Expanded` of the old state |
| BottomSheet.BottomSheetState.Collapse | src/lib/stores/bottomSheet.svelte.ts:40-43 | `Collapsed` of the old state |
| BottomSheet.BottomSheetState.ToggleExpanded | src/lib/stores/bottomSheet.svelte.ts:48-50 | `ToggledExpansion` of the old state |
| GhostPin.Placed | src/lib/stores/ghostPin.svelte.ts:9-14 | shown, and never equal to the hidden state |
| GhostPin.PlacedSpec | src/lib/stores/ghostPin.svelte.ts:9-14 | exactly the given place and neighbours, whatever came before |
| GhostPin.GhostPinState.constructor | src/lib/stores/ghostPin.svelte.ts:4-7 | hidden |
| GhostPin.GhostPinState.SetGhostPin | src/lib/stores/ghostPin.svelte.ts:9-14 | the state is `Placed` |
| GhostPin.GhostPinState.Clear | src/lib/stores/ghostPin.svelte.ts:16-21 | hidden |
| Theme.AppliedAttribute | src/lib/stores/theme.svelte.ts:36-43 | the attribute is set exactly for `light` or `dark`, to that value |
| Theme.StartingTheme | src/lib/stores/theme.svelte.ts:10-18 | a truthy saved theme, else dark |
| Theme.SetThemeIsRemembered | src/lib/stores/theme.svelte.ts:10-29 | a set theme is the next load's theme, except that an empty one reads as dark |
| Theme.ThemeState.constructor | src/lib/stores/theme.svelte.ts:4-5 | dark, not initialised |
| Theme.ThemeState.Apply | src/lib/stores/theme.svelte.ts:36-43 | only the attribute changes, and only in a browser |
| Theme.ThemeState.EnsureInitialized | src/lib/stores/theme.svelte.ts:7-20 | once, in a browser, the starting theme is current, saved and applied; otherwise nothing changes |
| Theme.ThemeState.Set | src/lib/stores/theme.svelte.ts:22-29 | current is the value; in a browser it is saved and applied |
| Theme.ThemeState.Value | src/lib/stores/theme.svelte.ts:31-34 | reports the theme; on the first read in a browser it is the saved or dark theme, the store is initialised, the slot holds it and it is applied; otherwise nothing changes |
| Geocoding.FirstPart | src/lib/utils/geocoding.ts:51-59 | street with its number, or the street, or else the name; empty exactly when there is neither street nor name |
| Geocoding.AddressParts | src/lib/utils/geocoding.ts:49-79 | the parts are exactly the non-empty candidates |
| Geocoding.AddressPartsByField | src/lib/utils/geocoding.ts:51-79 | one optional part per field, in order, the home country left out |
| Geocoding.NoPartsSpec | src/lib/utils/geocoding.ts:81 | no parts exactly when street, name, district, city and state are empty and the country is empty or the home country |
| Geocoding.HomeCountryOmitted | src/lib/utils/geocoding.ts:77-79 | `Brasil`/`Brazil` changes nothing |
| Geocoding.FormatAddress | src/lib/utils/geocoding.ts:45-82 | empty for no result; the fallback text for no parts; otherwise the parts joined with ` - ` |
| ErrorHandling.MessageCategory | src/lib/utils/errorHandler.ts:117-149 | the first matching rule on the lower-cased message decides: permission exactly on `permission`/`unauthorized`; not-found exactly on `not found`/`404` without those; network exactly on `network`/`offline` without any earlier keyword; unknown exactly when no keyword occurs; no other category |
| ErrorHandling.Categorize | src/lib/utils/errorHandler.ts:60-158 | storage or unlisted categories only from an AppError-shaped value; geolocation only from a geolocation error or such a property; a primitive is unknown, with its text |
| ErrorHandling.FetchFailureFirst | src/lib/utils/errorHandler.ts:62-68 | a fetch `TypeError` is a network error before any other rule |
| ErrorHandling.SupabaseRules | src/lib/utils/errorHandler.ts:71-99 | `PGRST116` is not-found, `23505` is validation, a JWT message is auth |
| ErrorHandling.SupabaseFallThrough | src/lib/utils/errorHandler.ts:71-99 | with no matching rule, the later rules decide |
| ErrorHandling.GenericErrorRules | src/lib/utils/errorHandler.ts:117-150 | a plain `Error` is categorised by its message, which it keeps |
| ErrorHandling.CreateError | src/lib/utils/errorHandler.ts:248-258 | the given category and message and no code |
| ErrorHandling.CreatedErrorRoundTrip | src/lib/utils/errorHandler.ts:112-258 | a created error, thrown, is categorised as itself |
| ErrorHandling.LocationMessage | src/lib/utils/errorHandler.ts:185-189 | code 1 is denied, code 3 is timeout, anything else is unavailable |
| ErrorHandling.UserMessage | src/lib/utils/errorHandler.ts:163-194 | never empty except for geolocation; validation shows its own message first |
| ErrorHandling.GeolocationMessages | src/lib/utils/errorHandler.ts:102-189 | a geolocation error shows the denied, unavailable or timeout text by its code |
| ErrorHandling.ToastSeverity | src/lib/utils/errorHandler.ts:199-219 | info exactly for validation and not-found |
| ErrorHandling.Handle | src/lib/utils/errorHandler.ts:36-55 | the notice shown is the severity of the error's category with its user message; the `Handle…` lemmas below say which notice each kind of thrown value produces |
| ErrorHandling.HandlePrimitive | src/lib/utils/errorHandler.ts:36-55 | a thrown primitive shows an error notice with the generic text, or its Portuguese fallback |
| ErrorHandling.HandleFetchFailure | src/lib/utils/errorHandler.ts:36-69 | a `TypeError` mentioning `fetch` shows an error notice with the connection text |
| ErrorHandling.HandleSupabase | src/lib/utils/errorHandler.ts:36-106 | `PGRST116` shows an informational not-found notice; `23505` an informational "Duplicate entry"; a JWT message an expired-session error |
| ErrorHandling.HandleGeolocation | src/lib/utils/errorHandler.ts:36-55 | a geolocation error shows an error notice: denied for code 1, timeout for code 3, unavailable otherwise |
| ErrorHandling.HandleNeverSilent | src/lib/utils/errorHandler.ts:36-55 | every notice except a geolocation one has a non-empty text; only validation and not-found are informational |
| ErrorHandling.HandleAsync | src/lib/utils/errorHandler.ts:276-292 | the value and no error exactly on success, else no value and the categorised error |

## Left out

- Rendering, Leaflet itself, CSS, marker icon sizes and animation options are left out. Map calls are recorded with the arguments the model needs.
- MapControl.MapState.GetCenter: the fake map's centre is an observed input. The logged `setView`, `flyTo` and `fitBounds` calls do not move it, so `GetCenter` after `SetCenter`, `LocateUser` or `SelectLocation` still reports the earlier centre, where Leaflet's `getCenter()` follows the view once any animation ends.
- `normalizeStr` is a parameter of the search model. `src/lib/utils/string.ts` is not part of this model.
- `toLowerCase` is modelled on the ASCII letters only; Unicode case mapping is left out.
- String lengths count characters. JavaScript counts UTF-16 code units, so text outside the Basic Multilingual Plane measures differently.
- Numbers are exact reals or integers. Floating-point rounding, `NaN` and the infinities are left out.
- JSON encoding and parsing are the identity on stored values. A slot is absent, parsed, or corrupt.
- Storage quota failures on a write are left out (`localStorage.setItem` throwing).
- URL building is a request record. `URLSearchParams` encoding and the exact URL text are left out.
- `encodeURIComponent` is a parameter of the login Google action.
- `fetch` is an oracle of responses. A thrown network error, a non-ok status and an unparsable body are distinct answers; the body's JSON decoding is not modelled.
- `signUp`, `signInWithPassword`, `signInWithOAuth` and `getSession` are oracles and inputs.
- The async interleaving of `search()` (overlapping calls, awaits) is left out: each call runs to completion.
- The geolocation callbacks of `locateUser` are an input. Their result is known when the call is made.
- The logger, the development-only logging and `logToAnalytics` are left out.
- `originalError` of an AppError is not modelled. Values returned as AppError-shaped keep only their category, message and code.
- `reverseGeocode` is left out: it is a network call whose result `formatAddress` takes as input.
- `getMap` and the three `localDataStore` getters are plain field reads. The model reads the fields directly.
- SEO output is the list of tags in order. The markup each tag is written as (element and attribute names), the template's whitespace and the missing HTML escaping are left out.
- `uuidv4()` and `new Date().toISOString()` are arguments of `addPin` and `addReview`.
- The contents of the two locale dictionaries are left out: `src/lib/i18n/locales` is not part of this model.
- The theme, i18n and local-data stores assume a storage that does not throw. The error paths that only log are left out.
- `typeof document !== 'undefined'` is folded into `browser` for the i18n store.
- Locales.I18n.Init: the store is modelled over the corrected `DetectLanguage`, not over `detectLanguage` as written. For a saved name inherited from `Object.prototype` (such as `toString`) the source makes that name the current locale and writes it to `document.documentElement.lang`; the model's `currentLocale` is a `Locale` and cannot hold it, so the store instead takes the browser language. For every other saved value the two agree (`DetectLanguageAgrees`).
- Locales.I18n.GetLocale: for the same reason, after a saved inherited name the source's getter reports that name, while the model reports the locale of the browser language.
- Locales.I18n.T: for the same reason, the model always returns a dictionary. After a saved inherited name the source's `locales[this.currentLocale]` is the inherited member (such as `Object.prototype.toString`), which is truthy, so the `||` fallbacks are not reached and no dictionary is returned.
- Validation.SanitizeHTML: its `ensures` do not give the result for every input. What it computes is stated piecewise by `StripTagsPlainPrefix` (text before the first `<` is kept), `StripTagsSpan` (a complete tag is deleted), `StripTagsLeavesNoTag` and `StripTagsKeepsTagFree`; a `<` with no `>` after it is kept, as `SanitizeHTMLExamples` shows.

## Findings

| source | as written | input that shows it | evidently intended | confidence | as-written member | corrected member |
|---|---|---|---|---|---|---|
| src/lib/utils/ratingColors.ts:64-71 | `getRatingCategory` finds the scheme whose closed range contains the rating. The ranges leave gaps, (3.99, 4), (2.49, 2.5), (1.49, 1.5) and (0, 0.01), and nothing covers below 0 or above 5; 0.005, say, gets label `Ruim` but category `Sem avaliações`. | 3.995 gets colour yellow and label `Bom`, but category `Sem avaliações` | the category is the same tier as the label and the colour | not executed | RatingColors.RatingCategoryAsWritten (counterexample: RatingColors.CategoryGapCounterexample) | RatingColors.RatingCategory |
| src/lib/i18n/i18n.svelte.ts:15-16 | `saved && locales[saved]` also succeeds for names inherited from `Object.prototype` | a saved `toString` becomes the current locale | only `pt-BR` and `en-US` are accepted from storage | not executed | Locales.DetectLanguageAsWritten (counterexample: Locales.DetectLanguageAcceptsInheritedName) | Locales.DetectLanguage |
