# crypto-pixzl in Dafny

A model of the decision logic under the crypto-pixzl market dashboard, with proofs of what
that logic promises. The dashboard fetches a page of coins from a public price API and
filters, sorts and stars them. A detail modal loads one coin and, when the API answers
"too many requests", counts down sixty seconds before loading again.

| file | module | models |
|---|---|---|
| `crypto_service.dfy` | `CryptoService` | the three fetchers: request URLs, status classification, error messages |
| `sort_controls.dfy` | `SortControls` | the sort keys and directions, and the sort-button rule |
| `dashboard.dfy` | `Dashboard` | search filter, copy-then-sort, favourites projection, panels, the view state and its handlers |
| `favorites.dfy` | `Favorites` | the favourites hook: toggle, mirroring into the browser store, the load at mount |
| `coin_detail_modal.dfy` | `CoinDetailModal` | the load / rate-limit / countdown / retry state machine, the `m:ss` display, the first-sentence description |
| `optional.dfy`, `sequences.dfy`, `strings.dfy` | `Optional`, `Sequences`, `Strings` | the JavaScript built-ins the code relies on |

The built-ins are `Array.filter`, `includes`, `toLowerCase`, number printing, `padStart`,
`split` and `localeCompare`.

How the model is put together:
- **Network.** It is a parameter `server: string -> Reply<T>` that gives the reply to each
  URL. Each fetcher returns the list of requests it issued together with its outcome. So
  "one request, no retry" is a stated property, not an assumption.
- **Sort.** `[...coins].sort(cmp)` is a stable insertion sort over a function value. It
  returns a new sequence, so the list it sorts is left as it was.
- **Modal.** Each event is a pure step on `ModalState`: fetch start, fetch completion,
  one-second tick, prop change. The class `CoinDetailModal.Modal` holds the component's
  fields, and each of its methods is proved to perform its step.
- **Modal observations.** Two ghost fields record the coin ids of the loads started and how
  many loads are still in flight. They make "exactly one retry" and "nothing prevents
  overlapping loads" statable.
- **Favourites and dashboard state.** `Favorites.FavoritesHook` and
  `Dashboard.DashboardView` are classes whose methods update their fields as the React
  state setters do. `Favorites.LocalStorage` is the browser store: a map from keys to id
  lists.

Where the code departs from what a reader might expect, the model follows the code:
- **Dashboard errors.** The dashboard has no countdown. Any error of the coin list shows
  the same notice with a manual "TRY AGAIN" button (`Dashboard.MainPanel`). Only the detail
  modal has a countdown retry. The list query is re-run by the query library's 120-second
  polling and its default retries, which are left out.
- **Overlapping loads.** Nothing prevents them. A prop change starts a load while another
  is in flight, and no response is discarded as stale (`CoinDetailModal.PropsChanged`).
- **Favourites order.** Favourites form an ordered list: toggling appends at the end or
  removes every occurrence. They keep array order and are not a set.
- **Failed detail loads.** A failed load clears nothing. After an earlier success the
  modal goes on showing the earlier coin's detail, and the error text appears only when no
  load has ever succeeded (`CoinDetailModal.FailureShowsEarlierDetail`).
- **Retry after closing.** The countdown keeps running after the modal is closed, and
  closing clears the coin id. When it runs out, the retry still fires, with an empty id,
  so it requests `BASE_URL/coins/` (`CoinDetailModal.CountdownElapses`).

## Model

| member | source | states |
|---|---|---|
| CryptoService.Classify | src/services/cryptoService.ts:82-87 | Ok exactly for a reply with a 2xx status, carrying its body. Status 429 gives the rate-limit message, checked before the `ok` test. Any other non-ok status gives the endpoint's generic message. A thrown error keeps its message. |
| CryptoService.FetchCryptoCoins | src/services/cryptoService.ts:76-92 | Issues exactly one request, to the markets URL, and its outcome is that reply's classification. There is no retry, and errors pass through. |
| CryptoService.FetchCoinDetail | src/services/cryptoService.ts:94-108 | Issues exactly one request, to `/coins/{id}`, and its outcome is that reply's classification. |
| CryptoService.FetchPriceHistory | src/services/cryptoService.ts:110-129 | Issues exactly one request, to the market-chart URL, and its outcome is that reply's classification. |
| CryptoService.MarketsUrlQuery | src/services/cryptoService.ts:76-80 | Parsing the markets URL back gives path `BASE_URL/coins/markets`, `vs_currency=usd`, `order=market_cap_desc`, `per_page` equal to perPage, `page` equal to page, and `sparkline=false`. |
| CryptoService.CoinUrlPath | src/services/cryptoService.ts:96 | For an id without `?`, the detail URL starts with `BASE_URL/coins/`, the rest is the id, and it has no query string. |
| CryptoService.MarketsUrlPieces | src/services/cryptoService.ts:76-80 | The markets URL splits back into path `BASE_URL/coins/markets` and exactly its five query pieces, in order. |
| CryptoService.MarketChartUrlPieces | src/services/cryptoService.ts:110-117 | For an id without `?`, the history URL splits back into path `BASE_URL/coins/{id}/market_chart` and exactly its two query pieces. |
| CryptoService.MarketChartUrlQuery | src/services/cryptoService.ts:110-117 | For an id without `?`, parsing the history URL back gives path `BASE_URL/coins/{id}/market_chart`, `vs_currency=usd`, and `days` equal to the argument. |
| SortControls.SortOptionsExact | src/components/SortControls.tsx:22-27 | The four keys print as `market_cap`, `price`, `change_24h` and `name`, and parse back. Every key has exactly one button. |
| SortControls.SortOrdersExact | src/components/SortControls.tsx:5 | The directions are exactly `asc` and `desc`, and they round-trip through their strings. |
| SortControls.HandleSortClick | src/components/SortControls.tsx:29-35 | The reported key is the clicked one. The active key flips its direction, and a different key is reported with `desc`. |
| SortControls.ClickTwiceRestores | src/components/SortControls.tsx:30-31 | Two clicks on the active key restore the original sort. |
| SortControls.NewKeyTwiceAscends | src/components/SortControls.tsx:32-33 | Two clicks on a new key end ascending on it, whatever the previous direction was. |
| Dashboard.LoadCoins | src/components/Dashboard.tsx:20-25 | Each run of the query function issues one request, to the markets URL for page 1 with 50 coins per page, and classifies its reply as the markets endpoint. |
| Dashboard.FilteredCoins | src/components/Dashboard.tsx:62-65 | A coin is kept iff its lower-cased name or symbol contains the lower-cased term. A matching coin is kept as often as it was fetched and a non-matching one never. Kept coins stay in fetch order, and no data gives the empty list. |
| Dashboard.EmptySearchKeepsAll | src/components/Dashboard.tsx:62-65 | An empty search term keeps every coin in its original order. |
| Dashboard.FavoriteCoins | src/components/Dashboard.tsx:84 | Exactly the fetched coins whose id is a favourite, each as often as fetched, in fetch order. It does not depend on the search or the sort, and no data gives the empty list. |
| Dashboard.CompareAntisymmetric | src/components/Dashboard.tsx:45-58 | Swapping the two coins negates the comparator, and the comparator is zero exactly when the compared fields are equal. |
| Dashboard.CompareTransitive | src/components/Dashboard.tsx:45-58 | The comparator's "not after" relation is transitive, for every key and direction. |
| Dashboard.SortPermutes | src/components/Dashboard.tsx:27-28 | The sorted copy is a permutation of its input: every coin occurs in it as often as in the input. |
| Dashboard.SortSorted | src/components/Dashboard.tsx:28-59 | The sorted copy is in comparator order. |
| Dashboard.InsertKeepsClass | src/components/Dashboard.tsx:28-59 | For a class in which the comparator never puts the inserted coin after another member, inserting it keeps the class in input order. |
| Dashboard.SortStable | src/components/Dashboard.tsx:45-48 | Coins that tie under the key keep their input order. |
| Dashboard.SortOfSorted | src/components/Dashboard.tsx:28-59 | A list already in comparator order comes back unchanged. |
| Dashboard.VisibleCoinsOrder | src/components/Dashboard.tsx:27-59 | The shown list is ordered by the chosen field: `market_cap` asc means lower rank first, `price` and `change_24h` asc mean non-decreasing and desc non-increasing, and `name` uses the string comparator, swapped for desc. |
| Dashboard.VisibleCoinsMembers | src/components/Dashboard.tsx:62-67 | The shown list holds exactly the fetched coins that match the search, each as often as in the filtered list. |
| Dashboard.VisibleCoinsIdempotent | src/components/Dashboard.tsx:62-67 | Sorting the shown list again with the same settings leaves it unchanged, and so does filtering and sorting it again with the same term. |
| Dashboard.SortedUnique | src/components/Dashboard.tsx:27-59 | Two lists in the comparator's order holding the same coins are equal when coins that tie are always the same coin. |
| Dashboard.NameOrderMirror | src/components/Dashboard.tsx:45-48 | When no two coins share a name, the `name` sort descending is exactly the ascending one reversed. |
| Dashboard.Rows | src/components/Dashboard.tsx:186-196 | One card per coin, in order. A card is starred iff its id is a favourite, and only the first card carries the headers. |
| Dashboard.MainPanel | src/components/Dashboard.tsx:165-198 | Loading shows the spinner. Otherwise any error shows the same retry notice, whatever its cause. Otherwise card i shows coin i of the filtered and sorted list, starred iff favourite, with headers only on the first card. |
| Dashboard.FavoritesPanel | src/components/Dashboard.tsx:116-154 | The block appears iff a fetched coin is a favourite. Its count is the length of the favourites list. Cards appear only when expanded; card i then shows favourite coin i in fetch order, starred, with headers only on the first card. |
| Dashboard.DashboardView.constructor | src/components/Dashboard.tsx:12-17 | Starts with no coin selected, the modal closed, an empty search, `market_cap`/`asc`, and the favourites block collapsed. |
| Dashboard.DashboardView.HandleCoinClick | src/components/Dashboard.tsx:69-72 | Selects the coin and opens the modal. Nothing else changes, and a closed modal never holds an id. |
| Dashboard.DashboardView.HandleCloseModal | src/components/Dashboard.tsx:74-77 | Closes the modal and clears the selected id to the empty string. Nothing else changes. The invariant that a closed modal holds no id is kept. |
| Dashboard.DashboardView.HandleSortChange | src/components/Dashboard.tsx:79-82 | Takes over the reported key and direction. Nothing else changes. The invariant that a closed modal holds no id is kept. |
| Dashboard.DashboardView.ClickSortOption | src/components/Dashboard.tsx:157-163 | A click on a sort button leaves the dashboard's sort equal to what the buttons' rule reports. The invariant that a closed modal holds no id is kept. |
| Dashboard.DashboardView.SetSearchTerm | src/components/Dashboard.tsx:162 | The search box sets the term. Nothing else changes. The invariant that a closed modal holds no id is kept. |
| Dashboard.DashboardView.ToggleShowFavorites | src/components/Dashboard.tsx:124 | Flips the expanded flag of the favourites block. Nothing else changes. The invariant that a closed modal holds no id is kept. |
| Strings.LocaleCompare | src/components/Dashboard.tsx:47-48 | The string comparator yields -1, 0 or 1, and 0 exactly for equal strings. Its lemmas prove it antisymmetric and transitive. |
| Favorites.Toggled | src/hooks/useFavorites.tsx:15-17 | The toggled id's membership flips and every other id's membership is unchanged. An absent id is appended at the end with the rest in place. A present id is removed everywhere, every other id keeps its number of occurrences, and the rest is an in-order subsequence. |
| Favorites.RemoveOnce | src/hooks/useFavorites.tsx:15-16 | In a list without repeats, removing a present id shortens it by exactly one. |
| Favorites.ToggleTwice | src/hooks/useFavorites.tsx:15-17 | Two toggles restore membership. An absent id leaves the list exactly as before, and a present id ends up moved to the end. |
| Favorites.ToggleKeepsNoDuplicates | src/hooks/useFavorites.tsx:15-17 | A list without repeats has none after a toggle. |
| Favorites.LocalStorage.GetItem | src/hooks/useFavorites.tsx:8 | Reading a key gives its stored list, or nothing when the key is absent. |
| Favorites.LocalStorage.SetItem | src/hooks/useFavorites.tsx:20 | Writing a key replaces its value and leaves every other key alone. |
| Favorites.FavoritesHook.constructor | src/hooks/useFavorites.tsx:5 | Favourites start empty. |
| Favorites.FavoritesHook.LoadSaved | src/hooks/useFavorites.tsx:7-12 | A saved list under `crypto-pixzl-favorites` replaces the current one. A missing key changes nothing. |
| Favorites.FavoritesHook.ToggleFavorite | src/hooks/useFavorites.tsx:14-21 | The list becomes the toggled list, and the store holds the new list under `crypto-pixzl-favorites`, its other keys untouched. |
| CoinDetailModal.PromiseAll | src/components/CoinDetailModal.tsx:30-33 | Succeeds iff both fetches do, with both values. Otherwise it fails with the message of a failed fetch, the only failed one when just one fails. |
| CoinDetailModal.LoadCoin | src/components/CoinDetailModal.tsx:30-33 | One load requests the detail URL and the seven-day history URL, and settles as `Promise.all` over the two classified replies. |
| CoinDetailModal.RateLimitMessageDetected | src/components/CoinDetailModal.tsx:41 | The service's rate-limit message passes the modal's `429` / `rate limit` test. |
| CoinDetailModal.NotRateLimitedWithout | src/components/CoinDetailModal.tsx:41 | A message with neither a `4` nor an `m` fails the `429` / `rate limit` test. |
| CoinDetailModal.GenericFailureNotDetected | src/services/cryptoService.ts:86 | None of the three generic failure messages passes the modal's test. |
| CoinDetailModal.StatusDecidesRateLimit | src/components/CoinDetailModal.tsx:40-43 | For an HTTP reply, the modal sees a rate limit exactly when the status is 429. |
| CoinDetailModal.LoadRateLimit | src/components/CoinDetailModal.tsx:30-43 | A load succeeds iff both statuses are ok. It is seen as rate-limited only if one status is 429. It surely is when one is 429 and the other is 429 or ok. |
| CoinDetailModal.FetchStarted | src/components/CoinDetailModal.tsx:25-28 | A load sets `loading`, clears the rate-limit flag, and starts one load of the current coin. Nothing else changes, and the countdown invariant is kept. |
| CoinDetailModal.RateLimitHandled | src/components/CoinDetailModal.tsx:20-23 | Raises the flag with a 60-second countdown. Nothing else changes. |
| CoinDetailModal.FetchSettled | src/components/CoinDetailModal.tsx:35-46 | `loading` ends false whatever the outcome. Success stores both values. A rate-limited failure raises the flag with 60 seconds. Any other failure leaves the flag, the countdown and the stored values as they were. The countdown invariant is kept. |
| CoinDetailModal.CountdownEffect | src/components/CoinDetailModal.tsx:56-60 | At zero with the flag up, it clears the flag and starts exactly one load. Otherwise it does nothing. |
| CoinDetailModal.Ticked | src/components/CoinDetailModal.tsx:50-61 | A running countdown drops by exactly one. At zero nothing happens. The countdown never goes below zero, and the invariant is kept. |
| CoinDetailModal.OpenEffect | src/components/CoinDetailModal.tsx:63-67 | A load starts iff the modal is open and the coin id is non-empty. |
| CoinDetailModal.Mounted | src/components/CoinDetailModal.tsx:14-18 | Starts empty, not rate-limited, with countdown 0. It loads once, iff it is opened on a coin. |
| CoinDetailModal.PropsChanged | src/components/CoinDetailModal.tsx:63-67 | A load starts iff a prop changed and the modal is open on a non-empty id. It then adds one more in-flight load, whatever is pending. Otherwise only the props change. |
| CoinDetailModal.TicksCountDown | src/components/CoinDetailModal.tsx:51-55 | Before the countdown reaches zero, k ticks lower it by exactly k and change nothing else. |
| CoinDetailModal.CountdownElapses | src/components/CoinDetailModal.tsx:50-61 | With the flag up, every tick but the last only lowers the count. The last tick clears the flag and starts exactly one load of the same coin. |
| CoinDetailModal.CountdownWithoutFlag | src/components/CoinDetailModal.tsx:51-56 | With the flag down, the countdown runs out and nothing is loaded. |
| CoinDetailModal.IdleAtZero | src/components/CoinDetailModal.tsx:50-61 | At zero with no rate limit pending, any number of ticks changes nothing. |
| CoinDetailModal.RateLimitRetry | src/components/CoinDetailModal.tsx:40-60 | After a rate-limited failure, 59 ticks start no load and leave the countdown at 1. The 60th tick starts exactly one load of the same coin, with the flag cleared and the countdown at 0. |
| CoinDetailModal.PaddedSeconds | src/components/CoinDetailModal.tsx:101 | Seconds below 60 print as exactly two digits of the same value. |
| CoinDetailModal.CountdownRoundTrip | src/components/CoinDetailModal.tsx:101 | The `m:ss` text reads back as minutes·60 + seconds = the countdown, for every countdown. The reader accepts only minutes without leading zeros and seconds below 60. |
| CoinDetailModal.CountdownTextUnique | src/components/CoinDetailModal.tsx:101 | Every text the reader accepts is the display of the value it reads, so each countdown has exactly one `m:ss` text: `c div 60` minutes and `c mod 60` seconds padded to two digits. |
| CoinDetailModal.ShortDescription | src/components/CoinDetailModal.tsx:220 | The shown description ends in its only full stop. It is a prefix of the text when the text has a full stop, and the text plus `.` otherwise. |
| CoinDetailModal.View | src/components/CoinDetailModal.tsx:69-232 | Closed shows nothing. The rate-limit notice, whose text reads back as the countdown, wins over "loading". A stored detail is shown with its history, and with a description iff its English text is non-empty; that description is the text's first sentence. The error text appears only when nothing was ever loaded. |
| CoinDetailModal.FailureShowsEarlierDetail | src/components/CoinDetailModal.tsx:35-46 | After a success, a failed load of another coin still shows the earlier coin's detail. |
| CoinDetailModal.Modal.constructor | src/components/CoinDetailModal.tsx:14-18 | Mounting performs `Mounted`. |
| CoinDetailModal.Modal.StartFetch | src/components/CoinDetailModal.tsx:25-28 | Performs `FetchStarted` on the fields. |
| CoinDetailModal.Modal.HandleRateLimitError | src/components/CoinDetailModal.tsx:20-23 | Performs `RateLimitHandled` on the fields. |
| CoinDetailModal.Modal.Complete | src/components/CoinDetailModal.tsx:30-46 | Performs `FetchSettled` on the fields. |
| CoinDetailModal.Modal.Tick | src/components/CoinDetailModal.tsx:50-61 | Performs `Ticked` on the fields. |
| CoinDetailModal.Modal.ChangeProps | src/components/CoinDetailModal.tsx:63-67 | Performs `PropsChanged` on the fields. |
| CoinDetailModal.Modal.Render | src/components/CoinDetailModal.tsx:69-232 | Returns `View` of the current state. |

## Left out

- **Network I/O.** `fetch`, `response.json()` and `console.error` in
  `src/services/cryptoService.ts` are replaced by the `server` parameter. The body is taken
  as already decoded, and a failing `response.json()` is not modelled.
- **The list query's polling, retries and caching** (`src/components/Dashboard.tsx:20-25`).
  This is library behaviour: the query function is re-run every two minutes and, by the
  library's default, again after a failure. Only the constants `RefetchIntervalMs` and
  `StaleTimeMs` and one run of the query function are modelled.
- **JSON in the favourites store.** The browser store holds id lists directly. The JSON
  text, and a stored empty string (which the hook would treat as absent), are not modelled.
- **Timers and async interleaving.** `setTimeout`/`clearTimeout`, the concurrency inside
  `Promise.all`, unmount races and which rejection settles first are out: a load's outcome
  is a parameter of `FetchSettled`. Which load a completion belongs to is not tracked, so
  stale responses are not modelled.
- **Number details.** Prices and 24-hour changes are reals and ranks are integers; there is
  no NaN, no missing rank and no floating-point rounding. `toFixed`, `toLocaleString` and
  the progress-bar width (`src/components/CoinDetailModal.tsx:110`) are out.
- **Strings.LocaleCompare:** models `localeCompare` by the order of Unicode code points, a
  total order, not by locale collation rules.
- **Strings.ToLower:** lower-cases ASCII letters only; Unicode case mapping is out.
- **CoinDetailModal.Modal:** the countdown is a `nat`, so that it never goes negative is
  carried by its type. The source only ever writes 60, 0 or a positive value minus one.
- **Data fields.** Fields of `CryptoCoin`, `CoinDetail` and `PriceHistory` that no modelled
  logic reads (images, market data, volumes) are omitted.
- **Presentational components.** `CryptoCard`, `PriceChart`, `Header`, `LoadingSpinner`
  and the index page are not part of this model. The modal's HTML injection of the
  description is modelled only as the string it injects.
