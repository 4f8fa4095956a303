# Dashboard-Crypto frontend core, in Dafny

This project models the browser side of Dashboard-Crypto, a cryptocurrency
dashboard written in React. The parts modelled are:

- **`Dots`**: the pager under the card grid and the table. It computes page
  counts, the previous/next buttons, a window of at most five page dots and
  dot clicks.
- **`Dashboard`**: the listing page (`pages/Dashboard.jsx`). It starts on a
  static listing of twenty coins (`constants/fallbackCryptos.js`). It accepts
  a live list only when that list holds more than two coins. Any other answer
  installs the static listing converted at a fixed rate: brl 5, eur 0.92,
  otherwise 1. It also has a search filter, top/bottom-five lists, two
  carousels that advance on a timer, and the pager.
- **`App`**: the older listing page. It shows no static data, keeps the
  previous list when a fetch fails, fetches news headlines, and uses a
  simpler dot row. Its `NewsTicker` component is defined but never rendered;
  `App.TickerTitle` models that unused component's title truncation.
  The dot row highlights a dot only when the index divided by the page
  size equals the dot number exactly, in real arithmetic.
- **`CoinDetails`**: the coin page (`components/CoinDetails.jsx`). It never
  shows an error. A failed or invalid answer shows an offline record:
  bitcoin or ethereum, chosen by the lower-cased id, and bitcoin for any
  other id.
- **`LegacyCoinDetails`**: the older coin page
  (`assets/components/CoinDetails.jsx`). It has an error screen and a
  full-width distribution bar when a coin has no maximum supply.

React state becomes the fields of a class per page (`DashboardPage`,
`AppPage`, `CoinDetailsPage`, `LegacyCoinDetailsPage`). A state setter
becomes a method that changes only the fields it names. What a page renders
is a function of those fields. An asynchronous fetch is split in two:

- `BeginFetch` sets the loading flag.
- `CompleteFetch` takes the outcome of the request as a parameter, a
  `Response` that is either the received body or a failure message.

A timer tick, a key press in the search box and a click are each one method
call.

The repository also contains an Express server (`backend/index.js`). It only
forwards requests to CoinGecko and NewsAPI. The static listing and both
offline strategies live in the frontend.

Modules:

| file | module | models |
|---|---|---|
| common.dfy | `Common` | Option, fetch outcome, min/max |
| text.dfy | `Text` | ASCII `toLowerCase`, `includes`, `substring(0, n) + "..."` |
| currency.dfy | `Currency` | `getCurrencySymbol` |
| coin_list.dfy | `CoinList` | market row, search filter, sort and top/bottom five, page slice, timer step |
| dots.dfy | `Dots` | `components/Dots.jsx` |
| fallback_cryptos.dfy | `FallbackCryptos` | `constants/fallbackCryptos.js` |
| dashboard.dfy | `Dashboard` | `pages/Dashboard.jsx` |
| app.dfy | `App` | `App.jsx` |
| coin_display.dfy | `CoinDisplay` | helpers both coin pages share |
| coin_details.dfy | `CoinDetails` | `components/CoinDetails.jsx` |
| legacy_coin_details.dfy | `LegacyCoinDetails` | `assets/components/CoinDetails.jsx` |

## Model

| member | source | states |
|---|---|---|
| Common.Min | frontend/src/components/Dots.jsx:12 | the result is one of the two arguments and bounds both from below |
| Common.Max | frontend/src/components/Dots.jsx:8 | the result is one of the two arguments and bounds both from above |
| Text.LowerChar | frontend/src/pages/Dashboard.jsx:91-92 | upper-case ASCII letters move down by 32; every other character is kept; no upper-case letter comes out |
| Text.Lower | frontend/src/pages/Dashboard.jsx:91-92 | `toLowerCase` keeps the length and lowers each character in place |
| Text.LowerIdempotent | frontend/src/pages/Dashboard.jsx:91-92 | lower-casing leaves no capitals, fixes already-lower text, and a second pass changes nothing |
| Text.Contains | frontend/src/pages/Dashboard.jsx:91-92 | `includes` can hold only for a needle no longer than the text |
| Text.ContainsIffOccurs | frontend/src/pages/Dashboard.jsx:91-92 | `includes` holds exactly when the needle occurs at some position of the text |
| Text.ContainsEmpty | frontend/src/pages/Dashboard.jsx:91-92 | every text includes the empty query |
| Text.Ellipsize | frontend/src/pages/Dashboard.jsx:398-399 | text within the limit is unchanged; longer text keeps its first `limit` characters followed by "..." |
| Currency.CurrencySymbol | frontend/src/pages/Dashboard.jsx:95-96 | "R$" exactly for brl, "€" exactly for eur, "$" for every other code |
| CoinList.Matches | frontend/src/pages/Dashboard.jsx:90-92 | the empty query matches every coin; a match needs a query no longer than the name or the symbol |
| CoinList.Filter | frontend/src/pages/Dashboard.jsx:89-93 | the filtered list is no longer than the list, and everything in it is in the list and matches the query |
| CoinList.FilterKeepsExactlyMatches | frontend/src/pages/Dashboard.jsx:89-93 | a matching coin is kept as often as it occurs; a non-matching coin never appears |
| CoinList.FilterDistributes | frontend/src/pages/Dashboard.jsx:89-93 | filtering a concatenation is the concatenation of the filtered parts, so list order is kept |
| CoinList.FilterEmptyQuery | frontend/src/pages/Dashboard.jsx:89-93 | the empty search shows every coin in order |
| CoinList.Insert | frontend/src/pages/Dashboard.jsx:98-103 | inserting into a sorted list keeps it sorted and adds exactly that coin |
| CoinList.SortBy | frontend/src/pages/Dashboard.jsx:98-103 | the copy is sorted by price in the given direction and is a permutation of the list |
| CoinList.PrefixOfSortedIsExtreme | frontend/src/pages/Dashboard.jsx:98-103 | the first k coins of a sorted list precede every coin not among them |
| CoinList.SortedPrefixIsExtreme | frontend/src/pages/Dashboard.jsx:98-103 | the first k coins of a sorted list are sorted, drawn from the list, and precede every coin left out |
| CoinList.TopFive | frontend/src/pages/Dashboard.jsx:98-100 | `top5` has min(5, n) coins in non-increasing price order |
| CoinList.BottomFive | frontend/src/pages/Dashboard.jsx:101-103 | `bottom5` has min(5, n) coins in non-decreasing price order |
| CoinList.TopFiveAreHighest | frontend/src/pages/Dashboard.jsx:98-100 | top five has min(5, n) coins, in descending price, drawn from the list, none cheaper than a coin left out |
| CoinList.BottomFiveAreLowest | frontend/src/pages/Dashboard.jsx:101-103 | bottom five has min(5, n) coins, in ascending price, drawn from the list, none dearer than a coin left out |
| CoinList.PageSlice | frontend/src/pages/Dashboard.jsx:227-228 | `slice(start, start + count)` holds max(0, min(count, n - start)) coins, entry k being entry start + k of the list |
| CoinList.PagesCoverList | frontend/src/pages/Dashboard.jsx:227-228 | every coin of the list appears on the page that starts at its own page boundary |
| CoinList.RowNumber | frontend/src/pages/Dashboard.jsx:286 | a row number is at least 1 and beyond the page start |
| CoinList.RowNumberIsPosition | frontend/src/pages/Dashboard.jsx:286 | the row number `tableIndex + idx + 1` is the 1-based position of that row's coin in the filtered list |
| CoinList.AdvanceStep | frontend/src/pages/Dashboard.jsx:72-74 | one tick moves one page forward when that page starts inside the list, and wraps to 0 exactly when it would not |
| Dots.PageCount | frontend/src/components/Dots.jsx:4 | `ceil(total / perPage)`: enough pages for every entry, and no more than one extra |
| Dots.CurrentPage | frontend/src/components/Dots.jsx:5 | the page whose range of entries contains the index |
| Dots.PageCountIsLeast | frontend/src/components/Dots.jsx:4 | any page count that covers the list is at least `pages` |
| Dots.CurrentPageExists | frontend/src/components/Dots.jsx:4-5 | an index inside the list lies on one of the pages |
| Dots.PrevTarget | frontend/src/components/Dots.jsx:7-9 | `Math.max(0, index - perPage)`: exactly one page back when the index is at least a page in, otherwise 0; never forward |
| Dots.NextTarget | frontend/src/components/Dots.jsx:11-13 | "next" lands one page on, or at `total - perPage` when that is nearer, never beyond either |
| Dots.PrevMovesBack | frontend/src/components/Dots.jsx:7-19 | when "previous" is enabled it moves strictly back and stays non-negative |
| Dots.NextMovesForward | frontend/src/components/Dots.jsx:11-13 | when "next" is enabled it moves strictly forward and a whole page still fits from the new index; near the end it moves less than a page, to `total - perPage` |
| Dots.DotAt | frontend/src/components/Dots.jsx:30-36 | slot i shows page i when there are at most five pages; otherwise a page of the window, or nothing past its end |
| Dots.Run | frontend/src/components/Dots.jsx:30-37 | the run from `from` to `to` lists those consecutive page numbers |
| Dots.DotsFromIsRun | frontend/src/components/Dots.jsx:30-37 | the dot row is the run of consecutive pages from the window start |
| Dots.ShownPages | frontend/src/components/Dots.jsx:30-37 | at most five dots, every one a real page, in strictly increasing page order |
| Dots.ShownPagesWindow | frontend/src/components/Dots.jsx:30-37 | at most min(pages, 5) dots; all pages when there are five or fewer; otherwise the consecutive pages from `max(0, currentPage - 2)` up to, not including, `min(pages, start + 5)`, which near the last page is fewer than five; every shown page exists |
| Dots.CurrentPageIsShown | frontend/src/components/Dots.jsx:30-44 | for an index inside the list, the current page always has a dot |
| Dots.ExactlyOneHighlighted | frontend/src/components/Dots.jsx:44 | for an index inside the list, exactly one dot of the window is highlighted |
| Dots.Press | frontend/src/components/Dots.jsx:7-42 | "previous" acts exactly when the index is not 0 and sets it to `PrevTarget`; "next" acts exactly when a page starts after the current one and sets it to `NextTarget`, which moves forward and keeps a whole page; a rendered dot always acts and sets the index to its page times `perPage`, inside the list |
| Dots.DotTarget | frontend/src/components/Dots.jsx:42 | a rendered dot sets the index to its page times `perPage`, a multiple of `perPage` inside the list; a slot that renders nothing sets nothing |
| Dots.PressStaysInList | frontend/src/components/Dots.jsx:7-42 | for an index inside the list, every enabled button or dot moves the index to an entry inside the list, and a dot to the first entry of its page |
| Dots.DotPageInList | frontend/src/components/Dots.jsx:42 | a dot's page starts inside the list, and landing there makes it the current page |
| Dots.FirstEntryOfPage | frontend/src/components/Dots.jsx:42 | the first entry of page p lies on page p |
| FallbackCryptos.Records | frontend/src/constants/fallbackCryptos.js:1-122 | twenty records, each with a 168-point sparkline |
| FallbackCryptos.PricesPositive | frontend/src/constants/fallbackCryptos.js:1-122 | every record has a positive price and market cap, whatever the sine values |
| FallbackCryptos.SymbolsLower | frontend/src/constants/fallbackCryptos.js:1-122 | every symbol is lower case, so the search lower-cases it to itself |
| FallbackCryptos.RecordIdsDistinct | frontend/src/constants/fallbackCryptos.js:1-122 | the twenty ids in file order are pairwise different |
| FallbackCryptos.Ids | frontend/src/constants/fallbackCryptos.js:1-122 | the id list lines up with the records |
| FallbackCryptos.IdsDistinct | frontend/src/constants/fallbackCryptos.js:1-122 | no two records share an id, which the React keys rely on |
| FallbackCryptos.StablecoinsFlat | frontend/src/constants/fallbackCryptos.js:14-108 | records 3, 7 and 18 are tether, usd-coin and dai, priced 1.00 with sparklines flat at 1.00, whatever the sine values |
| Dashboard.LiveAccepted | frontend/src/pages/Dashboard.jsx:38 | only a received array of at least three coins is accepted as live; a failure never is |
| Dashboard.ConversionRate | frontend/src/pages/Dashboard.jsx:47-48 | 5 for brl, 0.92 for eur, 1 for every other code; always positive |
| Dashboard.ConvertCoin | frontend/src/pages/Dashboard.jsx:50-57 | price, market cap and every sparkline point scale by the rate; every other field is copied |
| Dashboard.ConvertAll | frontend/src/pages/Dashboard.jsx:50-57 | the listing is converted coin by coin, in order |
| Dashboard.ConvertAtRateOne | frontend/src/pages/Dashboard.jsx:47-57 | in dollars the converted listing is the static listing itself |
| Dashboard.ConvertComposes | frontend/src/pages/Dashboard.jsx:50-57 | converting twice is converting once at the product of the rates |
| Dashboard.FilterCommutesWithConvert | frontend/src/pages/Dashboard.jsx:50-93 | searching a converted listing gives the converted search result |
| Dashboard.ConvertKeepsSorted | frontend/src/pages/Dashboard.jsx:50-103 | a positive rate keeps a price ordering |
| Dashboard.SortCommutesWithConvert | frontend/src/pages/Dashboard.jsx:50-103 | sorting a converted listing gives the converted sorted listing |
| Dashboard.ExtremesCommuteWithConvert | frontend/src/pages/Dashboard.jsx:50-103 | the currency does not change which coins are in the top or bottom five, only their prices |
| Dashboard.AutoAdvanceCycles | frontend/src/pages/Dashboard.jsx:69-76 | from the first page, k ticks land on the first entry of page k mod pages, so every page is visited in order |
| Dashboard.ShortName | frontend/src/pages/Dashboard.jsx:398-399 | a name of twelve characters or fewer is shown whole; a longer one shows its first twelve followed by "..." |
| Dashboard.DashboardPage.constructor | frontend/src/pages/Dashboard.jsx:14-23 | the page opens on the static listing in reais, flagged as fallback, not loading, at the first page of both carousels |
| Dashboard.DashboardPage.Filtered | frontend/src/pages/Dashboard.jsx:89-93 | the search never adds coins; an empty search shows the whole listing |
| Dashboard.DashboardPage.VisibleCards | frontend/src/pages/Dashboard.jsx:226-228 | min(12, filtered length − card index) cards (none past the end), each the filtered coin at its offset from the card index |
| Dashboard.DashboardPage.VisibleRows | frontend/src/pages/Dashboard.jsx:272-286 | min(12, filtered length − table index) rows (none past the end), each numbered by its 1-based position in the filtered list |
| Dashboard.DashboardPage.SelectCurrency | frontend/src/pages/Dashboard.jsx:66-67 | only the currency changes, and the fetch runs again exactly when the currency differs; the selector exists only when no fetch is in flight |
| Dashboard.DashboardPage.BeginFetch | frontend/src/pages/Dashboard.jsx:31 | the page is loading, which pauses both timers |
| Dashboard.DashboardPage.CompleteFetch | frontend/src/pages/Dashboard.jsx:38-63 | a live list of more than two coins is taken as is; any other outcome installs the converted static listing; the fallback flag is raised exactly in the second case; loading ends |
| Dashboard.DashboardPage.TickCards | frontend/src/pages/Dashboard.jsx:69-77 | when auto-scroll is on, the search is empty and nothing is loading, the card index takes one timer step; otherwise it stays; an index inside the list stays inside |
| Dashboard.DashboardPage.TickTable | frontend/src/pages/Dashboard.jsx:79-87 | the same for the table index |
| Dashboard.DashboardPage.EditSearch | frontend/src/pages/Dashboard.jsx:142-146 | the query is stored and both carousels return to the first page; the search box exists only when no fetch is in flight |
| Dashboard.DashboardPage.ToggleAutoScroll | frontend/src/pages/Dashboard.jsx:204 | auto-scroll flips and nothing else changes; the button exists only when no fetch is in flight |
| Dashboard.DashboardPage.PressCardPager | frontend/src/pages/Dashboard.jsx:239-248 | the pager exists only when nothing is loading and the filtered list exceeds one page; there an enabled button or dot moves the card index to the pager's target, otherwise it stays; an index inside the list stays inside |
| Dashboard.DashboardPage.PressTablePager | frontend/src/pages/Dashboard.jsx:334-343 | the same for the table pager |
| App.DotCount | frontend/src/App.jsx:160 | `ceil(total / perPage)` dots |
| App.DotActive | frontend/src/App.jsx:168 | with index 0 only dot 0 is lit; a lit dot is never beyond the index |
| App.DotActiveIffPageStart | frontend/src/App.jsx:168 | dot i is lit exactly when the index is the first entry of page i |
| App.ActivationDiffersFromNewPager | frontend/src/App.jsx:168 | an index between page boundaries lights no dot; on a boundary the old and new pagers light the same page |
| App.AtMostOneDotActive | frontend/src/App.jsx:168 | no two dots are lit at once |
| App.DotClickActivates | frontend/src/App.jsx:166-168 | clicking a dot moves to an entry inside the list and lights that dot |
| App.TickerTitle | frontend/src/App.jsx:63 | a headline of 80 characters or fewer is whole; a longer one keeps 80 followed by "..." |
| App.AppPage.constructor | frontend/src/App.jsx:184-194 | the page opens empty, in dollars, at the first page, with auto-scroll on |
| App.AppPage.Filtered | frontend/src/App.jsx:246-250 | the search never adds coins; an empty search shows the whole list |
| App.AppPage.VisibleCards | frontend/src/App.jsx:337-338 | min(4, filtered length − card index) cards (none past the end), each the filtered coin at its offset from the card index |
| App.AppPage.VisibleRows | frontend/src/App.jsx:383-387 | min(10, filtered length − table index) rows (none past the end), each the filtered coin at its offset from the table index |
| App.AppPage.SelectCurrency | frontend/src/App.jsx:220-222 | only the currency changes, and both fetches run again exactly when the currency differs |
| App.AppPage.CompleteFetch | frontend/src/App.jsx:199-209 | a received list replaces the coins; a failure keeps the previous list |
| App.AppPage.CompleteNewsFetch | frontend/src/App.jsx:211-218 | received headlines replace the news; a failure keeps the previous news |
| App.AppPage.TickCards | frontend/src/App.jsx:225-233 | with auto-scroll on and an empty search, one timer step for the card index (there is no loading flag); an index inside the list stays inside |
| App.AppPage.TickTable | frontend/src/App.jsx:236-244 | the same for the table index |
| App.AppPage.EditSearch | frontend/src/App.jsx:284-288 | the query is stored and both carousels return to the first page |
| App.AppPage.ToggleAutoScroll | frontend/src/App.jsx:323 | auto-scroll flips and nothing else changes |
| App.AppPage.PressCardDot | frontend/src/App.jsx:349-356 | a rendered dot moves the card index to the first entry of its page |
| App.AppPage.PressTableDot | frontend/src/App.jsx:420-427 | a rendered dot moves the table index to the first entry of its page |
| CoinDisplay.Scale | frontend/src/components/CoinDetails.jsx:394-397 | every suffix stands for a scale of at least one |
| CoinDisplay.FormatCompactNumber | frontend/src/components/CoinDetails.jsx:390-400 | a missing number is the dash; otherwise the suffix is picked by magnitude, mantissa times scale is the number, and six decimals are used only for plain numbers below 0.01 |
| CoinDisplay.CompactMantissaRange | frontend/src/components/CoinDetails.jsx:390-400 | a suffixed mantissa is at least 1 in magnitude, and below 1000 except for trillions |
| CoinDisplay.CompactZero | frontend/src/components/CoinDetails.jsx:391 | zero is a number, not missing: it is shown plainly with six decimals |
| CoinDisplay.RankLabel | frontend/src/components/CoinDetails.jsx:551 | "N/A" exactly when the rank is missing or 0; otherwise the rank itself |
| CoinDisplay.OrZero | frontend/src/components/CoinDetails.jsx:417-418 | a present number is kept; a missing one reads 0 |
| CoinDisplay.Lookup | frontend/src/components/CoinDetails.jsx:418 | a lookup succeeds exactly for a key in the map, with that key's value |
| CoinDisplay.SupplyPercentage | frontend/src/components/CoinDetails.jsx:755 | for a market-data block, a percentage exists exactly with a non-zero maximum supply, and it is circulating supply over maximum supply times 100 |
| CoinDisplay.ProgressBarWidth | frontend/src/components/CoinDetails.jsx:83-87 | a bar is drawn exactly for a present non-zero percentage, at that width capped at 100 |
| CoinDisplay.SupplyBarOfCappedCoin | frontend/src/components/CoinDetails.jsx:83-87 | a coin partly in circulation under its cap gets a bar whose width is its circulating share, between 0 and 100 |
| CoinDetails.FallbackTable | frontend/src/components/CoinDetails.jsx:134-171 | the offline table holds exactly bitcoin and ethereum, each under its own id |
| CoinDetails.FallbackRecord | frontend/src/components/CoinDetails.jsx:376 | the entry for the lower-cased id, or bitcoin for an id not in the table |
| CoinDetails.FallbackRecordComplete | frontend/src/components/CoinDetails.jsx:134-171 | whatever the id, the offline record has market data with a positive price in usd, brl and eur |
| CoinDetails.FallbackIgnoresCase | frontend/src/components/CoinDetails.jsx:376 | "BitCoin" selects bitcoin and "ETHEREUM" selects ethereum |
| CoinDetails.Accepted | frontend/src/components/CoinDetails.jsx:367 | a body is accepted only when received, present and with a non-empty id; a failure never is |
| CoinDetails.FetchedCoin | frontend/src/components/CoinDetails.jsx:367-377 | an accepted body is shown as is; otherwise the offline record; either way the coin has an id |
| CoinDetails.DisplayedPrice | frontend/src/components/CoinDetails.jsx:418 | the price in the selected currency, or 0 without market data or without that currency |
| CoinDetails.PriceChange24h | frontend/src/components/CoinDetails.jsx:416 | the 24-hour change, or 0 when market data is missing or the change is absent or null |
| CoinDetails.IsPositive | frontend/src/components/CoinDetails.jsx:416-417 | a coin without a known 24-hour change counts as rising |
| CoinDetails.SupplyShare | frontend/src/components/CoinDetails.jsx:755 | no percentage for a coin without market data; otherwise the market data's supply percentage |
| CoinDetails.DistributionWidth | frontend/src/components/CoinDetails.jsx:817 | the circulating percentage with a maximum supply; 0 without one or without market data |
| CoinDetails.CoinDetailsPage.constructor | frontend/src/components/CoinDetails.jsx:350-357 | the page opens loading, in reais, without a coin, fallback flag down |
| CoinDetails.CoinDetailsPage.View | frontend/src/components/CoinDetails.jsx:410-412 | the loading screen exactly while loading, and never an error screen |
| CoinDetails.CoinDetailsPage.Navigate | frontend/src/components/CoinDetails.jsx:359-384 | the fetch re-runs exactly when the id changes |
| CoinDetails.CoinDetailsPage.SelectCurrency | frontend/src/components/CoinDetails.jsx:384 | a new currency does not re-run the fetch, whose effect is keyed on the id alone; the selector exists only once loading is over |
| CoinDetails.CoinDetailsPage.BeginFetch | frontend/src/components/CoinDetails.jsx:361 | the page is loading |
| CoinDetails.CoinDetailsPage.CompleteFetch | frontend/src/components/CoinDetails.jsx:361-381 | loading ends on the fetched or offline coin; the fallback flag is raised by a rejected outcome and never lowered |
| LegacyCoinDetails.DisplayedPrice | frontend/src/assets/components/CoinDetails.jsx:91 | the price in the selected currency, or 0 when that currency is missing |
| LegacyCoinDetails.IsPositive | frontend/src/assets/components/CoinDetails.jsx:89-90 | with no default, an absent change reads as a fall, a null change as a rise, and a number as a rise exactly when it is at least 0 |
| LegacyCoinDetails.DistributionWidth | frontend/src/assets/components/CoinDetails.jsx:534 | the circulating percentage with a maximum supply, a full bar (100) without one |
| LegacyCoinDetails.DistributionCaption | frontend/src/assets/components/CoinDetails.jsx:539-542 | the "no maximum supply" caption exactly without a maximum supply; otherwise the bar's percentage |
| LegacyCoinDetails.DistributionWidthsDiffer | frontend/src/assets/components/CoinDetails.jsx:534 | both pages draw the same bar for a capped coin; an uncapped coin gets 100 here and 0 on the new page |
| LegacyCoinDetails.PositivityDiffers | frontend/src/assets/components/CoinDetails.jsx:89-90 | an absent 24-hour change reads as a rise on the new page and as a fall here; with null or a number the pages agree |
| LegacyCoinDetails.LegacyCoinDetailsPage.constructor | frontend/src/assets/components/CoinDetails.jsx:18-21 | the page opens loading, in dollars, with no coin and no error |
| LegacyCoinDetails.LegacyCoinDetailsPage.View | frontend/src/assets/components/CoinDetails.jsx:59-86 | loading first; then the error screen exactly when there is an error or no coin, showing the error or "Moeda não encontrada"; otherwise the coin |
| LegacyCoinDetails.LegacyCoinDetailsPage.Navigate | frontend/src/assets/components/CoinDetails.jsx:41 | a new route id is stored and the fetch re-runs exactly when the id changes |
| LegacyCoinDetails.LegacyCoinDetailsPage.SelectCurrency | frontend/src/assets/components/CoinDetails.jsx:248-255 | the selector exists only on the details screen; the currency is stored and the fetch, keyed on it at line 41, re-runs exactly when it changes |
| LegacyCoinDetails.LegacyCoinDetailsPage.BeginFetch | frontend/src/assets/components/CoinDetails.jsx:28 | the page is loading |
| LegacyCoinDetails.LegacyCoinDetailsPage.CompleteFetch | frontend/src/assets/components/CoinDetails.jsx:27-36 | a response replaces the coin and clears the error; a failure records "Erro ao carregar dados: " plus the message, keeps the old coin and shows the error screen; a null body shows "Moeda não encontrada" |

The one-line predicates that copy a single source condition have no row of
their own; the rows of the members that use them cite the same lines:
`Dashboard.DashboardPage.AutoAdvanceEnabled` (Dashboard.jsx:70, 80),
`CardPagerShown` and `TablePagerShown` (Dashboard.jsx:109, 239, 334),
`App.AppPage.AutoAdvanceEnabled` (App.jsx:226, 237), `App.AppPage.DotsRendered`
(App.jsx:349, 420), `Dots.PrevDisabled`, `Dots.NextDisabled` and
`Dots.Highlighted` (Dots.jsx:19, 59, 44), `CoinDisplay.SuffixFor`
(CoinDetails.jsx:392-397) and `CoinDisplay.HasMaxSupply` (CoinDetails.jsx:755).

## Left out

- The Express proxy (`backend/index.js`), the axios instance (`utils/api`)
  and the CoinGecko and NewsAPI services are not part of this model. Each
  request's result is a parameter of `CompleteFetch`; request timeouts are
  one kind of failure.
- Timers and the effect scheduler are left out. `setInterval` becomes one
  `Tick` call per period, and effect re-runs become the `refetch` result of
  `Navigate` and `SelectCurrency`. Overlapping fetches that
  finish out of order are not modelled.
- Presentation state and markup are left out: `view`, `darkMode`,
  `activeTab`, `Card`, `Header`, `Footer`, the loading-screen component,
  charts and their `Math.random` series, and `navigate`.
- `toFixed`, `toLocaleString` and string templates are left out.
  `FormatCompactNumber` returns the mantissa, suffix and decimal count
  instead of the text, and rounding is not modelled.
- Numbers are exact reals. NaN, infinities and JavaScript falsiness of NaN
  are not modelled. A missing number is `None`, which stands for both an
  absent key and `null`; only the 24-hour change, where the two compare
  differently against 0, tells them apart (`Absent`, `Null`, `Known`).
- Text.Lower: lower-cases ASCII letters only. JavaScript's `toLowerCase`
  also folds non-ASCII letters.
- Text.LowerChar: folds ASCII letters only, for the same reason.
- Text.Ellipsize: counts Dafny characters. JavaScript's `length` and
  `substring` count UTF-16 code units, so for text holding characters
  outside the Basic Multilingual Plane (emoji) the cut point differs.
- Dashboard.ShortName: counts characters, not UTF-16 code units, as
  `Text.Ellipsize` does.
- App.TickerTitle: counts characters, not UTF-16 code units, as
  `Text.Ellipsize` does.
- FallbackCryptos.Records: the `Math.sin` term of the generated sparklines
  is the parameter `wave`. The proved facts hold for every such function.
- CoinDisplay.Lookup: object keys inherited from the prototype are not
  modelled.
- CoinDetails.FallbackRecord: the offline table is a plain object, so an id
  such as `constructor` or `__proto__` finds an inherited property instead
  of falling back to bitcoin, and the page then throws. The model treats
  every id outside the table as unknown and selects bitcoin.
- CoinList.SortBy: proves the order and the permutation, but not the tie
  order of JavaScript's stable sort.
- Dashboard.DashboardPage.CompleteFetch: a fetch does not reset the
  carousel indices. A shorter list can leave an index past its end, so
  `IndicesInList` is kept only by the other methods. With an index past
  the end, the pager's current page has no dot and no dot is highlighted;
  the pager lemmas assume an index inside the list.
- App.AppPage.CompleteFetch: a body that is not an array is not modelled;
  the received body is a list.
- LegacyCoinDetails.DisplayedPrice: takes the market data as given. The
  legacy page dereferences `coin.market_data` without a check, and a coin
  without it would make the page throw; that crash is not modelled.
- LegacyCoinDetails.IsPositive: takes the market data as given; the crash
  on a coin without `market_data` is not modelled.
- LegacyCoinDetails.DistributionWidth: takes the market data as given; the
  crash on a coin without `market_data` is not modelled.
- LegacyCoinDetails.DistributionCaption: takes the market data as given;
  the crash on a coin without `market_data` is not modelled.
- The circulating supply is a number in every record; a missing circulating
  supply is not modelled.
