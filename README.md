# Game library page — a Dafny model

This project models the game-library page of a static catalog site (`games.js`).
On start-up the page fetches a free-to-play game feed. If the direct request
throws, it retries once through a CORS proxy. Any failure makes it fall back to a
fixed catalog of six games. The page then shows the records as cards in a grid.
Users narrow the grid with a search box, a category select, a platform select and
a sort select. Clicking a card opens a detail modal, and Escape closes it.

The model has five modules:

- `Text` (text.dfy): the string operations the filter uses. These are
  `toLowerCase` (ASCII), `includes`, and a code-point lexicographic order that
  stands in for `localeCompare`.
- `Dates` (dates.dfy): parsing the feed's `YYYY-MM-DD` release dates into values
  that order chronologically. This stands in for `new Date(...)`.
- `Catalog` (catalog.dfy): the game record, the fallback catalog, the filter
  predicate, the sort orders, the card labels and the detail view's text. All of
  these are pure functions with lemmas.
- `Scenarios` (scenarios.dfy): two worked filter queries on the fallback catalog.
- `Page` (page.dfy): the page state as a class `LibraryPage`, with the fields
  `allGames`, `filteredGames`, the grid's cards, the loading / error /
  no-results / counter visibility, the counter value and the modal. It holds the
  show/hide operations, `DisplayGames` (a loop that appends one card per record),
  `FilterGames`, `LoadSampleData`, `FetchGames` and the modal operations. The
  network is an input: `FetchGames` receives how the direct call and the proxied
  call settled.

`LibraryPage.Valid()` is the page invariant. The constructor, `ShowLoading`,
`FilterGames`, `LoadSampleData`, `FetchGames` and the modal operations
(`OpenModal`, `ClickCard`, `CloseModal`, `KeyDown`) all establish it. The other
show/hide, counter and display methods are steps inside those operations and do
not keep it on their own: `ShowGamesCount` alone can set a counter that disagrees
with the shown list. The invariant says:
- every shown record is in the catalog;
- a visible counter equals the number of shown records, and then the grid holds
  exactly their cards;
- the no-results banner is only visible over an empty list and an empty grid;
- the modal is active exactly when the body's overflow is `hidden`.

Two behaviours of the code that the contracts state:

- On a failed load the error banner ends hidden. The `catch` block calls
  `showError()` (games.js:85) and then `loadSampleData()` (games.js:88), which
  calls `hideError()` (games.js:165). So after `FetchGames` the banner is always
  hidden, as `FetchGames`'s contract states.
- Only a throw from the direct `fetch` goes to the proxy (games.js:64-69). A
  non-ok status throws at games.js:71-73, and that throw lands in the outer
  `catch`, which loads the fallback catalog (see `Page.ProxyOnlyAfterThrow`).

## Model

| member | source | states |
|---|---|---|
| `Text.Lower` | games.js:219-221 | Lower-casing keeps the length, lowers each ASCII capital, leaves every other character alone, and leaves no capital behind |
| `Text.Contains` | games.js:225-229 | `includes`: the empty needle occurs in every text, and a needle longer than the text never occurs |
| `Text.MissingFirstChar` | games.js:225 | `includes` is false when the needle's first character is absent from the text |
| `Text.LexLe` | games.js:237 | The title order puts a prefix before every extension of it, and a title whose first character is greater after the other |
| `Text.LexLeReflexive` | games.js:237 | The title order puts every title no later than itself |
| `Text.LexLeTotal` | games.js:237 | Any two titles are comparable |
| `Text.LexLeTransitive` | games.js:237 | The title order is transitive |
| `Text.LexLeAntisymmetric` | games.js:237 | Titles that each sort no later than the other are equal |
| `Dates.Parse` | games.js:240 | A release date parses exactly when it is a well-formed `YYYY-MM-DD` string |
| `Dates.ParseFormat` | games.js:240 | Parsing the text of a valid calendar day gives back that day's value (round trip) |
| `Dates.KeyOrder` | games.js:240 | Parsed values order days by year, then month, then day |
| `Dates.Rank` | games.js:240 | The sort key is non-negative exactly for a present, well-formed date, and -1 otherwise |
| `Catalog.ReadQuery` | games.js:219-221 | Each of the three control values is read lower-cased: same length and no capital letter left |
| `Catalog.MatchesSearch` | games.js:225 | An empty search term accepts every record, and a term longer than the title accepts none |
| `Catalog.MatchesCategory` | games.js:226 | An empty category accepts every record; a non-empty one needs a present genre at least as long as the category |
| `Catalog.MatchesPlatform` | games.js:227-229 | An empty platform accepts every record; a non-empty one needs a present platform and is "pc" or "browser" |
| `Catalog.Matches` | games.js:224-231 | The empty query accepts every record; a non-empty category needs a genre, and a non-empty platform needs a platform and is "pc" or "browser" |
| `Scenarios.SampleCatalog` | games.js:94-161 | The fallback catalog holds six records numbered 1 to 6, all "PC (Windows)", with every field present and a well-formed release date |
| `Catalog.Filter` | games.js:224-232 | Every kept record matches the search, category and platform rules and comes from the catalog |
| `Catalog.FilterIsSubsequence` | games.js:224-232 | The filter keeps the original relative order of the records it keeps |
| `Catalog.FilterCounts` | games.js:224-232 | A matching record is kept as often as it occurs in the catalog, and a non-matching one is never kept |
| `Catalog.FilterSubMultiset` | games.js:224-232 | The filter only drops records |
| `Catalog.FilterMembership` | games.js:224-232 | A record is shown if and only if it is in the catalog and matches |
| `Catalog.FilterEmptyQuery` | games.js:219-232 | With an empty search, category and platform, the filter returns the whole catalog in order |
| `Catalog.FilterWeaker` | games.js:224-232 | A query that accepts everything another accepts keeps a supersequence of that query's result |
| `Catalog.RelaxingGrows` | games.js:224-232 | Clearing any one of search, category or platform never shrinks the result, and keeps the old result as a subsequence |
| `Catalog.MissingFieldsFail` | games.js:226-229 | A record with no genre fails any non-empty category, and one with no platform fails any non-empty platform |
| `Catalog.UnknownPlatformMatchesNothing` | games.js:227-229 | A platform value other than "", "pc" or "browser" shows no record |
| `Catalog.WindowsIsPc` | games.js:227-229 | The platform text "PC (Windows)" matches "pc" and does not match "browser" |
| `Catalog.FilterAppend` | games.js:224-232 | Filtering a concatenation concatenates the filtered parts |
| `Catalog.FilterNoneMatch` | games.js:224-232 | When no record matches, the result is empty |
| `Catalog.ReadSort` | games.js:222-248 | The sort value selects alphabetical, release-date or popularity order exactly for those three strings, and relevance for any other |
| `Catalog.Precedes` | games.js:235-241 | Under alphabetical order equal titles may stand either way and a title with a greater first character never comes first; under release-date order a record with an earlier or invalid date never comes before a later one, and equal dates may stand either way; relevance and popularity impose no order |
| `Catalog.PrecedesTotal` | games.js:235-241 | Both comparators relate any two records one way or the other |
| `Catalog.PrecedesTransitive` | games.js:235-241 | Both comparators are transitive |
| `Catalog.Insert` | games.js:237-240 | Inserting adds exactly the one record |
| `Catalog.SortBy` | games.js:237-240 | The sort returns a permutation of its input |
| `Catalog.InsertSorted` | games.js:237-240 | Inserting into a sorted list keeps it sorted |
| `Catalog.SortBySorted` | games.js:237-240 | The sort's output is ordered under the comparator |
| `Catalog.Ties` | games.js:237-240 | The records picked out are all tied with the given record |
| `Catalog.InsertTies` | games.js:237-240 | Inserting a record puts it before the records it ties with |
| `Catalog.SortByStable` | games.js:237-240 | Records the comparator cannot tell apart keep their input order (stable sort) |
| `Catalog.SortedFixed` | games.js:237-240 | Sorting an already sorted list leaves it unchanged |
| `Catalog.SortByIdempotent` | games.js:237-240 | Sorting twice equals sorting once |
| `Catalog.Arrange` | games.js:234-248 | The shown order is a permutation of the filtered records, and it is the filter's order under relevance and popularity |
| `Catalog.ArrangeMatches` | games.js:234-248 | Reordering keeps every record's match and takes records only from its input |
| `Catalog.ArrangeSorted` | games.js:234-248 | Alphabetical order lists titles ascending, and release-date order lists the latest date first |
| `Catalog.Visible` | games.js:218-248 | The shown list has exactly the records of the filter's result, reordered, and is never longer than the catalog |
| `Catalog.VisibleSpec` | games.js:218-248 | The shown records all match the controls and come from the catalog. They are a permutation of the filter's result, sorted as the sort select asks |
| `Catalog.OrElse` | games.js:210 | The or-default on an optional string gives a present, non-empty value, and otherwise the fallback |
| `Catalog.PlatformBadge` | games.js:194 | The badge is "Browser" exactly when the platform text contains "Browser", and "PC" otherwise |
| `Catalog.CardOf` | games.js:188-215 | A card opens its own record, carries one of the two badges and a non-empty genre label |
| `Catalog.CardLabels` | games.js:194-210 | A missing platform gives "PC" and a missing genre gives "Game". A present genre is shown as it is |
| `Catalog.Cards` | games.js:181-184 | The grid has one card per record, in list order |
| `Catalog.DetailsOf` | games.js:258-265 | The detail view shows the record's image and title and links to purchase.html. Every other text field is non-empty |
| `Catalog.DetailsDefaults` | games.js:260-264 | A present, non-empty description, genre, platform, publisher or release date is shown as it is; a missing or empty one shows its fixed default text |
| `Scenarios.ValoRejects0` | games.js:94-105 | The search "valo" rejects "Call Of Duty: Warzone" |
| `Scenarios.ValoRejects1` | games.js:106-116 | The search "valo" rejects "PUBG: BATTLEGROUNDS" |
| `Scenarios.ValoRejects2` | games.js:117-127 | The search "valo" rejects "Apex Legends" |
| `Scenarios.ValoRejects3` | games.js:128-138 | The search "valo" rejects "Fortnite" |
| `Scenarios.ValoRejects4` | games.js:139-149 | The search "valo" rejects "League of Legends" |
| `Scenarios.ValoKeeps5` | games.js:150-160 | The search "valo" keeps "Valorant" |
| `Scenarios.SampleSearchValo` | games.js:218-232 | Searching the fallback catalog for "valo" shows exactly Valorant |
| `Scenarios.MobaKeeps4` | games.js:139-149 | The category "moba" keeps League of Legends |
| `Scenarios.MobaRejectsShooters` | games.js:94-160 | The category "moba" rejects every "Shooter" record |
| `Scenarios.SampleCategoryMoba` | games.js:218-232 | Choosing "moba" on the fallback catalog shows exactly League of Legends |
| `Page.Requests` | games.js:62-69 | The feed is always requested first. The proxy is requested if and only if the direct call throws |
| `Page.Accept` | games.js:71-76 | A response yields records exactly when it is ok and its body parses, and then it yields that body |
| `Page.Load` | games.js:62-76 | The load yields records exactly when the direct response is ok with a parsed body, or the direct call threw and the proxied response is; the records are that response's body |
| `Page.ProxyOnlyAfterThrow` | games.js:62-73 | A direct call that settles decides the outcome alone. A non-ok status fails without trying the proxy |
| `Page.Opened` | games.js:255-269 | Opening makes the modal active, hides body overflow and shows the record with the purchase.html link |
| `Page.Closed` | games.js:272-276 | Closing makes the modal inactive and restores body overflow. The content stays |
| `Page.CloseIdempotent` | games.js:272-276 | Closing twice equals closing once, and closing an opened modal keeps that record's details |
| `Page.LibraryPage.Valid` | games.js:76-80 | While the counter is visible it equals the number of cards, and every card opens a record of the catalog |
| `Page.LibraryPage.constructor` | games.js:5-6 | The page starts with empty catalogs, an empty grid, hidden banners and a closed modal, and satisfies the page invariant |
| `Page.LibraryPage.ShowLoading` | games.js:279-285 | Shows loading, hides error, no-results and counter, clears the grid, and keeps everything else |
| `Page.LibraryPage.HideLoading` | games.js:287-289 | Hides loading and changes nothing else |
| `Page.LibraryPage.ShowError` | games.js:291-293 | Shows the error banner and changes nothing else |
| `Page.LibraryPage.HideError` | games.js:295-297 | Hides the error banner and changes nothing else |
| `Page.LibraryPage.ShowGamesCount` | games.js:299-302 | Shows the counter with the given number and changes nothing else |
| `Page.LibraryPage.DisplayGames` | games.js:171-185 | Clears the grid. An empty list shows no-results and adds no cards. Otherwise no-results is hidden and the grid holds one card per record, in order |
| `Page.LibraryPage.FilterGames` | games.js:218-252 | The shown list is the matching records sorted as asked. The grid holds their cards, the counter is visible and equals their number, no-results shows exactly when none match, and the catalog and modal are untouched |
| `Page.LibraryPage.LoadSampleData` | games.js:93-168 | Both lists become the six fixed records. Loading and error are hidden, and the grid shows six cards with the counter at 6 |
| `Page.LibraryPage.FetchGames` | games.js:58-90 | Requests the proxy only after a throw. On success both lists are the feed, and on any failure both are the fallback catalog. Either way everything is displayed and counted, and loading and the error banner end hidden |
| `Page.LibraryPage.OpenModal` | games.js:255-269 | The modal becomes the opened state for that record, and the page invariant holds |
| `Page.LibraryPage.ClickCard` | games.js:192 | Clicking card i opens the modal on the record that card was drawn for, which is the i-th shown record while the counter is visible |
| `Page.LibraryPage.CloseModal` | games.js:272-276 | The modal becomes the closed form of its previous state |
| `Page.LibraryPage.KeyDown` | games.js:39-41 | Escape closes the modal whatever its state, and any other key leaves it as it was |

## Left out

- Network I/O (`fetch`, `response.json()`, `console.error`) is not modelled. Each call is an input saying how it settled: it threw, or it gave a response with its `ok` flag and the parsed record list, or None when parsing fails or the JSON is not a list of records.
- The debounce on the search box (games.js:45-55) is not modelled, because it is timer behaviour. The search, category, platform and sort listeners (games.js:33-36) all end in `FilterGames`, which takes the control values as parameters.
- Text.Lower: lowers ASCII letters only. JavaScript's `toLowerCase` follows full Unicode case mapping, which is not modelled.
- Text.LexLe: `localeCompare` is replaced by code-point lexicographic order. Locale collation (accents, case folding) is a library behaviour outside the model.
- Dates.Parse: only date-only `YYYY-MM-DD` strings with a month in 1..12 and a day in 1..31 are valid. Other formats `Date` accepts, time-of-day, and day-of-month checks per month are not modelled.
- Dates.Rank: a missing or invalid release date is ranked below every valid date. In JavaScript the comparator then returns NaN, which `sort` treats as "equal", and the resulting order is implementation-defined.
- Catalog.SortBy: the sort algorithm of `Array.prototype.sort` is represented by a stable insertion sort. ES2019 requires the library sort to be stable, so for a consistent comparator both give the same output. The in-place mutation of the array is modelled as reassigning `filteredGames`.
- Presentation details are not modelled: the card's HTML template and escaping, CSS classes, the image `onerror` placeholder, the `animationDelay` float (games.js:189-212), and the element look-ups by id.
- Page.LibraryPage.constructor: the markup's initial visibility of the spinner, banners and counter is not part of the source shown. The constructor starts with all of them hidden.
- Page.LibraryPage.FetchGames: the load runs as one step. A user filter applied while the fetch is still pending, which interleaves at the `await`, is not modelled.
- Records whose `title` is missing make the source throw in `filterGames`. The model's record always has a title, and its other fields are strings or missing.
- script.js and purchase.js are not part of this model: they hold scroll and cursor effects, the mobile menu, counters, and the clipboard order flow.
