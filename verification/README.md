# CryptoTracker core, modelled in Dafny

This project models the state and derivation logic of the CryptoTracker web
app:

- the market snapshot, watchlist and simulated portfolio of `CryptoContext`;
- the mock accounts of `AuthContext`;
- the price alerts of the alerts page;
- the values the dashboard, markets, overview, search, watchlist, trading
  and news components derive from that state.

Each component is one module of pure functions over immutable datatypes.
Prices and amounts are `real`, strings are `seq<char>`, and collections are
sequences in source order.

- `Common`: `Option`, `Result`, a generic `Filter` (the JS `Array.filter`),
  `Take` (`slice(0, n)`), `SumOf` (`reduce` with `+` from 0), and the
  subsequence relation.
- `Text`: ASCII `toLowerCase`, `includes` (proved equal to "occurs at some
  offset"), and `split(c)[0]`.
- `Market`: the coin record and the lookup `find(c => c.id === id)`.
- `CoinSort`: the column comparator of both market tables, as a stable
  insertion sort proved to give a sorted permutation that keeps equal keys in feed order, plus the
  column-header toggle.
- `Watchlist`, `Portfolio`, `Alerts`, `Auth`: the mutating operations. Each
  has a partner property:
  - `Watchlist`: removal undoes an addition, and both keep the list free of
    duplicates.
  - `Portfolio`: every operation keeps the invariant "one position per coin,
    positive amount and cost basis, derived fields consistent"; revaluing is
    idempotent.
  - `Alerts`: evaluation is idempotent, which is why the effect that
    evaluates alerts stops after one write.
- `PortfolioSummary`, `Dashboard`, `MarketsPage`, `MarketOverview`,
  `SearchModal`, `WatchlistWidget`, `TradingWidget`, `News`: what each
  component computes from the state.
- `Session`: the whole app state together with the browser store
  (`map<string, Stored>`). Each action writes the persisted copy that equals
  the new in-memory value, and nothing else. The React effects are explicit:
  - `Refresh`: a completed fetch (success or failure).
  - `PortfolioEffect`: the revaluation after each new snapshot.
  - `AlertEffect`: the alert check, run after each new snapshot and after
    every change to the alert list.
  - `LoadAlerts`: reading a user's stored alerts when they sign in.

Where the documented behaviour and the code differ, the model follows the
code:

- `createAlert` does not check that the target price is positive. A zero or
  negative target is accepted (`Alerts.CreateAcceptsNonPositiveTarget`).
- Re-activating an alert whose condition still holds at the current
  snapshot price does not wait for a new crossing. The alert check re-runs
  on the changed list and fires it again at once
  (`Session.ReactivationRefires`).
- Selling through the trade form only shows a message and changes no state.
- Signing out removes the user, watchlist and portfolio keys from the store.
  It keeps the in-memory watchlist and portfolio, and it keeps the per-user
  alert keys.

## Model

| member | source | states |
|---|---|---|
| Common.Filter | components/MarketsPage.tsx:15-23 | `Array.filter`: exactly the elements that pass, each with all its copies, in their original order |
| Common.FilterAppend | components/MarketsPage.tsx:42-43 | filtering a sequence extended by one element adds that element exactly when it passes |
| Common.Take | components/SearchModal.tsx:25 | `slice(0, n)`: the first `min(n, length)` elements, a prefix of the input |
| Common.SumOf | components/PortfolioSummary.tsx:11 | `reduce` with `+` from 0: the empty sequence sums to 0 and a single element to its own term |
| Common.SumOfAppend | components/PortfolioSummary.tsx:11-13 | the sum of a concatenation is the sum of the sums, so the total of the snapshot is its terms added up |
| Text.LowerChar | components/MarketsPage.tsx:17-18 | `toLowerCase` on one character: A-Z go to a-z, every other character is unchanged |
| Text.ToLower | components/MarketsPage.tsx:17-18 | `toLowerCase`: same length, each character lower-cased in place |
| Market.FindCoin | contexts/CryptoContext.tsx:191-193 | no coin is found exactly when no coin of the snapshot has the id; otherwise the result is the first coin with that id |
| Text.Contains | components/MarketsPage.tsx:17-18 | `includes` is true exactly when the needle occurs at some offset of the text |
| Text.BeforeFirst | contexts/AuthContext.tsx:62 | `split(c)[0]` is the longest prefix without `c`; it is followed by `c` when `c` occurs, and is the whole string otherwise |
| Market.EmptyQueryMatches | components/MarketsPage.tsx:17-18 | the empty search text matches every coin |
| CoinSort.Sort | components/MarketsPage.tsx:24-28 | the result is sorted by the chosen column and direction, and is a permutation of the input |
| CoinSort.SortStable | components/MarketsPage.tsx:24-28 | the sort is stable: the coins sharing any value of the column keep their feed order, as the engine's `Array.prototype.sort` does |
| CoinSort.InsertStable | components/MarketsPage.tsx:24-28 | an inserted coin goes ahead of every coin with an equal key |
| CoinSort.HandleSort | components/MarketsPage.tsx:30-37 | the clicked column becomes the sort column; clicking the current column flips the order, a new column starts descending |
| CoinSort.HandleSortTwice | components/MarketOverview.tsx:21-28 | clicking the current column twice restores the sort state |
| Watchlist.Add | contexts/CryptoContext.tsx:104-111 | an id already present leaves the list unchanged; otherwise it is appended at the end and nothing else changes |
| Watchlist.AddIdempotent | contexts/CryptoContext.tsx:104-106 | adding the same id twice is adding it once |
| Watchlist.AddKeepsNoDuplicates | contexts/CryptoContext.tsx:104-106 | adding keeps the watchlist free of duplicates |
| Watchlist.Remove | contexts/CryptoContext.tsx:113-118 | the id is gone, every other id keeps all its copies in order, and an absent id changes nothing |
| Watchlist.RemoveUndoesAdd | contexts/CryptoContext.tsx:104-118 | removing an id that was just added to a list without it restores the list |
| Watchlist.RemoveKeepsNoDuplicates | contexts/CryptoContext.tsx:113-114 | removing keeps the watchlist free of duplicates |
| Portfolio.FindPosition | contexts/CryptoContext.tsx:121 | no position is found exactly when none has the id; otherwise it is the first position with that id |
| Portfolio.WeightedAverage | contexts/CryptoContext.tsx:124-126 | the new average price times the new amount equals the old cost plus the cost of the purchase, and it is positive |
| Portfolio.WeightedAverageBetween | contexts/CryptoContext.tsx:124-126 | the new average price lies between the old average and the purchase price |
| Portfolio.Buy | contexts/CryptoContext.tsx:120-162 | a first purchase appends one position priced at the snapshot; a repeat purchase merges in place with the summed amount and weighted average; other positions are unchanged |
| Portfolio.BuyKeepsWellFormed | contexts/CryptoContext.tsx:120-162 | buying keeps one position per coin, positive amounts and cost bases, and consistent derived fields |
| Portfolio.ConsWellFormed | contexts/CryptoContext.tsx:164-165 | a sound position of a coin not yet held may precede a well-formed portfolio |
| Portfolio.Remove | contexts/CryptoContext.tsx:164-169 | no position with the id remains, every other position keeps all its copies in order |
| Portfolio.RemoveKeepsWellFormed | contexts/CryptoContext.tsx:164-165 | removing keeps the portfolio invariant |
| Portfolio.Revalue | contexts/CryptoContext.tsx:171-189 | positions of listed coins take the snapshot price and recompute value, profit/loss and percentage; amounts, cost bases and unlisted positions are untouched |
| Portfolio.RevalueIdempotent | contexts/CryptoContext.tsx:171-185 | revaluing twice against the same snapshot is revaluing once |
| Portfolio.RevalueKeepsWellFormed | contexts/CryptoContext.tsx:171-185 | revaluing keeps the portfolio invariant |
| Portfolio.WeightedAverageExample | contexts/CryptoContext.tsx:123-126 | 1 unit at 100 plus 1 unit at 200 holds 2 units at an average of 150 |
| Portfolio.FirstBuyThenRevalueExample | contexts/CryptoContext.tsx:143-154 | 0.5 units bought at 2000 and revalued at 2500 are worth 1250 with a profit of 250, or 25 percent |
| Alerts.Evaluate | components/AlertsPage.tsx:50-71 | each alert of a listed coin records the snapshot price and goes inactive exactly when it was active and its condition is met; unlisted alerts are unchanged; none is re-activated |
| Alerts.EvaluateIdempotent | components/AlertsPage.tsx:50-77 | a second pass over the same snapshot changes nothing |
| Alerts.Fired | components/AlertsPage.tsx:55-64 | the alerts a pass announces: exactly those that are active, listed and meet their condition, in order, each copy once |
| Alerts.NoRefire | components/AlertsPage.tsx:55-66 | after one pass, no alert fires again on the same snapshot |
| Alerts.CheckAlerts | components/AlertsPage.tsx:50-77 | nothing is saved for an empty alert list or snapshot; otherwise the evaluated list is saved exactly when it differs from the current one |
| Alerts.CheckAlertsSettles | components/AlertsPage.tsx:73-77 | after the effect saves, its re-run saves nothing |
| Alerts.IndicatorAfterEvaluate | components/AlertsPage.tsx:268-273 | after a pass, the warning triangle shows exactly when the snapshot price meets the condition, and such an alert is inactive |
| Alerts.Create | components/AlertsPage.tsx:79-106 | no user and a missing coin or target are rejected in that order; otherwise one active alert is appended with the coin's name, symbol and snapshot price |
| Alerts.CreateAcceptsNonPositiveTarget | components/AlertsPage.tsx:88-98 | a target of zero or below is accepted |
| Alerts.Toggle | components/AlertsPage.tsx:120-126 | exactly the alerts with the id flip their active flag |
| Alerts.ToggleTwice | components/AlertsPage.tsx:120-123 | toggling twice restores the list |
| Alerts.Delete | components/AlertsPage.tsx:114-118 | exactly the alerts with the id are removed, every other alert keeps all its copies in order |
| Alerts.AboveScenario | components/AlertsPage.tsx:55-66 | an above-100 alert seeing 90, 95, 105, 110 fires once, at 105, and records 110 at the end |
| Alerts.BitcoinScenario | components/AlertsPage.tsx:93-103 | an alert created above 50000 at 48000 goes inactive at 51000, records 51000 and keeps its target |
| PortfolioSummary.Summarize | components/PortfolioSummary.tsx:11-14 | the empty portfolio sums to zero; the return percentage is the profit relative to the investment, and 0 without investment |
| PortfolioSummary.SummarizeAppend | components/PortfolioSummary.tsx:11-13 | each total grows by exactly the new position's contribution |
| PortfolioSummary.ProfitIsValueMinusInvested | components/PortfolioSummary.tsx:11-13 | when each position's profit is its value minus its cost, the totals obey the same equation |
| PortfolioSummary.WellFormedHasInvestment | components/PortfolioSummary.tsx:13-14 | a non-empty well-formed portfolio has a positive investment, so the percentage is a real quotient |
| PortfolioSummary.HeadlineOf | components/PortfolioSummary.tsx:56-71 | the card reads Profit exactly for a non-negative total; the magnitude with the label's sign gives back the total |
| Dashboard.StatsOf | components/Dashboard.tsx:17-46 | market totals, the coin count, the holdings value hidden without a user, and a "+$"/"-$" change whose sign and magnitude give back the profit/loss |
| Dashboard.StatsOfAppend | components/Dashboard.tsx:17-18 | one more coin adds its cap and volume to the totals and one to the coin count, and changes nothing else |
| Dashboard.TotalsNonNegative | components/Dashboard.tsx:17-18 | non-negative caps and volumes give non-negative totals, whatever the portfolio and sign-in state |
| TradingWidget.Validate | components/TradingWidget.tsx:20-39 | each rejection happens exactly when its check is the first to fail; an accepted order carries the selected coin and the entered positive amount and price |
| TradingWidget.HandleTrade | components/TradingWidget.tsx:41-47 | a rejected form and a sell leave the portfolio unchanged; a valid buy is exactly one purchase at the entered amount and price |
| MarketsPage.FilteredCryptos | components/MarketsPage.tsx:15-28 | a sorted permutation of exactly the matching coins, gainers strictly up and losers strictly down |
| MarketsPage.FlatCoinInNeither | components/MarketsPage.tsx:20-21 | a coin with a 24h change of exactly 0 is in neither the gainers nor the losers view |
| MarketsPage.EmptyQueryShowsAll | components/MarketsPage.tsx:15-23 | an empty search with no filter shows every coin |
| MarketsPage.StatsOf | components/MarketsPage.tsx:39-44 | gainers and losers together never exceed the coin count; each count is 0 exactly when there is no such coin |
| MarketsPage.StatsOfAppend | components/MarketsPage.tsx:39-44 | one more coin adds its cap and volume to the totals and counts once as a gainer (change above 0) or a loser (below 0) |
| MarketOverview.SortedCryptos | components/MarketOverview.tsx:13-19 | at most 20 rows, sorted, drawn from the snapshot, and no coin left out ranks ahead of a coin shown |
| MarketOverview.HandleSortStaysInOverview | components/MarketOverview.tsx:21-28 | the header toggle keeps to the table's three columns |
| MarketOverview.AddButtonDisappears | components/MarketOverview.tsx:159-163 | after the "+" button is pressed it no longer shows for that coin |
| SearchModal.Results | components/SearchModal.tsx:18-29 | at most ten matching coins in snapshot order: the first ten matches, or all of them when there are fewer |
| SearchModal.EmptyQueryFirstTen | components/SearchModal.tsx:26-28 | an empty query shows the first ten coins of the snapshot |
| SearchModal.ClickResult | components/SearchModal.tsx:31-33 | clicking a result shows its in-watchlist badge, and clicking again changes nothing |
| WatchlistWidget.Shown | components/WatchlistWidget.tsx:11-13 | at most eight watched coins in snapshot order: the first eight, or all when there are fewer |
| WatchlistWidget.EmptyStateIff | components/WatchlistWidget.tsx:34 | the empty state shows exactly when no watched id is in the snapshot |
| WatchlistWidget.RemoveButton | components/WatchlistWidget.tsx:82 | a removed coin disappears from the card |
| Auth.SignIn | contexts/AuthContext.tsx:46-72 | an email without "@" and then a password shorter than 6 are rejected in that order; the user's display name is the email up to its first "@" |
| Auth.SignUp | contexts/AuthContext.tsx:74-104 | email, password and then a display name shorter than 2 are rejected in that order; otherwise the user carries the given email and name |
| Auth.UpdateProfile | contexts/AuthContext.tsx:114-120 | without a user nothing happens; otherwise each supplied field replaces the old one and the others are kept |
| Auth.UpdateProfileIdempotent | contexts/AuthContext.tsx:114-116 | saving the same profile form twice is saving it once |
| News.FilteredNews | components/NewsPage.tsx:110-115 | exactly the articles that match the search and the category, each with all its copies, in order |
| News.NoFilterKeepsAll | components/NewsPage.tsx:110-115 | an empty search in "all" lists every article |
| News.FormatDate | components/NewsPage.tsx:117-125 | "Just now" under one hour, whole hours elapsed rounded down up to 23, and the date from 24 hours on |
| News.FutureIsJustNow | components/NewsPage.tsx:120-122 | a publication time in the future reads "Just now" |
| Session.AlertsKeyDistinct | components/AlertsPage.tsx:44 | a per-user alert key never equals the user, watchlist or portfolio key |
| Session.AddToWatchlist | contexts/CryptoContext.tsx:104-111 | a new id is appended and the stored list equals the new list; a present id changes nothing, not even the store |
| Session.RemoveFromWatchlist | contexts/CryptoContext.tsx:113-118 | the watchlist becomes its filtered copy and the stored list equals it, even when nothing was removed; nothing else changes |
| Session.Trade | components/TradingWidget.tsx:20-47 | only a valid buy changes state: the portfolio becomes the purchase and its stored copy equals it |
| Session.RemovePosition | contexts/CryptoContext.tsx:164-169 | the portfolio becomes its filtered copy and the stored portfolio equals it; nothing else changes |
| Session.PortfolioEffect | contexts/CryptoContext.tsx:171-189 | an empty portfolio is neither revalued nor written; otherwise the revalued portfolio is stored |
| Session.SaveAlerts | components/AlertsPage.tsx:42-47 | without a user nothing changes; with one the list is set and stored under that user's key |
| Session.AlertEffect | components/AlertsPage.tsx:50-77 | with a user, alerts and a snapshot the list becomes its evaluation; a changed list is saved under that user's key and an unchanged one writes nothing |
| Session.AlertEffectSettles | components/AlertsPage.tsx:73-77 | running the alert check again right after it ran changes nothing |
| Session.Refresh | contexts/CryptoContext.tsx:80-102 | a failed fetch keeps everything; a successful one replaces the snapshot, revalues and stores a non-empty portfolio, evaluates a signed-in user's alerts and stores them only when they change, leaves an empty portfolio's key and unchanged alerts' key as they were, and writes no other key |
| Session.RefreshKeepsInv | contexts/CryptoContext.tsx:215-217 | a refresh keeps the portfolio invariant |
| Session.RefreshIdempotent | contexts/CryptoContext.tsx:215-217 | delivering the same snapshot twice is delivering it once |
| Session.TradeKeepsInv | components/TradingWidget.tsx:41-42 | trading keeps the portfolio invariant |
| Session.RemovePositionKeepsInv | contexts/CryptoContext.tsx:164-167 | removing a position keeps the portfolio invariant |
| Session.Commit | components/AlertsPage.tsx:42-77 | with a user the saved list is shown re-evaluated when there are alerts and a snapshot, and the stored copy equals it; without one nothing changes |
| Session.CreateAlert | components/AlertsPage.tsx:79-112 | a rejected form changes nothing; an accepted one leaves the extended list as evaluated against the snapshot, stored under the user's key, with nothing else touched |
| Session.ToggleAlert | components/AlertsPage.tsx:120-126 | without a user nothing changes; with one the toggled list, re-evaluated when there are alerts and a snapshot, is set and stored under the user's key |
| Session.ReactivationRefires | components/AlertsPage.tsx:50-66 | re-activating an alert whose condition holds at the snapshot price leaves it inactive with that price recorded |
| Session.EvaluateKeepsAbsentId | components/AlertsPage.tsx:52-71 | an alert check never brings back an id that was absent |
| Session.DeleteAlert | components/AlertsPage.tsx:114-118 | with a user the list becomes the filtered list, re-evaluated when non-empty with a snapshot, and the stored list equals it; without one nothing changes |
| Session.LoadAlerts | components/AlertsPage.tsx:32-39 | a signed-in user's stored alert list replaces the list; a missing entry changes nothing |
| Session.SignIn | contexts/AuthContext.tsx:46-72 | a rejection changes nothing; success sets the user and stores exactly that user |
| Session.SignUp | contexts/AuthContext.tsx:74-104 | a rejection changes nothing; success sets and stores the new user: the generated id, the given email and name, no photo and the creation date |
| Session.SignOut | contexts/AuthContext.tsx:106-112 | the user, watchlist and portfolio keys are gone, every other key is kept, and the in-memory lists stay |
| Session.SignOutKeepsAlerts | contexts/AuthContext.tsx:106-110 | signing out keeps every user's stored alerts |
| Session.UpdateProfile | contexts/AuthContext.tsx:114-120 | without a user nothing changes; otherwise the merged user is set and stored |

## Left out

- The HTTP request and the one-minute timer of `fetchCryptocurrencies` are not modelled. A completed fetch arrives in `Session.Refresh` as `Some(snapshot)` on success or `None` on failure. The loading flag and error logging are not modelled.
- Reading the watchlist, portfolio and user from the store at start-up is not modelled, and neither is JSON (de)serialisation. Store values are kept already parsed. The alert check's `JSON.stringify` comparison is value equality.
- Toast notifications, animations, routing, and every `toLocaleString`/`toFixed`/`toLocaleDateString` rendering are not modelled. The model produces the numbers and labels, not the text.
- `Math.random` ids and `new Date()` timestamps are parameters. Dates in the news list are milliseconds since the epoch.
- Floating point is not modelled. Prices are exact reals, and NaN/Infinity from a division by zero cannot arise.
- Portfolio.Buy: requires a positive amount and price, which its only caller, the trade form, guarantees. It also requires that a merged position has a non-negative amount and a positive cost basis. With a zero divisor the source would store Infinity or NaN.
- Portfolio.WeightedAverage: requires a non-negative held amount, a positive cost basis and a positive amount and price, for the same reason.
- Portfolio.Revalue: requires that every position of a listed coin has a non-zero cost basis, because the percentage divides by it.
- TradingWidget.HandleTrade: requires the weaker portfolio invariant that every position has a non-negative amount and positive cost basis, which `Portfolio.WellFormed` implies and every action keeps.
- Session.Trade: carries the same requirement as `TradingWidget.HandleTrade`.
- Session.Refresh: requires the new snapshot to be revaluable against the portfolio, which `Session.RefreshKeepsInv` shows holds for every well-formed portfolio.
- MarketOverview.SortedCryptos: requires one of the table's three sort columns, as the source's type does.
- The number fields of the trade and alert forms are either empty or a number (`Option<real>`). Non-numeric text that `parseFloat` would turn into NaN is not modelled.
- Lower-casing maps only the ASCII letters A-Z, and a string is a sequence of characters rather than UTF-16 code units.
- The alert list is component state of the alerts page. `Session` keeps it as if that page stays open, so that the load and check effects always run.
- The mock news articles and the components `Header` and `ProfilePage` (layout and navigation only) are not part of this model.
- The `loading` flags and the shared `searchQuery` of the crypto context hold no logic and are not modelled.
