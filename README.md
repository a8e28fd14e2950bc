# Apartment exchange mock: a Dafny model of its logic

The application is a mock trading screen that lists apartment complexes as
"coins". A market engine keeps moving their prices at random. An exchange list
filters them by region and flashes each row when its price ticks. A detail
view runs a ticker of its own, synthesises a seven-level order book, labels
unit sizes and keeps an order form. An information view shows the five fastest
risers. A fixed catalog seeds all of this.

This project models that logic in Dafny and proves what the code promises.
There is one module per source file:

- `Types` (types.ts): the `Coin` and `OrderBookItem` records, JavaScript's `Math.round`, and the change-rate formula.
- `Market` (App.tsx):
  - the `setCoins` updater, written as a function and as the statement-by-statement method;
  - the five self-rescheduling timeout loops, as the class `Engine`;
  - the `selectedCoin` lookup.
- `OrderBook` (components/TradingView.tsx): `orderBookData` with its two push loops, and the bar widths of the rows.
- `SizeLabel` (components/TradingView.tsx): `getSizeText`. Its regular expression is a leftmost scan with a deterministic matcher.
- `TradingPanel` (components/TradingView.tsx): the detail view's state cells as the class `Detail`. These are the ticker, the order-price stepper and the reset. The module also holds `calculateTotal` and the headline.
- `Exchange` (components/ExchangeView.tsx):
  - the region filter;
  - the `CoinRow` flash state, as the class `Row`;
  - the price split and the change column.
- `CoinInfo` (components/CoinInfoView.tsx): `topRising`, and the tooltip's centre fraction.
- `Catalog` (constants.ts): `COINS` and `MOCK_ORDERBOOK` as constants, with the facts the engine needs at start.

Every `Math.random()` draw is a parameter in [0, 1). So is `getGammaVolume`'s
weight, which is known only to be positive. Timers are discrete events:
- `Fire` is a pending timeout firing;
- `FlashExpired` is the 500 ms flash timer firing;
- `Tick` is one beat of the ticker interval.

Prices are `real`, and `Math.round(x)` is `floor(x + 0.5)`.

A few behaviours of the code are easy to assume otherwise; the model keeps
them as written:
- **Zero baseline.** Nothing guards the division by `prevPrice` (App.tsx:48, components/TradingView.tsx:41), so a zero baseline is never skipped. The model requires `prevPrice != 0` wherever the code divides by it.
- **Unknown id.** Order-book synthesis has no error path: it is handed a coin, never an id (components/TradingView.tsx:87). An id no coin has only makes `selectedCoin` null (App.tsx:80).
- **Ask order.** The asks are pushed from the farthest level inward and returned in that order, so their prices descend (components/TradingView.tsx:108, 127). `OrderBook.LadderPrices` states this order.
- **Stored rates.** The catalog's `changeRate` values are written out to two decimals (constants.ts:6-63), not computed. `Catalog.CatalogFacts` proves each is the formula's value to within 0.005, with the right sign.
- **Fluctuation bound.** One tick moves a price by at most 0.25 % of it either way before rounding (App.tsx:31): at most 3,000 on a price of 1,200,000 (`Market.Fluctuation`). A rounding example on its own is `Market.RoundingExample`.

## Model

| member | source | states |
|---|---|---|
| Types.Round | App.tsx:35-38 | `Math.round`: the result is within half a unit of the input, halves going up |
| Types.ChangeRate | App.tsx:48 | the percentage change against the baseline; with a positive baseline its sign is the direction of the move |
| Types.ChangeRateStrictlyMonotone | components/TradingView.tsx:111-121 | with a positive baseline the change rate strictly increases with the price |
| Market.PickIndex | App.tsx:26 | `floor(draw * n)` is a valid index of a non-empty list and within one of `draw * n` |
| Market.Fluctuation | App.tsx:31 | the fluctuation is at most 0.25 % of a non-negative price either way, and strictly below it upwards |
| Market.FluctuationBound | App.tsx:31 | the product bound behind `Fluctuation` |
| Market.RoundToTick | App.tsx:35-38 | tier chosen on the unrounded value: a multiple of 100 above 100,000, integral above 1,000, a multiple of 0.1 above 100, otherwise of 0.01; always within half a step; non-negative input gives non-negative output |
| Market.TickOnGrid | App.tsx:35-38 | the rounded price lies on the grid of the band it lands in, also when rounding carries it across a band edge |
| Market.RoundingExample | App.tsx:35 | 1,203,450 rounds to 1,203,500 |
| Market.NextPrice | App.tsx:31-38 | the stored price after clamping and rounding is never negative and stays within 0.25 % plus half a step of the old price |
| Market.AddedVolume | App.tsx:41-45 | no volume unless the trade draw is below 0.3; otherwise, for a non-negative price, between 0 and price/2000, and strictly below price/2000 for a positive price |
| Market.Retick | App.tsx:48-55 | only price, changeRate and volume24h change; the new price is `NextPrice`, the rate is the formula at the new price against the unchanged baseline, and volume does not decrease |
| Market.Ticked | App.tsx:24-58 | no contract of its own: the state `setCoins` leaves after one update, the list with the slot `PickIndex` chose replaced by `Retick` of its coin; `Market.Updater` and `Market.TickedKeepsInvariant` state what it means |
| Market.RoundPrice | App.tsx:34-38 | the in-place rounding statements compute `RoundToTick` |
| Market.NextCoin | App.tsx:28-55 | the updater body for the chosen coin computes exactly `Retick` |
| Market.Updater | App.tsx:24-58 | the copied list keeps its length, the chosen slot holds `Retick` of the old coin and every other slot is unchanged |
| Market.TickedKeepsInvariant | App.tsx:24-58 | a tick keeps the list non-empty with non-negative prices on their band's grid and positive baselines, and keeps each slot's id, baseline and every other field but price, change rate and volume; no volume decreases; when every stored rate was within 0.005 of the formula, every rate still is |
| Market.KeepsRecordTrans | App.tsx:50-55 | keeping a record's other fields, with volume not lower, composes over successive ticks |
| Market.Find | App.tsx:80 | `find` gives the first coin with the id, or none exactly when no coin has it |
| Market.SelectedCoin | App.tsx:80 | no id selected gives null; otherwise the `find` result |
| Market.SelectById | App.tsx:80 | with distinct ids, selecting a coin's id gives back that coin |
| Market.SelectionSurvivesTick | App.tsx:80 | a tick neither loses the selected coin nor changes the id found |
| Market.Engine.constructor | App.tsx:16-22 | from a catalog whose rates are current, mounting sets the flag, starts five loops through the `for` loop of App.tsx:70-72, and exactly five timeouts are pending; every coin keeps its catalog record except price, change rate and volume, and no volume went down |
| Market.Engine.ScheduleUpdate | App.tsx:21-67 | unmounted: nothing changes; mounted: one tick of the list and one fresh timeout id added to `activeTimeouts` |
| Market.Engine.Fire | App.tsx:62-65 | a firing timeout deletes its own id and schedules one fresh one, so five loops stay pending |
| Market.Engine.Unmount | App.tsx:74-77 | cleanup clears the flag and every pending timeout, so none can fire; `activeTimeouts` itself is left as it was |
| OrderBook.TickSize | components/TradingView.tsx:102-104 | the tick is one of 1000, 100, 1 or 0.01 |
| OrderBook.TickSizeMonotone | components/TradingView.tsx:102-104 | a higher price never gets a finer tick; from 1,000 up the tick is at most a thousandth of the price |
| OrderBook.Clamp | components/TradingView.tsx:93 | the result is in [-5, 5], equals the input inside that range, is 5 at or above 5 and -5 at or below -5, and keeps its sign |
| OrderBook.Imbalance | components/TradingView.tsx:93-94 | the imbalance is in [0.5, 1.5] and above 1 exactly when the change rate is positive |
| OrderBook.BaseVolume | components/TradingView.tsx:95 | at least 500 and at least volume/50, equal to one of them, and 500 when volume is at most 25,000 |
| OrderBook.RandomFactor | components/TradingView.tsx:114 | the random factor is in [0.8, 1.2) |
| OrderBook.WallFactor | components/TradingView.tsx:113-114 | the wall factor is 1 or 2.5, and 2.5 exactly for an eligible index and a successful flip |
| OrderBook.AskLevel | components/TradingView.tsx:109-115 | one ask iteration pushes `AskItem` |
| OrderBook.BidLevel | components/TradingView.tsx:119-125 | one bid iteration pushes `BidItem` |
| OrderBook.AskItem | components/TradingView.tsx:109-115 | no contract of its own: the ask pushed at generation index i, priced i+1 ticks above the market with `AskAmount` and the rate against the baseline; `OrderBook.LadderPrices`, `OrderBook.LadderChangeRates` and `OrderBook.KeptAmounts` state its price, rate and amount |
| OrderBook.BidItem | components/TradingView.tsx:119-125 | no contract of its own: the bid pushed at generation index i, priced i ticks below the market with `BidAmount` and the rate against the baseline; `OrderBook.LadderPrices`, `OrderBook.LadderChangeRates` and `OrderBook.KeptAmounts` state its price, rate and amount |
| OrderBook.Asks | components/TradingView.tsx:108-127 | no contract of its own: the seven asks nearest the market in push order, far to near; `OrderBook.OrderBookData` ties it to the loop and `OrderBook.LadderPrices` states its prices |
| OrderBook.Bids | components/TradingView.tsx:118-127 | no contract of its own: the first seven bids generated, near to far; `OrderBook.OrderBookData` ties it to the loop and `OrderBook.LadderPrices` states its prices |
| OrderBook.OrderBookData | components/TradingView.tsx:87-128 | the two push loops and the slices return exactly `Asks` and `Bids` |
| OrderBook.PriceSteps | components/TradingView.tsx:109-120 | consecutive levels on either side are one tick apart, and the nearest ask is one tick above the nearest bid |
| OrderBook.LadderPrices | components/TradingView.tsx:108-127 | 7 asks at price+7t down to price+t, 7 bids at price down to price-6t; asks then bids fall by exactly one tick |
| OrderBook.LadderChangeRates | components/TradingView.tsx:111-121 | every level's rate is the formula at its own price; with a positive baseline the rates strictly fall along asks then bids |
| OrderBook.SideVolumePositive | components/TradingView.tsx:112-114 | a level volume is positive when all its factors are |
| OrderBook.AskAmountFacts | components/TradingView.tsx:112-115 | an ask amount is a non-negative integer, and among the kept indices only index 3 can be a wall |
| OrderBook.BidAmountFacts | components/TradingView.tsx:122-125 | a bid amount is a non-negative integer, and among the kept indices only index 2 can be a wall |
| OrderBook.KeptAmounts | components/TradingView.tsx:112-127 | every kept amount is the floored level volume and non-negative; a kept ask is a wall only at index 3 and a kept bid only at index 2 |
| OrderBook.BidAskBias | components/TradingView.tsx:94-122 | with equal weight, factor and wall, bid volume exceeds ask volume exactly when the clamped rate is positive, falls short exactly when negative, and flooring keeps the order |
| OrderBook.ThousandLadder | components/TradingView.tsx:102-127 | price 1000: tick 1, base volume 500, asks 1007 down to 1001, bids 1000 down to 994 |
| OrderBook.MaxAmount | components/TradingView.tsx:131-132 | `max(...amounts, 0)` is non-negative, at least every amount, and 0 or attained |
| OrderBook.MaxQuantity | components/TradingView.tsx:130-134 | the maximum over both sides bounds every ask and bid amount and is 0 or attained |
| OrderBook.QuantityRatio | components/TradingView.tsx:137 | no contract of its own: the amount over the maximum, or 0 when the maximum is not positive; `OrderBook.BarBounded` states its range |
| OrderBook.BarWidth | components/TradingView.tsx:138 | no contract of its own: fifty times the ratio, in percent; `OrderBook.BarBounded` and `OrderBook.BookBarsBounded` state its range |
| OrderBook.BarBounded | components/TradingView.tsx:137-138 | an amount up to the maximum has a ratio in [0, 1] and a bar width in [0, 50]; the maximum draws 50 |
| OrderBook.BookBarsBounded | components/TradingView.tsx:130-138 | every row of a synthesised book has a bar width in [0, 50] |
| OrderBook.BidPricesPositive | components/TradingView.tsx:118-127 | from a price of 1,000 up every bid price is positive |
| SizeLabel.DigitRun | components/TradingView.tsx:68 | greedy `\d+`: a maximal run of ASCII digits |
| SizeLabel.AfterMark | components/TradingView.tsx:68 | `[A-Z]?` then the mark, matched where it can and not matched otherwise |
| SizeLabel.MatchAt | components/TradingView.tsx:68 | a match at a position has two non-empty digit groups, the first read at that position; no match starts at a non-digit |
| SizeLabel.FindMatch | components/TradingView.tsx:68 | `String.match`: none exactly when no position matches, otherwise the match at the leftmost matching position |
| SizeLabel.MatchSound | components/TradingView.tsx:68 | a match found at a position is really there: the text at that position reads `N[X]평(M[Y])` with the match's groups N and M and at most one capital letter in each optional slot |
| SizeLabel.PiecesMakeShape | components/TradingView.tsx:68 | the pieces the matcher consumes join into the text `N[X]평(M[Y])` at the match position |
| SizeLabel.GetSizeText | components/TradingView.tsx:65-73 | pyeong mode returns the size as given; the special option gets its hand-written label; a size the pattern matches nowhere is returned unchanged |
| SizeLabel.NoDigitsUnchanged | components/TradingView.tsx:72 | a size with no digit is returned unchanged in either mode |
| SizeLabel.PatternGroups | components/TradingView.tsx:68 | `N[X]평(M[Y])…` matches with groups N and M |
| SizeLabel.OptionLabel | components/TradingView.tsx:68-71 | any such size other than the special one is shown as `M.N㎡ (M)` |
| SizeLabel.OptionsArePatterns | components/TradingView.tsx:54-63 | every size option has the pattern's shape, and only the first is the special one |
| SizeLabel.SizeOptionLabel | components/TradingView.tsx:54-71 | each option after the first is labelled `metres.pyeong㎡ (metres)` in square-metre mode |
| SizeLabel.SpecialOverridesPattern | components/TradingView.tsx:67-70 | the pattern would match the special option with groups 18 and 11, but its hand-written label wins and differs |
| TradingPanel.TickerStep | components/TradingView.tsx:33-34 | a ticker step is floored and moves by less than 1,000,001 down and less than one million up |
| TradingPanel.TickerStepFromInteger | components/TradingView.tsx:34 | from an integer price the step is a whole move in [-1,000,000, 1,000,000) |
| TradingPanel.TickerCanGoNegative | components/TradingView.tsx:34 | nothing clamps the ticker: from 0 the lowest draw gives -1,000,000 |
| TradingPanel.CalculateTotal | components/TradingView.tsx:81-85 | an unparsable or zero amount gives 0; otherwise the floor of price times amount |
| TradingPanel.Arrow | components/TradingView.tsx:42-44 | '▲' exactly for a positive rate, '-' exactly for zero, '▼' exactly for a negative rate |
| TradingPanel.MoveSize | components/TradingView.tsx:599 | no contract of its own: the absolute value of the rounded move from the baseline; `TradingPanel.HeadlineAgrees` states that it is the exact distance for whole prices |
| TradingPanel.HeadlineAgrees | components/TradingView.tsx:599 | with a positive baseline and whole prices the arrow is '▲', '-' or '▼' exactly when the price is above, at or below the baseline, and the figure is the exact distance from the baseline |
| TradingPanel.Detail.constructor | components/TradingView.tsx:27-49 | ticker and order price start at the coin's price, the amount empty, the interval running; the ticker's integrality is tied to the opening price |
| TradingPanel.Detail.Rerender | components/TradingView.tsx:27 | a newer coin prop leaves every state cell as it was |
| TradingPanel.Detail.Tick | components/TradingView.tsx:31-35 | while the interval runs the ticker takes one `TickerStep` and stays whole; afterwards nothing changes |
| TradingPanel.Detail.StepDown | components/TradingView.tsx:497 | the order price drops by exactly 1, and a whole price stays whole |
| TradingPanel.Detail.StepUp | components/TradingView.tsx:500 | the order price rises by exactly 1, and a whole price stays whole |
| TradingPanel.Detail.SetAmount | components/TradingView.tsx:478 | the amount becomes the typed text |
| TradingPanel.Detail.Reset | components/TradingView.tsx:524 | amount cleared, order price back to the coin's current price |
| TradingPanel.Detail.Close | components/TradingView.tsx:37 | the interval is cleared |
| TradingPanel.Detail.CurrentChangeRate | components/TradingView.tsx:41 | with a positive baseline the headline rate's sign is the ticker's direction |
| Exchange.Includes | components/ExchangeView.tsx:127 | `includes` holds exactly when the substring occurs at some position |
| Exchange.Keep | components/ExchangeView.tsx:124-127 | no contract of its own: the tab's predicate: '전국' keeps every coin, '관심' none, any other tab the coins whose location contains it; `Exchange.FilteredCoins`, `Exchange.AllRegionsKeepsAll` and `Exchange.WatchlistEmpty` state what it keeps |
| Exchange.FilteredCoins | components/ExchangeView.tsx:124-128 | the kept coins are exactly the listed coins the tab's predicate accepts |
| Exchange.FilterDistributes | components/ExchangeView.tsx:124-128 | filtering is order-preserving: it distributes over concatenation, and on a single coin it keeps the coin exactly when accepted |
| Exchange.AllRegionsKeepsAll | components/ExchangeView.tsx:125 | '전국' returns every coin in order |
| Exchange.WatchlistEmpty | components/ExchangeView.tsx:126 | '관심' returns nothing |
| Exchange.InitialDirection | components/ExchangeView.tsx:17-19 | up, down or neutral exactly for a positive, negative or zero rate |
| Exchange.ToneOf | components/ExchangeView.tsx:48-53 | no contract of its own: red for up, blue for down, grey otherwise; `Exchange.RenderPrice`, `Exchange.ChangeColumn` and `Exchange.Row.View` state where it colours the row |
| Exchange.RenderPrice | components/ExchangeView.tsx:59-81 | flashing shows the whole string in red exactly for an up flash; idle shows up to two characters whole, otherwise a base and the last two characters that together make the string |
| Exchange.ChangeColumn | components/ExchangeView.tsx:113-115 | '+' exactly for a positive rate, the colour of the rate's sign, and the move rounded to within half a unit |
| Exchange.ChangeColumnAgrees | components/ExchangeView.tsx:113-115 | for a formula rate with a positive baseline and whole prices, the colour, the '+' and the sign of the move all agree |
| Exchange.Row.constructor | components/ExchangeView.tsx:13-22 | no flash, the direction of the 24-hour rate, the current price remembered, no timer |
| Exchange.Row.Observe | components/ExchangeView.tsx:25-37 | a changed price sets flash and last direction to up exactly when it rose, remembers the price and starts a timer; an unchanged one changes nothing |
| Exchange.Row.FlashExpired | components/ExchangeView.tsx:34-36 | the flash ends; last direction and remembered price stay |
| Exchange.Row.Unmount | components/ExchangeView.tsx:38-40 | cleanup clears a pending timer |
| Exchange.Row.View | components/ExchangeView.tsx:56-65 | a flashing row is coloured by its last tick direction |
| CoinInfo.EligibleCoins | components/CoinInfoView.tsx:13 | the filter keeps exactly the non-excluded coins, each as often as in the input, and nothing else |
| CoinInfo.Insert | components/CoinInfoView.tsx:14 | insertion adds exactly the one coin |
| CoinInfo.SortByChangeDesc | components/CoinInfoView.tsx:14 | the sort is a permutation of its input |
| CoinInfo.InsertSorted | components/CoinInfoView.tsx:14 | insertion keeps a list in non-increasing rate order |
| CoinInfo.SortSorted | components/CoinInfoView.tsx:14 | the sort's result is in non-increasing rate order |
| CoinInfo.PrefixFacts | components/CoinInfoView.tsx:15 | a prefix of a sorted list is sorted, a sub-multiset, and ranks above what it leaves out |
| CoinInfo.TopRising | components/CoinInfoView.tsx:12-15 | no contract of its own: the first min(5, n) coins of the eligible list sorted by falling rate; `CoinInfo.TopRisingSpec` states what that list holds |
| CoinInfo.TopRisingSpec | components/CoinInfoView.tsx:12-15 | no excluded coin; min(5, eligible) entries in non-increasing rate order; a sub-multiset of the eligible coins; every eligible coin left out ranks no higher than every coin shown |
| CoinInfo.TooltipCentreInside | components/CoinInfoView.tsx:35-38 | over the five bars the centre fraction is strictly inside (0, 1) and strictly increases with the index |
| Catalog.FeaturedFacts | constants.ts:6-18 | every coin of the first group is consistent |
| Catalog.GyeonggiFacts | constants.ts:21-28 | every Gyeonggi coin is consistent |
| Catalog.BusanFacts | constants.ts:31-39 | every Busan coin is consistent |
| Catalog.IncheonFacts | constants.ts:42-51 | every Incheon coin is consistent |
| Catalog.DaejeonFacts | constants.ts:54-63 | every Daejeon coin is consistent |
| Catalog.CatalogFacts | constants.ts:4-64 | 50 coins with pairwise distinct ids satisfy the engine's invariant, with every stored rate current. Each has symbol = id, whole prices of at least a million (tick 1000, top rounding tier), a current price that is a multiple of 100, and a positive baseline. Each stated rate has the move's sign and is the formula to two decimals; a zero rate marks exactly an unmoved coin |
| Catalog.MockBookShape | constants.ts:73-92 | 7 asks 2910..2904 and 7 bids 2903..2897 are the synthesised ladder for price 2903 with tick 1, one run falling by exactly 1 |
| Catalog.MockBookRates | constants.ts:73-92 | along that run the rates strictly fall, and every amount is positive |
| Catalog.MockBookBaseline | constants.ts:73-92 | each rate is the formula against a baseline of 2,934, to two decimals |

## Left out

- **Rendering.** JSX, CSS classes, icons and charts are left out. `RenderPrice` and `ChangeColumn` keep only the strings and colours.
- **Real time.** These are events only; their order is the caller's:
  - the 50–750 ms random delays;
  - the 1000 ms interval;
  - the 500 ms flash duration;
  - React's batching and concurrency.
- **Random draws.** `Math.random()` is a parameter with its range, not a random source.
- **Floating point.** Reals stand in for IEEE doubles. Rounding error, NaN and infinities are not modelled.
- **`getGammaVolume`.** The pow/exp values are left out; only their positivity is kept.
- **`pyeongPrice`.** Its division by 17.6739 is left out as floating-point display.
- **Formatting.** `toLocaleString` and `toFixed` are left out; a formatted price is an input string.
- **`parseFloat`.** It is outside the model: `CalculateTotal` takes its result as an `Option`.
- **UI-only state.** The size selector, the unit-mode toggle, the map UI, the tabs and the trend index are direct state cells with no logic.
- **Badges.** The new-build labels of a row are left out.
- **Other files.** components/InvestmentView.tsx, components/CrowdFundingView.tsx and components/BottomNav.tsx are not part of this model; they hold static figures and buttons.
- **Display data.** `ASSETS` and `INDICES_DATA` in constants.ts are static data that no modelled code reads.
- **Tooltip.** The `calc(...)` string of `getTooltipLeft` is left out; only its centre fraction is modelled.
- **Empty coin list.** The updater would pick `undefined` from the empty list (App.tsx:28) and fail reading its `price` (App.tsx:31), so `PickIndex` and `Updater` require a non-empty list.
- **Timer ids.** The host's table of pending timers is the field `Engine.scheduled`. The ids `setTimeout` returns are fresh natural numbers.
- CoinInfo.SortByChangeDesc: is proved a permutation with the right order, but stability is not stated. The insertion puts an earlier coin before later ones of equal rate, but this is not proved.
- OrderBook.BidAskBias: does not state that the bid-to-ask ratio is `imbalance / (2 - imbalance)`; it states the order of the two volumes and of their floors.
- Exchange.Row.Observe: does not model clearing the previous timer. A restarted timer is the same pending flag, so a flash lasts 500 ms from the last change.
