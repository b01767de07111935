# Market-data trackers: a Dafny model

This project models the stateful core of three market-data example programs
from the `python-examples` collection. Each one turns a stream of decoded
exchange messages into a running view of the market.

- **`L4OrderBook`** (`04_l4_orderbook_advanced/l4_orderbook.py`) keeps an
  order-level book. It holds `orders` (oid -> order record) and
  `price_levels`, a `defaultdict(list)` from price *text* to the oids resting
  at that price. An update is an array of order records, applied in order:
  - a record with a `status` removes its order;
  - any other record adds the order or replaces it, moving it to the back of
    its new level.

  The summary splits the orders into bids (side `"B"`) and asks (every other
  side). It sorts them by `float(limitPx)`, bids best-first and asks
  best-first, and shows five per side and the spread.
- **`MarketAnalyzer`** (`06_data_analysis/market_metrics.py`) keeps four
  `deque(maxlen=history_size)` windows: trades, spreads, prices and volumes.
  It computes VWAP, average spread, total volume, the buy/sell ratio and the
  price change over them.
- **`CoinTracker` / `MultiCoinTracker`**
  (`04_multi_coin_tracker/multi_coin_tracker.py`) keep one tracker per coin.
  Each tracker has a 50-trade window and cumulative total, buy and sell
  volumes. Trades are routed by their `coin` field, and a dashboard ranks the
  coins by volume and shows the top ten.

Each stateful component has two layers:

- **A specification on values.** These are `Book`/`Added`/`Removed`/`Applied`,
  `Window`/`Push`, `TrackerState`/`AddTradeTo`/`FeedAll` and
  `Dashboard`/`Route`/`RouteAll`, together with the lemmas about them.
- **A class that updates its fields in place.** Its methods are proved to
  follow that specification.

The files are:

- `l4_orderbook.dfy` (module `L4Book`)
- `trade_window.dfy` (module `TradeWindow`): the trade record, the deque
  window and the sums
- `market_metrics.dfy` (module `MarketMetrics`)
- `multi_coin_tracker.dfy` (module `MultiCoin`)
- helper modules:
  - `lists.dfy`: `list.remove` and duplicate-freedom
  - `sorting.dfy`: Python's stable `sort`/`sorted` by a real key, with or
    without `reverse=True`, plus slicing
  - `decimal.dfy`: `float()` of a price string
  - `wrappers.dfy`: `Option` and `Result`

Python's dictionaries iterate in insertion order, and that order decides how
ties are broken in the stable sorts. The model therefore keeps it explicitly:

- `Book.keys` records the order of the L4 `orders` dictionary;
- `Dashboard.coins` records the order in which coins were first seen.

The order book follows the code as written, which differs from a textbook
book in two ways:

- Levels are never pruned. A level whose last order leaves stays behind as an
  empty list (`L4Book.EmptiedLevelRemains`).
- A level is keyed by the exact price text. Bids and asks at the same price
  text therefore share one list (`L4Book.SidesShareLevel`).

## Model

| member | source | states |
|---|---|---|
| L4Book.L4OrderBook.constructor | python-examples/04_l4_orderbook_advanced/l4_orderbook.py:20-22 | The tracker starts with no orders and no price levels, and its invariant holds. |
| L4Book.EmptyBookConsistent | python-examples/04_l4_orderbook_advanced/l4_orderbook.py:20-22 | The empty book satisfies the book invariant: each level lists exactly the known orders at that price text, no oid is listed twice, and the iteration order enumerates each order once. |
| L4Book.L4OrderBook.TouchLevel | python-examples/04_l4_orderbook_advanced/l4_orderbook.py:22 | Reading `price_levels[p]` creates the key `p` with an empty list if it is missing. An existing list is untouched and `orders` does not change. |
| L4Book.L4OrderBook.AddOrder | python-examples/04_l4_orderbook_advanced/l4_orderbook.py:41-55 | `_add_order` updates both dictionaries in place exactly as `Added` prescribes, and the invariant is kept. |
| L4Book.Added | python-examples/04_l4_orderbook_advanced/l4_orderbook.py:41-55 | `_add_order` on the book value: the record is stored under its oid and every other record is unchanged. The oid then sits in the level of its new price text. |
| L4Book.AddedConsistent | python-examples/04_l4_orderbook_advanced/l4_orderbook.py:41-55 | Adding or replacing an order keeps the book invariant. |
| L4Book.AddedEffect | python-examples/04_l4_orderbook_advanced/l4_orderbook.py:41-55 | After `_add_order` the record is stored under its oid. The oid sits in exactly one level, the one of its new price, where it is moved to the back. It is taken out of its old price's level. Every other oid and every other level is unchanged, and the level keys gain exactly the new price. In the dictionary's iteration order a new oid goes last, while a replaced oid keeps its place. |
| L4Book.L4OrderBook.RemoveOrder | python-examples/04_l4_orderbook_advanced/l4_orderbook.py:57-63 | `_remove_order` updates the fields in place exactly as `Removed` prescribes, and the invariant is kept. |
| L4Book.Removed | python-examples/04_l4_orderbook_advanced/l4_orderbook.py:57-61 | After a removal the oid is no longer a key of `orders`, and every other record stays. Removing an unknown oid changes nothing. |
| L4Book.RemovedConsistent | python-examples/04_l4_orderbook_advanced/l4_orderbook.py:57-63 | Removing an order keeps the book invariant. |
| L4Book.RemovedLevels | python-examples/04_l4_orderbook_advanced/l4_orderbook.py:59-63 | After the removal each level lists exactly the remaining orders at that price, without duplicates. |
| L4Book.RemovedEffect | python-examples/04_l4_orderbook_advanced/l4_orderbook.py:59-63 | Removing a known oid drops its record and deletes it from its own level by `list.remove`. The level key stays. Every other level is unchanged, and the oid is left in no level. `del` drops the oid from the dictionary's iteration order, and the other oids keep their order. |
| L4Book.RemoveIdempotent | python-examples/04_l4_orderbook_advanced/l4_orderbook.py:57-59 | Removing the same oid twice gives the same book as removing it once. |
| L4Book.EmptiedLevelRemains | python-examples/04_l4_orderbook_advanced/l4_orderbook.py:59-63 | Adding then removing the only order at a price leaves that price as a key with an empty list. |
| L4Book.SidesShareLevel | python-examples/04_l4_orderbook_advanced/l4_orderbook.py:53-55 | A bid and an ask with the same price text end up in one level list, in arrival order. |
| L4Book.UnfileSpec | python-examples/04_l4_orderbook_advanced/l4_orderbook.py:49-50 | The guarded `remove` takes exactly `oid` out of level `p`, keeps the level free of duplicates and touches no other level. |
| L4Book.FileSpec | python-examples/04_l4_orderbook_advanced/l4_orderbook.py:54-55 | The guarded `append` adds exactly `oid` to level `p`, never twice, and touches no other level. |
| Lists.RemoveFirst | python-examples/04_l4_orderbook_advanced/l4_orderbook.py:50 | `list.remove(x)` deletes only the first occurrence of `x`: the result is one element shorter, the elements around that occurrence stay in order, and the multiset loses exactly one `x`. |
| Lists.RemoveFirstNoDup | python-examples/04_l4_orderbook_advanced/l4_orderbook.py:63 | On a duplicate-free list, `remove(x)` keeps the list duplicate-free and removes exactly `x` from its members. |
| Lists.AppendNoDup | python-examples/04_l4_orderbook_advanced/l4_orderbook.py:54-55 | Appending an element that is absent keeps a list duplicate-free. |
| L4Book.L4OrderBook.HandleUpdate | python-examples/04_l4_orderbook_advanced/l4_orderbook.py:29-37 | The loop over the update's orders leaves the state equal to `Applied` of the whole batch, and the invariant is kept. |
| L4Book.ApplyEntry | python-examples/04_l4_orderbook_advanced/l4_orderbook.py:30-37 | One entry of the loop. A record with a `status` leaves its oid absent from `orders`, and any other record leaves exactly that record stored. No other oid's record changes. |
| L4Book.Applied | python-examples/04_l4_orderbook_advanced/l4_orderbook.py:29-37 | A batch changes only the records of the oids it names. Every other oid's record, or its absence, is as before. |
| L4Book.AppliedConsistent | python-examples/04_l4_orderbook_advanced/l4_orderbook.py:29-37 | Any batch of entries keeps the book invariant. |
| L4Book.LastEntryWins | python-examples/04_l4_orderbook_advanced/l4_orderbook.py:29-37 | The last entry naming an oid decides its record after the batch: gone after a remove, otherwise that entry's record. With no such entry the record is unchanged. |
| L4Book.PriceAll | python-examples/04_l4_orderbook_advanced/l4_orderbook.py:78-79 | Pricing the orders succeeds exactly when every `limitPx` parses. Each order is then paired with its parsed price, in order. |
| Decimal.ParseNatText | python-examples/04_l4_orderbook_advanced/l4_orderbook.py:78-79 | `float()` of the decimal text of a whole number gives that number back. |
| Decimal.ParsePrice | python-examples/04_l4_orderbook_advanced/l4_orderbook.py:78-79 | `float(limitPx)` succeeds only on non-empty text. It yields a negative number only after a leading `-`, and a leading `-` negates the unsigned reading of the rest. |
| Decimal.ParseFixedText | python-examples/04_l4_orderbook_advanced/l4_orderbook.py:78-79 | Reading back a fixed-point text `w.f` with `d` fractional digits, such as "100.50", gives `w + f / 10^d`. |
| L4Book.SummaryFails | python-examples/04_l4_orderbook_advanced/l4_orderbook.py:78-79 | The summary raises exactly when some order's price text is not a number. |
| L4Book.SplitPartition | python-examples/04_l4_orderbook_advanced/l4_orderbook.py:71-75 | The split into bids and asks is a partition: side `"B"` goes to the bids, every other side to the asks, and the sizes add up. |
| L4Book.SummarySides | python-examples/04_l4_orderbook_advanced/l4_orderbook.py:68-79 | After sorting, each side holds exactly the priced orders of that side. |
| L4Book.SummaryPartition | python-examples/04_l4_orderbook_advanced/l4_orderbook.py:68-84 | For a book in which every price parses, the bid and ask counts add up to the total order count. Every summarised order is a book record with its parsed price, and every record appears on its own side. |
| L4Book.Summarize | python-examples/04_l4_orderbook_advanced/l4_orderbook.py:65-84 | `display_summary` without the printing. It fails exactly when some order's price text cannot be parsed, and otherwise reports `len(self.orders)` as the order count. |
| L4Book.SummaryOf | python-examples/04_l4_orderbook_advanced/l4_orderbook.py:68-97 | The computed summary keeps the order count, shows at most five orders per side, and has a spread exactly when both sides are non-empty. |
| L4Book.SummaryOrdering | python-examples/04_l4_orderbook_advanced/l4_orderbook.py:77-79 | Bids are in non-increasing and asks in non-decreasing numeric price order. Orders at an equal price keep the dictionary's iteration order, because both sorts are stable. |
| Sorting.SortDescCorrect | python-examples/04_l4_orderbook_advanced/l4_orderbook.py:78 | Sorting with `reverse=True` yields a permutation of its input in non-increasing key order. |
| Sorting.SortDescStable | python-examples/04_l4_orderbook_advanced/l4_orderbook.py:78 | Elements with an equal key keep their input order under the descending sort. |
| Sorting.SortAscCorrect | python-examples/04_l4_orderbook_advanced/l4_orderbook.py:79 | The ascending sort yields a permutation in non-decreasing key order, and elements with an equal key keep their input order. |
| Sorting.SortDesc | python-examples/04_l4_orderbook_advanced/l4_orderbook.py:78 | The sort with `reverse=True` returns as many elements as it is given. Its order, permutation and stability are stated by `Sorting.SortDescCorrect` and `Sorting.SortDescStable`. |
| Sorting.SortAsc | python-examples/04_l4_orderbook_advanced/l4_orderbook.py:79 | The ascending sort returns as many elements as it is given. Its order, permutation and stability are stated by `Sorting.SortAscCorrect`. |
| Sorting.Take | python-examples/04_l4_orderbook_advanced/l4_orderbook.py:91 | Slicing `[:n]` yields the first `min(n, len)` elements. |
| L4Book.SummaryTop | python-examples/04_l4_orderbook_advanced/l4_orderbook.py:87-108 | At most five orders are shown per side. They are the first ones of the sorted side, and no order left out has a better price than one shown. |
| L4Book.SummarySpread | python-examples/04_l4_orderbook_advanced/l4_orderbook.py:96-97 | A spread exists exactly when both sides are non-empty. It is the lowest ask price minus the highest bid price. |
| TradeWindow.PushWindow | python-examples/06_data_analysis/market_metrics.py:21-25 | A `deque(maxlen=n)` that has received a history holds the last `n` elements of it. One more `append` keeps exactly the `n` most recent elements, in arrival order. |
| TradeWindow.PushBounded | python-examples/06_data_analysis/market_metrics.py:21-25 | An append grows the deque by one until it is full, then keeps its length at `n`. The appended element is last. |
| TradeWindow.Window | python-examples/06_data_analysis/market_metrics.py:21-25 | The window is the suffix of the history of length `min(len, n)`. |
| TradeWindow.Push | python-examples/06_data_analysis/market_metrics.py:29-36 | `deque.append` on a deque with `maxlen=n` never takes it past `n` elements. The contents are stated by `TradeWindow.PushWindow` and `TradeWindow.PushBounded`. |
| MarketMetrics.MarketAnalyzer.constructor | python-examples/06_data_analysis/market_metrics.py:21-25 | All four windows start empty with the given bound. |
| MarketMetrics.MarketAnalyzer.Default | python-examples/06_data_analysis/market_metrics.py:21-25 | `MarketAnalyzer()` without an argument gives four empty windows bounded by the default of 100. |
| MarketMetrics.MarketAnalyzer.AddTrade | python-examples/06_data_analysis/market_metrics.py:27-36 | `add_trade` appends the trade, its price and its size to their windows, each evicting its oldest entry when full. The spreads are untouched, and the three trade windows stay aligned. |
| MarketMetrics.PushAligned | python-examples/06_data_analysis/market_metrics.py:29-36 | After the three appends, `prices[i]` and `volumes[i]` are still the price and size of `trades[i]`. |
| MarketMetrics.MarketAnalyzer.AddSpread | python-examples/06_data_analysis/market_metrics.py:38-40 | `add_spread` appends to the spread window only. |
| TradeWindow.Vwap | python-examples/06_data_analysis/market_metrics.py:42-50 | With positive volume, the VWAP times the total volume equals the total traded value. Otherwise, including for an empty window, it is 0. `CoinTracker.get_vwap` (multi_coin_tracker.py:47-53) is the same formula over the coin's 50-trade window. |
| TradeWindow.VwapWithinPrices | python-examples/06_data_analysis/market_metrics.py:42-50 | With non-negative sizes and positive volume, the VWAP lies between the lowest and highest traded price. |
| MarketMetrics.AvgSpread | python-examples/06_data_analysis/market_metrics.py:52-56 | The average is 0 without spreads. Otherwise it is their mean: the result times the number of spreads is their sum. |
| MarketMetrics.AvgSpreadWithin | python-examples/06_data_analysis/market_metrics.py:52-56 | The average spread lies between the smallest and largest spread in the window. |
| MarketMetrics.TotalVolume | python-examples/06_data_analysis/market_metrics.py:58-60 | The total is 0 for an empty window and is never negative when no size is. |
| MarketMetrics.TotalVolumeOfWindow | python-examples/06_data_analysis/market_metrics.py:58-60 | The sum of the `volumes` window is the summed size of the trades in the trade window. |
| MarketMetrics.BuySellRatio | python-examples/06_data_analysis/market_metrics.py:62-69 | The ratio is infinite exactly when the `'A'` volume is 0, even if the `'B'` volume is 0 too. Otherwise the ratio times the `'A'` volume equals the `'B'` volume. |
| MarketMetrics.RatioIgnoresOtherSides | python-examples/06_data_analysis/market_metrics.py:62-69 | A trade whose side is neither `'B'` nor `'A'` does not change the ratio. |
| MarketMetrics.PriceChangeOf | python-examples/06_data_analysis/market_metrics.py:71-81 | The result is the bare 0 (`NoChange`) exactly when there are fewer than two prices. |
| MarketMetrics.PriceChangeRoundTrip | python-examples/06_data_analysis/market_metrics.py:71-81 | With two or more prices the change is a pair. First price plus change is the last price. With a positive first price, applying the percentage to the first price also gives the last price; otherwise the percentage is 0. |
| MarketMetrics.DisplayStatsAsWritten | python-examples/06_data_analysis/market_metrics.py:83-115 | As written, `display_stats` returns early exactly when there are no trades. It raises TypeError exactly when there are trades but fewer than two prices. Otherwise it shows the window's trade count, VWAP, total volume, buy/sell ratio, average spread, the price change with its percentage, and the latest price. |
| MarketMetrics.OneTradeRaises | python-examples/06_data_analysis/market_metrics.py:109 | As written, `display_stats` with exactly one trade in the window raises TypeError at line 109, so the price change and latest price are not shown. |
| MarketMetrics.DisplayStats | python-examples/06_data_analysis/market_metrics.py:83-115 | The corrected `display_stats` never raises and shows statistics exactly when there are trades. Wherever the code as written does not raise, it gives the same result. With fewer than two prices it shows a change of 0 (0 %). |
| MultiCoin.CoinTracker.constructor | python-examples/04_multi_coin_tracker/multi_coin_tracker.py:21-26 | A new tracker has an empty window and zero volumes, and its (empty) history accounts for it. |
| MultiCoin.CoinTracker.AddTrade | python-examples/04_multi_coin_tracker/multi_coin_tracker.py:28-45 | `add_trade` appends to the 50-trade window, adds the size to the total, and adds it to the buy volume for side `"B"` and to the sell volume otherwise. The tracker stays the fold of its history. |
| MultiCoin.AddTradeTo | python-examples/04_multi_coin_tracker/multi_coin_tracker.py:28-45 | `add_trade` on the tracker value keeps the coin. It adds the size to the total, to the buy volume for side "B" and to the sell volume for every other side; the other counter is unchanged. |
| MultiCoin.TrackerFromHistory | python-examples/04_multi_coin_tracker/multi_coin_tracker.py:21-45 | A tracker fed a history holds the last 50 trades of it. Its total is the summed size of all trades, its buy volume the `"B"` volume, and its sell volume the volume of every other side. |
| MultiCoin.TrackerBalanced | python-examples/04_multi_coin_tracker/multi_coin_tracker.py:41-45 | For every history the total volume is buy plus sell volume, and the window holds at most 50 trades. |
| TradeWindow.SidesPartitionVolume | python-examples/04_multi_coin_tracker/multi_coin_tracker.py:41-45 | Every size counts towards exactly one of "this side" and "every other side". |
| MultiCoin.TrackerRatio | python-examples/04_multi_coin_tracker/multi_coin_tracker.py:55-59 | The ratio is infinite exactly when the sell volume is 0 and the buy volume is positive. It is 0 when both are 0 (or the buy volume is not positive). Otherwise the ratio times the sell volume equals the buy volume. |
| MultiCoin.LatestPrice | python-examples/04_multi_coin_tracker/multi_coin_tracker.py:61-63 | The latest price is 0 for an empty window, and otherwise the price of the newest trade. |
| MultiCoin.LatestAfterAdd | python-examples/04_multi_coin_tracker/multi_coin_tracker.py:61-63 | After `add_trade(t)`, the latest price is `t`'s price. |
| MultiCoin.LatestOfHistory | python-examples/04_multi_coin_tracker/multi_coin_tracker.py:61-63 | The latest price is 0 for an empty history and otherwise the price of the last trade fed. |
| MultiCoin.MultiCoinTracker.constructor | python-examples/04_multi_coin_tracker/multi_coin_tracker.py:69-71 | The dashboard starts with no trackers and a trade count of 0. |
| MultiCoin.MultiCoinTracker.Open | python-examples/04_multi_coin_tracker/multi_coin_tracker.py:80-82 | A fresh tracker is created for a coin seen for the first time. Existing trackers are untouched. |
| MultiCoin.MultiCoinTracker.Feed | python-examples/04_multi_coin_tracker/multi_coin_tracker.py:84-85 | Only the coin's tracker receives the trade, and the trade count grows by one. |
| MultiCoin.RouteOpensThenFeeds | python-examples/04_multi_coin_tracker/multi_coin_tracker.py:80-85 | Routing a trade with a coin is opening the coin's tracker if needed, then feeding it. |
| MultiCoin.MultiCoinTracker.Deliver | python-examples/04_multi_coin_tracker/multi_coin_tracker.py:80-85 | Delivering a trade with a coin changes the dashboard exactly as `Route` prescribes. |
| MultiCoin.MultiCoinTracker.HandleOne | python-examples/04_multi_coin_tracker/multi_coin_tracker.py:75-85 | One trade is routed. A trade without a coin, or with an empty coin, is skipped. |
| MultiCoin.MultiCoinTracker.HandleTrade | python-examples/04_multi_coin_tracker/multi_coin_tracker.py:73-85 | The loop over `data["data"]` leaves the dashboard equal to `RouteAll` applied to the batch, and the invariant is kept. |
| MultiCoin.Route | python-examples/04_multi_coin_tracker/multi_coin_tracker.py:75-85 | A trade without a coin leaves the dashboard unchanged. A trade with a coin leaves that coin with a tracker and adds one to the trade count. No tracker disappears. |
| MultiCoin.RouteAll | python-examples/04_multi_coin_tracker/multi_coin_tracker.py:73-85 | Over a batch, the trade count grows by the number of trades that carry a coin, and no tracker disappears. |
| MultiCoin.RouteOthersUnchanged | python-examples/04_multi_coin_tracker/multi_coin_tracker.py:75-85 | A trade changes no other coin's tracker, and the coins already seen keep their order. |
| MultiCoin.RouteWellFormed | python-examples/04_multi_coin_tracker/multi_coin_tracker.py:80-82 | Routing keeps one tracker per coin. The tracker for a coin is that coin's own, the empty coin never gets a tracker, and the first-seen order lists each coin once. |
| MultiCoin.RouteAllWellFormed | python-examples/04_multi_coin_tracker/multi_coin_tracker.py:73-85 | Any stream of trades leaves the dashboard well formed. |
| MultiCoin.RouteAllPerCoin | python-examples/04_multi_coin_tracker/multi_coin_tracker.py:73-85 | A coin has a tracker exactly when some trade names it. That tracker equals one fed exactly that coin's trades, in order. |
| MultiCoin.TotalTradesCounted | python-examples/04_multi_coin_tracker/multi_coin_tracker.py:71-85 | `total_trades` counts exactly the trades that carry a coin. It equals the number of trades fed to all trackers together. |
| MultiCoin.RowsCover | python-examples/04_multi_coin_tracker/multi_coin_tracker.py:103-104 | The rows to sort are exactly the trackers, one per coin. Row `i` is the tracker of the `i`-th coin in the dictionary's order. |
| MultiCoin.RankingOf | python-examples/04_multi_coin_tracker/multi_coin_tracker.py:103-125 | The ranking has one entry per listed tracker. At most 10 are shown, and they are the head of the ranking. |
| MultiCoin.RankedOrder | python-examples/04_multi_coin_tracker/multi_coin_tracker.py:103-107 | The ranking is a permutation of the trackers in non-increasing total-volume order. Coins with equal volume keep the order in which they were first seen. |
| MultiCoin.RankedTop | python-examples/04_multi_coin_tracker/multi_coin_tracker.py:109-125 | `min(n, 10)` coins are shown, the first of the ranking, and the "more coins" count is the number left out. |
| MultiCoin.RankedTopIsBest | python-examples/04_multi_coin_tracker/multi_coin_tracker.py:103-109 | No coin left out of the top ten has more volume than a coin shown. |

## Left out

- Network, the subscription handshake, `main()` and the `asyncio` loop are not modelled. Each model starts from decoded messages.
- Printing and number formatting are not modelled; the summaries stop at the values that would be printed. This covers `display_summary` in both trackers and `display_stats`.
- How often summaries are shown is not modelled: after every L4 update, every 5 or 10 trades, and the final summary. `handle_update`'s call to `display_summary` is modelled separately, as `L4Book.Summarize` on the resulting book.
- Timestamps (`datetime.now()`) are not modelled, because nothing computed reads them.
- Prices and sizes are exact reals. Float rounding and overflow are not modelled, and the divisions are guarded as in the source.
- The `float()` conversions of trade prices and sizes (`add_trade` in both trackers) and of `add_spread`'s argument are not modelled. Both trackers take the numbers, so the ValueError on a non-numeric trade is not modelled either.
- Decimal.ParsePrice: accepts only an optional sign, digits and an optional fraction. It reports an exponent, `inf`/`nan`, surrounding whitespace or `_` separators as a failure, where Python's `float()` would accept them. It also rejects non-ASCII Unicode decimal digits, which `float()` accepts.
- Malformed messages are not modelled: a missing `data`, `coin`, `orders`, `oid` or `limitPx` key (a KeyError in the source). The messages are typed records.
- A `coin` value that is truthy but not a string is not modelled. `RawTrade.coin` is an optional string.
- `MarketAnalyzer(history_size=None)`, an unbounded deque, is not modelled, and neither is a negative size, which raises ValueError. The bound is a `nat`.
- MultiCoin.CoinTracker.AddTrade: if the tracker is already inconsistent, the method only states the new fields. Consistency is carried over from the old state rather than required.
- MultiCoin.RankedTop: the "more coins" line is modelled as the count it prints.
- Aliasing of `CoinTracker` objects from outside the dashboard is not modelled. Each tracker in the dashboard is created by it and owned by it.

## Findings

| source | as written | input that shows it | evidently intended | confidence | as-written member | corrected member |
|---|---|---|---|---|---|---|
| python-examples/06_data_analysis/market_metrics.py:109 | `change, change_pct = self.get_price_change()` unpacks a pair, but `get_price_change` returns a bare `0` when the window has fewer than two prices (lines 73-74). | Any call of `display_stats` with exactly one trade in the window, which with `history_size=1` is every call after the first trade. The header, VWAP, volume, ratio and average spread (lines 88-106) are printed, then line 109 raises TypeError, so the price change and latest price are never shown. | Show a change of 0 (0 %) when there is no earlier price. | not executed | MarketMetrics.OneTradeRaises | MarketMetrics.DisplayStats |
