/** `MarketAnalyzer` of python-examples/06_data_analysis/market_metrics.py:
    four bounded windows (`trades`, `spreads`, `prices`, `volumes`, each a
    `deque(maxlen=history_size)`) and the statistics computed over them. */
module MarketMetrics {
  import opened Wrappers
  import opened TradeWindow

  /** The window length `MarketAnalyzer()` uses when none is given. */
  const DefaultHistorySize: nat := 100

  /** `get_price_change()`: a bare 0 with fewer than two prices (`NoChange`),
      otherwise the pair (change, change in percent). */
  datatype PriceChange = NoChange | Change(delta: real, percent: real)

  /** `prices[i]` and `volumes[i]` are the price and size of `trades[i]`. */
  ghost predicate Aligned(trades: seq<Trade>, prices: seq<real>, volumes: seq<real>)
  {
    && |prices| == |trades|
    && |volumes| == |trades|
    && forall i :: 0 <= i < |trades| ==> prices[i] == trades[i].price && volumes[i] == trades[i].size
  }

  /** Appending one trade to the three trade windows keeps them aligned. */
  lemma PushAligned(trades: seq<Trade>, prices: seq<real>, volumes: seq<real>, t: Trade, n: nat)
    requires Aligned(trades, prices, volumes) && |trades| <= n
    ensures Aligned(Push(trades, t, n), Push(prices, t.price, n), Push(volumes, t.size, n))
  {
    var ts, ps, vs := Push(trades, t, n), Push(prices, t.price, n), Push(volumes, t.size, n);
    if |trades| < n {
      assert ts == trades + [t] && ps == prices + [t.price] && vs == volumes + [t.size];
    } else if n > 0 {
      var d := |trades| - n + 1;
      assert ts == trades[d..] + [t] && ps == prices[d..] + [t.price] && vs == volumes[d..] + [t.size];
      forall i | 0 <= i < |ts| ensures ps[i] == ts[i].price && vs[i] == ts[i].size {
        if i < |ts| - 1 {
          assert ts[i] == trades[d + i] && ps[i] == prices[d + i] && vs[i] == volumes[d + i];
        }
      }
    }
  }

  class MarketAnalyzer {
    const historySize: nat
    var trades: seq<Trade>
    var spreads: seq<real>
    var prices: seq<real>
    var volumes: seq<real>
    /** Every trade and every spread ever added, oldest first. */
    ghost var tradeLog: seq<Trade>
    ghost var spreadLog: seq<real>

    /** Each window holds the most recent `historySize` values added to it, in
        arrival order, and the three trade windows are aligned. */
    ghost predicate Valid()
      reads this
    {
      && trades == Window(tradeLog, historySize)
      && spreads == Window(spreadLog, historySize)
      && Aligned(trades, prices, volumes)
    }

    /** `__init__(history_size)`: four empty windows. */
    constructor (historySize: nat)
      ensures Valid() && this.historySize == historySize
      ensures trades == [] && spreads == [] && prices == [] && volumes == []
      ensures tradeLog == [] && spreadLog == []
    {
      this.historySize := historySize;
      trades, spreads, prices, volumes := [], [], [], [];
      tradeLog, spreadLog := [], [];
    }

    /** `MarketAnalyzer()`: the default window of 100. */
    constructor Default()
      ensures Valid() && historySize == DefaultHistorySize
      ensures trades == [] && spreads == [] && prices == [] && volumes == []
      ensures tradeLog == [] && spreadLog == []
    {
      historySize := DefaultHistorySize;
      trades, spreads, prices, volumes := [], [], [], [];
      tradeLog, spreadLog := [], [];
    }

    /** `add_trade(price, size, side)`: appends to the three trade windows,
        each evicting its oldest entry when full; `spreads` is untouched. */
    method AddTrade(price: real, size: real, side: string)
      requires Valid()
      modifies this
      ensures Valid()
      ensures tradeLog == old(tradeLog) + [Trade(price, size, side)]
      ensures trades == Push(old(trades), Trade(price, size, side), historySize)
      ensures prices == Push(old(prices), price, historySize)
      ensures volumes == Push(old(volumes), size, historySize)
      ensures spreads == old(spreads) && spreadLog == old(spreadLog)
    {
      var t := Trade(price, size, side);
      PushWindow(tradeLog, t, historySize);
      PushAligned(trades, prices, volumes, t, historySize);
      trades := Push(trades, t, historySize);
      prices := Push(prices, price, historySize);
      volumes := Push(volumes, size, historySize);
      tradeLog := tradeLog + [t];
    }

    /** `add_spread(spread)`: appends to `spreads` only. */
    method AddSpread(spread: real)
      requires Valid()
      modifies this
      ensures Valid()
      ensures spreadLog == old(spreadLog) + [spread]
      ensures spreads == Push(old(spreads), spread, historySize)
      ensures trades == old(trades) && prices == old(prices) && volumes == old(volumes)
      ensures tradeLog == old(tradeLog)
    {
      PushWindow(spreadLog, spread, historySize);
      spreads := Push(spreads, spread, historySize);
      spreadLog := spreadLog + [spread];
    }
  }

  /** `get_avg_spread()`: 0 without spreads, otherwise their mean. */
  function AvgSpread(spreads: seq<real>): (r: real)
    ensures spreads == [] ==> r == 0.0
    ensures spreads != [] ==> r * |spreads| as real == Sum(spreads)
  {
    if spreads == [] then 0.0 else Sum(spreads) / |spreads| as real
  }

  /** The mean lies between the smallest and the largest spread. */
  lemma AvgSpreadWithin(spreads: seq<real>, lo: real, hi: real)
    requires spreads != []
    requires forall i :: 0 <= i < |spreads| ==> lo <= spreads[i] <= hi
    ensures lo <= AvgSpread(spreads) <= hi
  {
    SumBounds(spreads, lo, hi);
    QuotientBounds(Sum(spreads), |spreads| as real, lo, hi);
  }

  /** `get_total_volume()`: the sum of the `volumes` window. */
  function TotalVolume(volumes: seq<real>): (r: real)
    ensures volumes == [] ==> r == 0.0
    ensures (forall i :: 0 <= i < |volumes| ==> volumes[i] >= 0.0) ==> r >= 0.0
  {
    SumNonNegative(volumes);
    Sum(volumes)
  }

  /** Because the windows are aligned, the total volume is the summed size of
      the trades in the window (no more, no less). */
  lemma {:induction false} TotalVolumeOfWindow(trades: seq<Trade>, prices: seq<real>, volumes: seq<real>)
    requires Aligned(trades, prices, volumes)
    ensures TotalVolume(volumes) == SumSize(trades)
  {
    if trades != [] {
      var n := |trades| - 1;
      TotalVolumeOfWindow(trades[..n], prices[..n], volumes[..n]);
    }
  }

  /** `get_buy_sell_ratio()`: the volume of side 'B' over that of side 'A';
      infinite whenever the 'A' volume is 0, even when the 'B' volume is 0 too. */
  function BuySellRatio(ts: seq<Trade>): (r: Ratio)
    ensures r.Infinity? <==> SideVolume(ts, "A") == 0.0
    ensures r.Finite? ==> r.value * SideVolume(ts, "A") == SideVolume(ts, "B")
  {
    var buy := SideVolume(ts, "B");
    var sell := SideVolume(ts, "A");
    if sell == 0.0 then Infinity else Finite(buy / sell)
  }

  /** Trades whose side is neither 'B' nor 'A' do not move the ratio. */
  lemma RatioIgnoresOtherSides(ts: seq<Trade>, t: Trade)
    requires t.side != "A" && t.side != "B"
    ensures BuySellRatio(ts + [t]) == BuySellRatio(ts)
  {
    assert (ts + [t])[..|ts|] == ts;
  }

  /** `get_price_change()`. */
  function PriceChangeOf(prices: seq<real>): (r: PriceChange)
    ensures r.NoChange? <==> |prices| < 2
  {
    if |prices| < 2 then NoChange
    else
      var first, last := prices[0], prices[|prices| - 1];
      var change := last - first;
      Change(change, if first > 0.0 then change / first * 100.0 else 0.0)
  }

  /** The change leads from the first to the last price, and with a positive
      first price the percentage does too. */
  lemma PriceChangeRoundTrip(prices: seq<real>)
    requires |prices| >= 2
    ensures PriceChangeOf(prices).Change?
    ensures prices[0] + PriceChangeOf(prices).delta == prices[|prices| - 1]
    ensures prices[0] > 0.0 ==> prices[0] + prices[0] * PriceChangeOf(prices).percent / 100.0 == prices[|prices| - 1]
    ensures prices[0] <= 0.0 ==> PriceChangeOf(prices).percent == 0.0
  {
    var first, last := prices[0], prices[|prices| - 1];
    if first > 0.0 {
      var c := last - first;
      assert first * (c / first * 100.0) / 100.0 == c;
    }
  }

  // ---------------------------------------------------------------------------
  // `display_stats`

  /** The values `display_stats` prints. */
  datatype Stats = Stats(vwap: real, totalVolume: real, tradeCount: nat, ratio: Ratio,
                         avgSpread: real, change: real, changePercent: real, latest: Option<real>)

  /** `display_stats` returns early without trades, shows the statistics, or
      stops with a TypeError. */
  datatype Display = NotShown | Shown(stats: Stats) | TypeError

  function StatsWith(trades: seq<Trade>, spreads: seq<real>, prices: seq<real>, volumes: seq<real>,
                     change: real, percent: real): Stats
  {
    Stats(Vwap(trades), TotalVolume(volumes), |trades|, BuySellRatio(trades), AvgSpread(spreads),
          change, percent, if prices != [] then Some(prices[|prices| - 1]) else None)
  }

  /** `display_stats` as written: `change, change_pct = self.get_price_change()`
      cannot unpack the bare 0 returned for fewer than two prices. */
  function DisplayStatsAsWritten(trades: seq<Trade>, spreads: seq<real>, prices: seq<real>, volumes: seq<real>): (r: Display)
    ensures r.NotShown? <==> trades == []
    ensures r.TypeError? <==> trades != [] && |prices| < 2
    ensures r.Shown? ==> r.stats.tradeCount == |trades| && r.stats.vwap == Vwap(trades)
    ensures r.Shown? ==>
              && r.stats.ratio == BuySellRatio(trades)
              && r.stats.avgSpread == AvgSpread(spreads)
              && r.stats.totalVolume == TotalVolume(volumes)
              && PriceChangeOf(prices) == Change(r.stats.change, r.stats.changePercent)
              && r.stats.latest == Some(prices[|prices| - 1])
  {
    if trades == [] then NotShown
    else match PriceChangeOf(prices)
      case NoChange => TypeError
      case Change(change, percent) => Shown(StatsWith(trades, spreads, prices, volumes, change, percent))
  }

  /** With exactly one trade in the window, the statistics as written are never
      shown: the unpacking raises. (With `history_size == 1` this is every call
      after the first trade.) */
  lemma OneTradeRaises(trades: seq<Trade>, spreads: seq<real>, prices: seq<real>, volumes: seq<real>)
    requires Aligned(trades, prices, volumes) && |trades| == 1
    ensures DisplayStatsAsWritten(trades, spreads, prices, volumes) == TypeError
  {
  }

  /** The intended price change for display: no change (0, 0) with fewer than two prices. */
  function ChangeForDisplay(prices: seq<real>): (real, real)
  {
    match PriceChangeOf(prices)
    case NoChange => (0.0, 0.0)
    case Change(change, percent) => (change, percent)
  }

  /** `display_stats` corrected: shown exactly when there are trades, never
      raising, and equal to the code as written wherever that does not raise. */
  function DisplayStats(trades: seq<Trade>, spreads: seq<real>, prices: seq<real>, volumes: seq<real>): (r: Display)
    ensures r != TypeError
    ensures r.NotShown? <==> trades == []
    ensures DisplayStatsAsWritten(trades, spreads, prices, volumes) != TypeError ==>
              r == DisplayStatsAsWritten(trades, spreads, prices, volumes)
    ensures r.Shown? && |prices| < 2 ==> r.stats.change == 0.0 && r.stats.changePercent == 0.0
  {
    if trades == [] then NotShown
    else
      var (change, percent) := ChangeForDisplay(prices);
      Shown(StatsWith(trades, spreads, prices, volumes, change, percent))
  }
}
