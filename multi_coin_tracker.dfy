/** `CoinTracker` and `MultiCoinTracker` of
    python-examples/04_multi_coin_tracker/multi_coin_tracker.py: a per-coin
    window of the last 50 trades with cumulative volume counters, a map from
    coin to tracker fed by batches of trades, and the ranking by volume shown
    on the dashboard. */
module MultiCoin {
  import opened Wrappers
  import opened Lists
  import opened TradeWindow
  import Sorting

  /** `deque(maxlen=50)`. */
  const WindowSize: nat := 50
  /** The dashboard lists at most this many coins. */
  const ShownCoins: nat := 10

  // ---------------------------------------------------------------------------
  // One coin

  /** The observable state of a `CoinTracker`. */
  datatype TrackerState = TrackerState(coin: string, trades: seq<Trade>,
                                       totalVolume: real, buyVolume: real, sellVolume: real)

  /** `CoinTracker(coin)`. */
  function NewTracker(coin: string): TrackerState
  {
    TrackerState(coin, [], 0.0, 0.0, 0.0)
  }

  /** `CoinTracker.add_trade`: the window evicts its oldest trade when full,
      while the three counters accumulate; side "B" counts as a buy and every
      other side as a sell. */
  function AddTradeTo(s: TrackerState, t: Trade): (r: TrackerState)
    ensures r.coin == s.coin
    ensures r.totalVolume == s.totalVolume + t.size
    ensures r.buyVolume + r.sellVolume == s.buyVolume + s.sellVolume + t.size
    ensures t.side == "B" ==> r.buyVolume == s.buyVolume + t.size && r.sellVolume == s.sellVolume
    ensures t.side != "B" ==> r.sellVolume == s.sellVolume + t.size && r.buyVolume == s.buyVolume
  {
    s.(trades := Push(s.trades, t, WindowSize),
       totalVolume := s.totalVolume + t.size,
       buyVolume := if t.side == "B" then s.buyVolume + t.size else s.buyVolume,
       sellVolume := if t.side == "B" then s.sellVolume else s.sellVolume + t.size)
  }

  /** The tracker after `add_trade` of each of `ts`, in order. */
  function FeedAll(s: TrackerState, ts: seq<Trade>): TrackerState
  {
    if ts == [] then s else AddTradeTo(FeedAll(s, ts[..|ts| - 1]), ts[|ts| - 1])
  }

  /** A tracker that has been fed `ts` holds the last 50 of them, while its
      counters cover ALL of `ts`: the total, the "B" sizes and every other size. */
  lemma {:induction false} TrackerFromHistory(coin: string, ts: seq<Trade>)
    ensures FeedAll(NewTracker(coin), ts)
         == TrackerState(coin, Window(ts, WindowSize), SumSize(ts), SideVolume(ts, "B"), OtherVolume(ts, "B"))
  {
    if ts != [] {
      var init, t := ts[..|ts| - 1], ts[|ts| - 1];
      assert init + [t] == ts;
      TrackerFromHistory(coin, init);
      FeedOne(coin, init, t);
      HistoryStep(coin, init, t);
    }
  }

  /** One more trade moves the tracker of a history to that of the longer history. */
  lemma HistoryStep(coin: string, init: seq<Trade>, t: Trade)
    ensures AddTradeTo(TrackerState(coin, Window(init, WindowSize), SumSize(init),
                                    SideVolume(init, "B"), OtherVolume(init, "B")), t)
         == TrackerState(coin, Window(init + [t], WindowSize), SumSize(init + [t]),
                         SideVolume(init + [t], "B"), OtherVolume(init + [t], "B"))
  {
    PushWindow(init, t, WindowSize);
    assert (init + [t])[..|init|] == init;
  }

  /** The accumulator invariant `total_volume == buy_volume + sell_volume`,
      and the window never exceeds 50 trades. */
  lemma TrackerBalanced(coin: string, ts: seq<Trade>)
    ensures FeedAll(NewTracker(coin), ts).totalVolume
         == FeedAll(NewTracker(coin), ts).buyVolume + FeedAll(NewTracker(coin), ts).sellVolume
    ensures |FeedAll(NewTracker(coin), ts).trades| <= WindowSize
  {
    TrackerFromHistory(coin, ts);
    SidesPartitionVolume(ts, "B");
  }

  /** `get_buy_sell_ratio`: infinite only when nothing was sold and something
      was bought; 0 when neither; otherwise buys over sells. */
  function TrackerRatio(buy: real, sell: real): (r: Ratio)
    ensures r.Infinity? <==> sell == 0.0 && buy > 0.0
    ensures sell == 0.0 && buy <= 0.0 ==> r == Finite(0.0)
    ensures sell != 0.0 ==> r.Finite? && r.value * sell == buy
  {
    if sell == 0.0 then (if buy > 0.0 then Infinity else Finite(0.0))
    else Finite(buy / sell)
  }

  /** `get_latest_price`: the price of the newest trade in the window, or 0. */
  function LatestPrice(trades: seq<Trade>): (r: real)
    ensures trades == [] ==> r == 0.0
    ensures trades != [] ==> r == trades[|trades| - 1].price
  {
    if trades == [] then 0.0 else trades[|trades| - 1].price
  }

  /** After `add_trade`, the latest price is that trade's price. */
  lemma LatestAfterAdd(s: TrackerState, t: Trade)
    ensures LatestPrice(AddTradeTo(s, t).trades) == t.price
  {
    var w := AddTradeTo(s, t).trades;
    if |s.trades| < WindowSize {
      assert w == s.trades + [t];
    } else {
      assert w == s.trades[|s.trades| - WindowSize + 1..] + [t];
    }
  }

  /** The latest price of a tracker is 0 until it is fed, and then the price
      of the last trade fed. */
  lemma LatestOfHistory(coin: string, ts: seq<Trade>)
    ensures ts == [] ==> LatestPrice(FeedAll(NewTracker(coin), ts).trades) == 0.0
    ensures ts != [] ==> LatestPrice(FeedAll(NewTracker(coin), ts).trades) == ts[|ts| - 1].price
  {
    if ts != [] {
      LatestAfterAdd(FeedAll(NewTracker(coin), ts[..|ts| - 1]), ts[|ts| - 1]);
    }
  }

  lemma FeedOne(coin: string, ts: seq<Trade>, t: Trade)
    ensures FeedAll(NewTracker(coin), ts + [t]) == AddTradeTo(FeedAll(NewTracker(coin), ts), t)
  {
    assert (ts + [t])[..|ts|] == ts;
  }

  class CoinTracker {
    const coin: string
    var trades: seq<Trade>
    var totalVolume: real
    var buyVolume: real
    var sellVolume: real
    /** Every trade ever added, oldest first. */
    ghost var history: seq<Trade>

    function State(): TrackerState
      reads this
    {
      TrackerState(coin, trades, totalVolume, buyVolume, sellVolume)
    }

    /** The tracker is exactly what feeding `history` to a new tracker gives;
        `TrackerFromHistory` and `TrackerBalanced` spell out what that is. */
    ghost predicate Valid()
      reads this
    {
      State() == FeedAll(NewTracker(coin), history)
    }

    constructor (coin: string)
      ensures Valid() && history == []
      ensures State() == NewTracker(coin)
    {
      this.coin := coin;
      trades := [];
      totalVolume, buyVolume, sellVolume := 0.0, 0.0, 0.0;
      history := [];
    }

    method AddTrade(t: Trade)
      modifies this
      ensures old(Valid()) ==> Valid()
      ensures history == old(history) + [t]
      ensures State() == AddTradeTo(old(State()), t)
    {
      ghost var before := State();
      trades := Push(trades, t, WindowSize);
      totalVolume := totalVolume + t.size;
      if t.side == "B" {
        buyVolume := buyVolume + t.size;
      } else {
        sellVolume := sellVolume + t.size;
      }
      assert State() == AddTradeTo(before, t);
      FeedOne(coin, history, t);
      history := history + [t];
    }
  }

  // ---------------------------------------------------------------------------
  // All coins

  /** A trade as it arrives in `data["data"]`: its `coin` may be missing. */
  datatype RawTrade = RawTrade(coin: Option<string>, trade: Trade)

  /** `if not coin: continue` skips a missing or empty coin. */
  predicate HasCoin(raw: RawTrade)
  {
    raw.coin.Some? && raw.coin.value != ""
  }

  /** The observable state of a `MultiCoinTracker`; `coins` is the insertion
      order of the `trackers` dict. */
  datatype Dashboard = Dashboard(trackers: map<string, TrackerState>, coins: seq<string>, totalTrades: nat)

  const EmptyDashboard := Dashboard(map[], [], 0)

  /** One iteration of `handle_trade`'s loop. */
  function Route(d: Dashboard, raw: RawTrade): (r: Dashboard)
    ensures !HasCoin(raw) ==> r == d
    ensures HasCoin(raw) ==> raw.coin.value in r.trackers && r.totalTrades == d.totalTrades + 1
    ensures d.trackers.Keys <= r.trackers.Keys
  {
    if !HasCoin(raw) then d
    else
      var c := raw.coin.value;
      var s := if c in d.trackers then d.trackers[c] else NewTracker(c);
      Dashboard(d.trackers[c := AddTradeTo(s, raw.trade)],
                if c in d.trackers then d.coins else d.coins + [c],
                d.totalTrades + 1)
  }

  /** `handle_trade` over the trades `raws`, in order. */
  function RouteAll(d: Dashboard, raws: seq<RawTrade>): (r: Dashboard)
    ensures r.totalTrades == d.totalTrades + CountWithCoin(raws)
    ensures d.trackers.Keys <= r.trackers.Keys
  {
    if raws == [] then d else Route(RouteAll(d, raws[..|raws| - 1]), raws[|raws| - 1])
  }

  /** The dashboard once the tracker of `c` exists. */
  function Opened(d: Dashboard, c: string): Dashboard
  {
    if c in d.trackers then d
    else d.(trackers := d.trackers[c := NewTracker(c)], coins := d.coins + [c])
  }

  /** The dashboard once the existing tracker of `c` has been fed `t`. */
  function Fed(d: Dashboard, c: string, t: Trade): Dashboard
    requires c in d.trackers
  {
    d.(trackers := d.trackers[c := AddTradeTo(d.trackers[c], t)], totalTrades := d.totalTrades + 1)
  }

  /** Routing a trade with a coin opens that coin's tracker, then feeds it. */
  lemma RouteOpensThenFeeds(d: Dashboard, raw: RawTrade)
    requires HasCoin(raw)
    ensures Route(d, raw) == Fed(Opened(d, raw.coin.value), raw.coin.value, raw.trade)
  {
    var c := raw.coin.value;
    if c !in d.trackers {
      assert d.trackers[c := NewTracker(c)][c := AddTradeTo(NewTracker(c), raw.trade)]
          == d.trackers[c := AddTradeTo(NewTracker(c), raw.trade)];
    }
  }

  /** The trades of `raws` that carry the coin `c`, in order. */
  function CoinTrades(raws: seq<RawTrade>, c: string): seq<Trade>
  {
    if raws == [] then []
    else
      var raw := raws[|raws| - 1];
      CoinTrades(raws[..|raws| - 1], c) + (if HasCoin(raw) && raw.coin.value == c then [raw.trade] else [])
  }

  /** How many of `raws` carry a coin. */
  function CountWithCoin(raws: seq<RawTrade>): nat
  {
    if raws == [] then 0
    else CountWithCoin(raws[..|raws| - 1]) + (if HasCoin(raws[|raws| - 1]) then 1 else 0)
  }

  /** A trade reaches only its own coin's tracker, creating it when new:
      every other tracker, and the order of the coins seen before, stay as they were. */
  lemma RouteOthersUnchanged(d: Dashboard, raw: RawTrade, c: string)
    requires !HasCoin(raw) || raw.coin.value != c
    ensures c in Route(d, raw).trackers <==> c in d.trackers
    ensures c in d.trackers ==> Route(d, raw).trackers[c] == d.trackers[c]
    ensures Route(d, raw).coins[..|d.coins|] == d.coins
  {
  }

  /** The structural invariant of the dashboard: every coin listed once, in
      the dict, under a tracker for that coin, and never the empty coin. */
  ghost predicate WellFormed(d: Dashboard)
  {
    && NoDup(d.coins)
    && (forall c :: c in d.coins <==> c in d.trackers)
    && (forall c :: c in d.trackers ==> d.trackers[c].coin == c)
    && "" !in d.trackers
  }

  lemma RouteWellFormed(d: Dashboard, raw: RawTrade)
    requires WellFormed(d)
    ensures WellFormed(Route(d, raw))
  {
    if HasCoin(raw) && raw.coin.value !in d.trackers {
      AppendNoDup(d.coins, raw.coin.value);
    }
  }

  /** Per coin, the dashboard after `handle_trade` over `raws` holds a tracker
      exactly when some trade carried that coin, and that tracker is the one
      fed exactly those trades, in order. */
  lemma {:induction false} RouteAllPerCoin(raws: seq<RawTrade>, c: string)
    ensures c in RouteAll(EmptyDashboard, raws).trackers <==> CoinTrades(raws, c) != []
    ensures c in RouteAll(EmptyDashboard, raws).trackers ==>
              RouteAll(EmptyDashboard, raws).trackers[c] == FeedAll(NewTracker(c), CoinTrades(raws, c))
  {
    if raws != [] {
      var init, raw := raws[..|raws| - 1], raws[|raws| - 1];
      RouteAllPerCoin(init, c);
      var ts := CoinTrades(init, c);
      if HasCoin(raw) && raw.coin.value == c {
        assert CoinTrades(raws, c) == ts + [raw.trade];
        assert (ts + [raw.trade])[..|ts|] == ts;
      } else {
        assert CoinTrades(raws, c) == ts;
      }
    }
  }

  lemma {:induction false} RouteAllWellFormed(raws: seq<RawTrade>)
    ensures WellFormed(RouteAll(EmptyDashboard, raws))
    ensures RouteAll(EmptyDashboard, raws).totalTrades == CountWithCoin(raws)
  {
    if raws != [] {
      RouteAllWellFormed(raws[..|raws| - 1]);
      RouteWellFormed(RouteAll(EmptyDashboard, raws[..|raws| - 1]), raws[|raws| - 1]);
    }
  }

  /** The number of trades fed to the trackers of `cs`. */
  function FedTo(raws: seq<RawTrade>, cs: seq<string>): nat
  {
    if cs == [] then 0 else |CoinTrades(raws, cs[0])| + FedTo(raws, cs[1..])
  }

  lemma {:induction false} FedToAppend(raws: seq<RawTrade>, cs: seq<string>, c: string)
    ensures FedTo(raws, cs + [c]) == FedTo(raws, cs) + |CoinTrades(raws, c)|
  {
    if cs != [] {
      assert (cs + [c])[1..] == cs[1..] + [c];
      FedToAppend(raws, cs[1..], c);
    }
  }

  /** One more trade for a coin listed once in `cs` adds exactly one to what `cs` was fed. */
  lemma {:induction false} FedToStep(raws: seq<RawTrade>, raw: RawTrade, cs: seq<string>)
    requires HasCoin(raw) && NoDup(cs)
    ensures FedTo(raws + [raw], cs) == FedTo(raws, cs) + (if raw.coin.value in cs then 1 else 0)
  {
    if cs != [] {
      assert (raws + [raw])[..|raws|] == raws;
      assert NoDup(cs[1..]);
      assert cs[0] == raw.coin.value ==> raw.coin.value !in cs[1..];
      FedToStep(raws, raw, cs[1..]);
    }
  }

  /** `total_trades` counts every trade that carried a coin, which is the
      number of `add_trade` calls summed over all trackers. */
  lemma {:induction false} TotalTradesCounted(raws: seq<RawTrade>)
    ensures RouteAll(EmptyDashboard, raws).totalTrades == CountWithCoin(raws)
    ensures FedTo(raws, RouteAll(EmptyDashboard, raws).coins) == CountWithCoin(raws)
  {
    RouteAllWellFormed(raws);
    if raws != [] {
      var init, raw := raws[..|raws| - 1], raws[|raws| - 1];
      assert init + [raw] == raws;
      TotalTradesCounted(init);
      RouteAllWellFormed(init);
      var d := RouteAll(EmptyDashboard, init);
      if HasCoin(raw) {
        var c := raw.coin.value;
        FedToStep(init, raw, d.coins);
        if c !in d.trackers {
          RouteAllPerCoin(init, c);
          FedToAppend(raws, d.coins, c);
          assert CoinTrades(raws, c) == CoinTrades(init, c) + [raw.trade];
        }
      } else {
        FedToUnchanged(init, raw, d.coins);
      }
    }
  }

  lemma {:induction false} FedToUnchanged(raws: seq<RawTrade>, raw: RawTrade, cs: seq<string>)
    requires !HasCoin(raw)
    ensures FedTo(raws + [raw], cs) == FedTo(raws, cs)
  {
    if cs != [] {
      assert (raws + [raw])[..|raws|] == raws;
      FedToUnchanged(raws, raw, cs[1..]);
    }
  }

  // ---------------------------------------------------------------------------
  // The dashboard ranking

  /** `self.trackers.items()`'s trackers, in dict order. */
  function RowsOf(trackers: map<string, TrackerState>, cs: seq<string>): seq<TrackerState>
  {
    if cs == [] then []
    else (if cs[0] in trackers then [trackers[cs[0]]] else []) + RowsOf(trackers, cs[1..])
  }

  function Volume(s: TrackerState): real
  {
    s.totalVolume
  }

  /** What `display_summary` lists: the trackers by descending total volume
      (ties in dict order), the top 10 of them, and how many more there are. */
  datatype Ranking = Ranking(ranked: seq<TrackerState>, shown: seq<TrackerState>, more: nat)

  function RankingOf(d: Dashboard): (r: Ranking)
    ensures |r.ranked| == |RowsOf(d.trackers, d.coins)|
    ensures |r.shown| <= ShownCoins && |r.shown| <= |r.ranked|
    ensures forall i :: 0 <= i < |r.shown| ==> r.shown[i] == r.ranked[i]
  {
    var ranked := Sorting.SortDesc(RowsOf(d.trackers, d.coins), Volume);
    Ranking(ranked, Sorting.Take(ranked, ShownCoins),
            if |d.trackers| > ShownCoins then |d.trackers| - ShownCoins else 0)
  }

  lemma {:induction false} RowsOfAll(trackers: map<string, TrackerState>, cs: seq<string>)
    requires forall i :: 0 <= i < |cs| ==> cs[i] in trackers
    ensures |RowsOf(trackers, cs)| == |cs|
    ensures forall i :: 0 <= i < |cs| ==> RowsOf(trackers, cs)[i] == trackers[cs[i]]
  {
    if cs != [] {
      RowsOfAll(trackers, cs[1..]);
    }
  }

  /** The dashboard's rows are its trackers, each once, in the order the
      coins were first seen. */
  lemma RowsCover(d: Dashboard)
    requires WellFormed(d)
    ensures |RowsOf(d.trackers, d.coins)| == |d.trackers| == |d.coins|
    ensures forall i :: 0 <= i < |d.coins| ==> RowsOf(d.trackers, d.coins)[i] == d.trackers[d.coins[i]]
    ensures forall c :: c in d.trackers ==> d.trackers[c] in RowsOf(d.trackers, d.coins)
  {
    var rows := RowsOf(d.trackers, d.coins);
    RowsOfAll(d.trackers, d.coins);
    NoDupCard(d.coins);
    assert (set k | k in d.coins) == d.trackers.Keys;
    forall c | c in d.trackers ensures d.trackers[c] in rows {
      var i :| 0 <= i < |d.coins| && d.coins[i] == c;
      assert rows[i] == d.trackers[c];
    }
  }

  /** The ranking lists every tracker once, by non-increasing total volume,
      and keeps the dict order among trackers of equal volume. */
  lemma RankedOrder(d: Dashboard, v: real)
    requires WellFormed(d)
    ensures var r := RankingOf(d);
      && Sorting.SortedDesc(r.ranked, Volume)
      && multiset(r.ranked) == multiset(RowsOf(d.trackers, d.coins))
      && |r.ranked| == |d.trackers|
      && (forall c :: c in d.trackers ==> d.trackers[c] in r.ranked)
      && Sorting.WithKey(r.ranked, Volume, v) == Sorting.WithKey(RowsOf(d.trackers, d.coins), Volume, v)
  {
    var rows := RowsOf(d.trackers, d.coins);
    RowsCover(d);
    Sorting.SortDescCorrect(rows, Volume);
    Sorting.SortDescStable(rows, Volume, v);
    forall c | c in d.trackers ensures d.trackers[c] in RankingOf(d).ranked {
      assert d.trackers[c] in multiset(rows);
    }
  }

  /** At most 10 coins are shown, the first of the ranking; the rest are only counted. */
  lemma RankedTop(d: Dashboard)
    requires WellFormed(d)
    ensures var r := RankingOf(d);
      && |r.shown| == (if |r.ranked| < ShownCoins then |r.ranked| else ShownCoins)
      && (forall i :: 0 <= i < |r.shown| ==> r.shown[i] == r.ranked[i])
      && |r.shown| + r.more == |r.ranked|
  {
    RowsCover(d);
    Sorting.SortDescCorrect(RowsOf(d.trackers, d.coins), Volume);
  }

  /** No coin left off the dashboard has a larger total volume than a shown one. */
  lemma RankedTopIsBest(d: Dashboard)
    ensures var r := RankingOf(d);
      forall i, j :: 0 <= i < |r.shown| <= j < |r.ranked| ==> r.ranked[i].totalVolume >= r.ranked[j].totalVolume
  {
    var ranked := Sorting.SortDesc(RowsOf(d.trackers, d.coins), Volume);
    Sorting.SortDescCorrect(RowsOf(d.trackers, d.coins), Volume);
    Sorting.TakeIsBestDesc(ranked, Volume, ShownCoins);
    forall i, j | 0 <= i < |Sorting.Take(ranked, ShownCoins)| <= j < |ranked|
      ensures ranked[i].totalVolume >= ranked[j].totalVolume
    {
      assert Volume(ranked[i]) >= Volume(ranked[j]);
    }
  }

  /** The state of each tracker of `m`. */
  function States(m: map<string, CoinTracker>): (r: map<string, TrackerState>)
    reads m.Values
    ensures r.Keys == m.Keys
  {
    map c | c in m :: m[c].State()
  }

  /** Each coin's tracker is for that coin, so no two coins share a tracker object. */
  ghost predicate Sound(m: map<string, CoinTracker>)
  {
    forall c :: c in m ==> m[c].coin == c
  }

  class MultiCoinTracker {
    var trackers: map<string, CoinTracker>
    /** The insertion order of `trackers`. */
    var coins: seq<string>
    var totalTrades: nat
    /** Every trade `handle_trade` was given, oldest first. */
    ghost var log: seq<RawTrade>

    function Snapshot(): Dashboard
      reads this, trackers.Values
    {
      Dashboard(States(trackers), coins, totalTrades)
    }


    /** The tracker is what `handle_trade` over `log` gives from the empty one. */
    ghost predicate Valid()
      reads this, trackers.Values
    {
      Sound(trackers) && Snapshot() == RouteAll(EmptyDashboard, log)
    }

    constructor ()
      ensures Valid() && log == []
      ensures Snapshot() == EmptyDashboard
    {
      trackers := map[];
      coins := [];
      totalTrades := 0;
      log := [];
    }

    /** `if coin not in self.trackers: self.trackers[coin] = CoinTracker(coin)`. */
    method Open(c: string)
      requires Sound(trackers)
      modifies this
      ensures Sound(trackers) && c in trackers
      ensures c in old(trackers) ==> trackers == old(trackers) && coins == old(coins)
      ensures c !in old(trackers) ==> trackers == old(trackers)[c := trackers[c]] && fresh(trackers[c]) && coins == old(coins) + [c]
      ensures Snapshot() == Opened(old(Snapshot()), c)
      ensures log == old(log)
    {
      if c !in trackers {
        ghost var before := States(trackers);
        var tracker := new CoinTracker(c);
        assert States(trackers) == before;
        trackers := trackers[c := tracker];
        coins := coins + [c];
        forall k | k in trackers ensures States(trackers)[k] == before[c := NewTracker(c)][k] {
          if k != c {
            assert trackers[k] == old(trackers)[k];
          }
        }
      }
    }

    /** `self.trackers[coin].add_trade(trade)` followed by `self.total_trades += 1`. */
    method Feed(c: string, t: Trade)
      requires Sound(trackers) && c in trackers
      modifies this, trackers[c]
      ensures Sound(trackers)
      ensures trackers == old(trackers) && coins == old(coins) && log == old(log)
      ensures Snapshot() == Fed(old(Snapshot()), c, t)
    {
      ghost var before := Snapshot();
      ghost var want := before.trackers[c := AddTradeTo(before.trackers[c], t)];
      trackers[c].AddTrade(t);
      totalTrades := totalTrades + 1;
      forall k | k in trackers ensures States(trackers)[k] == want[k] {
        if k != c {
          assert trackers[k] != trackers[c];
        }
      }
      assert States(trackers) == want;
    }

    /** Appends to the ghost log; nothing observable changes. */
    method Record(raw: RawTrade)
      requires Sound(trackers)
      modifies this
      ensures Sound(trackers) && log == old(log) + [raw]
      ensures trackers == old(trackers) && coins == old(coins) && totalTrades == old(totalTrades)
      ensures Snapshot() == old(Snapshot())
    {
      log := log + [raw];
    }

    /** A trade that carries a coin: create the coin's tracker if new, feed
        it the trade and count it. */
    method Deliver(raw: RawTrade)
      requires Sound(trackers) && HasCoin(raw)
      modifies this, trackers.Values
      ensures Sound(trackers) && log == old(log)
      ensures Snapshot() == Route(old(Snapshot()), raw)
      ensures forall c :: c in trackers ==> (c in old(trackers) && trackers[c] == old(trackers)[c]) || fresh(trackers[c])
    {
      RouteOpensThenFeeds(Snapshot(), raw);
      var c := raw.coin.value;
      Open(c);
      Feed(c, raw.trade);
    }

    /** The body of `handle_trade`'s loop for one trade: a trade without a
        coin is skipped. */
    method HandleOne(raw: RawTrade)
      requires Valid()
      modifies this, trackers.Values
      ensures Valid()
      ensures log == old(log) + [raw]
      ensures Snapshot() == Route(old(Snapshot()), raw)
      ensures forall c :: c in trackers ==> (c in old(trackers) && trackers[c] == old(trackers)[c]) || fresh(trackers[c])
    {
      if HasCoin(raw) {
        Deliver(raw);
      }
      Record(raw);
      assert log[..|log| - 1] == old(log);
    }

    /** `handle_trade(data)`: routes each trade of `data["data"]`, in order. */
    method HandleTrade(data: seq<RawTrade>)
      requires Valid()
      modifies this, trackers.Values
      ensures Valid()
      ensures log == old(log) + data
      ensures Snapshot() == RouteAll(old(Snapshot()), data)
    {
      var i := 0;
      while i < |data|
        invariant 0 <= i <= |data|
        invariant Valid()
        invariant log == old(log) + data[..i]
        invariant Snapshot() == RouteAll(old(Snapshot()), data[..i])
        invariant forall c :: c in trackers ==> (c in old(trackers) && trackers[c] == old(trackers)[c]) || fresh(trackers[c])
      {
        HandleOne(data[i]);
        assert data[..i + 1][..i] == data[..i];
        i := i + 1;
      }
      assert data[..i] == data;
    }
  }
}
