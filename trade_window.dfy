/** What `MarketAnalyzer` (python-examples/06_data_analysis/market_metrics.py)
    and `CoinTracker` (python-examples/04_multi_coin_tracker/multi_coin_tracker.py)
    share: a trade record, a `collections.deque(maxlen=n)` window that evicts
    its oldest element, and the sums and volume-weighted average price taken
    over such a window. Prices and sizes are exact reals. */
module TradeWindow {

  /** A trade as both trackers record it (the timestamp is not modelled). */
  datatype Trade = Trade(price: real, size: real, side: string)

  /** A buy/sell ratio: `float('inf')` is its own variant. */
  datatype Ratio = Finite(value: real) | Infinity

  /** The last `n` elements of `s`. */
  function Window<T>(s: seq<T>, n: nat): (r: seq<T>)
    ensures |r| == if |s| <= n then |s| else n
    ensures forall i :: 0 <= i < |r| ==> r[i] == s[|s| - |r| + i]
  {
    if |s| <= n then s else s[|s| - n..]
  }

  /** `deque.append(x)` on a deque created with `maxlen=n`: when the deque is
      full its leftmost (oldest) element is discarded. */
  function Push<T>(w: seq<T>, x: T, n: nat): (r: seq<T>)
    ensures |w| <= n ==> |r| <= n
  {
    if |w| < n then w + [x]
    else if n == 0 then []
    else w[|w| - n + 1..] + [x]
  }

  /** A deque that has seen the elements `h` holds `Window(h, n)`: appending
      one more keeps exactly the `n` most recent ones, in arrival order. */
  lemma PushWindow<T>(h: seq<T>, x: T, n: nat)
    ensures Push(Window(h, n), x, n) == Window(h + [x], n)
  {
    var w := Window(h, n);
    var h' := h + [x];
    if |h| < n {
      assert w == h;
    } else if n > 0 {
      assert w == h[|h| - n..];
      assert w[|w| - n + 1..] == h[|h| - n + 1..];
      assert h'[|h'| - n..] == h[|h| - n + 1..] + [x];
    }
  }

  /** The deque stays within its bound. */
  lemma PushBounded<T>(w: seq<T>, x: T, n: nat)
    requires |w| <= n
    ensures |Push(w, x, n)| == if |w| < n then |w| + 1 else n
    ensures n > 0 ==> Push(w, x, n)[|Push(w, x, n)| - 1] == x
  {
  }

  /** `sum(xs)`. */
  function Sum(xs: seq<real>): real
  {
    if xs == [] then 0.0 else Sum(xs[..|xs| - 1]) + xs[|xs| - 1]
  }

  /** `sum(t['size'] for t in ts)`. */
  function SumSize(ts: seq<Trade>): real
  {
    if ts == [] then 0.0 else SumSize(ts[..|ts| - 1]) + ts[|ts| - 1].size
  }

  /** `sum(t['price'] * t['size'] for t in ts)`. */
  function SumValue(ts: seq<Trade>): real
  {
    if ts == [] then 0.0 else SumValue(ts[..|ts| - 1]) + ts[|ts| - 1].price * ts[|ts| - 1].size
  }

  /** `sum(t['size'] for t in ts if t['side'] == side)`. */
  function SideVolume(ts: seq<Trade>, side: string): real
  {
    if ts == [] then 0.0
    else SideVolume(ts[..|ts| - 1], side) + (if ts[|ts| - 1].side == side then ts[|ts| - 1].size else 0.0)
  }

  /** The sizes of the trades whose side is NOT `side`. */
  function OtherVolume(ts: seq<Trade>, side: string): real
  {
    if ts == [] then 0.0
    else OtherVolume(ts[..|ts| - 1], side) + (if ts[|ts| - 1].side != side then ts[|ts| - 1].size else 0.0)
  }

  /** `get_vwap`: 0 for an empty window or a window of zero volume, otherwise
      the total traded value over the total volume. */
  function Vwap(ts: seq<Trade>): (r: real)
    ensures SumSize(ts) > 0.0 ==> r * SumSize(ts) == SumValue(ts)
    ensures SumSize(ts) <= 0.0 ==> r == 0.0
  {
    if ts == [] then 0.0
    else
      var volume := SumSize(ts);
      if volume > 0.0 then SumValue(ts) / volume else 0.0
  }

  ghost predicate NonNegativeSizes(ts: seq<Trade>)
  {
    forall i :: 0 <= i < |ts| ==> ts[i].size >= 0.0
  }

  ghost predicate PricesWithin(ts: seq<Trade>, lo: real, hi: real)
  {
    forall i :: 0 <= i < |ts| ==> lo <= ts[i].price <= hi
  }

  lemma {:induction false} SumValueBounds(ts: seq<Trade>, lo: real, hi: real)
    requires NonNegativeSizes(ts) && PricesWithin(ts, lo, hi)
    ensures lo * SumSize(ts) <= SumValue(ts) <= hi * SumSize(ts)
  {
    if ts != [] {
      var init, t := ts[..|ts| - 1], ts[|ts| - 1];
      assert NonNegativeSizes(init) && PricesWithin(init, lo, hi);
      SumValueBounds(init, lo, hi);
      var s, v := SumSize(init), SumValue(init);
      assert SumSize(ts) == s + t.size;
      assert SumValue(ts) == v + t.price * t.size;
      StepBounds(lo, hi, s, v, t.price, t.size);
    }
  }

  /** One more trade of price `p` and size `z` keeps the bounds. */
  lemma StepBounds(lo: real, hi: real, s: real, v: real, p: real, z: real)
    requires lo * s <= v <= hi * s && lo <= p <= hi && z >= 0.0
    ensures lo * (s + z) <= v + p * z <= hi * (s + z)
  {
    MulMono(lo, p, z);
    MulMono(p, hi, z);
    assert lo * (s + z) == lo * s + lo * z;
    assert hi * (s + z) == hi * s + hi * z;
  }

  lemma MulMono(a: real, b: real, c: real)
    requires a <= b && c >= 0.0
    ensures a * c <= b * c
  {
    assert b * c - a * c == (b - a) * c;
  }

  /** With non-negative sizes and a positive volume, the VWAP lies between the
      lowest and the highest traded price of the window. */
  lemma VwapWithinPrices(ts: seq<Trade>, lo: real, hi: real)
    requires NonNegativeSizes(ts) && PricesWithin(ts, lo, hi)
    requires SumSize(ts) > 0.0
    ensures lo <= Vwap(ts) <= hi
  {
    SumValueBounds(ts, lo, hi);
    assert ts != [];
    assert Vwap(ts) == SumValue(ts) / SumSize(ts);
    QuotientBounds(SumValue(ts), SumSize(ts), lo, hi);
  }

  lemma QuotientBounds(a: real, v: real, lo: real, hi: real)
    requires v > 0.0 && lo * v <= a <= hi * v
    ensures lo <= a / v <= hi
  {
    assert a / v - lo == (a - lo * v) / v;
    assert hi - a / v == (hi * v - a) / v;
  }

  /** Every size counts towards exactly one of "this side" and "every other side". */
  lemma {:induction false} SidesPartitionVolume(ts: seq<Trade>, side: string)
    ensures SideVolume(ts, side) + OtherVolume(ts, side) == SumSize(ts)
  {
    if ts != [] {
      SidesPartitionVolume(ts[..|ts| - 1], side);
    }
  }

  /** Non-negative terms have a non-negative sum. */
  lemma {:induction false} SumNonNegative(xs: seq<real>)
    ensures (forall i :: 0 <= i < |xs| ==> xs[i] >= 0.0) ==> Sum(xs) >= 0.0
  {
    if xs != [] {
      var init := xs[..|xs| - 1];
      SumNonNegative(init);
      if forall i :: 0 <= i < |xs| ==> xs[i] >= 0.0 {
        assert forall i :: 0 <= i < |init| ==> init[i] == xs[i];
      }
    }
  }

  lemma {:induction false} SumBounds(xs: seq<real>, lo: real, hi: real)
    requires forall i :: 0 <= i < |xs| ==> lo <= xs[i] <= hi
    ensures lo * |xs| as real <= Sum(xs) <= hi * |xs| as real
  {
    if xs != [] {
      SumBounds(xs[..|xs| - 1], lo, hi);
    }
  }
}
