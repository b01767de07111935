/** The order-level ("L4") book tracker of
    python-examples/04_l4_orderbook_advanced/l4_orderbook.py.

    The tracker keeps two dictionaries: `orders` (oid -> order record) and
    `price_levels` (price TEXT -> list of oids, a `defaultdict(list)`). A batch
    of entries is applied one by one: an entry carrying a "status" removes its
    order, any other entry adds or replaces it. The summary splits the orders
    into bids and asks, sorts them by numeric price and shows the best five of
    each side together with the spread.

    The specification is given on values (`Book`, `Added`, `Removed`,
    `Applied`, `Summarize`); the class `L4OrderBook` updates its fields in
    place and is proved to follow it. */
module L4Book {
  import opened Wrappers
  import opened Lists
  import Decimal
  import Sorting

  type Oid = int

  /** The fields of an order record that the tracker reads. */
  datatype Order = Order(oid: Oid, limitPx: string, side: string, sz: string, user: string)

  /** One element of the `orders` array of an update; `status` is present
      exactly when the record carries a "status" key (the order left the book). */
  datatype Entry = Entry(order: Order, status: Option<string>)

  /** The tracker's state. `keys` is the iteration order of the `orders`
      dictionary (insertion order; replacing a value keeps the position). */
  datatype Book = Book(orders: map<Oid, Order>, keys: seq<Oid>, levels: map<string, seq<Oid>>)

  /** The state `__init__` creates. */
  const EmptyBook := Book(map[], [], map[])

  /** Reading `price_levels[p]`: a missing key reads as an empty list. */
  function Level(levels: map<string, seq<Oid>>, p: string): seq<Oid>
  {
    if p in levels then levels[p] else []
  }

  /** The side effect of that read on a `defaultdict`: the key is created. */
  function Touch(levels: map<string, seq<Oid>>, p: string): map<string, seq<Oid>>
  {
    if p in levels then levels else levels[p := []]
  }

  /** `if oid in price_levels[p]: price_levels[p].remove(oid)` */
  function Unfile(levels: map<string, seq<Oid>>, oid: Oid, p: string): map<string, seq<Oid>>
  {
    var lv := Touch(levels, p);
    if oid in lv[p] then lv[p := RemoveFirst(lv[p], oid)] else lv
  }

  /** `if oid not in price_levels[p]: price_levels[p].append(oid)` */
  function File(levels: map<string, seq<Oid>>, oid: Oid, p: string): map<string, seq<Oid>>
  {
    var lv := Touch(levels, p);
    if oid in lv[p] then lv else lv[p := lv[p] + [oid]]
  }

  /** `_add_order(order)`: drop the reference under the order's previous price
      (if the oid is known), store the record, then file the oid under the new
      price text. */
  function Added(b: Book, o: Order): (r: Book)
    ensures r.orders == b.orders[o.oid := o]
    ensures o.oid in Level(r.levels, o.limitPx)
  {
    var known := o.oid in b.orders;
    var detached := if known then Unfile(b.levels, o.oid, b.orders[o.oid].limitPx) else b.levels;
    Book(b.orders[o.oid := o],
         if known then b.keys else b.keys + [o.oid],
         File(detached, o.oid, o.limitPx))
  }

  /** `_remove_order(oid)`: a no-op for an unknown oid; otherwise the record is
      deleted and the oid is taken out of its price level, whose key stays even
      when the list becomes empty. */
  function Removed(b: Book, oid: Oid): (r: Book)
    ensures oid !in r.orders
    ensures oid !in b.orders ==> r == b
    ensures r.orders == b.orders - {oid}
  {
    if oid !in b.orders then b
    else
      Book(b.orders - {oid},
           if oid in b.keys then RemoveFirst(b.keys, oid) else b.keys,
           Unfile(b.levels, oid, b.orders[oid].limitPx))
  }

  /** One entry of `handle_update`'s loop. */
  function ApplyEntry(b: Book, e: Entry): (r: Book)
    ensures e.order.oid in r.orders <==> e.status.None?
    ensures e.status.None? ==> r.orders[e.order.oid] == e.order
    ensures forall k :: k != e.order.oid ==> Lookup(r.orders, k) == Lookup(b.orders, k)
  {
    if e.status.Some? then Removed(b, e.order.oid) else Added(b, e.order)
  }

  /** `handle_update`'s loop over a batch, entries applied strictly in order. */
  function Applied(b: Book, es: seq<Entry>): (r: Book)
    ensures forall k :: (forall i :: 0 <= i < |es| ==> es[i].order.oid != k) ==>
              Lookup(r.orders, k) == Lookup(b.orders, k)
  {
    if es == [] then b else ApplyEntry(Applied(b, es[..|es| - 1]), es[|es| - 1])
  }

  // ---------------------------------------------------------------------------
  // The referential-integrity invariant

  ghost predicate LevelsNoDup(levels: map<string, seq<Oid>>)
  {
    forall p | p in levels :: NoDup(levels[p])
  }

  /** An oid sits in `price_levels[p]` exactly when it is a known order whose
      price text is `p`; no level lists an oid twice; `keys` enumerates the
      orders once each; every record is stored under its own oid. */
  ghost predicate Consistent(b: Book)
  {
    && NoDup(b.keys)
    && (forall k :: k in b.keys <==> k in b.orders)
    && (forall k | k in b.orders :: b.orders[k].oid == k)
    && LevelsNoDup(b.levels)
    && (forall p, k :: k in Level(b.levels, p) <==> k in b.orders && b.orders[k].limitPx == p)
  }

  lemma EmptyBookConsistent()
    ensures Consistent(EmptyBook)
  {
  }

  /** Taking `oid` out of level `p` touches no other level and removes exactly `oid`. */
  lemma UnfileSpec(levels: map<string, seq<Oid>>, oid: Oid, p: string)
    requires LevelsNoDup(levels)
    ensures LevelsNoDup(Unfile(levels, oid, p))
    ensures Unfile(levels, oid, p).Keys == levels.Keys + {p}
    ensures forall q :: q != p ==> Level(Unfile(levels, oid, p), q) == Level(levels, q)
    ensures Level(Unfile(levels, oid, p), p)
         == if oid in Level(levels, p) then RemoveFirst(Level(levels, p), oid) else Level(levels, p)
    ensures forall k :: k in Level(Unfile(levels, oid, p), p) <==> k in Level(levels, p) && k != oid
  {
    var lv := Touch(levels, p);
    if oid in lv[p] {
      RemoveFirstNoDup(lv[p], oid);
    }
  }

  /** Filing `oid` under `p` appends it at the back of that level only, once. */
  lemma FileSpec(levels: map<string, seq<Oid>>, oid: Oid, p: string)
    requires LevelsNoDup(levels)
    ensures LevelsNoDup(File(levels, oid, p))
    ensures File(levels, oid, p).Keys == levels.Keys + {p}
    ensures forall q :: q != p ==> Level(File(levels, oid, p), q) == Level(levels, q)
    ensures Level(File(levels, oid, p), p)
         == if oid in Level(levels, p) then Level(levels, p) else Level(levels, p) + [oid]
    ensures forall k :: k in Level(File(levels, oid, p), p) <==> k in Level(levels, p) || k == oid
  {
    var lv := Touch(levels, p);
    if oid !in lv[p] {
      AppendNoDup(lv[p], oid);
    }
  }

  /** The levels after `_add_order`'s first step: `o.oid` is filed nowhere and
      every other oid is filed where it was. */
  lemma DetachSpec(b: Book, o: Order)
    requires Consistent(b)
    ensures var d := if o.oid in b.orders then Unfile(b.levels, o.oid, b.orders[o.oid].limitPx) else b.levels;
      && LevelsNoDup(d)
      && d.Keys == b.levels.Keys
      && (forall p, k :: k in Level(d, p) <==> k in Level(b.levels, p) && k != o.oid)
  {
    if o.oid in b.orders {
      var op := b.orders[o.oid].limitPx;
      UnfileSpec(b.levels, o.oid, op);
      assert o.oid in Level(b.levels, op);
    }
  }

  /** `_add_order` preserves the invariant. */
  lemma AddedConsistent(b: Book, o: Order)
    requires Consistent(b)
    ensures Consistent(Added(b, o))
  {
    var r := Added(b, o);
    var d := if o.oid in b.orders then Unfile(b.levels, o.oid, b.orders[o.oid].limitPx) else b.levels;
    DetachSpec(b, o);
    FileSpec(d, o.oid, o.limitPx);
    assert r.levels == File(d, o.oid, o.limitPx);
    if o.oid !in b.orders {
      AppendNoDup(b.keys, o.oid);
    }
    forall p, k ensures k in Level(r.levels, p) <==> k in r.orders && r.orders[k].limitPx == p {
      if p != o.limitPx {
        assert Level(r.levels, p) == Level(d, p);
      }
      assert k in Level(d, p) <==> k in Level(b.levels, p) && k != o.oid;
      if k != o.oid {
        assert k in r.orders <==> k in b.orders;
        assert k in r.orders ==> r.orders[k] == b.orders[k];
      }
    }
  }

  /** `_add_order(order)`: the record is stored under its oid; the oid is
      referenced under the new price text only (a re-add at another price has
      dropped the old reference); it is taken out of the new level if it was
      there and appended at its back, so a re-add always moves the order to
      the back; the old level loses just this oid; every other level keeps
      its exact contents, and the only level key that can appear is the new
      price. A new oid goes last in the dictionary's iteration order, while a
      replaced oid keeps its place. */
  lemma AddedEffect(b: Book, o: Order)
    requires Consistent(b)
    ensures Added(b, o).orders == b.orders[o.oid := o]
    ensures forall p :: o.oid in Level(Added(b, o).levels, p) <==> p == o.limitPx
    ensures forall p, k :: k != o.oid ==> (k in Level(Added(b, o).levels, p) <==> k in Level(b.levels, p))
    ensures Level(Added(b, o).levels, o.limitPx)
         == (if o.oid in Level(b.levels, o.limitPx)
             then RemoveFirst(Level(b.levels, o.limitPx), o.oid)
             else Level(b.levels, o.limitPx)) + [o.oid]
    ensures o.oid in b.orders && b.orders[o.oid].limitPx != o.limitPx ==>
              Level(Added(b, o).levels, b.orders[o.oid].limitPx)
              == RemoveFirst(Level(b.levels, b.orders[o.oid].limitPx), o.oid)
    ensures forall p :: p != o.limitPx && (o.oid in b.orders ==> p != b.orders[o.oid].limitPx) ==>
              Level(Added(b, o).levels, p) == Level(b.levels, p)
    ensures Added(b, o).levels.Keys == b.levels.Keys + {o.limitPx}
    ensures Added(b, o).keys == if o.oid in b.orders then b.keys else b.keys + [o.oid]
  {
    AddedConsistent(b, o);
    var d := if o.oid in b.orders then Unfile(b.levels, o.oid, b.orders[o.oid].limitPx) else b.levels;
    DetachSpec(b, o);
    FileSpec(d, o.oid, o.limitPx);
    if o.oid in b.orders {
      var op := b.orders[o.oid].limitPx;
      UnfileSpec(b.levels, o.oid, op);
      assert o.oid in Level(b.levels, op);
      if op != o.limitPx {
        assert Level(d, o.limitPx) == Level(b.levels, o.limitPx);
        assert o.oid !in Level(b.levels, o.limitPx);
      } else {
        assert o.oid !in Level(d, op);
      }
    } else {
      assert o.oid !in Level(b.levels, o.limitPx);
    }
  }

  /** `_remove_order` preserves the invariant. */
  lemma RemovedConsistent(b: Book, oid: Oid)
    requires Consistent(b)
    ensures Consistent(Removed(b, oid))
  {
    if oid in b.orders {
      var p := b.orders[oid].limitPx;
      assert oid in b.keys;
      var keys := RemoveFirst(b.keys, oid);
      var levels := Unfile(b.levels, oid, p);
      assert Removed(b, oid) == Book(b.orders - {oid}, keys, levels);
      RemoveFirstNoDup(b.keys, oid);
      RemovedLevels(b, oid);
    }
  }

  /** Unfiling a known order leaves every other order filed where it was. */
  lemma RemovedLevels(b: Book, oid: Oid)
    requires Consistent(b) && oid in b.orders
    ensures var levels := Unfile(b.levels, oid, b.orders[oid].limitPx);
      && LevelsNoDup(levels)
      && forall q, k :: k in Level(levels, q) <==> k in b.orders && k != oid && b.orders[k].limitPx == q
  {
    var p := b.orders[oid].limitPx;
    var levels := Unfile(b.levels, oid, p);
    UnfileSpec(b.levels, oid, p);
    forall q, k ensures k in Level(levels, q) <==> k in b.orders && k != oid && b.orders[k].limitPx == q {
      if q != p {
        assert Level(levels, q) == Level(b.levels, q);
      }
    }
  }

  /** `_remove_order(oid)` for a known oid: the record is gone, the oid is taken
      out of its own level (the other oids there keep their order), the level
      key stays even if its list is now empty, and every other level and every
      other record is unchanged. `del` drops the oid from the dictionary's
      iteration order. */
  lemma RemovedEffect(b: Book, oid: Oid)
    requires Consistent(b) && oid in b.orders
    ensures var r := Removed(b, oid); var p := b.orders[oid].limitPx;
      && r.orders == b.orders - {oid}
      && r.keys == RemoveFirst(b.keys, oid)
      && Level(r.levels, p) == RemoveFirst(Level(b.levels, p), oid)
      && r.levels.Keys == b.levels.Keys
      && (forall q :: q != p ==> Level(r.levels, q) == Level(b.levels, q))
      && (forall q :: oid !in Level(r.levels, q))
  {
    var p := b.orders[oid].limitPx;
    UnfileSpec(b.levels, oid, p);
    RemovedConsistent(b, oid);
    assert oid in Level(b.levels, p);
  }

  /** Removing an order twice is the same as removing it once. */
  lemma RemoveIdempotent(b: Book, oid: Oid)
    ensures Removed(Removed(b, oid), oid) == Removed(b, oid)
  {
  }

  /** After `_remove_order` the emptied level can remain as a key with an empty
      list: levels are never pruned. */
  lemma EmptiedLevelRemains(o: Order)
    ensures Removed(Added(EmptyBook, o), o.oid).levels == map[o.limitPx := []]
  {
    var a := Added(EmptyBook, o);
    assert Touch(map[], o.limitPx) == map[o.limitPx := []];
    assert [] + [o.oid] == [o.oid];
    assert a.levels == map[o.limitPx := [o.oid]];
    assert RemoveFirst([o.oid], o.oid) == [];
  }

  /** Levels are keyed by price text alone: a bid and an ask at the same text
      share one list, in arrival order. */
  lemma SidesShareLevel(bid: Order, ask: Order)
    requires bid.oid != ask.oid && bid.limitPx == ask.limitPx
    requires bid.side == "B" && ask.side == "A"
    ensures Level(Added(Added(EmptyBook, bid), ask).levels, bid.limitPx) == [bid.oid, ask.oid]
  {
    var a := Added(EmptyBook, bid);
    assert Touch(map[], bid.limitPx) == map[bid.limitPx := []];
    assert [] + [bid.oid] == [bid.oid];
    assert a.levels == map[bid.limitPx := [bid.oid]];
    assert ask.oid !in a.orders;
    assert Touch(a.levels, ask.limitPx) == a.levels;
    assert [bid.oid] + [ask.oid] == [bid.oid, ask.oid];
  }

  /** Every batch keeps the invariant; with `EmptyBookConsistent` it holds
      after any sequence of updates applied to a fresh tracker. */
  lemma {:induction false} AppliedConsistent(b: Book, es: seq<Entry>)
    requires Consistent(b)
    ensures Consistent(Applied(b, es))
  {
    if es != [] {
      var prev := Applied(b, es[..|es| - 1]);
      AppliedConsistent(b, es[..|es| - 1]);
      var e := es[|es| - 1];
      if e.status.Some? {
        RemovedConsistent(prev, e.order.oid);
      } else {
        AddedConsistent(prev, e.order);
      }
    }
  }

  /** The last entry of the batch that names `k`, if any. */
  function LastFor(es: seq<Entry>, k: Oid): Option<Entry>
  {
    if es == [] then None
    else if es[|es| - 1].order.oid == k then Some(es[|es| - 1])
    else LastFor(es[..|es| - 1], k)
  }

  function Lookup(m: map<Oid, Order>, k: Oid): Option<Order>
  {
    if k in m then Some(m[k]) else None
  }

  /** `handle_update` applies entries strictly in order: the record for `k`
      after the batch is decided by the last entry naming `k` (gone after a
      remove, that entry's record after an add), and is the record before the
      batch when no entry names `k`. */
  lemma {:induction false} LastEntryWins(b: Book, es: seq<Entry>, k: Oid)
    ensures Lookup(Applied(b, es).orders, k)
         == match LastFor(es, k)
            case None => Lookup(b.orders, k)
            case Some(e) => if e.status.Some? then None else Some(e.order)
  {
    if es != [] {
      LastEntryWins(b, es[..|es| - 1], k);
    }
  }

  // ---------------------------------------------------------------------------
  // The read side of `display_summary`

  /** An order together with `float(order["limitPx"])`. */
  datatype Priced = Priced(order: Order, px: real)

  /** What `display_summary` computes before printing: the order count, both
      sorted sides, the (at most) five orders shown per side, and the spread
      when both sides are non-empty. */
  datatype Summary = Summary(total: nat, bids: seq<Priced>, asks: seq<Priced>,
                             topBids: seq<Priced>, topAsks: seq<Priced>, spread: Option<real>)

  /** Orders listed per side. */
  const ShownPerSide: nat := 5

  /** `self.orders.items()`: the records in the dictionary's iteration order. */
  function ItemsOf(orders: map<Oid, Order>, keys: seq<Oid>): seq<Order>
  {
    if keys == [] then []
    else (if keys[0] in orders then [orders[keys[0]]] else []) + ItemsOf(orders, keys[1..])
  }

  function Items(b: Book): seq<Order>
  {
    ItemsOf(b.orders, b.keys)
  }

  /** Parses every price; `None` when one of them is not a number (the sort
      key raises ValueError). */
  function PriceAll(items: seq<Order>): (r: Option<seq<Priced>>)
    ensures r.Some? <==> forall i :: 0 <= i < |items| ==> Decimal.ParsePrice(items[i].limitPx).Some?
    ensures r.Some? ==> |r.value| == |items|
    ensures r.Some? ==> forall i :: 0 <= i < |items| ==>
              r.value[i] == Priced(items[i], Decimal.ParsePrice(items[i].limitPx).value)
  {
    if items == [] then Some([])
    else
      match Decimal.ParsePrice(items[0].limitPx)
      case None => None
      case Some(px) =>
        match PriceAll(items[1..])
        case None =>
          assert forall i :: 0 <= i < |items[1..]| ==> items[1..][i] == items[i + 1];
          None
        case Some(rest) => Some([Priced(items[0], px)] + rest)
  }

  /** Orders with side "B", in enumeration order. */
  function BidsOf(ps: seq<Priced>): seq<Priced>
  {
    if ps == [] then [] else (if ps[0].order.side == "B" then [ps[0]] else []) + BidsOf(ps[1..])
  }

  /** Every other order (any side that is not "B"), in enumeration order. */
  function AsksOf(ps: seq<Priced>): seq<Priced>
  {
    if ps == [] then [] else (if ps[0].order.side != "B" then [ps[0]] else []) + AsksOf(ps[1..])
  }

  function Px(p: Priced): real
  {
    p.px
  }

  /** The summary of orders whose prices all parsed, `total` of them in the book. */
  function SummaryOf(total: nat, ps: seq<Priced>): (r: Summary)
    ensures r.total == total
    ensures |r.topBids| <= ShownPerSide && |r.topAsks| <= ShownPerSide
    ensures r.spread.Some? <==> |r.bids| > 0 && |r.asks| > 0
  {
    var bids := Sorting.SortDesc(BidsOf(ps), Px);
    var asks := Sorting.SortAsc(AsksOf(ps), Px);
    var spread := if |bids| > 0 && |asks| > 0 then Some(asks[0].px - bids[0].px) else None;
    Summary(total, bids, asks, Sorting.Take(bids, ShownPerSide), Sorting.Take(asks, ShownPerSide), spread)
  }

  /** `display_summary(coin)` without the printing. */
  function Summarize(b: Book): (r: Result<Summary>)
    ensures r.Ok? <==> PriceAll(Items(b)).Some?
    ensures r.Ok? ==> r.value.total == |b.orders|
  {
    match PriceAll(Items(b))
    case None => Err("could not convert string to float")
    case Some(ps) => Ok(SummaryOf(|b.orders|, ps))
  }

  /** The split is a partition: each element goes to exactly one side. */
  lemma {:induction false} SplitPartition(ps: seq<Priced>)
    ensures |BidsOf(ps)| + |AsksOf(ps)| == |ps|
    ensures forall x :: x in BidsOf(ps) <==> x in ps && x.order.side == "B"
    ensures forall x :: x in AsksOf(ps) <==> x in ps && x.order.side != "B"
  {
    if ps != [] {
      SplitPartition(ps[1..]);
      assert ps == [ps[0]] + ps[1..];
      forall x ensures x in ps <==> x == ps[0] || x in ps[1..] {
      }
    }
  }

  /** Each side of the summary holds exactly the parsed orders of that side,
      and the two sides together hold all of them. */
  lemma SummarySides(total: nat, ps: seq<Priced>)
    ensures var r := SummaryOf(total, ps);
      && |r.bids| + |r.asks| == |ps|
      && (forall x :: x in r.bids <==> x in ps && x.order.side == "B")
      && (forall x :: x in r.asks <==> x in ps && x.order.side != "B")
  {
    var r := SummaryOf(total, ps);
    SplitPartition(ps);
    Sorting.SortDescCorrect(BidsOf(ps), Px);
    Sorting.SortAscCorrect(AsksOf(ps), Px, 0.0);
    SameElements(r.bids, BidsOf(ps));
    SameElements(r.asks, AsksOf(ps));
  }

  /** Bids are in non-increasing and asks in non-decreasing numeric price
      order, and orders at an equal price `v` keep the dictionary's order. */
  lemma SummaryOrdering(total: nat, ps: seq<Priced>, v: real)
    ensures var r := SummaryOf(total, ps);
      && Sorting.SortedDesc(r.bids, Px)
      && Sorting.SortedAsc(r.asks, Px)
      && Sorting.WithKey(r.bids, Px, v) == Sorting.WithKey(BidsOf(ps), Px, v)
      && Sorting.WithKey(r.asks, Px, v) == Sorting.WithKey(AsksOf(ps), Px, v)
  {
    Sorting.SortDescCorrect(BidsOf(ps), Px);
    Sorting.SortDescStable(BidsOf(ps), Px, v);
    Sorting.SortAscCorrect(AsksOf(ps), Px, v);
  }

  /** At most five orders are shown per side, the best ones first, and none
      left out has a better price than one shown. */
  lemma SummaryTop(total: nat, ps: seq<Priced>)
    ensures var r := SummaryOf(total, ps);
      && |r.topBids| == (if |r.bids| < ShownPerSide then |r.bids| else ShownPerSide)
      && |r.topAsks| == (if |r.asks| < ShownPerSide then |r.asks| else ShownPerSide)
      && (forall i :: 0 <= i < |r.topBids| ==> r.topBids[i] == r.bids[i])
      && (forall i :: 0 <= i < |r.topAsks| ==> r.topAsks[i] == r.asks[i])
      && (forall i, j :: 0 <= i < |r.topBids| <= j < |r.bids| ==> r.bids[i].px >= r.bids[j].px)
      && (forall i, j :: 0 <= i < |r.topAsks| <= j < |r.asks| ==> r.asks[i].px <= r.asks[j].px)
  {
    var r := SummaryOf(total, ps);
    Sorting.SortDescCorrect(BidsOf(ps), Px);
    Sorting.SortAscCorrect(AsksOf(ps), Px, 0.0);
    TopBest(r.bids, r.topBids, true);
    TopBest(r.asks, r.topAsks, false);
  }

  /** The shown head `top` of a side sorted best-first: its first orders,
      at most five, none beaten by an order left out. */
  lemma TopBest(side: seq<Priced>, top: seq<Priced>, bids: bool)
    requires bids ==> Sorting.SortedDesc(side, Px)
    requires !bids ==> Sorting.SortedAsc(side, Px)
    requires top == Sorting.Take(side, ShownPerSide)
    ensures |top| == (if |side| < ShownPerSide then |side| else ShownPerSide)
    ensures forall i :: 0 <= i < |top| ==> top[i] == side[i]
    ensures bids ==> forall i, j :: 0 <= i < |top| <= j < |side| ==> side[i].px >= side[j].px
    ensures !bids ==> forall i, j :: 0 <= i < |top| <= j < |side| ==> side[i].px <= side[j].px
  {
    forall i, j | 0 <= i < |top| <= j < |side|
      ensures bids ==> side[i].px >= side[j].px
      ensures !bids ==> side[i].px <= side[j].px
    {
      assert bids ==> Px(side[i]) >= Px(side[j]);
      assert !bids ==> Px(side[i]) <= Px(side[j]);
    }
  }

  /** The spread is computed exactly when both sides are non-empty, and is
      then the lowest ask price minus the highest bid price. */
  lemma SummarySpread(total: nat, ps: seq<Priced>)
    ensures var r := SummaryOf(total, ps);
      && (r.spread.Some? <==> |r.bids| > 0 && |r.asks| > 0)
      && (r.spread.Some? ==>
            && (forall x :: x in r.bids ==> x.px <= r.bids[0].px)
            && (forall x :: x in r.asks ==> r.asks[0].px <= x.px)
            && r.spread.value == r.asks[0].px - r.bids[0].px)
  {
    Sorting.SortDescCorrect(BidsOf(ps), Px);
    Sorting.SortAscCorrect(AsksOf(ps), Px, 0.0);
  }

  lemma {:induction false} ItemsOfAll(orders: map<Oid, Order>, keys: seq<Oid>)
    requires forall i :: 0 <= i < |keys| ==> keys[i] in orders
    ensures |ItemsOf(orders, keys)| == |keys|
    ensures forall i :: 0 <= i < |keys| ==> ItemsOf(orders, keys)[i] == orders[keys[i]]
  {
    if keys != [] {
      ItemsOfAll(orders, keys[1..]);
    }
  }

  /** In a consistent book the enumeration lists every record exactly once. */
  lemma ItemsAreOrders(b: Book)
    requires Consistent(b)
    ensures |Items(b)| == |b.orders|
    ensures forall o :: o in Items(b) ==> o.oid in b.orders && b.orders[o.oid] == o
    ensures forall k :: k in b.orders ==> b.orders[k] in Items(b)
  {
    KeysEnumerate(b);
    ItemsOfAll(b.orders, b.keys);
    var items := Items(b);
    forall k | k in b.orders ensures b.orders[k] in items {
      assert k in b.keys;
      var i :| 0 <= i < |b.keys| && b.keys[i] == k;
      assert items[i] == b.orders[k];
    }
    forall o | o in items ensures o.oid in b.orders && b.orders[o.oid] == o {
      var i :| 0 <= i < |items| && items[i] == o;
      assert b.orders[b.keys[i]] == o && b.orders[b.keys[i]].oid == b.keys[i];
    }
  }

  /** `keys` enumerates the order ids, once each. */
  lemma KeysEnumerate(b: Book)
    requires Consistent(b)
    ensures |b.keys| == |b.orders|
    ensures forall i :: 0 <= i < |b.keys| ==> b.keys[i] in b.orders
    ensures forall k | k in b.orders :: b.orders[k].oid == k
  {
    NoDupCard(b.keys);
    forall j ensures j in (set k | k in b.keys) <==> j in b.orders.Keys {
      assert j in b.keys <==> j in b.orders;
    }
    assert (set k | k in b.keys) == b.orders.Keys;
    forall i | 0 <= i < |b.keys| ensures b.keys[i] in b.orders {
      assert b.keys[i] in b.keys;
    }
  }

  /** Parsing an enumeration of the records of `orders` fails exactly when
      one of their prices does not parse. */
  lemma PricedOrdersFail(orders: map<Oid, Order>, items: seq<Order>)
    requires forall o :: o in items ==> o.oid in orders && orders[o.oid] == o
    requires forall k :: k in orders ==> orders[k] in items
    ensures PriceAll(items).None? <==> exists k :: k in orders && Decimal.ParsePrice(orders[k].limitPx).None?
  {
    if exists k :: k in orders && Decimal.ParsePrice(orders[k].limitPx).None? {
      var k :| k in orders && Decimal.ParsePrice(orders[k].limitPx).None?;
      var i :| 0 <= i < |items| && items[i] == orders[k];
    } else {
      forall i | 0 <= i < |items| ensures Decimal.ParsePrice(items[i].limitPx).Some? {
        assert items[i] in items;
        assert orders[items[i].oid] == items[i];
      }
    }
  }

  /** Otherwise it pairs every record with its parsed price. */
  lemma PricedOrdersOk(orders: map<Oid, Order>, items: seq<Order>)
    requires forall o :: o in items ==> o.oid in orders && orders[o.oid] == o
    requires forall k :: k in orders ==> orders[k] in items
    requires PriceAll(items).Some?
    ensures forall x :: x in PriceAll(items).value ==>
              x.order.oid in orders && orders[x.order.oid] == x.order
              && Decimal.ParsePrice(x.order.limitPx) == Some(x.px)
    ensures forall k :: k in orders ==>
              Priced(orders[k], Decimal.ParsePrice(orders[k].limitPx).value) in PriceAll(items).value
  {
    var ps := PriceAll(items).value;
    forall x | x in ps
      ensures x.order.oid in orders && orders[x.order.oid] == x.order
      ensures Decimal.ParsePrice(x.order.limitPx) == Some(x.px)
    {
      var i :| 0 <= i < |ps| && ps[i] == x;
      assert items[i] == x.order && items[i] in items;
    }
    forall k | k in orders
      ensures Priced(orders[k], Decimal.ParsePrice(orders[k].limitPx).value) in ps
    {
      var i :| 0 <= i < |items| && items[i] == orders[k];
      assert ps[i] == Priced(orders[k], Decimal.ParsePrice(orders[k].limitPx).value);
    }
  }

  /** `display_summary` raises exactly when some order's price is not a number. */
  lemma SummaryFails(b: Book)
    requires Consistent(b)
    ensures Summarize(b).Err? <==> exists k :: k in b.orders && Decimal.ParsePrice(b.orders[k].limitPx).None?
  {
    ItemsAreOrders(b);
    PricedOrdersFail(b.orders, Items(b));
  }

  /** Bids are the orders with side "B" and asks all the others, each with its
      parsed price; together they are all `len(self.orders)` orders. */
  lemma SummaryPartition(b: Book)
    requires Consistent(b) && Summarize(b).Ok?
    ensures var r := Summarize(b).value;
      && |r.bids| + |r.asks| == r.total == |b.orders|
      && (forall x :: x in r.bids ==> x.order.oid in b.orders && b.orders[x.order.oid] == x.order
                                      && x.order.side == "B" && Decimal.ParsePrice(x.order.limitPx) == Some(x.px))
      && (forall x :: x in r.asks ==> x.order.oid in b.orders && b.orders[x.order.oid] == x.order
                                      && x.order.side != "B" && Decimal.ParsePrice(x.order.limitPx) == Some(x.px))
      && (forall k :: k in b.orders && b.orders[k].side == "B" ==>
            exists x :: x in r.bids && x.order == b.orders[k])
      && (forall k :: k in b.orders && b.orders[k].side != "B" ==>
            exists x :: x in r.asks && x.order == b.orders[k])
  {
    ItemsAreOrders(b);
    PricedOrdersFail(b.orders, Items(b));
    PricedOrdersOk(b.orders, Items(b));
    var ps := PriceAll(Items(b)).value;
    var r := Summarize(b).value;
    assert r == SummaryOf(|b.orders|, ps);
    SummarySides(|b.orders|, ps);
    forall k | k in b.orders
      ensures b.orders[k].side == "B" ==> exists x :: x in r.bids && x.order == b.orders[k]
      ensures b.orders[k].side != "B" ==> exists x :: x in r.asks && x.order == b.orders[k]
    {
      var x := Priced(b.orders[k], Decimal.ParsePrice(b.orders[k].limitPx).value);
      assert x in ps;
    }
  }

  // ---------------------------------------------------------------------------
  // The tracker object

  /** `L4OrderBook`: the two dictionaries are fields updated in place. */
  class L4OrderBook {
    var orders: map<Oid, Order>
    /** Iteration order of `orders`. */
    var keys: seq<Oid>
    var priceLevels: map<string, seq<Oid>>

    function State(): Book
      reads this
    {
      Book(orders, keys, priceLevels)
    }

    ghost predicate Valid()
      reads this
    {
      Consistent(State())
    }

    /** `__init__`: no orders, no levels. */
    constructor ()
      ensures Valid() && State() == EmptyBook
    {
      orders, keys, priceLevels := map[], [], map[];
    }

    /** `self.price_levels[p]` as a statement: creates the empty list if missing. */
    method TouchLevel(p: string)
      modifies this
      ensures p in priceLevels
      ensures priceLevels == Touch(old(priceLevels), p)
      ensures orders == old(orders) && keys == old(keys)
    {
      if p !in priceLevels {
        priceLevels := priceLevels[p := []];
      }
    }

    /** `_add_order(order)`. */
    method AddOrder(order: Order)
      requires Valid()
      modifies this
      ensures Valid()
      ensures State() == Added(old(State()), order)
    {
      ghost var b := State();
      var oid := order.oid;
      var price := order.limitPx;
      if oid in orders {
        var oldPrice := orders[oid].limitPx;
        TouchLevel(oldPrice);
        if oid in priceLevels[oldPrice] {
          priceLevels := priceLevels[oldPrice := RemoveFirst(priceLevels[oldPrice], oid)];
        }
      } else {
        keys := keys + [oid];
      }
      orders := orders[oid := order];
      TouchLevel(price);
      if oid !in priceLevels[price] {
        priceLevels := priceLevels[price := priceLevels[price] + [oid]];
      }
      AddedConsistent(b, order);
    }

    /** `_remove_order(oid)`. */
    method RemoveOrder(oid: Oid)
      requires Valid()
      modifies this
      ensures Valid()
      ensures State() == Removed(old(State()), oid)
    {
      ghost var b := State();
      if oid in orders {
        var price := orders[oid].limitPx;
        orders := orders - {oid};
        keys := RemoveFirst(keys, oid);
        TouchLevel(price);
        if oid in priceLevels[price] {
          priceLevels := priceLevels[price := RemoveFirst(priceLevels[price], oid)];
        }
      }
      RemovedConsistent(b, oid);
    }

    /** `handle_update`'s loop: each entry with a "status" removes its order,
        every other entry adds or replaces it. */
    method HandleUpdate(entries: seq<Entry>)
      requires Valid()
      modifies this
      ensures Valid()
      ensures State() == Applied(old(State()), entries)
    {
      var i := 0;
      while i < |entries|
        invariant 0 <= i <= |entries|
        invariant Valid()
        invariant State() == Applied(old(State()), entries[..i])
      {
        var e := entries[i];
        if e.status.Some? {
          RemoveOrder(e.order.oid);
        } else {
          AddOrder(e.order);
        }
        assert entries[..i + 1][..i] == entries[..i];
        i := i + 1;
      }
      assert entries[..i] == entries;
    }
  }
}
