/** The order book of one symbol (src/OrderBook.cpp): bid and ask levels
    keyed by price, market-order repricing, cancellation by the price and
    side decoded from an OrderID, and the one-step match.

    std::map<Price, LevelPointer> becomes a map from price to level value;
    the best bid is the largest key (m_bids is ordered by std::greater) and
    the best ask the smallest. */
module OrderBooks {
  import opened Wrappers
  import opened Enums
  import opened Orders
  import opened Levels

  /** One side of a trade. Prices are integer cents. */
  datatype OrderTraded = OrderTraded(
    orderID: OrderID,
    price: Price,
    quantityFilled: Quantity,
    participantID: ParticipantID)

  /** Both sides of one match and their symbol; the match time is left
      out. */
  datatype Trade = Trade(symbol: string, bid: OrderTraded, ask: OrderTraded)

  type SideLevels = map<Price, LevelState>

  // ---------------------------------------------------------------------
  // Ordered keys
  // ---------------------------------------------------------------------

  lemma EmptyWhenNoMember(s: set<Price>)
    ensures (forall x :: x !in s) ==> s == {}
  {
    if forall x :: x !in s {
      assert s == {};
    }
  }

  lemma HasMember(s: set<Price>)
    requires s != {}
    ensures exists x :: x in s
  {
    EmptyWhenNoMember(s);
  }

  predicate IsLeast(s: set<Price>, k: Price)
  {
    k in s && forall j | j in s :: k <= j
  }

  predicate IsGreatest(s: set<Price>, k: Price)
  {
    k in s && forall j | j in s :: j <= k
  }

  lemma {:induction false} LeastExists(s: set<Price>)
    requires s != {}
    ensures exists k :: IsLeast(s, k)
    decreases |s|
  {
    HasMember(s);
    var x :| x in s;
    var rest := s - {x};
    if rest == {} {
      forall j | j in s ensures x <= j { assert j !in rest; }
      assert IsLeast(s, x);
    } else {
      LeastExists(rest);
      var k :| IsLeast(rest, k);
      var m := if x < k then x else k;
      forall j | j in s ensures m <= j { assert j == x || j in rest; }
      assert IsLeast(s, m);
    }
  }

  lemma {:induction false} GreatestExists(s: set<Price>)
    requires s != {}
    ensures exists k :: IsGreatest(s, k)
    decreases |s|
  {
    HasMember(s);
    var x :| x in s;
    var rest := s - {x};
    if rest == {} {
      forall j | j in s ensures j <= x { assert j !in rest; }
      assert IsGreatest(s, x);
    } else {
      GreatestExists(rest);
      var k :| IsGreatest(rest, k);
      var m := if x > k then x else k;
      forall j | j in s ensures j <= m { assert j == x || j in rest; }
      assert IsGreatest(s, m);
    }
  }

  /** The smallest price of a side (begin() of the asks, rbegin() of the
      bids). */
  function MinKey(levels: SideLevels): (k: Price)
    requires levels != map[]
    ensures k in levels && forall j | j in levels :: k <= j
  {
    LeastExists(levels.Keys);
    var k :| IsLeast(levels.Keys, k);
    k
  }

  /** The largest price of a side (begin() of the bids, rbegin() of the
      asks). */
  function MaxKey(levels: SideLevels): (k: Price)
    requires levels != map[]
    ensures k in levels && forall j | j in levels :: j <= k
  {
    GreatestExists(levels.Keys);
    var k :| IsGreatest(levels.Keys, k);
    k
  }

  // ---------------------------------------------------------------------
  // The book invariant
  // ---------------------------------------------------------------------

  /** Every level is valid, sits under its own price and holds at least one
      order (so front() is defined). */
  predicate SideValid(levels: SideLevels)
  {
    forall p | p in levels :: LevelValid(levels[p]) && levels[p].price == p && levels[p].orderList != []
  }

  /** No level with zero aggregate quantity remains on the side. */
  predicate NoEmptyLevel(levels: SideLevels)
  {
    forall p | p in levels :: levels[p].quantity > 0
  }

  function Min(a: nat, b: nat): nat
  {
    if a <= b then a else b
  }

  // ---------------------------------------------------------------------
  // AddOrder
  // ---------------------------------------------------------------------

  predicate IsMarketType(t: OrderType)
  {
    t == Market || t == MarketOnClose || t == MarketOnOpen
  }

  /** Market, MarketOnClose and MarketOnOpen orders take the worst price on
      the opposite side when it has levels (the highest ask for a buy, the
      lowest bid for a sell) and become GoodTillCancel. */
  function Reprice(o: Order, bids: SideLevels, asks: SideLevels): Order
  {
    if !IsMarketType(o.orderType) then o
    else if o.side == Buy then
      (if asks != map[] then o.(price := MaxKey(asks)) else o).(orderType := GoodTillCancel)
    else
      (if bids != map[] then o.(price := MinKey(bids)) else o).(orderType := GoodTillCancel)
  }

  /** The level at the order's price, created empty when absent, receives
      the order; the side stays valid. */
  function PlaceOn(levels: SideLevels, o: Order, symbol: string): (r: SideLevels)
    requires SideValid(levels)
    ensures SideValid(r)
  {
    var base := if o.price in levels then levels[o.price] else EmptyLevel(symbol, o.price);
    PlaceKeepsLevelValid(base, o);
    levels[o.price := LevelAdd(base, o)]
  }

  /** The level receiving an order stays valid and is never left without
      orders. */
  lemma PlaceKeepsLevelValid(base: LevelState, o: Order)
    requires LevelValid(base) && base.price == o.price
    requires o.orderID in base.info ==> base.orderList != []
    ensures var l := LevelAdd(base, o); LevelValid(l) && l.price == o.price && l.orderList != []
  {
    LevelAddKeepsValid(base, o);
    if o.orderID !in base.info {
      assert LevelAdd(base, o).orderList == base.orderList + [o.orderID];
    }
  }

  /** The two sides after the (repriced) order is placed on its own side. */
  function Placed(bids: SideLevels, asks: SideLevels, o: Order, symbol: string): (r: (SideLevels, SideLevels))
    requires SideValid(bids) && SideValid(asks)
    ensures SideValid(r.0) && SideValid(r.1)
  {
    var repriced := Reprice(o, bids, asks);
    if repriced.side == Buy then (PlaceOn(bids, repriced, symbol), asks)
    else (bids, PlaceOn(asks, repriced, symbol))
  }

  /** Repricing keeps the ID, side and quantity. A market-style order
      becomes GoodTillCancel, and when the opposite side has levels its new
      price is at or beyond every one of them; any other order is left
      alone. */
  lemma RepriceSpec(o: Order, bids: SideLevels, asks: SideLevels)
    ensures var r := Reprice(o, bids, asks);
      r.orderID == o.orderID && r.side == o.side && r.remaining == o.remaining && r.symbol == o.symbol
    ensures !IsMarketType(o.orderType) ==> Reprice(o, bids, asks) == o
    ensures IsMarketType(o.orderType) ==> Reprice(o, bids, asks).orderType == GoodTillCancel
    ensures IsMarketType(o.orderType) && o.side == Buy && asks != map[] ==>
      var r := Reprice(o, bids, asks); r.price in asks && forall p | p in asks :: p <= r.price
    ensures IsMarketType(o.orderType) && o.side == Sell && bids != map[] ==>
      var r := Reprice(o, bids, asks); r.price in bids && forall p | p in bids :: r.price <= p
  {
  }

  /** Placing indexes the order in the level at its price and leaves every
      other level alone. */
  lemma PlaceOnSpec(levels: SideLevels, o: Order, symbol: string)
    requires SideValid(levels)
    ensures var r := PlaceOn(levels, o, symbol);
      o.price in r && o.orderID in r[o.price].info &&
      r.Keys == levels.Keys + {o.price} &&
      forall p | p in levels && p != o.price :: r[p] == levels[p]
  {
  }

  /** Placing an order with quantity left adds no empty level. */
  lemma PlaceOnNoEmpty(levels: SideLevels, o: Order, symbol: string)
    requires SideValid(levels) && NoEmptyLevel(levels) && o.remaining > 0
    ensures NoEmptyLevel(PlaceOn(levels, o, symbol))
  {
    var r := PlaceOn(levels, o, symbol);
    if o.price in levels {
      assert r[o.price].quantity >= levels[o.price].quantity;
    }
    forall p | p in r ensures r[p].quantity > 0 {
      if p != o.price {
        assert r[p] == levels[p];
      }
    }
  }

  // ---------------------------------------------------------------------
  // MatchPotentialOrders
  // ---------------------------------------------------------------------

  /** What a match does to the best level of a side: the front order is
      filled by q and the level quantity lowered by q; a used-up front
      order leaves the level. */
  function SettleLevel(l: LevelState, q: Quantity): (r: LevelState)
    requires LevelValid(l) && l.orderList != []
    requires q <= l.info[l.orderList[0]].remaining
    ensures LevelValid(r) && r.price == l.price && r.quantity == l.quantity - q
    ensures r.quantity != 0 ==> r.orderList != []
    ensures q < l.info[l.orderList[0]].remaining ==>
      r.quantity > 0 && r.orderList == l.orderList &&
      r.info[l.orderList[0]].remaining == l.info[l.orderList[0]].remaining - q
    ensures q == l.info[l.orderList[0]].remaining ==> r.orderList == l.orderList[1..]
  {
    var id := l.orderList[0];
    LevelFillKeepsValid(l, q);
    var filled := LevelUpdateQuantity(LevelFill(l, id, q), q);
    if IsFullyFilled(filled.info[id]) then
      LevelRemoveFrontKeepsValid(l, q);
      LevelRemoveMatched(filled, id)
    else
      assert filled.orderList == l.orderList;
      assert Total(filled.orderList, filled.info) >= RemOf(filled.info, id) > 0;
      filled
  }

  /** One side after a match: its best level `key` is settled and leaves
      the side when the front order was used up and the level quantity
      reached 0. The side stays valid. */
  function SettleSide(levels: SideLevels, key: Price, q: Quantity): (r: SideLevels)
    requires SideValid(levels) && key in levels
    requires q <= levels[key].info[levels[key].orderList[0]].remaining
    ensures SideValid(r)
  {
    var l := levels[key];
    var settled := SettleLevel(l, q);
    var stored := levels[key := settled];
    if IsFullyFilled(FillPartially(l.info[l.orderList[0]], q)) && settled.quantity == 0 then
      EraseLevel(levels, key);
      assert stored - {settled.price} == levels - {key};
      stored - {settled.price}
    else
      ReplaceLevel(levels, key, settled);
      stored
  }

  lemma ReplaceLevel(levels: SideLevels, key: Price, l: LevelState)
    requires SideValid(levels) && LevelValid(l) && l.price == key && l.orderList != []
    ensures SideValid(levels[key := l])
  {
  }

  lemma EraseLevel(levels: SideLevels, key: Price)
    requires SideValid(levels)
    ensures SideValid(levels - {key})
  {
  }

  /** Settling touches only the level at `key`: if that level stays, its
      quantity is q lower and still positive. */
  lemma SettleSideSpec(levels: SideLevels, key: Price, q: Quantity)
    requires SideValid(levels) && key in levels
    requires q <= levels[key].info[levels[key].orderList[0]].remaining
    ensures var r := SettleSide(levels, key, q);
      r.Keys <= levels.Keys && (forall p | p in r && p != key :: r[p] == levels[p]) &&
      (key in r ==> r[key].quantity == levels[key].quantity - q > 0)
  {
  }

  datatype MatchOutcome = MatchOutcome(bids: SideLevels, asks: SideLevels, trade: Option<Trade>)

  /** OrderBook::MatchPotentialOrders as a function of the two sides; both
      sides stay valid. */
  function Match(bids: SideLevels, asks: SideLevels, symbol: string): (m: MatchOutcome)
    requires SideValid(bids) && SideValid(asks)
    ensures SideValid(m.bids) && SideValid(m.asks)
  {
    if bids == map[] || asks == map[] then MatchOutcome(bids, asks, None)
    else
      var bestBid := bids[MaxKey(bids)];
      var bestAsk := asks[MinKey(asks)];
      if bestBid.price < bestAsk.price then MatchOutcome(bids, asks, None)
      else
        var bidID := bestBid.orderList[0];
        var askID := bestAsk.orderList[0];
        var filled := Min(bestBid.info[bidID].remaining, bestAsk.info[askID].remaining);
        MatchOutcome(
          SettleSide(bids, MaxKey(bids), filled),
          SettleSide(asks, MinKey(asks), filled),
          Some(Trade(symbol, OrderTraded(bidID, bestAsk.price, filled, ""),
                             OrderTraded(askID, bestAsk.price, filled, ""))))
  }

  /** No trade, and nothing changes, exactly when a side is empty or the
      best bid is below the best ask. */
  lemma MatchNoTrade(bids: SideLevels, asks: SideLevels, symbol: string)
    requires SideValid(bids) && SideValid(asks)
    ensures Match(bids, asks, symbol).trade.None? <==>
      bids == map[] || asks == map[] || MaxKey(bids) < MinKey(asks)
    ensures Match(bids, asks, symbol).trade.None? ==>
      Match(bids, asks, symbol) == MatchOutcome(bids, asks, None)
  {
  }

  /** A match fills the smaller of the two front orders' remaining
      quantities at the best ask's price, so at least one of them is used
      up. */
  lemma MatchTrade(bids: SideLevels, asks: SideLevels, symbol: string)
    requires SideValid(bids) && SideValid(asks)
    requires Match(bids, asks, symbol).trade.Some?
    ensures var t := Match(bids, asks, symbol).trade.value;
      var bestBid := bids[MaxKey(bids)];
      var bestAsk := asks[MinKey(asks)];
      var bidFront := bestBid.info[bestBid.orderList[0]];
      var askFront := bestAsk.info[bestAsk.orderList[0]];
      t.symbol == symbol &&
      t.bid.orderID == bestBid.orderList[0] && t.ask.orderID == bestAsk.orderList[0] &&
      t.bid.price == t.ask.price == MinKey(asks) <= MaxKey(bids) &&
      t.bid.quantityFilled == t.ask.quantityFilled &&
      t.bid.quantityFilled <= bidFront.remaining && t.ask.quantityFilled <= askFront.remaining &&
      (t.bid.quantityFilled == bidFront.remaining || t.ask.quantityFilled == askFront.remaining)
  {
  }

  /** After a match each best level either has left the book or holds
      exactly the filled quantity less. */
  lemma MatchQuantities(bids: SideLevels, asks: SideLevels, symbol: string)
    requires SideValid(bids) && SideValid(asks)
    requires Match(bids, asks, symbol).trade.Some?
    ensures var m := Match(bids, asks, symbol);
      var q := m.trade.value.bid.quantityFilled;
      (MaxKey(bids) in m.bids ==> m.bids[MaxKey(bids)].quantity == bids[MaxKey(bids)].quantity - q) &&
      (MinKey(asks) in m.asks ==> m.asks[MinKey(asks)].quantity == asks[MinKey(asks)].quantity - q)
  {
    SettleBoth(bids, asks, symbol);
  }

  /** Both sides of a crossing book are settled by the same quantity. */
  lemma SettleBoth(bids: SideLevels, asks: SideLevels, symbol: string)
    requires SideValid(bids) && SideValid(asks)
    requires Match(bids, asks, symbol).trade.Some?
    ensures var m := Match(bids, asks, symbol);
      var q := m.trade.value.bid.quantityFilled;
      m.bids.Keys <= bids.Keys && (forall p | p in m.bids && p != MaxKey(bids) :: m.bids[p] == bids[p]) &&
      (MaxKey(bids) in m.bids ==> m.bids[MaxKey(bids)].quantity == bids[MaxKey(bids)].quantity - q > 0) &&
      m.asks.Keys <= asks.Keys && (forall p | p in m.asks && p != MinKey(asks) :: m.asks[p] == asks[p]) &&
      (MinKey(asks) in m.asks ==> m.asks[MinKey(asks)].quantity == asks[MinKey(asks)].quantity - q > 0)
  {
    var bestBid := bids[MaxKey(bids)];
    var bestAsk := asks[MinKey(asks)];
    var q := Min(bestBid.info[bestBid.orderList[0]].remaining, bestAsk.info[bestAsk.orderList[0]].remaining);
    SettleSideSpec(bids, MaxKey(bids), q);
    SettleSideSpec(asks, MinKey(asks), q);
  }

  /** A match leaves no empty level behind. */
  lemma MatchNoEmptyLevel(bids: SideLevels, asks: SideLevels, symbol: string)
    requires SideValid(bids) && SideValid(asks) && NoEmptyLevel(bids) && NoEmptyLevel(asks)
    ensures NoEmptyLevel(Match(bids, asks, symbol).bids) && NoEmptyLevel(Match(bids, asks, symbol).asks)
  {
    var m := Match(bids, asks, symbol);
    if m.trade.Some? {
      SettleBoth(bids, asks, symbol);
      var bestBid, bestAsk := MaxKey(bids), MinKey(asks);
      forall p | p in m.bids ensures m.bids[p].quantity > 0 {
        if p != bestBid {
          assert m.bids[p] == bids[p];
        }
      }
      forall p | p in m.asks ensures m.asks[p].quantity > 0 {
        if p != bestAsk {
          assert m.asks[p] == asks[p];
        }
      }
    }
  }

  // ---------------------------------------------------------------------
  // CancelOrder
  // ---------------------------------------------------------------------

  /** Cancellation on one side: the level at the price decoded from the ID
      cancels it and is erased when its quantity reaches 0. */
  function CancelOn(levels: SideLevels, orderID: OrderID): (r: SideLevels)
    requires SideValid(levels)
    ensures SideValid(r)
  {
    var price := DecodePrice(orderID);
    if price !in levels then levels
    else
      var l := LevelCancel(levels[price], orderID);
      LevelCancelKeepsValid(levels[price], orderID);
      if l.quantity == 0 then
        EraseLevel(levels, price);
        levels - {price}
      else
        ZeroQuantity(l.orderList, l.info);
        ReplaceLevel(levels, price, l);
        levels[price := l]
  }

  /** The two sides after OrderBook::CancelOrder: the side the ID encodes
      cancels it. */
  function Cancelled(bids: SideLevels, asks: SideLevels, orderID: OrderID): (r: (SideLevels, SideLevels))
    requires SideValid(bids) && SideValid(asks)
    ensures SideValid(r.0) && SideValid(r.1)
  {
    if DecodeSide(orderID) == Buy then (CancelOn(bids, orderID), asks)
    else (bids, CancelOn(asks, orderID))
  }

  /** Cancelling removes the ID from the level at its decoded price,
      touches no other level, and leaves no empty level. */
  lemma CancelKeepsValid(levels: SideLevels, orderID: OrderID)
    requires SideValid(levels)
    ensures var r := CancelOn(levels, orderID);
      r.Keys <= levels.Keys &&
      (DecodePrice(orderID) in r ==> orderID !in r[DecodePrice(orderID)].info) &&
      forall p | p in r && p != DecodePrice(orderID) :: r[p] == levels[p]
    ensures NoEmptyLevel(levels) ==> NoEmptyLevel(CancelOn(levels, orderID))
  {
    var price := DecodePrice(orderID);
    if price in levels {
      LevelCancelKeepsValid(levels[price], orderID);
      var l := LevelCancel(levels[price], orderID);
      if l.quantity != 0 {
        assert l.orderList != [];
      }
    }
  }

  /** A cancel looks only at the level of the price encoded in the ID: an
      order resting at any other price, as a repriced market order does, is
      left in place. */
  lemma CancelMissesOtherPrices(levels: SideLevels, orderID: OrderID, p: Price)
    requires SideValid(levels) && p in levels && p != DecodePrice(orderID)
    ensures p in CancelOn(levels, orderID) && CancelOn(levels, orderID)[p] == levels[p]
  {
  }

  // ---------------------------------------------------------------------
  // The available quantity on one side (qtyAvailableForMatch)
  // ---------------------------------------------------------------------

  /** Sum of the level quantities of asks at or below `price`, walking up
      from the best ask and stopping at the first level above it. */
  function AsksAtMost(levels: SideLevels, price: Price): int
    decreases |levels|
  {
    if levels == map[] then 0
    else
      var k := MinKey(levels);
      if k > price then 0 else levels[k].quantity + AsksAtMost(levels - {k}, price)
  }

  /** Sum of the level quantities of bids at or above `price`, walking down
      from the best bid and stopping at the first level below it. */
  function BidsAtLeast(levels: SideLevels, price: Price): int
    decreases |levels|
  {
    if levels == map[] then 0
    else
      var k := MaxKey(levels);
      if k < price then 0 else levels[k].quantity + BidsAtLeast(levels - {k}, price)
  }

  /** The plain sum of the quantities of a set of levels, in any order. */
  ghost function SumQuantities(levels: SideLevels): int
    decreases |levels|
  {
    if levels == map[] then 0
    else
      HasMember(levels.Keys);
      var k :| k in levels;
      levels[k].quantity + SumQuantities(levels - {k})
  }

  lemma {:induction false} SumRemove(levels: SideLevels, k: Price)
    requires k in levels
    ensures SumQuantities(levels) == levels[k].quantity + SumQuantities(levels - {k})
    decreases |levels|
  {
    var j :| j in levels && SumQuantities(levels) == levels[j].quantity + SumQuantities(levels - {j});
    if j != k {
      SumRemove(levels - {j}, k);
      SumRemove(levels - {k}, j);
      assert levels - {j} - {k} == levels - {k} - {j};
    }
  }

  function AtMost(levels: SideLevels, price: Price): SideLevels
  {
    map k | k in levels && k <= price :: levels[k]
  }

  function AtLeast(levels: SideLevels, price: Price): SideLevels
  {
    map k | k in levels && k >= price :: levels[k]
  }

  /** The early-exit walk over the asks sums exactly the ask levels priced
      at or below the limit. */
  lemma {:induction false} AsksAtMostSum(levels: SideLevels, price: Price)
    ensures AsksAtMost(levels, price) == SumQuantities(AtMost(levels, price))
    decreases |levels|
  {
    if levels == map[] {
      assert AtMost(levels, price) == map[];
    } else {
      var k := MinKey(levels);
      if k > price {
        assert AtMost(levels, price) == map[];
      } else {
        AsksAtMostSum(levels - {k}, price);
        assert AtMost(levels - {k}, price) == AtMost(levels, price) - {k};
        SumRemove(AtMost(levels, price), k);
      }
    }
  }

  /** The early-exit walk over the bids sums exactly the bid levels priced
      at or above the limit. */
  lemma {:induction false} BidsAtLeastSum(levels: SideLevels, price: Price)
    ensures BidsAtLeast(levels, price) == SumQuantities(AtLeast(levels, price))
    decreases |levels|
  {
    if levels == map[] {
      assert AtLeast(levels, price) == map[];
    } else {
      var k := MaxKey(levels);
      if k < price {
        assert AtLeast(levels, price) == map[];
      } else {
        BidsAtLeastSum(levels - {k}, price);
        assert AtLeast(levels - {k}, price) == AtLeast(levels, price) - {k};
        SumRemove(AtLeast(levels, price), k);
      }
    }
  }

  // ---------------------------------------------------------------------
  // The in-place book
  // ---------------------------------------------------------------------

  class OrderBook {
    const symbol: string
    var bids: SideLevels
    var asks: SideLevels
    /** m_trades: nothing in the book appends to it. */
    var trades: seq<Trade>

    predicate Valid()
      reads this
    {
      SideValid(bids) && SideValid(asks)
    }

    constructor(symbol: string)
      ensures Valid() && this.symbol == symbol
      ensures bids == map[] && asks == map[] && trades == []
    {
      this.symbol := symbol;
      bids := map[];
      asks := map[];
      trades := [];
    }

    /** OrderBook::AddOrder: an order for another symbol is refused;
        otherwise it is repriced if market-style, placed on its side, and at
        most one match follows. */
    method AddOrder(order: Order) returns (t: Option<Trade>)
      requires Valid()
      modifies this
      ensures Valid() && trades == old(trades)
      ensures order.symbol != symbol ==> t.None? && bids == old(bids) && asks == old(asks)
      ensures order.symbol == symbol ==>
        var placed := Placed(old(bids), old(asks), order, symbol);
        var m := Match(placed.0, placed.1, symbol);
        bids == m.bids && asks == m.asks && t == m.trade
    {
      if order.symbol != symbol {
        return None;
      }
      var o := order;
      if o.orderType == Market || o.orderType == MarketOnClose || o.orderType == MarketOnOpen {
        if o.side == Buy {
          if asks != map[] {
            o := o.(price := MaxKey(asks));
          }
        } else {
          if bids != map[] {
            o := o.(price := MinKey(bids));
          }
        }
        o := o.(orderType := GoodTillCancel);
      }
      assert o == Reprice(order, bids, asks);
      if o.side == Buy {
        bids := PlaceAt(bids, o, symbol);
      } else {
        asks := PlaceAt(asks, o, symbol);
      }
      t := MatchPotentialOrders();
    }

    /** The level at the order's price is created when missing and
        receives the order. */
    static method PlaceAt(levels: SideLevels, o: Order, symbol: string) returns (r: SideLevels)
      requires SideValid(levels)
      ensures r == PlaceOn(levels, o, symbol)
    {
      r := levels;
      if o.price !in r {
        r := r[o.price := EmptyLevel(symbol, o.price)];
      }
      r := r[o.price := LevelAdd(r[o.price], o)];
    }

    /** OrderBook::CancelOrder: side and price come from the ID; a missing
        level leaves the book alone; a cancel never produces a trade. */
    method CancelOrder(orderID: OrderID) returns (t: Option<Trade>)
      requires Valid()
      modifies this
      ensures Valid() && trades == old(trades) && t.None?
      ensures (bids, asks) == Cancelled(old(bids), old(asks), orderID)
    {
      var side := DecodeSide(orderID);
      if side == Buy {
        bids := CancelAt(bids, orderID);
      } else {
        asks := CancelAt(asks, orderID);
      }
      return None;
    }

    /** The level at the decoded price cancels the ID and leaves the map
        when its quantity reaches 0. */
    static method CancelAt(levels: SideLevels, orderID: OrderID) returns (r: SideLevels)
      requires SideValid(levels)
      ensures r == CancelOn(levels, orderID)
    {
      var price := DecodePrice(orderID);
      r := levels;
      if price !in r {
        return;
      }
      var level := LevelCancel(r[price], orderID);
      r := r[price := level];
      if level.quantity == 0 {
        r := r - {price};
      }
    }

    /** OrderBook::ModifyOrder: cancel, then add. */
    method ModifyOrder(orderID: OrderID, modifiedOrder: Order) returns (t: Option<Trade>)
      requires Valid()
      modifies this
      ensures Valid() && trades == old(trades)
      ensures var c := Cancelled(old(bids), old(asks), orderID);
        if modifiedOrder.symbol != symbol then bids == c.0 && asks == c.1 && t.None?
        else
          var placed := Placed(c.0, c.1, modifiedOrder, symbol);
          var m := Match(placed.0, placed.1, symbol);
          bids == m.bids && asks == m.asks && t == m.trade
    {
      var _ := CancelOrder(orderID);
      t := AddOrder(modifiedOrder);
    }

    /** OrderBook::CanMatchOrder: a bid at `price` can trade iff some ask is
        at or below it; an ask iff some bid is at or above it. */
    function CanMatchOrder(side: Side, price: Price): (r: bool)
      requires Valid()
      reads this
      ensures side == Buy ==> (r <==> exists p :: p in asks && p <= price)
      ensures side == Sell ==> (r <==> exists p :: p in bids && price <= p)
    {
      if side == Buy then
        if asks == map[] then false else price >= asks[MinKey(asks)].price
      else
        if bids == map[] then false else price <= bids[MaxKey(bids)].price
    }

    /** One side's part of a match on its best level `key`. The level is a
        shared object in the source: the fill and the quantity update act
        on it in place, then a used-up front order leaves it and an
        emptied level leaves the map. */
    static method SettleBest(levels: SideLevels, key: Price, q: Quantity) returns (r: SideLevels)
      requires SideValid(levels) && key in levels
      requires q <= levels[key].info[levels[key].orderList[0]].remaining
      ensures r == SettleSide(levels, key, q)
    {
      var level := levels[key];
      var id := level.orderList[0];
      level := LevelFill(level, id, q);
      level := LevelUpdateQuantity(level, q);
      var done := IsFullyFilled(level.info[id]);
      if done {
        level := LevelRemoveMatched(level, id);
      }
      assert level == SettleLevel(levels[key], q);
      r := levels[key := level];
      if done && level.quantity == 0 {
        r := r - {level.price};
      }
    }

    /** OrderBook::MatchPotentialOrders */
    method MatchPotentialOrders() returns (t: Option<Trade>)
      requires Valid()
      modifies this
      ensures Valid() && trades == old(trades)
      ensures var m := Match(old(bids), old(asks), symbol);
        bids == m.bids && asks == m.asks && t == m.trade
    {
      var outcome := MatchSides(bids, asks, symbol);
      bids, asks, t := outcome.bids, outcome.asks, outcome.trade;
    }

    /** The body of MatchPotentialOrders over the two sides: the best bid
        and the best ask trade when they cross, for the smaller of their
        front orders' remaining quantities, at the ask's price. */
    static method MatchSides(bids: SideLevels, asks: SideLevels, symbol: string) returns (m: MatchOutcome)
      requires SideValid(bids) && SideValid(asks)
      ensures m == Match(bids, asks, symbol)
    {
      if bids == map[] || asks == map[] {
        return MatchOutcome(bids, asks, None);
      }
      var bestBidPrice := MaxKey(bids);
      var bestAskPrice := MinKey(asks);
      var bestBid := bids[bestBidPrice];
      var bestAsk := asks[bestAskPrice];
      if bestBid.price < bestAsk.price {
        return MatchOutcome(bids, asks, None);
      }
      var bidID := bestBid.orderList[0];
      var askID := bestAsk.orderList[0];
      var filledQuantity := Min(bestBid.info[bidID].remaining, bestAsk.info[askID].remaining);
      var settlementPrice := bestAsk.price;
      var bidLevels := SettleBest(bids, bestBidPrice, filledQuantity);
      var askLevels := SettleBest(asks, bestAskPrice, filledQuantity);
      var trade := Trade(symbol, OrderTraded(bidID, settlementPrice, filledQuantity, ""),
                                 OrderTraded(askID, settlementPrice, filledQuantity, ""));
      m := MatchOutcome(bidLevels, askLevels, Some(trade));
    }
  }
}
