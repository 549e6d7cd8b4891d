/** What placeOrder (src/Xchange.cpp) does, stated on values: the order it
    builds from its arguments, what recording that order does to the
    participant, and what routing it does to the participant and to the
    preprocessor of its side. */
module Placements {
  import opened Wrappers
  import opened Enums
  import opened Text
  import opened Orders
  import opened OrderBooks
  import opened PreProcessing
  import opened Participants

  /** An activation or deactivation argument that is present: the empty
      string (take the default) or a parsed date-time. */
  datatype TimeText = Blank | At(time: TimeStamp)

  function TimeArg(x: TimeText): Option<TimeStamp>
  {
    if x.Blank? then None else Some(x.time)
  }

  /** A modify or cancel that names an order this participant placed, with
      the same side, type and symbol: the case placeOrder acts on. */
  predicate Matches(placed: map<OrderID, PlacedOrder>, action: Action, order: Option<Order>,
                    oldOrderID: Option<OrderID>, side: Side, orderType: OrderType, symbol: string)
  {
    !(action == Add && order.Some?) && oldOrderID.Some? && oldOrderID.value in placed &&
    placed[oldOrderID.value].side == side && placed[oldOrderID.value].otype == orderType &&
    placed[oldOrderID.value].symbol == symbol
  }

  /** Everything a side's preprocessor and the book behind it hold that an
      order can change; two equal views mean neither object changed. */
  datatype SideView = SideView(threshold: nat, duration: int, lastFlushTime: TimeStamp,
                               buffers: seq<Buffer>, composition: map<OrderID, Order>,
                               actInfo: map<OrderID, ActionInfo>, encountered: set<OrderID>,
                               bids: SideLevels, asks: SideLevels, trades: seq<Trade>)

  ghost function ViewOf(pre: PreProcessor): SideView
    reads pre, pre.book
  {
    SideView(pre.threshold, pre.duration, pre.lastFlushTime, pre.buffers, pre.composition,
             pre.actInfo, pre.encountered, pre.book.bids, pre.book.asks, pre.book.trades)
  }

  /** A flush would happen once the buffers hold `buffers`: the hybrid
      count-or-time condition of TryFlush, while re-entry is allowed. */
  predicate Flushes(before: SideView, buffers: seq<Buffer>, clock: Clock, fuel: nat)
  {
    fuel > 0 && Due(buffers, before.lastFlushTime, before.threshold, before.duration, clock)
  }

  /** What an add does to its side's preprocessor and book: an add whose ID
      is already held, or a good-for-day add while trading is closed, is
      ignored; any other is recorded as seen, and when no flush follows it
      is stamped, buffered under its rank and recorded, and nothing else
      changes. The view is of a preprocessor with its ten buffers. */
  predicate AddRouted(before: SideView, after: SideView, o: Order, clock: Clock, fuel: nat)
  {
    var ignored := o.orderID in before.composition || (o.orderType == GoodForDay && !clock.canTrade);
    var info := ActionInfo(o.orderID, o.orderType, Add);
    |before.buffers| == RANKS &&
    var recorded := Buffered(before.buffers, info);
    (ignored ==> after == before) &&
    (!ignored ==> o.orderID in after.encountered) &&
    (!ignored && !Flushes(before, recorded, clock, fuel) ==>
       after == before.(buffers := recorded,
                        composition := before.composition[o.orderID := Admitted(o, clock)],
                        actInfo := before.actInfo[o.orderID := info],
                        encountered := before.encountered + {o.orderID}))
  }

  /** What a matching modify or cancel of `id` does to the preprocessor,
      given whether the order had already entered the book. A cancel of an
      unseen ID changes nothing; a cancel of an entered order queues a
      cancel entry; a cancel of a waiting order removes it (the last two
      stated whole when no flush follows). A modify removes the waiting old
      order and records the new one as seen unless that one is ignored. A
      modify without a new order, or an add, leaves the preprocessor
      alone. The view is of a preprocessor with its ten buffers. */
  predicate MatchRouted(before: SideView, after: SideView, id: OrderID, action: Action,
                        order: Option<Order>, orderType: OrderType, clock: Clock, entered: bool, fuel: nat)
  {
    |before.buffers| == RANKS &&
    var cancel := ActionInfo(id, orderType, Cancel);
    var queued := Buffered(before.buffers, cancel);
    var rest := Unbuffered(before.buffers, TypeRank(orderType), id);
    (action == Cancel && id !in before.encountered ==> after == before) &&
    (action == Cancel && id in before.encountered && entered && !Flushes(before, queued, clock, fuel) ==>
       after == before.(buffers := queued, actInfo := before.actInfo[id := cancel])) &&
    (action == Cancel && id in before.encountered && !entered ==> id !in after.composition) &&
    (action == Cancel && id in before.encountered && !entered && !Flushes(before, rest, clock, fuel) ==>
       after == before.(buffers := rest, actInfo := before.actInfo - {id},
                        composition := before.composition - {id})) &&
    ((action == Modify && order.Some? && order.value.orderType == orderType &&
      id in before.encountered && !entered && id != order.value.orderID) ==> id !in after.composition) &&
    ((action == Modify && order.Some? && order.value.orderID !in before.composition &&
      !(order.value.orderType == GoodForDay && !clock.canTrade)) ==> order.value.orderID in after.encountered) &&
    (action == Add || (action == Modify && order.None?) ==> after == before)
  }

  /** Everything a participant holds that placeOrder can change. */
  datatype HolderView = HolderView(placed: map<OrderID, PlacedOrder>, orders: map<OrderID, Order>,
                                   portfolio: Portfolio, history: seq<Trade>)

  ghost function HolderOf(p: Participant): HolderView
    reads p
  {
    HolderView(p.placedOrders, p.orderComposition, p.portfolio, p.history)
  }

  /** hasOrderEnteredOrderbook, read off a view of the preprocessor. */
  predicate EnteredIn(v: SideView, id: OrderID, otype: OrderType)
  {
    var k := TypeRank(otype);
    !(k < |v.buffers| && id in v.composition && id in v.actInfo && v.actInfo[id].orderID in v.buffers[k])
  }

  lemma EnteredAsViewed(pre: PreProcessor, id: OrderID, otype: OrderType)
    requires pre.Valid()
    ensures pre.HasOrderEnteredOrderbook(id, otype) == EnteredIn(ViewOf(pre), id, otype)
  {
  }

  /** What routing an order does to the participant and to the side's
      preprocessor: an add is routed as AddRouted says and leaves the
      participant alone; a modify or cancel that matches an order the
      participant holds is forgotten by the participant as Forgot says and
      routed as MatchRouted says; anything else (no old ID, an old ID the
      participant did not place, or one placed with another side, type or
      symbol) changes neither. */
  predicate Routed(before: SideView, after: SideView, holderBefore: HolderView, holderAfter: HolderView,
                   order: Option<Order>, action: Action, oldOrderID: Option<OrderID>,
                   symbol: string, side: Side, orderType: OrderType, clock: Clock, fuel: nat)
  {
    (action == Add && order.Some? ==>
       AddRouted(before, after, order.value, clock, fuel) && holderAfter == holderBefore) &&
    (Matches(holderBefore.placed, action, order, oldOrderID, side, orderType, symbol) ==>
       var id := oldOrderID.value;
       var entered := EnteredIn(before, id, orderType);
       holderAfter.portfolio == holderBefore.portfolio && holderAfter.history == holderBefore.history &&
       Forgot(holderBefore.placed, holderBefore.orders, holderAfter.placed, holderAfter.orders, id, entered) &&
       MatchRouted(before, after, id, action, order, orderType, clock, entered, fuel)) &&
    (!(action == Add && order.Some?) && !Matches(holderBefore.placed, action, order, oldOrderID, side, orderType, symbol) ==>
       after == before && holderAfter == holderBefore)
  }

  /** The participant once placeOrder has recorded the order it built, if
      any; a complete cancel fails recordNonCancelOrder's assert before
      anything is recorded. */
  function Recorded(h: HolderView, order: Option<Order>, action: Action,
                    symbol: string, orderType: OrderType, side: Side): HolderView
  {
    if action == Cancel && order.Some? then h
    else HolderView(PlacedWith(h.placed, order, action, symbol, orderType, side), OrdersWith(h.orders, order),
                    h.portfolio, h.history)
  }

  /** What placeOrder does for a traded symbol: the participant first
      records the order it builds (if any), which is then routed; a
      complete cancel stops at the failed assert and changes nothing. */
  predicate PlacementRouted(before: SideView, after: SideView, holderBefore: HolderView, holderAfter: HolderView,
                            order: Option<Order>, action: Action, oldOrderID: Option<OrderID>,
                            symbol: string, side: Side, orderType: OrderType, clock: Clock, fuel: nat)
  {
    var recorded := Recorded(holderBefore, order, action, symbol, orderType, side);
    if action == Cancel && order.Some? then after == before && holderAfter == holderBefore
    else Routed(before, after, recorded, holderAfter, order, action, oldOrderID, symbol, side, orderType, clock, fuel)
  }

  /** What a matching modify or cancel does to the participant's two maps:
      an order that had not entered the book and that both maps hold is
      forgotten; otherwise both maps stay as they were. */
  predicate Forgot(placedBefore: map<OrderID, PlacedOrder>, ordersBefore: map<OrderID, Order>,
                   placedAfter: map<OrderID, PlacedOrder>, ordersAfter: map<OrderID, Order>,
                   id: OrderID, entered: bool)
  {
    (!entered && id in placedBefore && id in ordersBefore ==>
       placedAfter == placedBefore - {id} && ordersAfter == ordersBefore - {id}) &&
    (entered || id !in placedBefore || id !in ordersBefore ==>
       placedAfter == placedBefore && ordersAfter == ordersBefore)
  }

  /** The order placeOrder builds: with price, quantity and both times
      given, the one NewOrder makes; otherwise none. */
  function Placement(pid: ParticipantID, symbol: string, side: Side, orderType: OrderType,
                     price: Option<Price>, quantity: Option<Quantity>,
                     activation: Option<TimeText>, deactivation: Option<TimeText>,
                     now: TimeStamp, endOfTime: TimeStamp): (r: Option<Order>)
    ensures r.Some? <==> Complete(price, quantity, activation, deactivation)
    ensures r.Some? ==> r.value.symbol == symbol && r.value.orderType == orderType && r.value.side == side &&
                        r.value.participantID == pid && r.value.price == price.value &&
                        r.value.remaining == quantity.value && r.value.timestamp == now &&
                        DecodeSide(r.value.orderID) == side
  {
    if Complete(price, quantity, activation, deactivation) then
      Some(NewOrder(symbol, orderType, side, price.value, quantity.value, pid,
                    TimeArg(activation.value), TimeArg(deactivation.value), now, endOfTime))
    else None
  }

  /** The participant's placed orders once placeOrder has recorded `order`. */
  function PlacedWith(placed: map<OrderID, PlacedOrder>, order: Option<Order>, action: Action,
                      symbol: string, orderType: OrderType, side: Side): map<OrderID, PlacedOrder>
  {
    if order.None? then placed
    else placed[order.value.orderID := PlacedOrder(order.value.orderID, action, symbol, orderType, side)]
  }

  /** The participant's order objects once placeOrder has recorded `order`. */
  function OrdersWith(orders: map<OrderID, Order>, order: Option<Order>): map<OrderID, Order>
  {
    if order.None? then orders else orders[order.value.orderID := order.value]
  }

  /** Price, quantity and both times are given: only then is a new order
      created. */
  predicate Complete(price: Option<Price>, quantity: Option<Quantity>,
                     activation: Option<TimeText>, deactivation: Option<TimeText>)
  {
    price.Some? && quantity.Some? && activation.Some? && deactivation.Some?
  }
}
