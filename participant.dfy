/** A trading participant (src/Participant.cpp): the orders it placed, the
    trades it took part in and its per-symbol portfolio of signed cash
    amounts (integer cents). */
module Participants {
  import opened Wrappers
  import opened Enums
  import opened Orders
  import opened OrderBooks

  /** ParticipantOrderInfo */
  datatype PlacedOrder = PlacedOrder(orderID: OrderID, action: Action, symbol: string,
                                     otype: OrderType, side: Side)

  type Portfolio = map<string, int>

  /** Participant::lastProcessedTradeIndex: one counter shared by every
      participant, so it is an object the participants are handed. */
  class TradeCursor {
    var index: nat

    constructor()
      ensures index == 0
    {
      index := 0;
    }
  }

  // ---------------------------------------------------------------------
  // Which trades concern a participant, and what they do to it
  // ---------------------------------------------------------------------

  /** Exactly one side of the trade belongs to `pid`; a trade with itself
      and a trade of strangers are both skipped. */
  predicate Concerns(t: Trade, pid: ParticipantID)
  {
    (t.bid.participantID == pid) != (t.ask.participantID == pid)
  }

  /** The trades of `ts` that concern `pid`, in order. */
  function Relevant(ts: seq<Trade>, pid: ParticipantID): seq<Trade>
  {
    if ts == [] then []
    else
      var last := ts[|ts| - 1];
      Relevant(ts[..|ts| - 1], pid) + (if Concerns(last, pid) then [last] else [])
  }

  /** The trades kept are exactly those of `ts` that concern `pid`, and no
      more of them than were scanned. */
  lemma {:induction false} RelevantExactly(ts: seq<Trade>, pid: ParticipantID)
    ensures forall t :: t in Relevant(ts, pid) <==> t in ts && Concerns(t, pid)
    ensures |Relevant(ts, pid)| <= |ts|
  {
    if ts != [] {
      var init := ts[..|ts| - 1];
      RelevantExactly(init, pid);
      assert ts == init + [ts[|ts| - 1]];
    }
  }

  /** The participant's own order in the trade. */
  function MatchedID(t: Trade, pid: ParticipantID): OrderID
  {
    if t.bid.participantID == pid then t.bid.orderID else t.ask.orderID
  }

  /** The side recordTrades books: Buy when the matched ID is the bid's. */
  function MatchedSide(t: Trade, pid: ParticipantID): Side
  {
    if MatchedID(t, pid) == t.bid.orderID then Buy else Sell
  }

  /** A buy adds price times quantity to the symbol's amount, a sell takes
      it away. */
  function Flow(t: Trade, side: Side): int
  {
    if side == Buy then t.bid.price * t.bid.quantityFilled
    else -(t.ask.price * t.ask.quantityFilled)
  }

  /** The amount held for a symbol, 0 when absent (std::unordered_map's
      operator[]). */
  function Holding(p: Portfolio, symbol: string): int
  {
    if symbol in p then p[symbol] else 0
  }

  /** A trade counts for the portfolio when it concerns `pid` and its
      matched order is one the participant still records. */
  predicate Books(t: Trade, pid: ParticipantID, ids: set<OrderID>)
  {
    Concerns(t, pid) && MatchedID(t, pid) in ids
  }

  /** updatePortfolio applied to each booked trade of `ts`, in order. */
  function PortfolioAfter(p: Portfolio, ts: seq<Trade>, pid: ParticipantID, ids: set<OrderID>): Portfolio
  {
    if ts == [] then p
    else
      var before := PortfolioAfter(p, ts[..|ts| - 1], pid, ids);
      var t := ts[|ts| - 1];
      if Books(t, pid, ids) then
        before[t.symbol := Holding(before, t.symbol) + Flow(t, MatchedSide(t, pid))]
      else before
  }

  /** updateOrderStatus applied to each booked trade of `ts`: an order
      with nothing left becomes Fulfilled. */
  function StatusAfter(comp: map<OrderID, Order>, ts: seq<Trade>, pid: ParticipantID): (r: map<OrderID, Order>)
    ensures r.Keys == comp.Keys
  {
    if ts == [] then comp
    else
      var before := StatusAfter(comp, ts[..|ts| - 1], pid);
      var t := ts[|ts| - 1];
      var id := MatchedID(t, pid);
      if Books(t, pid, comp.Keys) && IsFullyFilled(before[id]) then
        before[id := before[id].(status := Fulfilled)]
      else before
  }

  /** Status updates touch nothing but the status, and only ever set
      Fulfilled, and only on orders with nothing left. */
  lemma {:induction false} StatusOnly(comp: map<OrderID, Order>, ts: seq<Trade>, pid: ParticipantID)
    ensures forall id | id in comp ::
      StatusAfter(comp, ts, pid)[id] == comp[id].(status := StatusAfter(comp, ts, pid)[id].status)
    ensures forall id | id in comp && StatusAfter(comp, ts, pid)[id].status != comp[id].status ::
      StatusAfter(comp, ts, pid)[id].status == Fulfilled && comp[id].remaining == 0
  {
    if ts != [] {
      StatusOnly(comp, ts[..|ts| - 1], pid);
    }
  }

  /** The sum of the portfolio's amounts, in any order. */
  ghost function Worth(p: Portfolio): int
    decreases |p|
  {
    if p == map[] then 0
    else
      HasSymbol(p.Keys);
      var s :| s in p;
      p[s] + Worth(p - {s})
  }

  lemma NoSymbolEmpty(keys: set<string>)
    ensures (forall s :: s !in keys) ==> keys == {}
  {
    if forall s :: s !in keys {
      assert keys == {};
    }
  }

  lemma HasSymbol(keys: set<string>)
    requires keys != {}
    ensures exists s :: s in keys
  {
    NoSymbolEmpty(keys);
  }

  /** Any amount can be taken out first: the worth is that amount plus
      the worth of the rest (an absent symbol counts 0). */
  lemma {:induction false} WorthRemove(p: Portfolio, s: string)
    ensures Worth(p) == Holding(p, s) + Worth(p - {s})
    decreases |p|
  {
    if s !in p {
      assert p - {s} == p;
    } else {
      var j :| j in p && Worth(p) == p[j] + Worth(p - {j});
      if j != s {
        WorthRemove(p - {j}, s);
        WorthRemove(p - {s}, j);
        assert p - {j} - {s} == p - {s} - {j};
      }
    }
  }

  /** Setting one symbol's amount changes the worth by the difference. */
  lemma WorthUpdate(p: Portfolio, s: string, v: int)
    ensures Worth(p[s := v]) == Worth(p) - Holding(p, s) + v
  {
    WorthRemove(p, s);
    WorthRemove(p[s := v], s);
    assert p[s := v] - {s} == p - {s};
  }

  /** The cash flow of the booked trades of `ts`. */
  function TotalFlow(ts: seq<Trade>, pid: ParticipantID, ids: set<OrderID>): int
  {
    if ts == [] then 0
    else
      var t := ts[|ts| - 1];
      TotalFlow(ts[..|ts| - 1], pid, ids) + (if Books(t, pid, ids) then Flow(t, MatchedSide(t, pid)) else 0)
  }

  /** Recording trades moves the portfolio's worth by exactly the cash
      flow of the trades it books. */
  lemma {:induction false} WorthAfterTrades(p: Portfolio, ts: seq<Trade>, pid: ParticipantID, ids: set<OrderID>)
    ensures Worth(PortfolioAfter(p, ts, pid, ids)) == Worth(p) + TotalFlow(ts, pid, ids)
  {
    if ts != [] {
      var init := ts[..|ts| - 1];
      WorthAfterTrades(p, init, pid, ids);
      var t := ts[|ts| - 1];
      if Books(t, pid, ids) {
        var before := PortfolioAfter(p, init, pid, ids);
        WorthUpdate(before, t.symbol, Holding(before, t.symbol) + Flow(t, MatchedSide(t, pid)));
      }
    }
  }

  /** A trade booked as a buy adds to the matched symbol's amount, one
      booked as a sell takes away, and no other symbol moves. */
  lemma OneTradeBooking(p: Portfolio, ts: seq<Trade>, pid: ParticipantID, ids: set<OrderID>, t: Trade)
    requires Books(t, pid, ids)
    ensures var after := PortfolioAfter(p, ts + [t], pid, ids);
      var before := PortfolioAfter(p, ts, pid, ids);
      Holding(after, t.symbol) == Holding(before, t.symbol) + Flow(t, MatchedSide(t, pid)) &&
      (forall s | s != t.symbol :: Holding(after, s) == Holding(before, s))
  {
    assert (ts + [t])[..|ts|] == ts;
  }

  // ---------------------------------------------------------------------
  // The participant
  // ---------------------------------------------------------------------

  class Participant {
    var participantID: ParticipantID
    var portfolio: Portfolio
    /** m_placedOrders */
    var placedOrders: map<OrderID, PlacedOrder>
    /** m_orderComposition */
    var orderComposition: map<OrderID, Order>
    /** m_historyOfTrades */
    var history: seq<Trade>

    constructor()
      ensures participantID == "" && portfolio == map[] && placedOrders == map[]
      ensures orderComposition == map[] && history == []
    {
      participantID := "";
      portfolio := map[];
      placedOrders := map[];
      orderComposition := map[];
      history := [];
    }

    method SetParticipantID(newID: ParticipantID)
      modifies this
      ensures participantID == newID
      ensures portfolio == old(portfolio) && placedOrders == old(placedOrders)
      ensures orderComposition == old(orderComposition) && history == old(history)
    {
      participantID := newID;
    }

    /** isParticularOrderPlacedByParticipant */
    predicate IsParticularOrderPlacedByParticipant(id: OrderID)
      reads this
    {
      id in placedOrders && id in orderComposition
    }

    /** recordNonCancelOrder: create the order at `now` and file it under
        its ID in both registries. */
    method RecordNonCancelOrder(action: Action, symbol: string, orderType: OrderType, side: Side,
                                price: Price, quantity: Quantity, pid: ParticipantID,
                                activation: Option<TimeStamp>, deactivation: Option<TimeStamp>,
                                now: TimeStamp, endOfTime: TimeStamp) returns (o: Order)
      requires action != Cancel
      modifies this
      ensures o == NewOrder(symbol, orderType, side, price, quantity, pid, activation, deactivation, now, endOfTime)
      ensures IsParticularOrderPlacedByParticipant(o.orderID)
      ensures placedOrders == old(placedOrders)[o.orderID := PlacedOrder(o.orderID, action, symbol, orderType, side)]
      ensures orderComposition == old(orderComposition)[o.orderID := o]
      ensures participantID == old(participantID) && portfolio == old(portfolio) && history == old(history)
    {
      o := NewOrder(symbol, orderType, side, price, quantity, pid, activation, deactivation, now, endOfTime);
      placedOrders := placedOrders[o.orderID := PlacedOrder(o.orderID, action, symbol, orderType, side)];
      orderComposition := orderComposition[o.orderID := o];
    }

    /** recordCancelOrder: forget an order this participant placed; any
        other ID is ignored. */
    method RecordCancelOrder(id: OrderID)
      modifies this
      ensures !IsParticularOrderPlacedByParticipant(id)
      ensures old(IsParticularOrderPlacedByParticipant(id)) ==>
        placedOrders == old(placedOrders) - {id} && orderComposition == old(orderComposition) - {id}
      ensures !old(IsParticularOrderPlacedByParticipant(id)) ==>
        placedOrders == old(placedOrders) && orderComposition == old(orderComposition)
      ensures participantID == old(participantID) && portfolio == old(portfolio) && history == old(history)
    {
      if !IsParticularOrderPlacedByParticipant(id) {
        return;
      }
      placedOrders := placedOrders - {id};
      orderComposition := orderComposition - {id};
    }

    /** getOrderInformation: std::unordered_map::at, None where it throws. */
    function GetOrderInformation(id: OrderID): (r: Option<PlacedOrder>)
      reads this
      ensures r.Some? <==> id in placedOrders
      ensures r.Some? ==> r.value == placedOrders[id]
    {
      if id in placedOrders then Some(placedOrders[id]) else None
    }

    /** getValuationOfSymbol */
    function GetValuationOfSymbol(symbol: string): (r: int)
      reads this
      ensures Worth(portfolio) == r + Worth(portfolio - {symbol})
    {
      WorthRemove(portfolio, symbol);
      Holding(portfolio, symbol)
    }

    /** getValuationOfPortfolio: the sum over the portfolio's entries. */
    method GetValuationOfPortfolio() returns (amount: int)
      ensures amount == Worth(portfolio)
    {
      amount := 0;
      var rest := portfolio;
      while rest != map[]
        invariant amount + Worth(rest) == Worth(portfolio)
        decreases |rest|
      {
        HasSymbol(rest.Keys);
        var symbol :| symbol in rest;
        WorthRemove(rest, symbol);
        amount := amount + rest[symbol];
        rest := rest - {symbol};
      }
    }

    /** recordTrades: scan the trades from the shared cursor, keep those
        that concern this participant, book the ones whose order it still
        records, and move the cursor on by the number kept (not scanned). */
    method RecordTrades(trades: seq<Trade>, cursor: TradeCursor)
      modifies this, cursor
      ensures var scanned := trades[Min(old(cursor.index), |trades|)..];
        var kept := Relevant(scanned, participantID);
        history == old(history) + kept &&
        cursor.index == old(cursor.index) + |kept| &&
        portfolio == PortfolioAfter(old(portfolio), scanned, participantID, old(orderComposition).Keys) &&
        orderComposition == StatusAfter(old(orderComposition), scanned, participantID)
      ensures participantID == old(participantID) && placedOrders == old(placedOrders)
    {
      var validTrades := 0;
      var start := Min(cursor.index, |trades|);
      var idx := start;
      while idx < |trades|
        invariant start <= idx <= |trades|
        invariant validTrades == |Relevant(trades[start..idx], participantID)|
        invariant history == old(history) + Relevant(trades[start..idx], participantID)
        invariant portfolio == PortfolioAfter(old(portfolio), trades[start..idx], participantID, old(orderComposition).Keys)
        invariant orderComposition == StatusAfter(old(orderComposition), trades[start..idx], participantID)
        invariant participantID == old(participantID) && placedOrders == old(placedOrders)
        invariant cursor.index == old(cursor.index)
      {
        assert trades[start..idx + 1][..idx - start] == trades[start..idx];
        var trade := trades[idx];
        idx := idx + 1;
        var buyPartID := trade.bid.participantID;
        var sellPartID := trade.ask.participantID;
        if buyPartID == participantID && sellPartID == participantID {
          continue;
        }
        if buyPartID != participantID && sellPartID != participantID {
          continue;
        }
        validTrades := validTrades + 1;
        history := history + [trade];
        var matchedID := if buyPartID == participantID then trade.bid.orderID else trade.ask.orderID;
        var side := if matchedID == trade.bid.orderID then Buy else Sell;
        if matchedID !in orderComposition {
          continue;
        }
        UpdateOrderStatus(matchedID);
        UpdatePortfolio(side, trade);
      }
      assert trades[start..idx] == trades[start..];
      cursor.index := cursor.index + validTrades;
    }

    /** updateOrderStatus */
    method UpdateOrderStatus(id: OrderID)
      requires id in orderComposition
      modifies this
      ensures IsFullyFilled(old(orderComposition[id])) ==>
        orderComposition == old(orderComposition)[id := old(orderComposition[id]).(status := Fulfilled)]
      ensures !IsFullyFilled(old(orderComposition[id])) ==> orderComposition == old(orderComposition)
      ensures participantID == old(participantID) && placedOrders == old(placedOrders)
      ensures portfolio == old(portfolio) && history == old(history)
    {
      if IsFullyFilled(orderComposition[id]) {
        orderComposition := orderComposition[id := orderComposition[id].(status := Fulfilled)];
      }
    }

    /** updatePortfolio: the traded order of the given side moves the
        symbol's amount by its price times quantity. */
    method UpdatePortfolio(side: Side, trade: Trade)
      modifies this
      ensures portfolio == old(portfolio)[trade.symbol := Holding(old(portfolio), trade.symbol) + Flow(trade, side)]
      ensures Worth(portfolio) == Worth(old(portfolio)) + Flow(trade, side)
      ensures participantID == old(participantID) && placedOrders == old(placedOrders)
      ensures orderComposition == old(orderComposition) && history == old(history)
    {
      var traded := if side == Buy then trade.bid else trade.ask;
      var original := Holding(portfolio, trade.symbol);
      var updated := original + (if side == Buy then 1 else -1) * (traded.price * traded.quantityFilled);
      WorthUpdate(portfolio, trade.symbol, updated);
      portfolio := portfolio[trade.symbol := updated];
    }
  }
}
