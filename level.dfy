/** One price level of an order book (src/Level.cpp): the FIFO list of order
    IDs, the ID index holding each order, and the aggregate quantity.

    LevelState and the Level* functions are the level as a value; the Level
    class is the in-place form, each of its methods proved to produce the
    value the matching function computes. The order book holds its levels as
    values and uses the same functions. */
module Levels {
  import opened Enums
  import opened Orders

  datatype LevelState = LevelState(
    symbol: string,
    price: Price,
    quantity: int,
    orderList: seq<OrderID>,
    info: map<OrderID, Order>)

  /** The remaining quantity the index holds for an ID (0 when absent). */
  function RemOf(info: map<OrderID, Order>, id: OrderID): nat
  {
    if id in info then info[id].remaining else 0
  }

  /** Sum of the remaining quantities of the listed orders. */
  function Total(list: seq<OrderID>, info: map<OrderID, Order>): nat
  {
    if list == [] then 0 else RemOf(info, list[0]) + Total(list[1..], info)
  }

  predicate NoDup(list: seq<OrderID>)
  {
    forall i, j :: 0 <= i < j < |list| ==> list[i] != list[j]
  }

  /** The level invariant: the list and the index hold the same IDs, each
      once; every indexed order sits under its own ID at the level's price;
      and the aggregate quantity is the sum of the remaining quantities. */
  predicate LevelValid(l: LevelState)
  {
    NoDup(l.orderList) &&
    (forall id | id in l.info :: id in l.orderList) &&
    (forall id | id in l.orderList :: id in l.info) &&
    (forall id | id in l.info :: l.info[id].orderID == id && l.info[id].price == l.price) &&
    l.quantity == Total(l.orderList, l.info)
  }

  function EmptyLevel(symbol: string, price: Price): LevelState
  {
    LevelState(symbol, price, 0, [], map[])
  }

  /** std::list::erase of the element for `id`: every occurrence goes. */
  function RemoveID(list: seq<OrderID>, id: OrderID): (r: seq<OrderID>)
    ensures forall x :: x in r <==> x in list && x != id
  {
    if list == [] then []
    else if list[0] == id then RemoveID(list[1..], id)
    else [list[0]] + RemoveID(list[1..], id)
  }

  /** Level::AddOrder: an ID already indexed is ignored; otherwise the
      quantity grows by the order's remaining quantity and a copy of the
      order is appended and indexed. */
  function LevelAdd(l: LevelState, o: Order): LevelState
    requires o.price == l.price
  {
    if o.orderID in l.info then l
    else l.(quantity := l.quantity + o.remaining,
            orderList := l.orderList + [o.orderID],
            info := l.info[o.orderID := CopyOrder(o)])
  }

  /** Level::CancelOrder: an unknown ID is ignored; otherwise its remaining
      quantity is subtracted and it leaves the list and the index. */
  function LevelCancel(l: LevelState, id: OrderID): LevelState
  {
    if id !in l.info then l
    else l.(quantity := l.quantity - l.info[id].remaining,
            orderList := RemoveID(l.orderList, id),
            info := l.info - {id})
  }

  /** Level::ModifyOrder: cancel the old ID, then add the new order. */
  function LevelModify(l: LevelState, oldID: OrderID, o: Order): LevelState
    requires o.price == l.price
  {
    LevelAdd(LevelCancel(l, oldID), o)
  }

  /** Level::UpdateLevelQuantityPostMatch */
  function LevelUpdateQuantity(l: LevelState, filled: Quantity): LevelState
  {
    l.(quantity := l.quantity - filled)
  }

  /** Level::removeMatchedOrder: like a cancel, but the quantity is left
      alone (the match already subtracted it). */
  function LevelRemoveMatched(l: LevelState, id: OrderID): LevelState
  {
    if id !in l.info then l
    else l.(orderList := RemoveID(l.orderList, id), info := l.info - {id})
  }

  /** A fill applied through the shared pointer to an order of the level. */
  function LevelFill(l: LevelState, id: OrderID, q: Quantity): LevelState
    requires id in l.info && q <= l.info[id].remaining
  {
    l.(info := l.info[id := FillPartially(l.info[id], q)])
  }

  // ---------------------------------------------------------------------
  // Sums and lists
  // ---------------------------------------------------------------------

  lemma {:induction false} TotalAppend(list: seq<OrderID>, id: OrderID, info: map<OrderID, Order>)
    ensures Total(list + [id], info) == Total(list, info) + RemOf(info, id)
  {
    if list != [] {
      assert (list + [id])[1..] == list[1..] + [id];
      TotalAppend(list[1..], id, info);
    }
  }

  /** The sum reads only the listed entries of the index. */
  lemma {:induction false} TotalFrame(list: seq<OrderID>, info: map<OrderID, Order>, info': map<OrderID, Order>)
    requires forall x | x in list :: RemOf(info, x) == RemOf(info', x)
    ensures Total(list, info) == Total(list, info')
  {
    if list != [] {
      assert list[0] in list;
      assert forall x | x in list[1..] :: x in list;
      TotalFrame(list[1..], info, info');
    }
  }

  lemma {:induction false} TotalRemove(list: seq<OrderID>, id: OrderID, info: map<OrderID, Order>)
    requires NoDup(list)
    ensures Total(RemoveID(list, id), info) == Total(list, info) - (if id in list then RemOf(info, id) else 0)
  {
    if list != [] {
      assert NoDup(list[1..]) by {
        forall i, j | 0 <= i < j < |list[1..]|
          ensures list[1..][i] != list[1..][j]
        {
          assert list[1..][i] == list[i + 1] && list[1..][j] == list[j + 1];
        }
      }
      TotalRemove(list[1..], id, info);
      if list[0] == id {
        assert id !in list[1..] by {
          forall k | 0 <= k < |list[1..]|
            ensures list[1..][k] != id
          {
            assert list[1..][k] == list[k + 1];
          }
        }
      } else {
        assert id in list <==> id in list[1..] by {
          assert list == [list[0]] + list[1..];
        }
      }
    }
  }

  /** Raising or lowering one listed order's remaining quantity moves the
      sum by the same amount. */
  lemma {:induction false} TotalUpdate(list: seq<OrderID>, info: map<OrderID, Order>, id: OrderID, o: Order)
    requires NoDup(list) && id in list && id in info
    ensures Total(list, info[id := o]) == Total(list, info) - info[id].remaining + o.remaining
  {
    var info' := info[id := o];
    var i :| 0 <= i < |list| && list[i] == id;
    var pre, post := list[..i], list[i + 1..];
    assert list == pre + [id] + post;
    assert id !in pre && id !in post by {
      forall k | 0 <= k < |pre|
        ensures pre[k] != id
      {
        assert pre[k] == list[k];
      }
      forall k | 0 <= k < |post|
        ensures post[k] != id
      {
        assert post[k] == list[i + 1 + k];
      }
    }
    TotalSplit(pre, [id] + post, info);
    TotalSplit(pre, [id] + post, info');
    assert ([id] + post)[1..] == post;
    TotalFrame(pre, info, info');
    TotalFrame(post, info, info');
    assert list == pre + ([id] + post);
  }

  lemma {:induction false} TotalSplit(a: seq<OrderID>, b: seq<OrderID>, info: map<OrderID, Order>)
    ensures Total(a + b, info) == Total(a, info) + Total(b, info)
  {
    if a != [] {
      assert (a + b)[1..] == a[1..] + b;
      TotalSplit(a[1..], b, info);
    } else {
      assert a + b == b;
    }
  }

  lemma NoDupAppend(list: seq<OrderID>, id: OrderID)
    requires NoDup(list) && id !in list
    ensures NoDup(list + [id])
  {
    forall i, j | 0 <= i < j < |list + [id]|
      ensures (list + [id])[i] != (list + [id])[j]
    {
      assert (list + [id])[i] == list[i];
      if j < |list| {
        assert (list + [id])[j] == list[j];
      }
    }
  }

  /** Erasing an ID that occurs once at position i keeps every other
      element in its relative order. */
  lemma {:induction false} RemoveIDAt(list: seq<OrderID>, i: nat)
    requires NoDup(list) && i < |list|
    ensures RemoveID(list, list[i]) == list[..i] + list[i + 1..]
    ensures NoDup(RemoveID(list, list[i]))
  {
    var id := list[i];
    if i == 0 {
      RemoveAbsent(list[1..], id);
    } else {
      assert list[1..][i - 1] == id;
      assert NoDup(list[1..]) by {
        forall a, b | 0 <= a < b < |list[1..]|
          ensures list[1..][a] != list[1..][b]
        {
          assert list[1..][a] == list[a + 1] && list[1..][b] == list[b + 1];
        }
      }
      RemoveIDAt(list[1..], i - 1);
      assert list[1..][..i - 1] + list[1..][i..] == list[1..i] + list[i + 1..];
      assert [list[0]] + (list[1..i] + list[i + 1..]) == list[..i] + list[i + 1..];
    }
    NoDupSlices(list, i);
  }

  lemma {:induction false} RemoveAbsent(list: seq<OrderID>, id: OrderID)
    requires NoDup(list) && forall k | 0 <= k < |list| :: list[k] != id
    ensures RemoveID(list, id) == list
  {
    if list != [] {
      assert NoDup(list[1..]) by {
        forall a, b | 0 <= a < b < |list[1..]|
          ensures list[1..][a] != list[1..][b]
        {
          assert list[1..][a] == list[a + 1] && list[1..][b] == list[b + 1];
        }
      }
      assert forall k | 0 <= k < |list[1..]| :: list[1..][k] == list[k + 1];
      RemoveAbsent(list[1..], id);
      assert list == [list[0]] + list[1..];
    }
  }

  lemma NoDupSlices(list: seq<OrderID>, i: nat)
    requires NoDup(list) && i < |list|
    ensures NoDup(list[..i] + list[i + 1..])
  {
    var r := list[..i] + list[i + 1..];
    forall a, b | 0 <= a < b < |r|
      ensures r[a] != r[b]
    {
      var a' := if a < i then a else a + 1;
      var b' := if b < i then b else b + 1;
      assert r[a] == list[a'] && r[b] == list[b'];
    }
  }

  // ---------------------------------------------------------------------
  // What each level operation promises
  // ---------------------------------------------------------------------

  /** AddOrder keeps the invariant. A known ID leaves the level unchanged;
      a new order is appended at the back and indexed, and the quantity
      grows by its remaining quantity. */
  lemma LevelAddKeepsValid(l: LevelState, o: Order)
    requires LevelValid(l) && o.price == l.price
    ensures LevelValid(LevelAdd(l, o))
    ensures o.orderID in l.info ==> LevelAdd(l, o) == l
    ensures o.orderID !in l.info ==>
      LevelAdd(l, o).orderList == l.orderList + [o.orderID] &&
      LevelAdd(l, o).quantity == l.quantity + o.remaining &&
      LevelAdd(l, o).info[o.orderID] == CopyOrder(o)
  {
    if o.orderID !in l.info {
      var r := LevelAdd(l, o);
      NoDupAppend(l.orderList, o.orderID);
      TotalAppend(l.orderList, o.orderID, r.info);
      TotalFrame(l.orderList, l.info, r.info);
    }
  }

  /** CancelOrder keeps the invariant, and the ID is gone afterwards. */
  lemma LevelCancelKeepsValid(l: LevelState, id: OrderID)
    requires LevelValid(l)
    ensures LevelValid(LevelCancel(l, id))
    ensures id !in LevelCancel(l, id).info && id !in LevelCancel(l, id).orderList
  {
    if id in l.info {
      var r := LevelCancel(l, id);
      var i :| 0 <= i < |l.orderList| && l.orderList[i] == id;
      RemoveIDAt(l.orderList, i);
      TotalRemove(l.orderList, id, l.info);
      TotalFrame(r.orderList, l.info, r.info);
    }
  }

  /** CancelOrder of an unknown ID changes nothing; of a known ID, the
      quantity drops by that order's remaining quantity and the other
      orders keep their relative order. */
  lemma LevelCancelRemovesOne(l: LevelState, id: OrderID)
    requires LevelValid(l)
    ensures id !in l.info ==> LevelCancel(l, id) == l
    ensures id in l.info ==>
      LevelCancel(l, id).quantity == l.quantity - l.info[id].remaining &&
      exists i :: 0 <= i < |l.orderList| && l.orderList[i] == id &&
        LevelCancel(l, id).orderList == l.orderList[..i] + l.orderList[i + 1..]
  {
    if id in l.info {
      var i :| 0 <= i < |l.orderList| && l.orderList[i] == id;
      RemoveIDAt(l.orderList, i);
    }
  }

  /** ModifyOrder is CancelOrder followed by AddOrder, so it keeps the
      invariant, and the old ID is gone unless the new order reuses it. */
  lemma LevelModifyKeepsValid(l: LevelState, oldID: OrderID, o: Order)
    requires LevelValid(l) && o.price == l.price
    ensures LevelValid(LevelModify(l, oldID, o))
    ensures o.orderID in LevelModify(l, oldID, o).info
    ensures oldID != o.orderID ==> oldID !in LevelModify(l, oldID, o).info
  {
    LevelCancelKeepsValid(l, oldID);
    LevelAddKeepsValid(LevelCancel(l, oldID), o);
  }

  /** One side of a match on a level: the front order is filled by q and
      the level quantity drops by q, and the invariant holds again. */
  lemma LevelFillKeepsValid(l: LevelState, q: Quantity)
    requires LevelValid(l) && l.orderList != []
    requires q <= l.info[l.orderList[0]].remaining
    ensures LevelValid(LevelUpdateQuantity(LevelFill(l, l.orderList[0], q), q))
  {
    var front := l.orderList[0];
    assert front in l.orderList;
    TotalUpdate(l.orderList, l.info, front, FillPartially(l.info[front], q));
  }

  /** When the fill uses the front order up, removeMatchedOrder leaves
      exactly the rest of the list, the quantity already lowered by the
      fill, and the invariant. */
  lemma LevelRemoveFrontKeepsValid(l: LevelState, q: Quantity)
    requires LevelValid(l) && l.orderList != []
    requires q == l.info[l.orderList[0]].remaining
    ensures var after := LevelRemoveMatched(LevelUpdateQuantity(LevelFill(l, l.orderList[0], q), q), l.orderList[0]);
      LevelValid(after) && after.orderList == l.orderList[1..] && after.quantity == l.quantity - q
  {
    var front := l.orderList[0];
    LevelFillKeepsValid(l, q);
    var l1 := LevelUpdateQuantity(LevelFill(l, front, q), q);
    assert l1.orderList == l.orderList;
    RemoveIDAt(l.orderList, 0);
    TotalRemove(l1.orderList, front, l1.info);
    var after := LevelRemoveMatched(l1, front);
    TotalFrame(after.orderList, l1.info, after.info);
  }

  /** A valid level's quantity is zero exactly when every listed order is
      used up; in particular a level with no orders has quantity zero. */
  lemma {:induction false} ZeroQuantity(list: seq<OrderID>, info: map<OrderID, Order>)
    ensures Total(list, info) == 0 <==> forall x | x in list :: RemOf(info, x) == 0
  {
    if list != [] {
      ZeroQuantity(list[1..], info);
      assert forall x | x in list :: x == list[0] || x in list[1..];
    }
  }

  // ---------------------------------------------------------------------
  // The in-place level
  // ---------------------------------------------------------------------

  class Level {
    const symbol: string
    const price: Price
    var quantity: int
    var orderList: seq<OrderID>
    var info: map<OrderID, Order>

    function State(): LevelState
      reads this
    {
      LevelState(symbol, price, quantity, orderList, info)
    }

    predicate Valid()
      reads this
    {
      LevelValid(State())
    }

    constructor(symbol: string, price: Price, quantity: int)
      ensures State() == LevelState(symbol, price, quantity, [], map[])
      ensures Valid() <==> quantity == 0
    {
      this.symbol := symbol;
      this.price := price;
      this.quantity := quantity;
      this.orderList := [];
      this.info := map[];
    }

    method AddOrder(order: Order)
      requires order.price == price
      modifies this
      ensures State() == LevelAdd(old(State()), order)
      ensures old(Valid()) ==> Valid()
    {
      ghost var before := State();
      if order.orderID in info {
        return;
      }
      quantity := quantity + order.remaining;
      orderList := orderList + [order.orderID];
      info := info[order.orderID := CopyOrder(order)];
      if LevelValid(before) {
        LevelAddKeepsValid(before, order);
      }
    }

    method CancelOrder(orderID: OrderID)
      modifies this
      ensures State() == LevelCancel(old(State()), orderID)
      ensures old(Valid()) ==> Valid()
    {
      ghost var before := State();
      if orderID !in info {
        return;
      }
      quantity := quantity - info[orderID].remaining;
      orderList := RemoveID(orderList, orderID);
      info := info - {orderID};
      if LevelValid(before) {
        LevelCancelKeepsValid(before, orderID);
      }
    }

    method ModifyOrder(oldOrderID: OrderID, modifiedOrder: Order)
      requires modifiedOrder.price == price
      modifies this
      ensures State() == LevelModify(old(State()), oldOrderID, modifiedOrder)
      ensures old(Valid()) ==> Valid()
    {
      CancelOrder(oldOrderID);
      AddOrder(modifiedOrder);
    }

    method UpdateLevelQuantityPostMatch(filledQuantity: Quantity)
      modifies this
      ensures State() == LevelUpdateQuantity(old(State()), filledQuantity)
    {
      quantity := quantity - filledQuantity;
    }

    method RemoveMatchedOrder(orderID: OrderID)
      modifies this
      ensures State() == LevelRemoveMatched(old(State()), orderID)
      ensures old(Valid()) && old(orderID in info ==> info[orderID].remaining == 0) ==> Valid()
    {
      ghost var before := State();
      if orderID !in info {
        return;
      }
      orderList := RemoveID(orderList, orderID);
      info := info - {orderID};
      if LevelValid(before) && before.info[orderID].remaining == 0 {
        LevelCancelKeepsValid(before, orderID);
        assert State() == LevelCancel(before, orderID);
      }
    }
  }
}
