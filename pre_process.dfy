/** The per-side preprocessor of one symbol (src/PreProcess.cpp): orders and
    cancels wait in ten buffers ranked by order type, and a flush forwards
    them to the shared order book when enough are waiting or enough time
    has passed. Conditional order types are checked against the book and
    the clock just before they are forwarded.

    The wall clock and the market calendar are a `Clock` parameter. The
    source's flush is re-entrant (a flush may withdraw an order, which
    tries to flush again); each re-entrant method takes a `fuel` bound and
    a flush with no fuel left is skipped. */
module PreProcessing {
  import opened Wrappers
  import opened Enums
  import opened Orders
  import opened Levels
  import opened OrderBooks

  // ---------------------------------------------------------------------
  // The clock
  // ---------------------------------------------------------------------

  const NS_PER_MS: int := 1_000_000
  const NS_PER_MINUTE: int := 60_000_000_000

  /** What the source reads from system_clock and the exchange calendar:
      the current time (ns), whether the market is open, and the next
      opening and closing minute. */
  datatype Clock = Clock(now: TimeStamp, canTrade: bool, nextOpen: TimeStamp, nextClose: TimeStamp)

  /** Integer division rounding toward zero, as duration_cast and
      time_point_cast do. */
  function TruncDiv(a: int, b: int): (q: int)
    requires b > 0
    ensures a >= 0 ==> q * b <= a < q * b + b
    ensures a < 0 ==> q * b - b < a <= q * b
  {
    if a >= 0 then a / b else -((-a) / b)
  }

  /** Whole milliseconds from `last` to `now`. */
  function ElapsedMillis(now: TimeStamp, last: TimeStamp): int
  {
    TruncDiv(now - last, NS_PER_MS)
  }

  /** time_point_cast<minutes>(now). */
  function NowMinute(clock: Clock): TimeStamp
  {
    TruncDiv(clock.now, NS_PER_MINUTE) * NS_PER_MINUTE
  }

  // ---------------------------------------------------------------------
  // Ranks of the order types
  // ---------------------------------------------------------------------

  const RANKS: nat := 10
  const MARKET_ON_OPEN_RANK: nat := 8
  const MARKET_ON_CLOSE_RANK: nat := 9

  /** m_rankType */
  function RankType(r: nat): OrderType
    requires r < RANKS
  {
    if r == 0 then Market
    else if r == 1 then FillOrKill
    else if r == 2 then ImmediateOrCancel
    else if r == 3 then GoodAfterTime
    else if r == 4 then GoodForDay
    else if r == 5 then GoodTillDate
    else if r == 6 then AllOrNone
    else if r == 7 then GoodTillCancel
    else if r == 8 then MarketOnOpen
    else MarketOnClose
  }

  /** m_typeRank: every type has a buffer, and m_rankType inverts it. */
  function TypeRank(t: OrderType): (r: nat)
    ensures r < RANKS && RankType(r) == t
  {
    match t
    case Market => 0
    case FillOrKill => 1
    case ImmediateOrCancel => 2
    case GoodAfterTime => 3
    case GoodForDay => 4
    case GoodTillDate => 5
    case AllOrNone => 6
    case GoodTillCancel => 7
    case MarketOnOpen => 8
    case MarketOnClose => 9
  }

  /** The two tables are mutually inverse: the ranks 0..9 name the ten
      types once each. */
  lemma RankTypeInverse(r: nat)
    requires r < RANKS
    ensures TypeRank(RankType(r)) == r
  {
  }

  // ---------------------------------------------------------------------
  // OrderActionInfo and its ordering
  // ---------------------------------------------------------------------

  datatype ActionInfo = ActionInfo(orderID: OrderID, orderType: OrderType, action: Action)

  /** OrderActionInfo::operator< on the IDs: equal prices order by the time
      bits; otherwise the bid side puts the higher price first and the ask
      side the lower. Both IDs are meant to be on the same side. */
  predicate IdBefore(a: OrderID, b: OrderID)
  {
    var pa := DecodePrice(a);
    var pb := DecodePrice(b);
    if pa == pb then TimeBits(a) < TimeBits(b)
    else if DecodeSide(a) == Buy then pa > pb
    else pa < pb
  }

  /** On the IDs of one side the comparator is a strict total order, and two
      IDs are equivalent (neither before the other) exactly when equal, so
      a std::set of OrderActionInfo holds at most one entry per ID. */
  lemma IdBeforeOrder(a: OrderID, b: OrderID, c: OrderID)
    requires DecodeSide(a) == DecodeSide(b) == DecodeSide(c)
    ensures !IdBefore(a, a)
    ensures IdBefore(a, b) ==> !IdBefore(b, a)
    ensures IdBefore(a, b) && IdBefore(b, c) ==> IdBefore(a, c)
    ensures !IdBefore(a, b) && !IdBefore(b, a) <==> a == b
  {
    if !IdBefore(a, b) && !IdBefore(b, a) {
      IdFromFields(a, b);
    }
  }

  /** `x` comes first in `s`: the element a std::set iteration visits first. */
  predicate IsFirst(s: set<OrderID>, x: OrderID)
  {
    x in s && forall j | j in s && j != x :: IdBefore(x, j)
  }

  lemma EmptyIdsWhenNoMember(s: set<OrderID>)
    ensures (forall x :: x !in s) ==> s == {}
  {
    if forall x :: x !in s {
      assert s == {};
    }
  }

  /** A non-empty set of IDs of one side has a first element. */
  lemma {:induction false} FirstExists(s: set<OrderID>, side: Side)
    requires s != {}
    requires forall x | x in s :: DecodeSide(x) == side
    ensures exists x :: IsFirst(s, x)
    decreases |s|
  {
    EmptyIdsWhenNoMember(s);
    var y :| y in s;
    var rest := s - {y};
    if rest == {} {
      assert s == {y};
      assert IsFirst(s, y);
    } else {
      FirstExists(rest, side);
      var x :| IsFirst(rest, x);
      IdBeforeOrder(x, y, y);
      if IdBefore(x, y) {
        assert IsFirst(s, x);
      } else {
        forall j | j in s && j != y
          ensures IdBefore(y, j)
        {
          if j != x {
            IdBeforeOrder(y, x, j);
          }
        }
        assert IsFirst(s, y);
      }
    }
  }

  // ---------------------------------------------------------------------
  // The type-ranked buffers (m_laterProcessOrders)
  // ---------------------------------------------------------------------

  /** One std::set per rank; since equivalence on one side is ID equality,
      each is a map from ID to the entry held for it. */
  type Buffer = map<OrderID, ActionInfo>

  /** std::set::insert at the entry's rank: an entry whose ID is already
      held leaves the buffer as it is. */
  function Buffered(buffers: seq<Buffer>, info: ActionInfo): (r: seq<Buffer>)
    requires |buffers| == RANKS
    ensures |r| == RANKS
  {
    var k := TypeRank(info.orderType);
    if info.orderID in buffers[k] then buffers
    else
      var held: Buffer := buffers[k][info.orderID := info];
      buffers[k := held]
  }

  /** std::set::erase of the entry with this ID at rank `k`. */
  function Unbuffered(buffers: seq<Buffer>, k: nat, id: OrderID): (r: seq<Buffer>)
    requires |buffers| == RANKS && k < RANKS
    ensures |r| == RANKS
  {
    var held: Buffer := buffers[k] - {id};
    buffers[k := held]
  }

  /** Ten buffers; each entry sits under its own ID at its type's rank,
      is an add or a cancel, and has an ID that was seen. */
  predicate BuffersValid(buffers: seq<Buffer>, seen: set<OrderID>)
  {
    |buffers| == RANKS &&
    forall k, id | 0 <= k < |buffers| && id in buffers[k] ::
      id in seen && buffers[k][id].orderID == id &&
      TypeRank(buffers[k][id].orderType) == k && buffers[k][id].action != Modify
  }

  /** Buffering a seen add or cancel keeps the buffers valid. */
  lemma BufferedKeepsValid(buffers: seq<Buffer>, seen: set<OrderID>, info: ActionInfo)
    requires BuffersValid(buffers, seen) && info.orderID in seen && info.action != Modify
    ensures BuffersValid(Buffered(buffers, info), seen)
  {
  }

  /** Erasing only removes entries, so the buffers stay valid. */
  lemma UnbufferedKeepsValid(buffers: seq<Buffer>, seen: set<OrderID>, k: nat, id: OrderID)
    requires BuffersValid(buffers, seen) && k < RANKS
    ensures BuffersValid(Unbuffered(buffers, k, id), seen)
  {
  }

  /** The number of buffered entries over all ranks. */
  function BufferedCount(buffers: seq<Buffer>): nat
  {
    if |buffers| == 0 then 0
    else BufferedCount(buffers[..|buffers| - 1]) + |buffers[|buffers| - 1]|
  }

  lemma {:induction false} CountReplace(buffers: seq<Buffer>, k: nat, b: Buffer)
    requires k < |buffers|
    ensures BufferedCount(buffers[k := b]) + |buffers[k]| == BufferedCount(buffers) + |b|
    decreases |buffers|
  {
    var n := |buffers| - 1;
    var after := buffers[k := b];
    assert after[..n] == if k == n then buffers[..n] else buffers[..n][k := b];
    if k < n {
      CountReplace(buffers[..n], k, b);
    }
  }

  /** Buffering a new ID adds one to the count; an ID already held adds
      nothing. */
  lemma BufferedCounts(buffers: seq<Buffer>, info: ActionInfo)
    requires |buffers| == RANKS
    ensures BufferedCount(Buffered(buffers, info)) ==
      BufferedCount(buffers) + (if info.orderID in buffers[TypeRank(info.orderType)] then 0 else 1)
  {
    var k := TypeRank(info.orderType);
    if info.orderID !in buffers[k] {
      CountReplace(buffers, k, buffers[k][info.orderID := info]);
    }
  }

  /** Erasing a held ID takes one off the count; erasing an absent one
      changes nothing. */
  lemma UnbufferedCounts(buffers: seq<Buffer>, k: nat, id: OrderID)
    requires |buffers| == RANKS && k < RANKS
    ensures BufferedCount(Unbuffered(buffers, k, id)) ==
      BufferedCount(buffers) - (if id in buffers[k] then 1 else 0)
  {
    CountReplace(buffers, k, buffers[k] - {id});
  }

  // ---------------------------------------------------------------------
  // Quantity available to a conditional order
  // ---------------------------------------------------------------------

  /** What qtyAvailableForMatch sums: a buy order looks at the asks at or
      below its price, a sell order at the bids at or above it. */
  function Available(o: Order, bids: SideLevels, asks: SideLevels): int
  {
    if o.side == Buy then AsksAtMost(asks, o.price) else BidsAtLeast(bids, o.price)
  }

  /** The early-exit walk counts exactly the resting quantity the order
      crosses. */
  lemma AvailableCrossing(o: Order, bids: SideLevels, asks: SideLevels)
    ensures o.side == Buy ==> Available(o, bids, asks) == SumQuantities(AtMost(asks, o.price))
    ensures o.side == Sell ==> Available(o, bids, asks) == SumQuantities(AtLeast(bids, o.price))
  {
    if o.side == Buy {
      AsksAtMostSum(asks, o.price);
    } else {
      BidsAtLeastSum(bids, o.price);
    }
  }

  /** qtyAvailableForMatch: walk the opposite side from its best level and
      stop at the first level the order's price does not reach. */
  method QtyAvailableForMatch(o: Order, book: OrderBook) returns (q: int)
    ensures q == Available(o, book.bids, book.asks)
  {
    q := 0;
    if o.side == Buy {
      var rest := book.asks;
      while rest != map[]
        invariant q + AsksAtMost(rest, o.price) == AsksAtMost(book.asks, o.price)
        decreases |rest|
      {
        var askPrice := MinKey(rest);
        if askPrice > o.price {
          break;
        }
        q := q + rest[askPrice].quantity;
        rest := rest - {askPrice};
      }
    } else {
      var rest := book.bids;
      while rest != map[]
        invariant q + BidsAtLeast(rest, o.price) == BidsAtLeast(book.bids, o.price)
        decreases |rest|
      {
        var bidPrice := MaxKey(rest);
        if bidPrice < o.price {
          break;
        }
        q := q + rest[bidPrice].quantity;
        rest := rest - {bidPrice};
      }
    }
  }

  // ---------------------------------------------------------------------
  // The decision taken just before an order reaches the book
  // ---------------------------------------------------------------------

  /** canInsertOrderIntoOrderbook's answer, from the recorded orders, the
      book and the time. */
  function Admits(composition: map<OrderID, Order>, bids: SideLevels, asks: SideLevels,
                  id: OrderID, now: TimeStamp): bool
  {
    if id !in composition then false
    else
      var o := composition[id];
      match o.orderType
      case Market => true
      case GoodTillCancel => true
      case GoodAfterTime => now >= o.activateTime
      case GoodForDay => now < o.deactivateTime
      case GoodTillDate => now < o.deactivateTime
      case FillOrKill => Available(o, bids, asks) >= o.remaining
      case AllOrNone => Available(o, bids, asks) >= o.remaining
      case ImmediateOrCancel => true
      case MarketOnOpen => false
      case MarketOnClose => false
  }

  /** The refusals that also withdraw the order: an expired day or dated
      order, and a fill-or-kill order the book cannot fill now. */
  predicate Withdraws(composition: map<OrderID, Order>, bids: SideLevels, asks: SideLevels,
                      id: OrderID, now: TimeStamp)
  {
    id in composition &&
    var o := composition[id];
    match o.orderType
    case GoodForDay => now >= o.deactivateTime
    case GoodTillDate => now >= o.deactivateTime
    case FillOrKill => Available(o, bids, asks) < o.remaining
    case _ => false
  }

  /** A day order admitted while the market is open expires at the next
      close. */
  function Admitted(o: Order, clock: Clock): (r: Order)
    ensures r.orderID == o.orderID && r.orderType == o.orderType && r.remaining == o.remaining
    ensures o.orderType == GoodForDay ==> r.deactivateTime == clock.nextClose
    ensures o.orderType != GoodForDay ==> r == o
  {
    if o.orderType == GoodForDay then o.(deactivateTime := clock.nextClose) else o
  }

  /** An immediate-or-cancel order keeps only what the book can fill. */
  function Trimmed(o: Order, bids: SideLevels, asks: SideLevels): (r: Order)
    ensures r == o.(remaining := r.remaining) && r.remaining <= o.remaining
    ensures Available(o, bids, asks) >= 0 ==>
      r.remaining <= Available(o, bids, asks) &&
      (r.remaining == o.remaining || r.remaining == Available(o, bids, asks))
  {
    var avail := Available(o, bids, asks);
    o.(remaining := if avail < 0 then 0 else Min(avail, o.remaining))
  }

  /** A fill-or-kill or all-or-none order is admitted exactly when the
      quantity resting at prices it crosses covers it; a fill-or-kill order
      that is refused is always withdrawn, an all-or-none one never. */
  lemma AdmitsWholeFill(composition: map<OrderID, Order>, bids: SideLevels, asks: SideLevels,
                        id: OrderID, now: TimeStamp)
    requires id in composition
    requires composition[id].orderType == FillOrKill || composition[id].orderType == AllOrNone
    ensures var o := composition[id];
      var crossing := if o.side == Buy then AtMost(asks, o.price) else AtLeast(bids, o.price);
      Admits(composition, bids, asks, id, now) <==> SumQuantities(crossing) >= o.remaining
    ensures composition[id].orderType == FillOrKill ==>
      (Withdraws(composition, bids, asks, id, now) <==> !Admits(composition, bids, asks, id, now))
    ensures composition[id].orderType == AllOrNone ==> !Withdraws(composition, bids, asks, id, now)
  {
    AvailableCrossing(composition[id], bids, asks);
  }

  /** A day or dated order is admitted before its deactivation time and
      withdrawn from then on; a good-after-time order waits (is refused
      without being withdrawn) until its activation time. */
  lemma AdmitsTimed(composition: map<OrderID, Order>, bids: SideLevels, asks: SideLevels,
                    id: OrderID, now: TimeStamp)
    requires id in composition
    ensures var o := composition[id];
      (o.orderType == GoodForDay || o.orderType == GoodTillDate) ==>
        (Admits(composition, bids, asks, id, now) <==> now < o.deactivateTime) &&
        (Withdraws(composition, bids, asks, id, now) <==> !Admits(composition, bids, asks, id, now))
    ensures var o := composition[id];
      o.orderType == GoodAfterTime ==>
        (Admits(composition, bids, asks, id, now) <==> o.activateTime <= now) &&
        !Withdraws(composition, bids, asks, id, now)
  {
  }

  // ---------------------------------------------------------------------
  // Flush condition, book effects and cleared records
  // ---------------------------------------------------------------------

  /** The hybrid flush condition of TryFlush: enough entries buffered, or
      enough whole milliseconds since the last flush. */
  predicate Due(buffers: seq<Buffer>, last: TimeStamp, threshold: nat, duration: int, clock: Clock)
  {
    BufferedCount(buffers) >= threshold || ElapsedMillis(clock.now, last) >= duration
  }

  /** The sides of the book after OrderBook::AddOrder. */
  function AddedToBook(bids: SideLevels, asks: SideLevels, o: Order, symbol: string): (SideLevels, SideLevels)
    requires SideValid(bids) && SideValid(asks)
  {
    if o.symbol != symbol then (bids, asks)
    else
      var placed := Placed(bids, asks, o, symbol);
      var m := Match(placed.0, placed.1, symbol);
      (m.bids, m.asks)
  }

  /** The ID of this preprocessor's side in a trade. */
  function SideID(t: Trade, isBid: bool): OrderID
  {
    if isBid then t.bid.orderID else t.ask.orderID
  }

  function TradeIDs(trades: seq<Trade>, isBid: bool): set<OrderID>
  {
    if trades == [] then {} else {SideID(trades[0], isBid)} + TradeIDs(trades[1..], isBid)
  }

  /** The records ClearSeenOrdersWhenMatched drops: orders of this side
      that appear in a trade and have nothing left to fill. */
  function Cleared(trades: seq<Trade>, isBid: bool, composition: map<OrderID, Order>): set<OrderID>
  {
    set id | id in TradeIDs(trades, isBid) && id in composition && composition[id].remaining == 0
  }

  const DEFAULT_THRESHOLD: nat := 3
  const DEFAULT_DURATION_MS: int := 100

  // ---------------------------------------------------------------------
  // The preprocessor
  // ---------------------------------------------------------------------

  class PreProcessor {
    const isBid: bool
    /** The order book shared with the exchange. */
    const book: OrderBook
    /** MAX_PENDING_ORDERS_THRESHOLD */
    var threshold: nat
    /** MAX_PENDING_DURATION in milliseconds */
    var duration: int
    var lastFlushTime: TimeStamp
    /** m_laterProcessOrders, indexed by type rank */
    var buffers: seq<Buffer>
    /** m_orderComposition: the orders waiting to be added */
    var composition: map<OrderID, Order>
    /** m_processingOrderActInfo: the latest entry recorded per ID */
    var actInfo: map<OrderID, ActionInfo>
    /** m_encounteredOrders */
    var encountered: set<OrderID>

    function MySide(): Side
    {
      if isBid then Buy else Sell
    }

    /** Ten buffers; every ID seen is on this preprocessor's side; each
        entry sits under its own ID at its type's rank and is an add or a
        cancel; the records are keyed by their own IDs. */
    predicate Valid()
      reads this, book
    {
      book.Valid() && Consistent()
    }

    /** The part of Valid() about this preprocessor's own fields. */
    predicate Consistent()
      reads this
    {
      BuffersValid(buffers, encountered) &&
      (forall id | id in encountered :: DecodeSide(id) == MySide()) &&
      (forall id | id in actInfo :: actInfo[id].orderID == id) &&
      (forall id | id in composition :: composition[id].orderID == id)
    }

    /** What every operation keeps: validity, the IDs seen, the limits, the
        book's trade list, a closed market's book, and a flush time that
        only moves to the current time. */
    twostate predicate Steady(clock: Clock)
      reads this, book
    {
      Valid() &&
      old(encountered) <= encountered &&
      threshold == old(threshold) && duration == old(duration) &&
      book.trades == old(book.trades) &&
      (!clock.canTrade ==> book.bids == old(book.bids) && book.asks == old(book.asks)) &&
      (lastFlushTime == old(lastFlushTime) || lastFlushTime == clock.now)
    }

    /** Outside the closing minute the market-on-close buffer, and outside
        the opening minute the market-on-open buffer, are as they were;
        rank `k` is the one an operation may touch in any minute. */
    twostate predicate TimedBuffersKept(clock: Clock, k: nat)
      reads this
    {
      |old(buffers)| == RANKS && |buffers| == RANKS &&
      (k != MARKET_ON_CLOSE_RANK && NowMinute(clock) != clock.nextClose ==>
         buffers[MARKET_ON_CLOSE_RANK] == old(buffers[MARKET_ON_CLOSE_RANK])) &&
      (k != MARKET_ON_OPEN_RANK && NowMinute(clock) != clock.nextOpen ==>
         buffers[MARKET_ON_OPEN_RANK] == old(buffers[MARKET_ON_OPEN_RANK]))
    }

    /** The constructor with explicit limits; the flush clock starts at
        `now`. */
    constructor(book: OrderBook, isBid: bool, threshold: nat, duration: int, now: TimeStamp)
      requires book.Valid()
      ensures Valid() && this.book == book && this.isBid == isBid
      ensures this.threshold == threshold && this.duration == duration && lastFlushTime == now
      ensures buffers == seq(RANKS, _ => map[]) && composition == map[] && actInfo == map[] && encountered == {}
    {
      this.book := book;
      this.isBid := isBid;
      this.threshold := threshold;
      this.duration := duration;
      lastFlushTime := now;
      buffers := seq(RANKS, _ => map[]);
      composition := map[];
      actInfo := map[];
      encountered := {};
    }

    /** The constructor with the default limits: 3 orders, 100 ms. */
    constructor WithDefaults(book: OrderBook, isBid: bool, now: TimeStamp)
      requires book.Valid()
      ensures Valid() && this.book == book && this.isBid == isBid
      ensures threshold == DEFAULT_THRESHOLD && duration == DEFAULT_DURATION_MS && lastFlushTime == now
      ensures buffers == seq(RANKS, _ => map[]) && composition == map[] && actInfo == map[] && encountered == {}
    {
      this.book := book;
      this.isBid := isBid;
      threshold := DEFAULT_THRESHOLD;
      duration := DEFAULT_DURATION_MS;
      lastFlushTime := now;
      buffers := seq(RANKS, _ => map[]);
      composition := map[];
      actInfo := map[];
      encountered := {};
    }

    method SetMaxPendingOrdersThreshold(t: nat)
      modifies this
      ensures threshold == t && duration == old(duration) && lastFlushTime == old(lastFlushTime)
      ensures buffers == old(buffers) && composition == old(composition)
      ensures actInfo == old(actInfo) && encountered == old(encountered)
    {
      threshold := t;
    }

    method SetMaxPendingDuration(d: int)
      modifies this
      ensures duration == d && threshold == old(threshold) && lastFlushTime == old(lastFlushTime)
      ensures buffers == old(buffers) && composition == old(composition)
      ensures actInfo == old(actInfo) && encountered == old(encountered)
    {
      duration := d;
    }

    /** hasOrderEnteredOrderbook: an order counts as entered unless it is
        still buffered under the given type with both of its records. */
    function HasOrderEnteredOrderbook(id: OrderID, otype: OrderType): (r: bool)
      requires Valid()
      reads this, book
      ensures !r <==> id in composition && id in actInfo && id in buffers[TypeRank(otype)]
    {
      var k := TypeRank(otype);
      !(id in composition && id in actInfo && actInfo[id].orderID in buffers[k])
    }

    /** getBufferedOrderCount */
    method GetBufferedOrderCount() returns (total: nat)
      ensures total == BufferedCount(buffers)
    {
      total := 0;
      var i := 0;
      while i < |buffers|
        invariant 0 <= i <= |buffers|
        invariant total == BufferedCount(buffers[..i])
      {
        assert buffers[..i + 1][..i] == buffers[..i];
        total := total + |buffers[i]|;
        i := i + 1;
      }
      assert buffers[..i] == buffers;
    }

    /** InsertIntoPreprocessing: buffer the entry, record it, then try to
        flush. */
    method InsertIntoPreprocessing(info: ActionInfo, clock: Clock, fuel: nat)
      requires Valid() && DecodeSide(info.orderID) == MySide() && info.action != Modify
      modifies this, book
      ensures Steady(clock) && composition.Keys <= old(composition.Keys)
      ensures info.orderID in encountered
      ensures var recorded := Buffered(old(buffers), info);
        !(fuel > 0 && Due(recorded, old(lastFlushTime), threshold, duration, clock)) ==>
          buffers == recorded && actInfo == old(actInfo)[info.orderID := info] &&
          encountered == old(encountered) + {info.orderID} && composition == old(composition) &&
          lastFlushTime == old(lastFlushTime) && unchanged(book)
      ensures TimedBuffersKept(clock, TypeRank(info.orderType))
      decreases fuel, 1
    {
      BufferedKeepsValid(buffers, encountered + {info.orderID}, info);
      buffers := Buffered(buffers, info);
      encountered := encountered + {info.orderID};
      actInfo := actInfo[info.orderID := info];
      TryFlush(clock, fuel);
    }

    /** InsertAddOrderIntoPreprocessing: a missing order, an ID already
        waiting, or a day order while the market is closed is ignored;
        a day order is otherwise stamped to expire at the next close. */
    method InsertAddOrderIntoPreprocessing(order: Option<Order>, clock: Clock, fuel: nat)
      requires Valid()
      requires order.Some? ==> DecodeSide(order.value.orderID) == MySide()
      modifies this, book
      ensures Steady(clock)
      ensures order.Some? ==> composition.Keys <= old(composition.Keys) + {order.value.orderID}
      ensures order.None? ==> composition.Keys <= old(composition.Keys)
      ensures order.None? || order.value.orderID in old(composition) ||
              (order.value.orderType == GoodForDay && !clock.canTrade) ==>
        unchanged(this) && unchanged(book)
      ensures order.Some? && order.value.orderID !in old(composition) &&
              !(order.value.orderType == GoodForDay && !clock.canTrade) ==>
        var o := order.value;
        var info := ActionInfo(o.orderID, o.orderType, Add);
        var recorded := Buffered(old(buffers), info);
        o.orderID in encountered &&
        (!(fuel > 0 && Due(recorded, old(lastFlushTime), threshold, duration, clock)) ==>
           composition == old(composition)[o.orderID := Admitted(o, clock)] &&
           buffers == recorded && actInfo == old(actInfo)[o.orderID := info] &&
           encountered == old(encountered) + {o.orderID} &&
           lastFlushTime == old(lastFlushTime) && unchanged(book))
      decreases fuel, 2
    {
      if order.None? {
        return;
      }
      var o := order.value;
      if o.orderID in composition {
        return;
      }
      if o.orderType == GoodForDay {
        if !clock.canTrade {
          return;
        }
        o := o.(deactivateTime := clock.nextClose);
      }
      composition := composition[o.orderID := o];
      InsertIntoPreprocessing(ActionInfo(o.orderID, o.orderType, Add), clock, fuel);
    }

    /** InsertCancelOrderIntoPreProcessing */
    method InsertCancelOrderIntoPreProcessing(id: OrderID, otype: OrderType, clock: Clock, fuel: nat)
      requires Valid() && DecodeSide(id) == MySide()
      modifies this, book
      ensures Steady(clock) && composition.Keys <= old(composition.Keys)
      ensures id in encountered
      ensures var cancel := ActionInfo(id, otype, Cancel);
        var recorded := Buffered(old(buffers), cancel);
        !(fuel > 0 && Due(recorded, old(lastFlushTime), threshold, duration, clock)) ==>
          buffers == recorded && actInfo == old(actInfo)[id := cancel] &&
          encountered == old(encountered) + {id} && composition == old(composition) &&
          lastFlushTime == old(lastFlushTime) && unchanged(book)
      ensures TimedBuffersKept(clock, TypeRank(otype))
      decreases fuel, 2
    {
      InsertIntoPreprocessing(ActionInfo(id, otype, Cancel), clock, fuel);
    }

    /** RemoveFromPreprocessing: an unseen ID is ignored; an order that has
        entered the book gets a cancel entry; one still waiting loses its
        records and its buffer entry. Either way a flush is tried. */
    method RemoveFromPreprocessing(id: OrderID, otype: OrderType, clock: Clock, fuel: nat)
      requires Valid()
      modifies this, book
      ensures Steady(clock) && composition.Keys <= old(composition.Keys)
      ensures id !in old(encountered) ==> unchanged(this) && unchanged(book)
      ensures id in old(encountered) && !old(HasOrderEnteredOrderbook(id, otype)) ==> id !in composition
      ensures id in old(encountered) && old(HasOrderEnteredOrderbook(id, otype)) ==>
        var cancel := ActionInfo(id, otype, Cancel);
        var recorded := Buffered(old(buffers), cancel);
        !(fuel > 0 && Due(recorded, old(lastFlushTime), threshold, duration, clock)) ==>
          buffers == recorded && actInfo == old(actInfo)[id := cancel] &&
          encountered == old(encountered) && composition == old(composition) &&
          lastFlushTime == old(lastFlushTime) && unchanged(book)
      ensures id in old(encountered) && !old(HasOrderEnteredOrderbook(id, otype)) ==>
        var rest := Unbuffered(old(buffers), TypeRank(otype), id);
        !(fuel > 0 && Due(rest, old(lastFlushTime), threshold, duration, clock)) ==>
          buffers == rest && actInfo == old(actInfo) - {id} &&
          encountered == old(encountered) && composition == old(composition) - {id} &&
          lastFlushTime == old(lastFlushTime) && unchanged(book)
      ensures TimedBuffersKept(clock, TypeRank(otype))
      decreases fuel, 3
    {
      if id !in encountered {
        return;
      }
      if HasOrderEnteredOrderbook(id, otype) {
        InsertCancelOrderIntoPreProcessing(id, otype, clock, fuel);
        TryFlush(clock, fuel);
        return;
      }
      if id in composition {
        composition := composition - {id};
      }
      var held: Option<ActionInfo> := None;
      if id in actInfo {
        held := Some(actInfo[id]);
        actInfo := actInfo - {id};
      }
      var k := TypeRank(otype);
      if held.Some? && held.value.orderID in buffers[k] {
        UnbufferedKeepsValid(buffers, encountered, k, held.value.orderID);
        buffers := Unbuffered(buffers, k, held.value.orderID);
      }
      TryFlush(clock, fuel);
    }

    /** ModifyInPreprocessing: remove the old ID, then add the new order. */
    method ModifyInPreprocessing(oldID: OrderID, order: Order, clock: Clock, fuel: nat)
      requires Valid() && DecodeSide(order.orderID) == MySide()
      modifies this, book
      ensures Steady(clock)
      ensures oldID in old(encountered) && !old(HasOrderEnteredOrderbook(oldID, order.orderType)) &&
              oldID != order.orderID ==>
        oldID !in composition
      ensures order.orderID !in old(composition) && !(order.orderType == GoodForDay && !clock.canTrade) ==>
        order.orderID in encountered
      decreases fuel, 4
    {
      RemoveFromPreprocessing(oldID, order.orderType, clock, fuel);
      InsertAddOrderIntoPreprocessing(Some(order), clock, fuel);
    }

    /** TryFlush: flush when the buffers hold at least the threshold or the
        duration has passed since the last flush. */
    method TryFlush(clock: Clock, fuel: nat)
      requires Valid()
      modifies this, book
      ensures Steady(clock) && composition.Keys <= old(composition.Keys)
      ensures !(fuel > 0 && old(Due(buffers, lastFlushTime, threshold, duration, clock))) ==>
        unchanged(this) && unchanged(book)
      ensures fuel > 0 && old(Due(buffers, lastFlushTime, threshold, duration, clock)) ==>
        lastFlushTime == clock.now
      ensures TimedBuffersKept(clock, RANKS)
      decreases fuel, 0
    {
      var count := GetBufferedOrderCount();
      var elapsed := ElapsedMillis(clock.now, lastFlushTime);
      if (count >= threshold || elapsed >= duration) && fuel > 0 {
        QueueOrdersForInsertion(clock, fuel - 1);
        lastFlushTime := clock.now;
      }
    }

    /** QueueOrdersForInsertion: at the closing minute the market-on-close
        buffer, at the opening minute the market-on-open buffer, then
        ranks 0 to 7 in order. */
    method QueueOrdersForInsertion(clock: Clock, fuel: nat)
      requires Valid()
      modifies this, book
      ensures Steady(clock) && composition.Keys <= old(composition.Keys)
      ensures NowMinute(clock) != clock.nextClose ==>
        buffers[TypeRank(MarketOnClose)] == old(buffers[TypeRank(MarketOnClose)])
      ensures NowMinute(clock) != clock.nextOpen ==>
        buffers[TypeRank(MarketOnOpen)] == old(buffers[TypeRank(MarketOnOpen)])
      decreases fuel, 6
    {
      var nowMinute := NowMinute(clock);
      if nowMinute == clock.nextClose {
        EmptyTypeRankedOrders(MARKET_ON_CLOSE_RANK, clock, fuel);
      }
      if nowMinute == clock.nextOpen {
        EmptyTypeRankedOrders(MARKET_ON_OPEN_RANK, clock, fuel);
      }
      var i := 0;
      while i + 2 < |buffers|
        invariant Steady(clock) && composition.Keys <= old(composition.Keys)
        invariant TimedBuffersKept(clock, RANKS)
        invariant i <= RANKS - 2
        decreases RANKS - i
      {
        EmptyTypeRankedOrders(i, clock, fuel);
        i := i + 1;
      }
    }

    /** EmptyTypeRankedOrders: walk a copy of one buffer in comparator
        order; an add that canInsertOrderIntoOrderbook refuses stays
        behind, everything else is forwarded to the book. */
    method EmptyTypeRankedOrders(k: nat, clock: Clock, fuel: nat)
      requires Valid() && k < RANKS
      modifies this, book
      ensures Steady(clock) && composition.Keys <= old(composition.Keys)
      ensures TimedBuffersKept(clock, k)
      decreases fuel, 5
    {
      var pending := buffers[k];
      while pending != map[]
        invariant Steady(clock) && composition.Keys <= old(composition.Keys)
        invariant TimedBuffersKept(clock, k)
        invariant forall id | id in pending ::
          DecodeSide(id) == MySide() && pending[id].orderID == id && pending[id].action != Modify &&
          TypeRank(pending[id].orderType) == k
        decreases |pending|
      {
        FirstExists(pending.Keys, MySide());
        var id :| IsFirst(pending.Keys, id);
        var info := pending[id];
        pending := pending - {id};
        if info.action == Add {
          var admitted := CanInsertOrderIntoOrderbook(info.orderID, clock, fuel);
          if !admitted {
            continue;
          }
        }
        EmptyOrderIntoOrderbook(info, clock);
      }
    }

    /** EmptyOrderIntoOrderbook: nothing while the market is closed;
        otherwise a recorded add goes to AddOrder and anything else to
        CancelOrder, the entry leaves its buffer and fully filled orders
        are forgotten. */
    method EmptyOrderIntoOrderbook(info: ActionInfo, clock: Clock)
      requires Valid() && info.action != Modify
      modifies this, book
      ensures Steady(clock) && composition.Keys <= old(composition.Keys)
      ensures !clock.canTrade ==> unchanged(this) && unchanged(book)
      ensures clock.canTrade ==>
        (book.bids, book.asks) ==
          (if info.action == Add && info.orderID in old(composition)
           then AddedToBook(old(book.bids), old(book.asks), old(composition[info.orderID]), book.symbol)
           else Cancelled(old(book.bids), old(book.asks), info.orderID)) &&
        buffers == Unbuffered(old(buffers), TypeRank(info.orderType), info.orderID) &&
        composition == old(composition) - Cleared(book.trades, isBid, old(composition)) &&
        actInfo == old(actInfo) - Cleared(book.trades, isBid, old(composition)) &&
        encountered == old(encountered) && lastFlushTime == old(lastFlushTime)
      ensures TimedBuffersKept(clock, TypeRank(info.orderType))
    {
      if !clock.canTrade {
        return;
      }
      if info.action == Add && info.orderID in composition {
        var _ := book.AddOrder(composition[info.orderID]);
      } else {
        var _ := book.CancelOrder(info.orderID);
      }
      UnbufferedKeepsValid(buffers, encountered, TypeRank(info.orderType), info.orderID);
      buffers := Unbuffered(buffers, TypeRank(info.orderType), info.orderID);
      ClearSeenOrdersWhenMatched();
    }

    /** ClearSeenOrdersWhenMatched: walk the book's trades from the latest
        and forget every order of this side that has nothing left. */
    method ClearSeenOrdersWhenMatched()
      requires Valid()
      modifies this
      ensures Valid()
      ensures composition == old(composition) - Cleared(book.trades, isBid, old(composition))
      ensures actInfo == old(actInfo) - Cleared(book.trades, isBid, old(composition))
      ensures buffers == old(buffers) && encountered == old(encountered)
      ensures lastFlushTime == old(lastFlushTime) && threshold == old(threshold) && duration == old(duration)
    {
      composition, actInfo := ClearSeen(book.trades, isBid, composition, actInfo);
    }

    /** The walk of ClearSeenOrdersWhenMatched over the two records. Erasing
        an order never makes another one qualify, so the walk drops exactly
        the cleared set whatever the order of the trades. */
    static method ClearSeen(trades: seq<Trade>, isBid: bool, composition: map<OrderID, Order>,
                            actInfo: map<OrderID, ActionInfo>)
      returns (comp: map<OrderID, Order>, act: map<OrderID, ActionInfo>)
      ensures comp == composition - Cleared(trades, isBid, composition)
      ensures act == actInfo - Cleared(trades, isBid, composition)
    {
      comp, act := composition, actInfo;
      var i := |trades|;
      while i > 0
        invariant 0 <= i <= |trades|
        invariant comp == composition - Cleared(trades[i..], isBid, composition)
        invariant act == actInfo - Cleared(trades[i..], isBid, composition)
      {
        i := i - 1;
        assert trades[i..][1..] == trades[i + 1..];
        var id := SideID(trades[i], isBid);
        if id in comp && comp[id].remaining == 0 {
          if id in act {
            act := act - {id};
          }
          comp := comp - {id};
        }
      }
      assert trades[0..] == trades;
    }

    /** canInsertOrderIntoOrderbook: decide whether a waiting add may go to
        the book now. Expired day and dated orders and unfillable
        fill-or-kill orders are withdrawn; an immediate-or-cancel order is
        cut down to what the book can fill. */
    method CanInsertOrderIntoOrderbook(id: OrderID, clock: Clock, fuel: nat) returns (r: bool)
      requires Valid()
      modifies this, book
      ensures Steady(clock) && composition.Keys <= old(composition.Keys)
      ensures r == Admits(old(composition), old(book.bids), old(book.asks), id, clock.now)
      ensures old(Withdraws(composition, book.bids, book.asks, id, clock.now) &&
                  !HasOrderEnteredOrderbook(id, composition[id].orderType)) ==>
        id !in composition
      ensures old(Withdraws(composition, book.bids, book.asks, id, clock.now) && id in encountered &&
                  HasOrderEnteredOrderbook(id, composition[id].orderType)) ==>
        var cancel := ActionInfo(id, old(composition[id].orderType), Cancel);
        var recorded := Buffered(old(buffers), cancel);
        !(fuel > 0 && Due(recorded, old(lastFlushTime), threshold, duration, clock)) ==>
          buffers == recorded && actInfo == old(actInfo)[id := cancel] &&
          composition == old(composition) && unchanged(book)
      ensures id in old(composition) && old(composition[id].orderType) == ImmediateOrCancel ==>
        composition == old(composition)[id := Trimmed(old(composition[id]), old(book.bids), old(book.asks))] &&
        buffers == old(buffers) && actInfo == old(actInfo) && encountered == old(encountered) &&
        lastFlushTime == old(lastFlushTime) && unchanged(book)
      ensures !old(Withdraws(composition, book.bids, book.asks, id, clock.now)) &&
              !(id in old(composition) && old(composition[id].orderType) == ImmediateOrCancel) ==>
        unchanged(this) && unchanged(book)
      ensures TimedBuffersKept(clock, RANKS)
      decreases fuel, 4
    {
      if id !in composition {
        return false;
      }
      var o := composition[id];
      var otype := o.orderType;
      if otype == Market || otype == GoodTillCancel {
        return true;
      }
      if otype == GoodAfterTime {
        return clock.now >= o.activateTime;
      }
      if otype == GoodForDay || otype == GoodTillDate {
        if clock.now < o.deactivateTime {
          return true;
        }
        RemoveFromPreprocessing(o.orderID, otype, clock, fuel);
        return false;
      }
      var available := QtyAvailableForMatch(o, book);
      if otype == FillOrKill || otype == AllOrNone {
        if available >= o.remaining {
          return true;
        }
        if otype == FillOrKill {
          RemoveFromPreprocessing(o.orderID, otype, clock, fuel);
        }
        return false;
      }
      if otype == ImmediateOrCancel {
        composition := composition[id := Trimmed(o, book.bids, book.asks)];
        return true;
      }
      return false;
    }
  }
}
