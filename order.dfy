/** Orders of the matching engine (src/Order.cpp): the bit-packed OrderID,
    the constructor defaults, the copy constructor, the price-time
    comparator, operator== and partial fills.

    An OrderID is a 64-bit unsigned word, modelled as an integer in
    [0, 2^64); the word's bitwise OR is written out as BitOr on naturals. */
module Orders {
  import opened Wrappers
  import opened Enums

  const TWO_31: int := 0x8000_0000
  const TWO_32: int := 0x1_0000_0000
  const TWO_64: int := 0x1_0000_0000_0000_0000

  /** std::uint64_t */
  type Word = x: int | 0 <= x < TWO_64

  type OrderID = Word

  /** Prices are integer cents (Price is std::int32_t). */
  type Price = int

  /** Nanoseconds since the epoch (system_clock::time_point). */
  type TimeStamp = int

  /** Quantities are unsigned. */
  type Quantity = nat

  type ParticipantID = string

  // ---------------------------------------------------------------------
  // Bit arithmetic on unsigned words
  // ---------------------------------------------------------------------

  function Pow2(k: nat): (r: nat)
    ensures r > 0
  {
    if k == 0 then 1 else 2 * Pow2(k - 1)
  }

  /** Bitwise OR of two naturals, one binary digit at a time. */
  function BitOr(a: nat, b: nat): nat
    decreases a + b
  {
    if a == 0 then b
    else if b == 0 then a
    else 2 * BitOr(a / 2, b / 2) + (if a % 2 == 1 || b % 2 == 1 then 1 else 0)
  }

  lemma {:induction false} PowAdd(j: nat, k: nat)
    ensures Pow2(j + k) == Pow2(j) * Pow2(k)
  {
    if k > 0 {
      PowAdd(j, k - 1);
    }
  }

  lemma Pow32()
    ensures Pow2(32) == TWO_32
  {
    assert Pow2(8) == 256;
    assert Pow2(16) == 65536;
    assert Pow2(24) == 16777216;
  }

  lemma Pow64()
    ensures Pow2(64) == TWO_64
  {
    Pow32();
    PowAdd(32, 32);
  }

  /** OR-ing two words gives a word: no bit above the operands' is set. */
  lemma {:induction false} BitOrBound(a: nat, b: nat, k: nat)
    requires a < Pow2(k) && b < Pow2(k)
    ensures BitOr(a, b) < Pow2(k)
  {
    if a != 0 && b != 0 {
      BitOrBound(a / 2, b / 2, k - 1);
    }
  }

  /** When b occupies only the k low bits and a is shifted above them, the
      OR is a sum. */
  lemma {:induction false} BitOrDisjoint(a: nat, b: nat, k: nat)
    requires b < Pow2(k)
    ensures BitOr(a * Pow2(k), b) == a * Pow2(k) + b
  {
    if a != 0 && b != 0 {
      var h := Pow2(k - 1);
      assert a * Pow2(k) == 2 * (a * h);
      assert (a * Pow2(k)) / 2 == a * h;
      assert (a * Pow2(k)) % 2 == 0;
      BitOrDisjoint(a, b / 2, k - 1);
    }
  }

  // ---------------------------------------------------------------------
  // encodeOrderID and the decoders
  // ---------------------------------------------------------------------

  /** static_cast<OrderID>(timestamp) << 32: the low 32 bits of the
      timestamp land in bits 32-63. */
  function TimePart(time: TimeStamp): (r: nat)
    ensures r < TWO_64
  {
    (time % TWO_32) * TWO_32
  }

  /** static_cast<OrderID>(intPrice) << 1: the price is sign-extended to 64
      bits and shifted out of bit 0. */
  function PricePart(intPrice: Price): (r: nat)
    ensures r < TWO_64
  {
    ((intPrice % TWO_64) * 2) % TWO_64
  }

  /** Order::encodeOrderID: time bits | price bits | side bit. */
  function EncodeOrderID(time: TimeStamp, intPrice: Price, isBid: bool): OrderID
  {
    var high := BitOr(TimePart(time), PricePart(intPrice));
    Pow64();
    BitOrBound(TimePart(time), PricePart(intPrice), 64);
    BitOrBound(high, if isBid then 1 else 0, 64);
    BitOr(high, if isBid then 1 else 0)
  }

  /** decodeSideFromOrderID: bit 0 set means Buy. */
  function DecodeSide(orderID: OrderID): Side
  {
    if orderID % 2 == 1 then Buy else Sell
  }

  /** decodePriceFromOrderID: bits 1-31. */
  function DecodePrice(orderID: OrderID): (p: Price)
    ensures 0 <= p < TWO_31
  {
    (orderID / 2) % TWO_31
  }

  /** orderID >> 32: the timestamp bits, as OrderActionInfo compares them. */
  function TimeBits(orderID: OrderID): (t: int)
    ensures 0 <= t < TWO_32
  {
    orderID / TWO_32
  }

  /** For a price that fits in 31 bits the three fields do not overlap, so
      the OR is the sum time·2^32 + price·2 + side. */
  lemma EncodeFields(time: TimeStamp, p: Price, isBid: bool)
    requires 0 <= p < TWO_31
    ensures EncodeOrderID(time, p, isBid) == (time % TWO_32) * TWO_32 + 2 * p + (if isBid then 1 else 0)
  {
    var t := time % TWO_32;
    var bit := if isBid then 1 else 0;
    var high := BitOr(TimePart(time), PricePart(p));
    assert PricePart(p) == 2 * p;
    assert high == t * TWO_32 + 2 * p by {
      Pow32();
      BitOrDisjoint(t, 2 * p, 32);
    }
    assert BitOr(high, bit) == high + bit by {
      if isBid {
        assert high == (t * 0x8000_0000 + p) * 2;
        BitOrDisjoint(t * 0x8000_0000 + p, 1, 1);
      }
    }
  }

  lemma DecodeFields(t: nat, p: nat, bit: nat)
    requires t < TWO_32 && p < TWO_31 && bit < 2
    ensures t * TWO_32 + 2 * p + bit < TWO_64
    ensures DecodePrice(t * TWO_32 + 2 * p + bit) == p
    ensures TimeBits(t * TWO_32 + 2 * p + bit) == t
    ensures (t * TWO_32 + 2 * p + bit) % 2 == bit
  {
    var id := t * TWO_32 + 2 * p + bit;
    assert id / 2 == t * 0x8000_0000 + p;
  }

  /** The decoders invert encodeOrderID for every price in [0, 2^31). */
  lemma DecodeEncode(time: TimeStamp, p: Price, isBid: bool)
    requires 0 <= p < TWO_31
    ensures DecodeSide(EncodeOrderID(time, p, isBid)) == (if isBid then Buy else Sell)
    ensures DecodePrice(EncodeOrderID(time, p, isBid)) == p
    ensures TimeBits(EncodeOrderID(time, p, isBid)) == time % TWO_32
  {
    EncodeFields(time, p, isBid);
    DecodeFields(time % TWO_32, p, if isBid then 1 else 0);
  }

  /** Side, price and time bits together determine the whole ID, so two IDs
      that the preprocessor's comparator finds equivalent are equal. */
  lemma IdFromFields(a: OrderID, b: OrderID)
    requires DecodeSide(a) == DecodeSide(b)
    requires DecodePrice(a) == DecodePrice(b) && TimeBits(a) == TimeBits(b)
    ensures a == b
  {
  }

  // ---------------------------------------------------------------------
  // The Order entity
  // ---------------------------------------------------------------------

  datatype Order = Order(
    symbol: string,
    orderType: OrderType,
    side: Side,
    price: Price,
    remaining: Quantity,
    participantID: ParticipantID,
    timestamp: TimeStamp,
    orderID: OrderID,
    activateTime: TimeStamp,
    deactivateTime: TimeStamp,
    status: OrderStatus)

  /** The constructor: the creation time `now` stamps the order and derives
      its ID; an absent (empty-string) activation defaults to the creation
      time and an absent deactivation to `endOfTime`. */
  function NewOrder(symbol: string, orderType: OrderType, side: Side, price: Price,
                    quantity: Quantity, participantID: ParticipantID,
                    activation: Option<TimeStamp>, deactivation: Option<TimeStamp>,
                    now: TimeStamp, endOfTime: TimeStamp): (o: Order)
    ensures DecodeSide(o.orderID) == side
    ensures 0 <= price < TWO_31 ==> DecodePrice(o.orderID) == price && TimeBits(o.orderID) == now % TWO_32
    ensures o.activateTime == activation.GetOr(now)
    ensures o.deactivateTime == deactivation.GetOr(endOfTime)
    ensures o.remaining == quantity && o.price == price && o.timestamp == now
    ensures o.participantID == participantID && o.status == Unset
  {
    var id := EncodeOrderID(now, price, side == Buy);
    assert DecodeSide(id) == side by {
      SideBit(now, price, side == Buy);
    }
    if 0 <= price < TWO_31 then
      DecodeEncode(now, price, side == Buy);
      Order(symbol, orderType, side, price, quantity, participantID, now, id,
            activation.GetOr(now), deactivation.GetOr(endOfTime), Unset)
    else
      Order(symbol, orderType, side, price, quantity, participantID, now, id,
            activation.GetOr(now), deactivation.GetOr(endOfTime), Unset)
  }

  /** Bit 0 of an ID is the side flag whatever the price: the price part is
      shifted left and the time part by 32. */
  lemma SideBit(time: TimeStamp, intPrice: Price, isBid: bool)
    ensures DecodeSide(EncodeOrderID(time, intPrice, isBid)) == (if isBid then Buy else Sell)
  {
    var high := BitOr(TimePart(time), PricePart(intPrice));
    assert TimePart(time) % 2 == 0;
    assert PricePart(intPrice) % 2 == 0;
    EvenOr(TimePart(time), PricePart(intPrice));
    if isBid {
      BitOrDisjoint(high / 2, 1, 1);
    }
  }

  lemma EvenOr(a: nat, b: nat)
    requires a % 2 == 0 && b % 2 == 0
    ensures BitOr(a, b) % 2 == 0
  {
  }

  /** The copy constructor keeps symbol, type, side, price, remaining
      quantity, ID and both times; the timestamp is left at the epoch, the
      participant ID empty and the status unassigned. */
  function CopyOrder(o: Order): (c: Order)
    ensures c.symbol == o.symbol && c.orderType == o.orderType && c.side == o.side
    ensures c.price == o.price && c.remaining == o.remaining && c.orderID == o.orderID
    ensures c.activateTime == o.activateTime && c.deactivateTime == o.deactivateTime
    ensures c.timestamp == 0 && c.participantID == "" && c.status == Unset
  {
    Order(o.symbol, o.orderType, o.side, o.price, o.remaining, "", 0, o.orderID,
          o.activateTime, o.deactivateTime, Unset)
  }

  /** operator<: price-time priority. */
  predicate Less(a: Order, b: Order)
  {
    if a.side == b.side && a.side == Buy && a.price != b.price then a.price > b.price
    else if a.side == b.side && a.side == Sell && a.price != b.price then a.price < b.price
    else if a.timestamp != b.timestamp then a.timestamp < b.timestamp
    else a.remaining > b.remaining
  }

  /** operator==: every field except participant ID and status. */
  predicate Equal(a: Order, b: Order)
  {
    a.symbol == b.symbol && a.orderType == b.orderType && a.side == b.side &&
    a.price == b.price && a.remaining == b.remaining && a.timestamp == b.timestamp &&
    a.orderID == b.orderID && a.activateTime == b.activateTime &&
    a.deactivateTime == b.deactivateTime
  }

  /** A priority key: better price first (higher for Buy, lower for Sell),
      then earlier time, then larger remaining quantity. */
  datatype PriorityKey = PriorityKey(price: int, time: int, quantity: int)

  function Key(o: Order): PriorityKey
  {
    PriorityKey(if o.side == Buy then -o.price else o.price, o.timestamp, 0 - (o.remaining as int))
  }

  predicate KeyLess(x: PriorityKey, y: PriorityKey)
  {
    x.price < y.price ||
    (x.price == y.price && (x.time < y.time || (x.time == y.time && x.quantity < y.quantity)))
  }

  /** Between orders of one side, operator< is exactly the lexicographic
      order of the priority keys. */
  lemma LessIsKeyOrder(a: Order, b: Order)
    requires a.side == b.side
    ensures Less(a, b) <==> KeyLess(Key(a), Key(b))
  {
  }

  /** operator< is irreflexive for any orders, and among orders of one side
      it is a strict weak order: transitive, with transitive
      incomparability. */
  lemma LessStrictWeakOrder(a: Order, b: Order, c: Order)
    requires a.side == b.side == c.side
    ensures !Less(a, a)
    ensures Less(a, b) && Less(b, c) ==> Less(a, c)
    ensures !Less(a, b) && !Less(b, a) && !Less(b, c) && !Less(c, b) ==> !Less(a, c) && !Less(c, a)
  {
    LessIsKeyOrder(a, b);
    LessIsKeyOrder(b, c);
    LessIsKeyOrder(a, c);
    LessIsKeyOrder(b, a);
    LessIsKeyOrder(c, b);
    LessIsKeyOrder(c, a);
  }

  /** operator== and operator< agree: equal orders are incomparable. */
  lemma EqualIncomparable(a: Order, b: Order)
    requires Equal(a, b)
    ensures !Less(a, b) && !Less(b, a)
  {
  }

  /** A copy equals its original under operator== exactly when the
      original's timestamp is the epoch. */
  lemma CopyEqual(o: Order)
    ensures Equal(CopyOrder(o), o) <==> o.timestamp == 0
  {
  }

  /** FillPartially: asserts q <= remaining and lowers the remaining quantity
      by exactly q; nothing else changes. */
  function FillPartially(o: Order, q: Quantity): (r: Order)
    requires q <= o.remaining
    ensures r.remaining + q == o.remaining
    ensures r == o.(remaining := r.remaining)
  {
    o.(remaining := o.remaining - q)
  }

  predicate IsFullyFilled(o: Order)
  {
    o.remaining == 0
  }

  /** A fill leaves the order fully filled exactly when it takes everything
      that remained. */
  lemma FillCompletes(o: Order, q: Quantity)
    requires q <= o.remaining
    ensures IsFullyFilled(FillPartially(o, q)) <==> q == o.remaining
  {
  }
}
