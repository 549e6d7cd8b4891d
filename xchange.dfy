/** The exchange (src/Xchange.cpp): the singleton, the registry of
    participants keyed by government ID, the traded symbols with their
    book and two preprocessors, and the unified placeOrder entry point. */
module Exchange {
  import opened Wrappers
  import opened Enums
  import opened Text
  import opened Orders
  import opened OrderBooks
  import opened PreProcessing
  import opened Participants
  import opened Placements

  /** tradingHoursGMT: opening and closing time of each supported market,
      in minutes after midnight GMT. */
  const TRADING_HOURS_GMT: map<string, (int, int)> := map[
    "Australia/Sydney" := (0, 360),
    "Asia/Kolkata" := (225, 600),
    "America/Sao_Paulo" := (780, 1230),
    "Europe/Paris" := (480, 990),
    "Europe/Berlin" := (420, 1140),
    "Asia/Hong_Kong" := (90, 480),
    "Africa/Johannesburg" := (420, 900),
    "Asia/Seoul" := (0, 390),
    "Europe/London" := (480, 990),
    "America/New_York" := (870, 1260),
    "Asia/Shanghai" := (90, 420),
    "Europe/Zurich" := (480, 990),
    "Asia/Tokyo" := (0, 360),
    "America/Toronto" := (870, 1260)]

  const DEFAULT_TIME_ZONE: string := "Asia/Kolkata"

  /** static_cast<std::size_t> of an int: negative values wrap. */
  function SizeT(n: int): (r: nat)
    ensures r < TWO_64
    ensures 0 <= n < TWO_64 ==> r == n
    ensures -TWO_64 <= n < 0 ==> r == n + TWO_64
  {
    n % TWO_64
  }

  /** What the exchange throws, and the failing assert of
      recordNonCancelOrder. */
  datatype Failure =
    | OutOfRange         // std::unordered_map::at on a missing key
    | LogicError         // a modify or cancel that alters side, type or symbol
    | BadOptionalAccess  // std::optional::value on an empty optional
    | AssertionFailure   // assert(action != Cancel)

  /** What placeOrder answers once its guards pass, given the order it
      builds (`placement`) and whether the symbol is traded: a complete
      cancel fails recordNonCancelOrder's assert; otherwise an untraded
      symbol throws at `.at`; a complete add on a traded symbol returns the
      new order's ID; a cancel never returns an ID, and any ID returned is
      the new order's. */
  predicate Answer(r: Result<Option<OrderID>, Failure>, action: Action, placement: Option<Order>, traded: bool)
  {
    (placement.Some? && action == Cancel ==> r == Err(AssertionFailure)) &&
    (!traded && !(placement.Some? && action == Cancel) ==> r == Err(OutOfRange)) &&
    (placement.Some? && action == Add && traded ==> r == Ok(Some(placement.value.orderID))) &&
    (action == Cancel && r.Ok? ==> r.value.None?) &&
    (r.Ok? && r.value.Some? ==> action != Cancel && placement.Some? && r.value.value == placement.value.orderID)
  }

  // ---------------------------------------------------------------------
  // Participant IDs
  // ---------------------------------------------------------------------

  /** The ID generateParticipantID builds for a new government ID. */
  function FreshParticipantID(count: nat, govID: string): ParticipantID
  {
    NatToString(count) + "_" + govID
  }

  /** The characters after the last '_' (all of them when there is none):
      what removeParticipant's reverse scan collects. */
  function AfterLastUnderscore(s: string): (r: string)
    ensures |r| <= |s| && r == s[|s| - |r|..]
    ensures '_' !in r
    ensures |r| < |s| ==> s[|s| - |r| - 1] == '_'
  {
    if s == [] then []
    else if s[|s| - 1] == '_' then []
    else AfterLastUnderscore(s[..|s| - 1]) + [s[|s| - 1]]
  }

  /** The position of the first '_', if any. */
  function FirstUnderscore(s: string): (r: Option<nat>)
    ensures r.None? <==> '_' !in s
    ensures r.Some? ==> r.value < |s| && s[r.value] == '_' && '_' !in s[..r.value]
  {
    if s == [] then None
    else if s[0] == '_' then Some(0)
    else
      var rest := FirstUnderscore(s[1..]);
      assert s[1..] == s[..][1..];
      if rest.None? then None
      else
        assert s[..rest.value + 1] == [s[0]] + s[1..][..rest.value];
        Some(rest.value + 1)
  }

  /** The government ID inside a participant ID: everything after the
      first '_', the separator generateParticipantID puts after the
      count. */
  function GovIDOf(pid: ParticipantID): string
  {
    match FirstUnderscore(pid)
    case None => pid
    case Some(i) => pid[i + 1..]
  }

  /** The government ID is recovered from every generated participant ID,
      whatever characters it holds. */
  lemma GovIDRecovered(count: nat, govID: string)
    ensures GovIDOf(FreshParticipantID(count, govID)) == govID
  {
    var digits := NatToString(count);
    var pid := FreshParticipantID(count, govID);
    assert pid[..|digits|] == digits;
    assert '_' !in digits by {
      assert IsDigits(digits);
      forall i | 0 <= i < |digits|
        ensures digits[i] != '_'
      {
        assert IsDigit(digits[i]);
      }
    }
    FirstUnderscoreAt(pid, |digits|);
    assert pid[|digits| + 1..] == govID;
  }

  /** A '_' with none before it is the first one. */
  lemma {:induction false} FirstUnderscoreAt(s: string, i: nat)
    requires i < |s| && s[i] == '_' && '_' !in s[..i]
    ensures FirstUnderscore(s) == Some(i)
  {
    if i > 0 {
      assert s[0] == s[..i][0];
      assert s[1..][..i - 1] == s[..i][1..];
      FirstUnderscoreAt(s[1..], i - 1);
    }
  }

  /** A suffix free of '_' that starts the string or follows a '_' is
      what the reverse scan collects. */
  lemma {:induction false} AfterLastIsSuffix(s: string, i: nat)
    requires i <= |s| && '_' !in s[i..] && (i == 0 || s[i - 1] == '_')
    ensures AfterLastUnderscore(s) == s[i..]
  {
    if i < |s| {
      var init, last := s[..|s| - 1], s[|s| - 1];
      assert s[i..] == init[i..] + [last];
      assert i == 0 || init[i - 1] == s[i - 1];
      AfterLastIsSuffix(init, i);
    }
  }

  /** The reverse scan of removeParticipant as written recovers the
      government ID exactly when that ID holds no '_'. */
  lemma AsWrittenRecovery(count: nat, govID: string)
    ensures AfterLastUnderscore(FreshParticipantID(count, govID)) == govID <==> '_' !in govID
  {
    var pid := FreshParticipantID(count, govID);
    var digits := NatToString(count);
    if '_' !in govID {
      assert pid[|digits| + 1..] == govID;
      AfterLastIsSuffix(pid, |digits| + 1);
    }
  }

  /** The participant registered with government ID "HIHD2_J" is looked
      up as "J" when it is removed. */
  lemma AsWrittenLosesGovID()
    ensures AfterLastUnderscore(FreshParticipantID(0, "HIHD2_J")) == "J"
  {
    assert NatToString(0) == "0";
    var pid := FreshParticipantID(0, "HIHD2_J");
    assert pid == "0_HIHD2_J";
    assert pid[8..] == "J";
    AfterLastIsSuffix(pid, 8);
  }

  /** removeParticipant's scan as written: collect characters from the
      back up to the last '_', then reverse them. */
  method ScanGovIDAsWritten(pid: ParticipantID) returns (govID: string)
    ensures govID == AfterLastUnderscore(pid)
  {
    var reversed := "";
    var i := |pid|;
    while i > 0 && pid[i - 1] != '_'
      invariant 0 <= i <= |pid|
      invariant |reversed| == |pid| - i
      invariant forall k | 0 <= k < |reversed| :: reversed[k] == pid[|pid| - 1 - k]
      invariant '_' !in pid[i..]
    {
      assert pid[i - 1..] == [pid[i - 1]] + pid[i..];
      reversed := reversed + [pid[i - 1]];
      i := i - 1;
    }
    govID := seq(|reversed|, k requires 0 <= k < |reversed| => reversed[|reversed| - 1 - k]);
    assert govID == pid[i..];
    AfterLastIsSuffix(pid, i);
  }

  /** The corrected scan: the characters after the first '_'. */
  method ScanGovID(pid: ParticipantID) returns (govID: string)
    ensures govID == GovIDOf(pid)
  {
    var i := 0;
    while i < |pid| && pid[i] != '_'
      invariant 0 <= i <= |pid|
      invariant '_' !in pid[..i]
    {
      assert pid[..i + 1] == pid[..i] + [pid[i]];
      i := i + 1;
    }
    if i == |pid| {
      assert pid[..i] == pid;
      govID := pid;
    } else {
      govID := pid[i + 1..];
    }
  }

  // ---------------------------------------------------------------------
  // Symbols
  // ---------------------------------------------------------------------

  /** SymbolInfo: one book shared by a bid and an ask preprocessor. */
  class SymbolInfo {
    const symbol: string
    const book: OrderBook
    const bidPre: PreProcessor
    const askPre: PreProcessor
    ghost const Repr: set<object>

    /** How the three objects hang together; all of it is fixed at
        construction. */
    ghost predicate Linked()
    {
      Repr == {book, bidPre, askPre} &&
      bidPre.book == book && askPre.book == book &&
      bidPre.isBid && !askPre.isBid && book.symbol == symbol
    }

    ghost predicate Valid()
      reads Repr
    {
      Linked() && book.Valid() && bidPre.Consistent() && askPre.Consistent()
    }

    constructor(symbol: string, threshold: nat, duration: int, now: TimeStamp)
      ensures Valid() && fresh(Repr) && this.symbol == symbol
      ensures book.bids == map[] && book.asks == map[]
      ensures bidPre.threshold == threshold && askPre.threshold == threshold
      ensures bidPre.duration == duration && askPre.duration == duration
    {
      var b := new OrderBook(symbol);
      var bp := new PreProcessor(b, true, threshold, duration, now);
      var ap := new PreProcessor(b, false, threshold, duration, now);
      this.symbol := symbol;
      book := b;
      bidPre := bp;
      askPre := ap;
      Repr := {b, bp, ap};
    }

    /** The preprocessor of a side: Buy goes to the bid one. */
    function PreFor(side: Side): (p: PreProcessor)
      ensures p == (if side == Buy then bidPre else askPre)
    {
      if side == Buy then bidPre else askPre
    }
  }

  /** The objects of every symbol in a table. */
  ghost function TableRepr(table: map<string, SymbolInfo>): set<object>
  {
    set s, o | s in table && o in table[s].Repr :: o
  }

  /** Every symbol of the table holds its invariant. */
  ghost predicate TableValid(table: map<string, SymbolInfo>)
    reads TableRepr(table)
  {
    forall s {:trigger table[s].Valid()} | s in table :: table[s].Valid()
  }

  /** Dropping a symbol keeps the rest of the table valid. */
  lemma TableShrink(table: map<string, SymbolInfo>, s: string)
    requires TableValid(table)
    ensures TableValid(table - {s})
  {
  }

  /** Adding a valid symbol keeps the table valid. */
  lemma TableGrow(table: map<string, SymbolInfo>, s: string, info: SymbolInfo)
    requires TableValid(table) && info.Valid()
    ensures TableValid(table[s := info])
  {
  }

  /** A table whose objects did not change stays valid. */
  twostate lemma TableKept(table: map<string, SymbolInfo>)
    requires old(TableValid(table)) && unchanged(TableRepr(table))
    ensures TableValid(table)
  {
  }

  /** A symbol whose one preprocessor changed, keeping its invariant,
      while the other stayed as it was, is still valid. */
  twostate lemma SymbolKept(info: SymbolInfo)
    requires old(info.Valid())
    requires (info.bidPre.Valid() && unchanged(info.askPre)) || (info.askPre.Valid() && unchanged(info.bidPre))
    ensures info.Valid()
  {
  }

  // ---------------------------------------------------------------------
  // The exchange
  // ---------------------------------------------------------------------

  /** Every registered government ID names a participant whose ID carries
      it, and every participant is registered under the government ID its
      ID carries. */
  ghost predicate Paired(govToPart: map<string, ParticipantID>, participants: map<ParticipantID, Participant>)
  {
    (forall g | g in govToPart :: govToPart[g] in participants && GovIDOf(govToPart[g]) == g) &&
    (forall p | p in participants :: GovIDOf(p) in govToPart && govToPart[GovIDOf(p)] == p)
  }

  /** m_govIDs holds exactly the government IDs that are paired. */
  ghost predicate Registry(govIDs: set<string>, govToPart: map<string, ParticipantID>,
                           participants: map<ParticipantID, Participant>)
  {
    govIDs == govToPart.Keys && Paired(govToPart, participants)
  }

  /** Registering a new government ID under a new participant ID that
      carries it keeps the registry paired. */
  lemma RegistryAdd(govIDs: set<string>, govToPart: map<string, ParticipantID>,
                    participants: map<ParticipantID, Participant>,
                    govID: string, pid: ParticipantID, newcomer: Participant)
    requires Registry(govIDs, govToPart, participants)
    requires govID !in govToPart && pid !in participants && GovIDOf(pid) == govID
    ensures Registry(govIDs + {govID}, govToPart[govID := pid], participants[pid := newcomer])
  {
  }

  /** Removing a participant together with the government ID its ID
      carries keeps the registry paired. */
  lemma RegistryRemove(govIDs: set<string>, govToPart: map<string, ParticipantID>,
                       participants: map<ParticipantID, Participant>, pid: ParticipantID)
    requires Registry(govIDs, govToPart, participants) && pid in participants
    ensures GovIDOf(pid) in govIDs && govToPart[GovIDOf(pid)] == pid
    ensures Registry(govIDs - {GovIDOf(pid)}, govToPart - {GovIDOf(pid)}, participants - {pid})
  {
    var g := GovIDOf(pid);
    forall h | h in govToPart - {g}
      ensures govToPart[h] in participants - {pid}
    {
      assert GovIDOf(govToPart[h]) == h;
    }
  }

  /** The exchange owns its participants and its symbols' objects; the
      symbols' objects are theirs alone. */
  ghost predicate Owns(self: object, repr: set<object>,
                       participants: map<ParticipantID, Participant>, table: map<string, SymbolInfo>)
  {
    self in repr && self !in TableRepr(table) && TableRepr(table) <= repr &&
    (forall p | p in participants :: participants[p] in repr && participants[p] !in TableRepr(table)) &&
    (forall s | s in table :: table[s].symbol == s && table[s].Linked()) &&
    Separate(table)
  }

  /** Distinct symbols share no object. */
  ghost predicate Separate(table: map<string, SymbolInfo>)
  {
    forall s, t | s in table && t in table && s != t :: table[s].Repr !! table[t].Repr
  }

  /** A fresh participant, owned by the exchange, keeps the ownership. */
  lemma OwnsAddParticipant(self: object, repr: set<object>, participants: map<ParticipantID, Participant>,
                           table: map<string, SymbolInfo>, pid: ParticipantID, newcomer: Participant)
    requires Owns(self, repr, participants, table) && newcomer !in TableRepr(table)
    ensures Owns(self, repr + {newcomer}, participants[pid := newcomer], table)
  {
  }

  /** Dropping a participant keeps the ownership. */
  lemma OwnsRemoveParticipant(self: object, repr: set<object>, participants: map<ParticipantID, Participant>,
                              table: map<string, SymbolInfo>, pid: ParticipantID)
    requires Owns(self, repr, participants, table)
    ensures Owns(self, repr, participants - {pid}, table)
  {
  }

  /** Dropping a symbol keeps the ownership. */
  lemma OwnsRemoveSymbol(self: object, repr: set<object>, participants: map<ParticipantID, Participant>,
                         table: map<string, SymbolInfo>, s: string)
    requires Owns(self, repr, participants, table)
    ensures Owns(self, repr, participants, table - {s})
  {
  }

  /** A new symbol whose objects are its own keeps the ownership. */
  lemma OwnsAddSymbol(self: object, repr: set<object>, participants: map<ParticipantID, Participant>,
                      table: map<string, SymbolInfo>, s: string, info: SymbolInfo)
    requires Owns(self, repr, participants, table) && s !in table && info.symbol == s && info.Linked()
    requires self !in info.Repr && info.Repr !! TableRepr(table) && info.Repr !! repr
    ensures Owns(self, repr + info.Repr, participants, table[s := info])
  {
    forall t | t in table
      ensures table[t].Repr !! info.Repr
    {
      assert table[t].Repr <= TableRepr(table);
    }
  }

  class Xchange {
    const threshold: nat
    const duration: int
    const timeZone: string
    /** m_govIDs */
    var govIDs: set<string>
    /** m_participants */
    var participants: map<ParticipantID, Participant>
    /** govID_partIDMap */
    var govToPart: map<string, ParticipantID>
    /** m_symbolInfos */
    var symbols: map<string, SymbolInfo>
    ghost var Repr: set<object>

    ghost predicate Valid()
      reads this, Repr
    {
      Registry(govIDs, govToPart, participants) && Owns(this, Repr, participants, symbols) &&
      TableValid(symbols)
    }

    constructor(threshold: nat, duration: int, timeZone: string)
      ensures Valid() && fresh(Repr)
      ensures this.threshold == threshold && this.duration == duration && this.timeZone == timeZone
      ensures govIDs == {} && participants == map[] && govToPart == map[] && symbols == map[]
    {
      this.threshold := threshold;
      this.duration := duration;
      this.timeZone := timeZone;
      govIDs := {};
      participants := map[];
      govToPart := map[];
      symbols := map[];
      Repr := {this};
    }

    /** generateParticipantID: the stored ID of a known government ID,
        otherwise the participant count, '_' and the government ID. */
    function GenerateParticipantID(govID: string): (pid: ParticipantID)
      requires Paired(govToPart, participants)
      reads this
      ensures GovIDOf(pid) == govID
      ensures govID in govToPart ==> pid == govToPart[govID]
      ensures govID !in govToPart ==> pid == FreshParticipantID(|participants|, govID) && pid !in participants
    {
      if govID in govToPart then govToPart[govID]
      else
        GovIDRecovered(|participants|, govID);
        FreshParticipantID(|participants|, govID)
    }

    /** addParticipant: a registered government ID gets its ID back;
        otherwise a fresh participant is created under a new ID. */
    method AddParticipant(govID: string) returns (pid: ParticipantID)
      requires Valid()
      modifies this
      ensures Valid() && symbols == old(symbols)
      ensures GovIDOf(pid) == govID && pid in participants && govToPart[govID] == pid
      ensures govID in old(govToPart) ==>
        pid == old(govToPart[govID]) &&
        govIDs == old(govIDs) && participants == old(participants) && govToPart == old(govToPart) &&
        Repr == old(Repr)
      ensures govID !in old(govToPart) ==>
        pid == FreshParticipantID(|old(participants)|, govID) && pid !in old(participants) &&
        govIDs == old(govIDs) + {govID} && govToPart == old(govToPart)[govID := pid] &&
        fresh(participants[pid]) && participants == old(participants)[pid := participants[pid]] &&
        participants[pid].participantID == pid && participants[pid].placedOrders == map[] &&
        Repr == old(Repr) + {participants[pid]}
    {
      if govID in govIDs && govID in govToPart {
        return govToPart[govID];
      }
      pid := Enrol(govID);
    }

    /** The second half of addParticipant, for a government ID not yet
        registered. */
    method Enrol(govID: string) returns (pid: ParticipantID)
      requires Valid() && govID !in govToPart
      modifies this
      ensures Valid() && symbols == old(symbols)
      ensures pid == FreshParticipantID(|old(participants)|, govID) && pid !in old(participants)
      ensures GovIDOf(pid) == govID
      ensures govIDs == old(govIDs) + {govID} && govToPart == old(govToPart)[govID := pid]
      ensures pid in participants && fresh(participants[pid])
      ensures participants == old(participants)[pid := participants[pid]]
      ensures participants[pid].participantID == pid && participants[pid].placedOrders == map[]
      ensures Repr == old(Repr) + {participants[pid]}
    {
      govIDs := govIDs + {govID};
      pid := GenerateParticipantID(govID);
      var newcomer := NewParticipant(pid);
      RegistryAdd(old(govIDs), govToPart, participants, govID, pid, newcomer);
      OwnsAddParticipant(this, Repr, participants, symbols, pid, newcomer);
      participants := participants[pid := newcomer];
      govToPart := govToPart[govID := pid];
      Repr := Repr + {newcomer};
      TableKept(symbols);
    }

    /** removeParticipant with the corrected scan: an unknown ID is
        ignored; otherwise the participant, its government ID and the
        pairing go. The source's two asserts hold. */
    method RemoveParticipant(pid: ParticipantID)
      requires Valid()
      modifies this
      ensures Valid() && symbols == old(symbols) && Repr == old(Repr)
      ensures pid !in old(participants) ==>
        participants == old(participants) && govIDs == old(govIDs) && govToPart == old(govToPart)
      ensures pid in old(participants) ==>
        participants == old(participants) - {pid} &&
        govIDs == old(govIDs) - {GovIDOf(pid)} && govToPart == old(govToPart) - {GovIDOf(pid)}
    {
      if pid !in participants {
        return;
      }
      RegistryRemove(govIDs, govToPart, participants, pid);
      OwnsRemoveParticipant(this, Repr, participants, symbols, pid);
      participants := participants - {pid};
      var govID := ScanGovID(pid);
      assert govID in govIDs;
      govIDs := govIDs - {govID};
      assert govID in govToPart;
      govToPart := govToPart - {govID};
      TableKept(symbols);
    }

    /** tradeNewSymbol: a traded symbol is left alone; otherwise it gets a
        new book and preprocessors with the exchange's limits. The
        trading hours of the exchange's time zone are looked up with
        `at`. */
    method TradeNewSymbol(symbol: string, now: TimeStamp) returns (r: Result<(), Failure>)
      requires Valid()
      modifies this
      ensures Valid()
      ensures participants == old(participants) && govIDs == old(govIDs) && govToPart == old(govToPart)
      ensures symbol in old(symbols) ==> r.Ok? && symbols == old(symbols) && Repr == old(Repr)
      ensures symbol !in old(symbols) && timeZone !in TRADING_HOURS_GMT ==>
        r == Err(OutOfRange) && symbols == old(symbols) && Repr == old(Repr)
      ensures symbol !in old(symbols) && timeZone in TRADING_HOURS_GMT ==>
        r.Ok? && symbol in symbols && symbols == old(symbols)[symbol := symbols[symbol]] &&
        fresh(symbols[symbol].Repr) && symbols[symbol].book.bids == map[] && symbols[symbol].book.asks == map[] &&
        Repr == old(Repr) + symbols[symbol].Repr
    {
      if symbol in symbols {
        return Ok(());
      }
      if timeZone !in TRADING_HOURS_GMT {
        return Err(OutOfRange);
      }
      var info := new SymbolInfo(symbol, threshold, duration, now);
      TableKept(symbols);
      TableGrow(symbols, symbol, info);
      OwnsAddSymbol(this, Repr, participants, symbols, symbol, info);
      label Grown:
      symbols := symbols[symbol := info];
      Repr := Repr + info.Repr;
      TableKept@Grown(symbols);
      return Ok(());
    }

    /** retireOldSymbol */
    method RetireOldSymbol(symbol: string)
      requires Valid()
      modifies this
      ensures Valid() && Repr == old(Repr)
      ensures participants == old(participants) && govIDs == old(govIDs) && govToPart == old(govToPart)
      ensures symbols == old(symbols) - {symbol}
    {
      if symbol !in symbols {
        return;
      }
      TableShrink(symbols, symbol);
      OwnsRemoveSymbol(this, Repr, participants, symbols, symbol);
      symbols := symbols - {symbol};
      TableKept(symbols);
    }

    /** getOrderBook: null (None) for an untraded symbol. */
    function GetOrderBook(symbol: string): (r: Option<OrderBook>)
      reads this
      ensures r.Some? <==> symbol in symbols
      ensures r.Some? ==> r.value == symbols[symbol].book
    {
      if symbol !in symbols then None else Some(symbols[symbol].book)
    }

    /** getPreProcessor: null (None) for an untraded symbol; Buy selects
        the bid preprocessor, Sell the ask one. */
    function GetPreProcessor(symbol: string, side: Side): (r: Option<PreProcessor>)
      requires Valid()
      reads this, Repr
      ensures r.Some? <==> symbol in symbols
      ensures r.Some? ==> r.value.book == symbols[symbol].book && r.value.isBid == (side == Buy)
    {
      if symbol !in symbols then None
      else if side == Buy then Some(symbols[symbol].bidPre)
      else Some(symbols[symbol].askPre)
    }

    /** getParticipantIDFromGovID: "" for an unknown government ID. */
    function GetParticipantIDFromGovID(govID: string): (pid: ParticipantID)
      requires Registry(govIDs, govToPart, participants)
      reads this
      ensures govID in govIDs ==> pid in participants && GovIDOf(pid) == govID
      ensures govID !in govIDs ==> pid == ""
    {
      if govID !in govToPart then "" else govToPart[govID]
    }

    /** placeOrder: the unified entry for add, modify and cancel. */
    method PlaceOrder(pid: ParticipantID, action: Action, oldOrderID: Option<OrderID>,
                      symbol: Option<string>, side: Option<Side>, orderType: Option<OrderType>,
                      price: Option<Price>, quantity: Option<Quantity>,
                      activation: Option<TimeText>, deactivation: Option<TimeText>,
                      clock: Clock, endOfTime: TimeStamp, fuel: nat)
      returns (r: Result<Option<OrderID>, Failure>)
      requires Valid()
      modifies Repr - {this}
      ensures Valid()
      ensures pid !in participants || symbol.None? || orderType.None? || side.None? ||
              (action != Add && oldOrderID.None?) ==>
        r == Ok(None) && unchanged(Repr)
      ensures Complete(price, quantity, activation, deactivation) && action == Cancel &&
              pid in participants && symbol.Some? && orderType.Some? && side.Some? && oldOrderID.Some? ==>
        r == Err(AssertionFailure)
      ensures pid in participants && symbol.Some? && orderType.Some? && side.Some? && symbol.value !in symbols &&
              (action == Add || oldOrderID.Some?) &&
              !(Complete(price, quantity, activation, deactivation) && action == Cancel) ==>
        r == Err(OutOfRange)
      ensures pid in participants && symbol.Some? && orderType.Some? && side.Some? &&
              Complete(price, quantity, activation, deactivation) && action == Add && symbol.value in symbols ==>
        r.Ok? && r.value.Some? &&
          DecodeSide(r.value.value) == side.value &&
          participants[pid].IsParticularOrderPlacedByParticipant(r.value.value) &&
          participants[pid].placedOrders[r.value.value] ==
            PlacedOrder(r.value.value, Add, symbol.value, orderType.value, side.value)
      ensures action == Cancel && r.Ok? ==> r.value.None?
      ensures r.Ok? && r.value.Some? ==> action != Cancel && Complete(price, quantity, activation, deactivation)
      ensures r.Ok? && r.value.Some? ==>
        pid in participants && symbol.Some? && side.Some? && orderType.Some? &&
        r.value == Some(Placement(pid, symbol.value, side.value, orderType.value, price, quantity,
                                  activation, deactivation, clock.now, endOfTime).value.orderID)
      // Everything placeOrder does to the participant and its side's preprocessor, as one statement.
      ensures pid in participants && symbol.Some? && side.Some? && orderType.Some? && symbol.value in symbols &&
              (action == Add || oldOrderID.Some?) ==>
        var participant := participants[pid];
        var pre := symbols[symbol.value].PreFor(side.value);
        PlacementRouted(old(ViewOf(pre)), ViewOf(pre), old(HolderOf(participant)), HolderOf(participant),
                        Placement(pid, symbol.value, side.value, orderType.value, price, quantity,
                                  activation, deactivation, clock.now, endOfTime),
                        action, oldOrderID, symbol.value, side.value, orderType.value, clock, fuel) == true
      ensures forall t | t in symbols && (symbol.None? || t != symbol.value) :: unchanged(symbols[t].Repr)
      ensures symbol.Some? && side.Some? && symbol.value in symbols ==>
        unchanged(symbols[symbol.value].PreFor(if side.value == Buy then Sell else Buy))
      ensures forall q | q in participants && (pid !in participants || participants[q] != participants[pid]) ::
        unchanged(participants[q])
      ensures r == Err(LogicError) ==>
        oldOrderID.Some? && symbol.Some? && side.Some? && orderType.Some? &&
        pid in participants && oldOrderID.value in participants[pid].placedOrders &&
        var placed := participants[pid].placedOrders[oldOrderID.value];
        placed.side != side.value || placed.otype != orderType.value || placed.symbol != symbol.value
      // An untraded symbol throws only after the participant recorded the order.
      ensures pid in participants && symbol.Some? && orderType.Some? && side.Some? && symbol.value !in symbols &&
              (action == Add || oldOrderID.Some?) ==>
        HolderOf(participants[pid]) ==
          Recorded(old(HolderOf(participants[pid])),
                   Placement(pid, symbol.value, side.value, orderType.value, price, quantity,
                             activation, deactivation, clock.now, endOfTime),
                   action, symbol.value, orderType.value, side.value)
    {
      if pid !in participants || symbol.None? || orderType.None? || side.None? ||
         (action != Add && oldOrderID.None?) {
        return Ok(None);
      }
      r := PlaceChecked(participants[pid], pid, action, oldOrderID, symbol, side, orderType, price, quantity,
                        activation, deactivation, clock, endOfTime, fuel);
    }

    /** placeOrder once the participant is known and symbol, side, type
        and, for a modify or cancel, the old order ID are given. */
    method PlaceChecked(participant: Participant, pid: ParticipantID, action: Action, oldOrderID: Option<OrderID>,
                        symbol: Option<string>, side: Option<Side>, orderType: Option<OrderType>,
                        price: Option<Price>, quantity: Option<Quantity>,
                        activation: Option<TimeText>, deactivation: Option<TimeText>,
                        clock: Clock, endOfTime: TimeStamp, fuel: nat)
      returns (r: Result<Option<OrderID>, Failure>)
      requires Valid()
      requires pid in participants && participants[pid] == participant && symbol.Some? && orderType.Some? && side.Some? &&
               (action == Add || oldOrderID.Some?)
      modifies Repr - {this}
      ensures Valid()
      ensures Answer(r, action, Placement(pid, symbol.value, side.value, orderType.value, price, quantity,
                                          activation, deactivation, clock.now, endOfTime), symbol.value in symbols)
      ensures Complete(price, quantity, activation, deactivation) && action == Add && symbol.value in symbols ==>
        r.Ok? && r.value.Some? &&
          DecodeSide(r.value.value) == side.value &&
          participant.IsParticularOrderPlacedByParticipant(r.value.value) &&
          participant.placedOrders[r.value.value] ==
            PlacedOrder(r.value.value, Add, symbol.value, orderType.value, side.value)
      ensures symbol.value in symbols ==>
        var pre := symbols[symbol.value].PreFor(side.value);
        PlacementRouted(old(ViewOf(pre)), ViewOf(pre), old(HolderOf(participant)), HolderOf(participant),
                        Placement(pid, symbol.value, side.value, orderType.value, price, quantity,
                                  activation, deactivation, clock.now, endOfTime),
                        action, oldOrderID, symbol.value, side.value, orderType.value, clock, fuel) == true
      ensures forall t | t in symbols && t != symbol.value :: unchanged(symbols[t].Repr)
      ensures symbol.value in symbols ==>
        unchanged(symbols[symbol.value].PreFor(if side.value == Buy then Sell else Buy))
      ensures forall q | q in participants && participants[q] != participant :: unchanged(participants[q])
      ensures r == Err(LogicError) ==>
        oldOrderID.Some? && oldOrderID.value in participant.placedOrders &&
        var placed := participant.placedOrders[oldOrderID.value];
        placed.side != side.value || placed.otype != orderType.value || placed.symbol != symbol.value
      ensures symbol.value !in symbols ==>
        HolderOf(participant) ==
          Recorded(old(HolderOf(participant)),
                   Placement(pid, symbol.value, side.value, orderType.value, price, quantity,
                             activation, deactivation, clock.now, endOfTime),
                   action, symbol.value, orderType.value, side.value)
    {
      assert participant !in TableRepr(symbols);
      r := PlaceForParticipant(participant, pid, symbols, action, oldOrderID, symbol.value, side.value,
                               orderType.value, price, quantity, activation, deactivation, clock, endOfTime, fuel);
    }
  }

  /** placeOrder once the participant is found and the symbol, side, type
      and, for a modify or cancel, the old order ID are given. */
  method PlaceForParticipant(participant: Participant, pid: ParticipantID, table: map<string, SymbolInfo>,
                             action: Action, oldOrderID: Option<OrderID>, symbol: string, side: Side,
                             orderType: OrderType, price: Option<Price>, quantity: Option<Quantity>,
                             activation: Option<TimeText>, deactivation: Option<TimeText>,
                             clock: Clock, endOfTime: TimeStamp, fuel: nat)
    returns (r: Result<Option<OrderID>, Failure>)
    requires symbol in table ==> table[symbol].symbol == symbol && table[symbol].Valid()
    requires TableValid(table) && Separate(table) && participant !in TableRepr(table)
    modifies participant, if symbol in table then {table[symbol].book, table[symbol].PreFor(side)} else {}
    ensures TableValid(table)
    ensures forall t | t in table && t != symbol :: unchanged(table[t].Repr)
    ensures symbol in table ==> unchanged(table[symbol].PreFor(if side == Buy then Sell else Buy))
    // Everything placeOrder does to the participant and its side's preprocessor, as one statement.
    ensures symbol in table ==>
      var pre := table[symbol].PreFor(side);
      PlacementRouted(old(ViewOf(pre)), ViewOf(pre), old(HolderOf(participant)), HolderOf(participant),
                      Placement(pid, symbol, side, orderType, price, quantity, activation, deactivation,
                                clock.now, endOfTime),
                      action, oldOrderID, symbol, side, orderType, clock, fuel) == true
    ensures Answer(r, action, Placement(pid, symbol, side, orderType, price, quantity, activation, deactivation,
                                        clock.now, endOfTime), symbol in table)
    ensures Complete(price, quantity, activation, deactivation) && action == Add && symbol in table ==>
      r.Ok? && r.value.Some? &&
      DecodeSide(r.value.value) == side &&
      participant.IsParticularOrderPlacedByParticipant(r.value.value) &&
      participant.placedOrders[r.value.value] == PlacedOrder(r.value.value, Add, symbol, orderType, side)
    ensures r == Err(LogicError) ==>
      oldOrderID.Some? && oldOrderID.value in participant.placedOrders &&
      (participant.placedOrders[oldOrderID.value].side != side ||
       participant.placedOrders[oldOrderID.value].otype != orderType ||
       participant.placedOrders[oldOrderID.value].symbol != symbol)
    // An untraded symbol throws only after the participant recorded the order.
    ensures symbol !in table ==>
      HolderOf(participant) ==
        Recorded(old(HolderOf(participant)),
                 Placement(pid, symbol, side, orderType, price, quantity, activation, deactivation,
                           clock.now, endOfTime),
                 action, symbol, orderType, side)
  {
    if symbol !in table || (Complete(price, quantity, activation, deactivation) && action == Cancel) {
      r := RecordUnrouted(participant, pid, table, action, symbol, side, orderType,
                          price, quantity, activation, deactivation, clock, endOfTime);
      return;
    }
    r := RecordAndRoute(participant, pid, table, action, oldOrderID, symbol, side, orderType,
                        price, quantity, activation, deactivation, clock, endOfTime, fuel);
    forall t | t in table && t != symbol
      ensures unchanged(table[t].Repr)
    {
      assert table[t].Repr <= TableRepr(table);
    }
  }

  /** placeOrder for an untraded symbol or a complete cancel: the
      participant records the order it builds (a cancel fails the assert
      first), and then the lookup of the symbol throws; no preprocessor is
      reached. */
  method RecordUnrouted(participant: Participant, pid: ParticipantID, table: map<string, SymbolInfo>,
                        action: Action, symbol: string, side: Side, orderType: OrderType,
                        price: Option<Price>, quantity: Option<Quantity>,
                        activation: Option<TimeText>, deactivation: Option<TimeText>,
                        clock: Clock, endOfTime: TimeStamp)
    returns (r: Result<Option<OrderID>, Failure>)
    requires symbol !in table || (Complete(price, quantity, activation, deactivation) && action == Cancel)
    requires TableValid(table) && participant !in TableRepr(table)
    modifies participant
    ensures TableValid(table)
    ensures Answer(r, action, Placement(pid, symbol, side, orderType, price, quantity, activation, deactivation,
                                        clock.now, endOfTime), symbol in table)
    ensures r.Err? && r != Err(LogicError)
    ensures Complete(price, quantity, activation, deactivation) && action == Cancel ==> unchanged(participant)
    ensures HolderOf(participant) ==
      Recorded(old(HolderOf(participant)),
               Placement(pid, symbol, side, orderType, price, quantity, activation, deactivation,
                         clock.now, endOfTime),
               action, symbol, orderType, side)
  {
    var recorded := RecordPlacement(participant, pid, action, symbol, side, orderType,
                                    price, quantity, activation, deactivation, clock.now, endOfTime);
    TableKept(table);
    if recorded.Err? {
      return Err(recorded.error);
    }
    return Err(OutOfRange);
  }

  /** placeOrder for a traded symbol and anything but a complete cancel: the
      participant records the new order, if any, and the order is then
      routed through the symbol's preprocessor of its side. */
  method RecordAndRoute(participant: Participant, pid: ParticipantID, table: map<string, SymbolInfo>,
                        action: Action, oldOrderID: Option<OrderID>, symbol: string, side: Side,
                        orderType: OrderType, price: Option<Price>, quantity: Option<Quantity>,
                        activation: Option<TimeText>, deactivation: Option<TimeText>,
                        clock: Clock, endOfTime: TimeStamp, fuel: nat)
    returns (r: Result<Option<OrderID>, Failure>)
    requires symbol in table && table[symbol].symbol == symbol && table[symbol].Valid()
    requires TableValid(table) && Separate(table) && participant !in TableRepr(table)
    requires !(Complete(price, quantity, activation, deactivation) && action == Cancel)
    modifies participant, table[symbol].book, table[symbol].PreFor(side)
    ensures TableValid(table)
    ensures var pre := table[symbol].PreFor(side);
      PlacementRouted(old(ViewOf(pre)), ViewOf(pre), old(HolderOf(participant)), HolderOf(participant),
                      Placement(pid, symbol, side, orderType, price, quantity, activation, deactivation,
                                clock.now, endOfTime),
                      action, oldOrderID, symbol, side, orderType, clock, fuel)
    ensures Complete(price, quantity, activation, deactivation) && action == Add ==>
      r.Ok? && r.value.Some? &&
      DecodeSide(r.value.value) == side &&
      participant.IsParticularOrderPlacedByParticipant(r.value.value) &&
      participant.placedOrders[r.value.value] == PlacedOrder(r.value.value, Add, symbol, orderType, side)
    ensures Answer(r, action, Placement(pid, symbol, side, orderType, price, quantity, activation, deactivation,
                                        clock.now, endOfTime), true)
    ensures r == Err(LogicError) ==>
      oldOrderID.Some? && oldOrderID.value in participant.placedOrders &&
      (participant.placedOrders[oldOrderID.value].side != side ||
       participant.placedOrders[oldOrderID.value].otype != orderType ||
       participant.placedOrders[oldOrderID.value].symbol != symbol)
  {
    var recorded := RecordPlacement(participant, pid, action, symbol, side, orderType,
                                    price, quantity, activation, deactivation, clock.now, endOfTime);
    TableKept(table);
    ghost var pre := table[symbol].PreFor(side);
    label Recorded:
    r := RouteToSymbol(participant, table, symbol, action, oldOrderID, side, orderType,
                       recorded.value, clock, fuel);
    assert old(ViewOf(pre)) == old@Recorded(ViewOf(pre));
    assert old@Recorded(HolderOf(participant)) ==
           HolderView(PlacedWith(old(participant.placedOrders), recorded.value, action, symbol, orderType, side),
                      OrdersWith(old(participant.orderComposition), recorded.value),
                      old(participant.portfolio), old(participant.history));
  }

  /** make_shared<Participant>() followed by setParticipantID: a fresh
      participant carrying the given ID and nothing else. */
  method NewParticipant(pid: ParticipantID) returns (p: Participant)
    ensures fresh(p) && p.participantID == pid && p.placedOrders == map[]
  {
    p := new Participant();
    p.SetParticipantID(pid);
  }

  /** The first step of placeOrder: with price, quantity and both times
      given, the participant records a new order (a cancel fails the
      assert in recordNonCancelOrder); otherwise no order is made. */
  method RecordPlacement(participant: Participant, pid: ParticipantID, action: Action, symbol: string,
                         side: Side, orderType: OrderType, price: Option<Price>, quantity: Option<Quantity>,
                         activation: Option<TimeText>, deactivation: Option<TimeText>,
                         now: TimeStamp, endOfTime: TimeStamp)
    returns (r: Result<Option<Order>, Failure>)
    modifies participant
    ensures !Complete(price, quantity, activation, deactivation) ==> r == Ok(None) && unchanged(participant)
    ensures Complete(price, quantity, activation, deactivation) && action == Cancel ==>
      r == Err(AssertionFailure) && unchanged(participant)
    ensures Complete(price, quantity, activation, deactivation) && action != Cancel ==>
      r.Ok? && r.value.Some? &&
      var o := r.value.value;
      o == NewOrder(symbol, orderType, side, price.value, quantity.value, pid,
                    TimeArg(activation.value), TimeArg(deactivation.value), now, endOfTime) &&
      DecodeSide(o.orderID) == side &&
      participant.placedOrders == old(participant.placedOrders)[o.orderID := PlacedOrder(o.orderID, action, symbol, orderType, side)] &&
      participant.orderComposition == old(participant.orderComposition)[o.orderID := o] &&
      participant.participantID == old(participant.participantID)
    ensures r.Ok? ==>
      r.value == Placement(pid, symbol, side, orderType, price, quantity, activation, deactivation, now, endOfTime) &&
      participant.placedOrders == PlacedWith(old(participant.placedOrders), r.value, action, symbol, orderType, side) &&
      participant.orderComposition == OrdersWith(old(participant.orderComposition), r.value) &&
      participant.portfolio == old(participant.portfolio) && participant.history == old(participant.history)
    ensures HolderOf(participant) ==
      Recorded(old(HolderOf(participant)),
               Placement(pid, symbol, side, orderType, price, quantity, activation, deactivation, now, endOfTime),
               action, symbol, orderType, side)
  {
    if !Complete(price, quantity, activation, deactivation) {
      return Ok(None);
    }
    if action == Cancel {
      return Err(AssertionFailure);
    }
    var o := participant.RecordNonCancelOrder(action, symbol, orderType, side, price.value, quantity.value, pid,
                                              TimeArg(activation.value), TimeArg(deactivation.value),
                                              now, endOfTime);
    return Ok(Some(o));
  }

  /** The part of placeOrder that follows the lookup of the symbol: the
      order is routed through that symbol's preprocessors, and every other
      symbol of the table is left alone. */
  method RouteToSymbol(participant: Participant, table: map<string, SymbolInfo>, symbol: string,
                       action: Action, oldOrderID: Option<OrderID>, side: Side, orderType: OrderType,
                       order: Option<Order>, clock: Clock, fuel: nat)
    returns (r: Result<Option<OrderID>, Failure>)
    requires symbol in table && table[symbol].symbol == symbol
    requires TableValid(table) && Separate(table) && participant !in TableRepr(table)
    requires table[symbol].Valid()
    requires order.Some? ==> DecodeSide(order.value.orderID) == side
    modifies participant, table[symbol].book, table[symbol].PreFor(side)
    ensures TableValid(table)
    ensures action == Add && order.Some? ==>
      r == Ok(Some(order.value.orderID)) && unchanged(participant)
    ensures var pre := table[symbol].PreFor(side);
      Routed(old(ViewOf(pre)), ViewOf(pre), old(HolderOf(participant)), HolderOf(participant),
             order, action, oldOrderID, symbol, side, orderType, clock, fuel)
    ensures r.Ok? && r.value.Some? ==> order.Some? && r.value.value == order.value.orderID && action != Cancel
    ensures r == Err(LogicError) ==>
      oldOrderID.Some? && oldOrderID.value in participant.placedOrders &&
      (participant.placedOrders[oldOrderID.value].side != side ||
       participant.placedOrders[oldOrderID.value].otype != orderType ||
       participant.placedOrders[oldOrderID.value].symbol != symbol)
  {
    // The source also returns nullopt when the symbol's record or its
    // preprocessor is null; neither can be null here.
    var info := table[symbol];
    assert info.Valid() && info.Repr <= TableRepr(table);
    var others := table - {symbol};
    TableShrink(table, symbol);
    r := RouteThroughSide(participant, info, symbol, action, oldOrderID, side, orderType, order, clock, fuel);
    TableKept(others);
    TableGrow(others, symbol, info);
    assert others[symbol := info] == table;
  }

  /** RouteOrder on the preprocessor of `side` of one symbol, which stays
      valid as a whole. */
  method RouteThroughSide(participant: Participant, info: SymbolInfo, symbol: string,
                          action: Action, oldOrderID: Option<OrderID>, side: Side, orderType: OrderType,
                          order: Option<Order>, clock: Clock, fuel: nat)
    returns (r: Result<Option<OrderID>, Failure>)
    requires info.Valid() && info.symbol == symbol && participant !in info.Repr
    requires order.Some? ==> DecodeSide(order.value.orderID) == side
    modifies participant, info.book, info.PreFor(side)
    ensures info.Valid()
    ensures action == Add && order.Some? ==>
      r == Ok(Some(order.value.orderID)) && unchanged(participant)
    ensures Routed(old(ViewOf(info.PreFor(side))), ViewOf(info.PreFor(side)),
                   old(HolderOf(participant)), HolderOf(participant),
                   order, action, oldOrderID, symbol, side, orderType, clock, fuel)
    ensures r.Ok? && r.value.Some? ==> order.Some? && r.value.value == order.value.orderID && action != Cancel
    ensures r == Err(LogicError) ==>
      oldOrderID.Some? && oldOrderID.value in participant.placedOrders &&
      (participant.placedOrders[oldOrderID.value].side != side ||
       participant.placedOrders[oldOrderID.value].otype != orderType ||
       participant.placedOrders[oldOrderID.value].symbol != symbol)
  {
    if oldOrderID.Some? {
      EnteredAsViewed(info.PreFor(side), oldOrderID.value, orderType);
    }
    r := RouteOrder(participant, info.PreFor(side), symbol, action, oldOrderID, side, orderType, order, clock, fuel);
    SymbolKept(info);
  }

  /** The second half of placeOrder, once the order is recorded and the
      symbol found: an add goes to the side's preprocessor; a modify or
      cancel must name an order of this participant with the same side,
      type and symbol, is forgotten by the participant unless it already
      reached the book, and is then replaced or removed. */
  method RouteOrder(participant: Participant, pre: PreProcessor, symbol: string, action: Action,
                    oldOrderID: Option<OrderID>, side: Side, orderType: OrderType, order: Option<Order>,
                    clock: Clock, fuel: nat)
    returns (r: Result<Option<OrderID>, Failure>)
    requires pre.Valid() && pre.MySide() == side
    requires order.Some? ==> DecodeSide(order.value.orderID) == side
    modifies participant, pre, pre.book
    ensures pre.Valid()
    ensures participant.participantID == old(participant.participantID)
    ensures action == Add && order.Some? ==>
      r == Ok(Some(order.value.orderID)) && unchanged(participant)
    ensures !(action == Add && order.Some?) && oldOrderID.None? ==>
      r == Err(BadOptionalAccess) && unchanged(participant, pre, pre.book)
    ensures !(action == Add && order.Some?) && oldOrderID.Some? && oldOrderID.value !in old(participant.placedOrders) ==>
      r == Err(OutOfRange) && unchanged(participant, pre, pre.book)
    ensures r == Err(LogicError) <==>
      !(action == Add && order.Some?) && oldOrderID.Some? && oldOrderID.value in old(participant.placedOrders) &&
      var placed := old(participant.placedOrders[oldOrderID.value]);
      placed.side != side || placed.otype != orderType || placed.symbol != symbol
    ensures r == Err(LogicError) ==> unchanged(participant, pre, pre.book)
    ensures action == Cancel ==> r.Err? || r == Ok(None)
    ensures r.Ok? && r.value.Some? ==> order.Some? && r.value.value == order.value.orderID && action != Cancel
    ensures action == Modify && order.Some? && r.Ok? ==> r == Ok(Some(order.value.orderID))
    ensures action == Add && order.Some? ==> AddRouted(old(ViewOf(pre)), ViewOf(pre), order.value, clock, fuel)
    ensures Matches(old(participant.placedOrders), action, order, oldOrderID, side, orderType, symbol) ==>
      var id := oldOrderID.value;
      var entered := old(pre.HasOrderEnteredOrderbook(id, orderType));
      participant.portfolio == old(participant.portfolio) && participant.history == old(participant.history) &&
      Forgot(old(participant.placedOrders), old(participant.orderComposition),
             participant.placedOrders, participant.orderComposition, id, entered) &&
      MatchRouted(old(ViewOf(pre)), ViewOf(pre), id, action, order, orderType, clock, entered, fuel)
  {
    if action == Add && order.Some? {
      pre.InsertAddOrderIntoPreprocessing(order, clock, fuel);
      r := Ok(Some(order.value.orderID));
    } else if oldOrderID.None? {
      r := Err(BadOptionalAccess);
    } else {
      var oldInfo := participant.GetOrderInformation(oldOrderID.value);
      if oldInfo.None? {
        r := Err(OutOfRange);
      } else if oldInfo.value.side != side || oldInfo.value.otype != orderType ||
                oldInfo.value.symbol != symbol {
        r := Err(LogicError);
      } else {
        r := ApplyMatching(participant, pre, oldOrderID.value, action, order, orderType, clock, fuel);
      }
    }
  }

  /** The end of placeOrder for a modify or cancel that names a matching
      order: the participant forgets the order unless it already reached
      the book; a modify then replaces it in the preprocessor, a cancel
      removes it. */
  method ApplyMatching(participant: Participant, pre: PreProcessor, id: OrderID, action: Action,
                       order: Option<Order>, orderType: OrderType, clock: Clock, fuel: nat)
    returns (r: Result<Option<OrderID>, Failure>)
    requires pre.Valid()
    requires order.Some? ==> DecodeSide(order.value.orderID) == pre.MySide()
    modifies participant, pre, pre.book
    ensures pre.Valid()
    ensures r == (if action == Modify && order.Some? then Ok(Some(order.value.orderID)) else Ok(None))
    ensures var entered := old(pre.HasOrderEnteredOrderbook(id, orderType));
      participant.participantID == old(participant.participantID) &&
      participant.portfolio == old(participant.portfolio) && participant.history == old(participant.history) &&
      Forgot(old(participant.placedOrders), old(participant.orderComposition),
             participant.placedOrders, participant.orderComposition, id, entered) &&
      MatchRouted(old(ViewOf(pre)), ViewOf(pre), id, action, order, orderType, clock, entered, fuel)
    ensures action != Modify && action != Cancel ==> unchanged(pre, pre.book)
  {
    var hasEntered := pre.HasOrderEnteredOrderbook(id, orderType);
    if !hasEntered {
      participant.RecordCancelOrder(id);
    }
    assert hasEntered == pre.HasOrderEnteredOrderbook(id, orderType);
    if action == Modify {
      if order.None? {
        r := Ok(None);
      } else {
        pre.ModifyInPreprocessing(id, order.value, clock, fuel);
        r := Ok(Some(order.value.orderID));
      }
    } else if action == Cancel {
      pre.RemoveFromPreprocessing(id, orderType, clock, fuel);
      r := Ok(None);
    } else {
      r := Ok(None);
    }
  }

  // ---------------------------------------------------------------------
  // The singleton
  // ---------------------------------------------------------------------

  /** Xchange::m_instance */
  class ExchangeHolder {
    var instance: Xchange?

    constructor()
      ensures instance == null
    {
      instance := null;
    }

    /** getInstance: the first call with a supported time zone creates the
        exchange; every later call returns the same one. */
    method GetInstance(pendingThreshold: int, pendingDuration: int, timeZone: string) returns (x: Xchange?)
      modifies this
      ensures x == instance
      ensures old(instance) != null ==> instance == old(instance)
      ensures old(instance) == null && timeZone !in TRADING_HOURS_GMT ==> instance == null
      ensures old(instance) == null && timeZone in TRADING_HOURS_GMT ==>
        instance != null && fresh(instance) && instance.Valid() &&
        instance.threshold == SizeT(pendingThreshold) && instance.duration == pendingDuration &&
        instance.timeZone == timeZone && instance.participants == map[] && instance.symbols == map[]
    {
      if instance == null && timeZone in TRADING_HOURS_GMT {
        instance := new Xchange(SizeT(pendingThreshold), pendingDuration, timeZone);
      }
      x := instance;
    }

    /** getInstance with the default time zone. */
    method GetDefaultInstance(pendingThreshold: int, pendingDuration: int) returns (x: Xchange?)
      modifies this
      ensures x == instance
      ensures old(instance) != null ==> instance == old(instance)
      ensures old(instance) == null ==> instance != null && fresh(instance) && instance.timeZone == DEFAULT_TIME_ZONE
    {
      x := GetInstance(pendingThreshold, pendingDuration, DEFAULT_TIME_ZONE);
    }

    /** destroyInstance */
    method DestroyInstance()
      modifies this
      ensures instance == null
    {
      instance := null;
    }
  }
}
