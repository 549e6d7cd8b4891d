/** The fixture reader (tests/testHandler.cpp): a fixture is read line by
    line; the two threshold lines set the preprocessor arguments, and each
    section banner hands the following lines to a section parser, which
    keeps the lines with digits, collapses each to its words and maps the
    words to one record, until the dash line naming the section's end.
    The file is a sequence of lines, the stream position an index into it,
    and an exception an error value that ends the reading with every record
    appended before it kept. */
module FixtureReader {
  import opened Wrappers
  import opened Text
  import opened Enums
  import opened DateTimes
  import opened HelperFunctions
  import opened ReaderText
  import opened FixtureWriter
  import opened FixtureLayout

  // ---------------------------------------------------------------------
  // Records.

  /** One incoming order as the test replays it; the fields after the
      action may be absent. */
  datatype Update = Update(
    updateCount: int, action: Action, symbol: Option<string>, orderType: Option<OrderType>,
    side: Option<Side>, price: Option<int>, quantity: Option<int>,
    activationTime: Option<DateTime>, deactivationTime: Option<DateTime>,
    participantID: Option<string>)

  datatype PreProcessorResult = PreProcessorResult(
    symbol: string, side: Side, action: Action, price: int, quantity: int, participantID: string)

  datatype OrderBookResult = OrderBookResult(
    side: Side, symbol: string, price: int, quantity: int, orderListSize: int)

  datatype TradeResult = TradeResult(
    symbol: string, price: int, quantity: int, buyerID: string, sellerID: string)

  // ---------------------------------------------------------------------
  // Rows.

  /** `tokens[k]`; reading past the end of the vector is an error. */
  function Token(tokens: seq<string>, k: nat): Result<string, ParseError>
  {
    if k < |tokens| then Ok(tokens[k]) else Err(MissingToken(k))
  }

  /** `t == "-" ? nullopt : make_optional(parse(t))`: only the dash is
      absent here, and the empty string goes to the parser. */
  function Dashed<X>(t: string, parse: string -> Result<X, ParseError>): Result<Option<X>, ParseError>
  {
    if t == "-" then Ok(None)
    else match parse(t)
      case Ok(x) => Ok(Some(x))
      case Err(e) => Err(e)
  }

  /** The row of parseUpdate, field by field in the order of the
      assignments: the count through std::stoul into a 32-bit counter, the
      price and quantity through parseOptionalNumeric<Price> and
      <Quantity>. */
  function ParseUpdateRow(tokens: seq<string>): (r: Result<Update, ParseError>)
    ensures |tokens| < |INCOMING_COLUMNS| ==> r.Err?
  {
    var t0 :- Token(tokens, 0);
    var count :- StoULL(t0);
    var t1 :- Token(tokens, 1);
    var action :- ParseAction(t1);
    var t2 :- Token(tokens, 2);
    var t3 :- Token(tokens, 3);
    var orderType :- Dashed(t3, ParseOrderType);
    var t4 :- Token(tokens, 4);
    var side :- Dashed(t4, ParseSide);
    var t5 :- Token(tokens, 5);
    var price :- ParseOptionalNumeric(t5, Int32);
    var t6 :- Token(tokens, 6);
    var quantity :- ParseOptionalNumeric(t6, UInt64);
    var t7 :- Token(tokens, 7);
    var activation :- Dashed(t7, ParseTimeStamp);
    var t8 :- Token(tokens, 8);
    var deactivation :- Dashed(t8, ParseTimeStamp);
    var t9 :- Token(tokens, 9);
    Ok(Update(Wrap(count, UInt32), action, ParseOptionalString(t2), orderType, side, price, quantity,
              activation, deactivation, ParseOptionalString(t9)))
  }

  /** std::stoll followed by a cast to a fixed-width type. */
  function StoLLAs(t: string, w: Width): Result<int, ParseError>
  {
    var v :- StoLL(t);
    Ok(Wrap(v, w))
  }

  /** The row of parsePreprocessorResults. */
  function ParsePreProcessorRow(tokens: seq<string>): (r: Result<PreProcessorResult, ParseError>)
    ensures |tokens| < |PREPROCESSOR_COLUMNS| ==> r.Err?
  {
    var symbol :- Token(tokens, 0);
    var t1 :- Token(tokens, 1);
    var side :- ParseSide(t1);
    var t2 :- Token(tokens, 2);
    var action :- ParseAction(t2);
    var t3 :- Token(tokens, 3);
    var price :- StoLLAs(t3, Int32);
    var t4 :- Token(tokens, 4);
    var quantity :- StoLLAs(t4, UInt64);
    var participant :- Token(tokens, 5);
    Ok(PreProcessorResult(symbol, side, action, price, quantity, participant))
  }

  /** The row of parseOrderbookResults; the order-list size is read with
      std::stoull into a 64-bit size. */
  function ParseOrderBookRow(tokens: seq<string>): (r: Result<OrderBookResult, ParseError>)
    ensures |tokens| < |ORDERBOOK_COLUMNS| ==> r.Err?
  {
    var symbol :- Token(tokens, 0);
    var t1 :- Token(tokens, 1);
    var side :- ParseSide(t1);
    var t2 :- Token(tokens, 2);
    var price :- StoLLAs(t2, Int32);
    var t3 :- Token(tokens, 3);
    var quantity :- StoLLAs(t3, UInt64);
    var t4 :- Token(tokens, 4);
    var size :- StoULL(t4);
    Ok(OrderBookResult(side, symbol, price, quantity, size))
  }

  /** The row of parseTradeResults. */
  function ParseTradeRow(tokens: seq<string>): (r: Result<TradeResult, ParseError>)
    ensures |tokens| < |TRADES_COLUMNS| ==> r.Err?
  {
    var symbol :- Token(tokens, 0);
    var t1 :- Token(tokens, 1);
    var price :- StoLLAs(t1, Int32);
    var t2 :- Token(tokens, 2);
    var quantity :- StoLLAs(t2, UInt64);
    var buyer :- Token(tokens, 3);
    var seller :- Token(tokens, 4);
    Ok(TradeResult(symbol, price, quantity, buyer, seller))
  }

  /** The positions of the writer's columns, by name. */
  lemma ColumnNames()
    ensures INCOMING_COLUMNS[0] == "OrderCounter" && INCOMING_COLUMNS[1] == "Action"
    ensures INCOMING_COLUMNS[2] == "Symbol" && INCOMING_COLUMNS[3] == "OrderType"
    ensures INCOMING_COLUMNS[4] == "Side" && INCOMING_COLUMNS[5] == "Price"
    ensures INCOMING_COLUMNS[6] == "Quantity" && INCOMING_COLUMNS[7] == "ActivateTime"
    ensures INCOMING_COLUMNS[8] == "DeactivateTime" && INCOMING_COLUMNS[9] == "ParticipantID"
    ensures PREPROCESSOR_COLUMNS == ["Symbol", "Side", "Action", "Price", "Quantity", "ParticipantID"]
    ensures ORDERBOOK_COLUMNS == ["Symbol", "Side", "Price", "Quantity", "OrderListSize"]
    ensures TRADES_COLUMNS == ["Symbol", "SettlementPrice", "Quantity", "BuyerID", "SellerID"]
  {
  }

  /** Every field of a parsed update comes from the token at the position
      of the writer's column of that name (see ColumnNames). */
  lemma UpdateRowColumns(tokens: seq<string>)
    requires ParseUpdateRow(tokens).Ok?
    ensures |tokens| >= |INCOMING_COLUMNS|
    ensures var u := ParseUpdateRow(tokens).value;
      && StoULL(tokens[0]).Ok?
      && u.updateCount == Wrap(StoULL(tokens[0]).value, UInt32)
      && ParseAction(tokens[1]) == Ok(u.action)
      && u.symbol == ParseOptionalString(tokens[2])
      && Dashed(tokens[3], ParseOrderType) == Ok(u.orderType)
      && Dashed(tokens[4], ParseSide) == Ok(u.side)
      && ParseOptionalNumeric(tokens[5], Int32) == Ok(u.price)
      && ParseOptionalNumeric(tokens[6], UInt64) == Ok(u.quantity)
      && Dashed(tokens[7], ParseTimeStamp) == Ok(u.activationTime)
      && Dashed(tokens[8], ParseTimeStamp) == Ok(u.deactivationTime)
      && u.participantID == ParseOptionalString(tokens[9])
  {
  }

  /** The preprocessor result fields come from the writer's columns. */
  lemma PreProcessorRowColumns(tokens: seq<string>)
    requires ParsePreProcessorRow(tokens).Ok?
    ensures |tokens| >= |PREPROCESSOR_COLUMNS|
    ensures var r := ParsePreProcessorRow(tokens).value;
      && r.symbol == tokens[0]
      && ParseSide(tokens[1]) == Ok(r.side)
      && ParseAction(tokens[2]) == Ok(r.action)
      && StoLLAs(tokens[3], Int32) == Ok(r.price)
      && StoLLAs(tokens[4], UInt64) == Ok(r.quantity)
      && r.participantID == tokens[5]
  {
  }

  /** The order-book result fields come from the writer's columns. */
  lemma OrderBookRowColumns(tokens: seq<string>)
    requires ParseOrderBookRow(tokens).Ok?
    ensures |tokens| >= |ORDERBOOK_COLUMNS|
    ensures var r := ParseOrderBookRow(tokens).value;
      && r.symbol == tokens[0]
      && ParseSide(tokens[1]) == Ok(r.side)
      && StoLLAs(tokens[2], Int32) == Ok(r.price)
      && StoLLAs(tokens[3], UInt64) == Ok(r.quantity)
      && StoULL(tokens[4]) == Ok(r.orderListSize)
  {
  }

  /** The trade result fields come from the writer's columns. */
  lemma TradeRowColumns(tokens: seq<string>)
    requires ParseTradeRow(tokens).Ok?
    ensures |tokens| >= |TRADES_COLUMNS|
    ensures var r := ParseTradeRow(tokens).value;
      && r.symbol == tokens[0]
      && StoLLAs(tokens[1], Int32) == Ok(r.price)
      && StoLLAs(tokens[2], UInt64) == Ok(r.quantity)
      && r.buyerID == tokens[3]
      && r.sellerID == tokens[4]
  {
  }

  // ---------------------------------------------------------------------
  // Sections.

  /** How a section parser treats a line: a dash line ends the section when
      its dash-free text contains the marker and is skipped otherwise; a
      line without digits is skipped; any other line is data. */
  datatype LineKind = EndOfSection | Skipped | Data

  function Classify(line: string, marker: string): LineKind
  {
    if |line| > 0 && line[0] == '-' then
      if Contains(Remove(line, '-'), marker) then EndOfSection else Skipped
    else if !HasDigit(line) then Skipped
    else Data
  }

  /** The number of data lines. */
  function DataCount(lines: seq<string>, marker: string): nat
  {
    if lines == [] then 0
    else (if Classify(lines[0], marker) == Data then 1 else 0) + DataCount(lines[1..], marker)
  }

  /** What a section parser leaves behind: the records it appended, the
      index of the first line it did not read, and the exception that
      stopped it, if any. */
  datatype Scan<X> = Scan(records: seq<X>, next: nat, error: Option<ParseError>)

  /** A section parser run from line `i`: each data line, collapsed by
      trimDataString and split at spaces, gives one record, until the end
      marker line (which is consumed), the end of the file, or the first
      row that throws. */
  function ScanSection<X>(lines: seq<string>, i: nat, marker: string, parse: seq<string> -> Result<X, ParseError>): (r: Scan<X>)
    requires i <= |lines|
    ensures i <= r.next <= |lines|
    decreases |lines| - i
  {
    if i == |lines| then Scan([], i, None)
    else match Classify(lines[i], marker)
      case EndOfSection => Scan([], i + 1, None)
      case Skipped => ScanSection(lines, i + 1, marker, parse)
      case Data =>
        match parse(Split(TrimData(lines[i]), ' '))
        case Err(e) => Scan([], i + 1, Some(e))
        case Ok(x) =>
          var rest := ScanSection(lines, i + 1, marker, parse);
          rest.(records := [x] + rest.records)
  }

  /** A section parser appends exactly one record per data line it read,
      and stops only at the end marker or the end of the file, at the first
      marker line. */
  lemma {:induction false} ScanSectionShape<X>(lines: seq<string>, i: nat, marker: string, parse: seq<string> -> Result<X, ParseError>)
    requires i <= |lines|
    ensures var r := ScanSection(lines, i, marker, parse);
      r.error.None? ==> |r.records| == DataCount(lines[i..r.next], marker)
    ensures var r := ScanSection(lines, i, marker, parse);
      r.error.None? ==> r.next == |lines| || Classify(lines[r.next - 1], marker) == EndOfSection
    ensures var r := ScanSection(lines, i, marker, parse);
      forall k :: i <= k < r.next - 1 ==> Classify(lines[k], marker) != EndOfSection
    decreases |lines| - i
  {
    var r := ScanSection(lines, i, marker, parse);
    if i < |lines| {
      ScanSectionShape(lines, i + 1, marker, parse);
      var rest := ScanSection(lines, i + 1, marker, parse);
      assert lines[i..rest.next] == [lines[i]] + lines[i + 1..rest.next];
      assert lines[i..i + 1] == [lines[i]];
      assert DataCount(lines[i + 1..i + 1], marker) == 0;
    }
  }

  /** The records of `prefix` placed before a later scan. */
  function Prepend<X>(prefix: seq<X>, s: Scan<X>): Scan<X>
  {
    s.(records := prefix + s.records)
  }

  /** One section parser over the lines from `start`. */
  method ReadSection<X>(lines: seq<string>, start: nat, marker: string, parse: seq<string> -> Result<X, ParseError>)
    returns (records: seq<X>, next: nat, error: Option<ParseError>)
    requires start <= |lines|
    ensures Scan(records, next, error) == ScanSection(lines, start, marker, parse)
  {
    records := [];
    var i := start;
    while i < |lines|
      invariant start <= i <= |lines|
      invariant ScanSection(lines, start, marker, parse) == Prepend(records, ScanSection(lines, i, marker, parse))
      decreases |lines| - i
    {
      var line := lines[i];
      i := i + 1;
      if |line| > 0 && line[0] == '-' {
        var trimmed := TrimNonDataString(line);
        if Find(trimmed, marker).Some? {
          return records, i, None;
        }
        continue;
      }
      var noDigits := ContainsNoDigits(line);
      if noDigits {
        continue;
      }
      var data := TrimDataString(line);
      var tokens := SplitString(data, ' ');
      match parse(tokens) {
        case Err(e) =>
          return records, i, Some(e);
        case Ok(x) =>
          var rest := ScanSection(lines, i, marker, parse);
          assert records + ([x] + rest.records) == (records + [x]) + rest.records;
          records := records + [x];
      }
    }
    return records, i, None;
  }

  // ---------------------------------------------------------------------
  // The whole file.

  const ORDER_THRESHOLD_KEY: string := "PendingOrderThreshold"
  const DURATION_THRESHOLD_KEY: string := "PendingDurationThreshold"
  const INCOMING_KEY: string := "INCOMING ORDERS"
  const PREPROCESSOR_KEY: string := "PREPROCESSOR"
  const ORDERBOOK_KEY: string := "ORDERBOOK"
  const TRADES_KEY: string := "TRADES"
  const INCOMING_END: string := "EXPECTED RESULT"
  const PREPROCESSOR_END: string := "PREPROCESSOR END"
  const ORDERBOOK_END: string := "ORDERBOOK END"
  const TRADES_END: string := "TRADES END"

  /** The value of a threshold line: std::stoull of what follows the first
      ':' and one more character. No ':' leaves the threshold as it was; a
      ':' in the last position makes substr throw out_of_range. */
  function ArgumentValue(line: string): (r: Result<Option<nat>, ParseError>)
    ensures r.Ok? && r.value.Some? ==> r.value.value <= ULLONG_MAX
  {
    match Find(line, ":")
    case None => Ok(None)
    case Some(pos) =>
      if pos + 2 > |line| then Err(OutOfRange(line))
      else
        var v :- StoULL(line[pos + 2..]);
        Ok(Some(v))
  }

  /** `key` occurs in `line`: std::string::find does not return npos. */
  predicate Mentions(line: string, key: string)
  {
    Find(line, key).Some?
  }

  /** A line as parseTestFile looks at it: dash lines lose their dashes. */
  function AsRead(line: string): string
  {
    if |line| > 0 && line[0] == '-' then Remove(line, '-') else line
  }

  /** The observable state of a TestHandler. */
  datatype Handler = Handler(
    orderThreshold: nat, durationThreshold: int,
    updates: seq<Update>, preResults: seq<PreProcessorResult>,
    obResults: seq<OrderBookResult>, trResults: seq<TradeResult>)

  /** What reading one line of parseTestFile's loop leads to: the next
      line to read and the new state, or the exception that ends reading. */
  datatype Step = Continue(next: nat, h: Handler) | Stop(h: Handler, error: ParseError)

  /** One iteration of parseTestFile's loop at line `i`: the keywords are
      tried in order, and a section keyword runs its section parser from
      the next line. */
  function ReadLine(lines: seq<string>, i: nat, h: Handler): (s: Step)
    requires i < |lines|
    ensures s.Continue? ==> i < s.next <= |lines|
  {
    var line := AsRead(lines[i]);
    if Mentions(line, ORDER_THRESHOLD_KEY) then ThresholdStep(line, i, h, false)
    else if Mentions(line, DURATION_THRESHOLD_KEY) then ThresholdStep(line, i, h, true)
    else SectionStep(lines, i, line, h)
  }

  /** A threshold line sets the order-count threshold or, converted to a
      signed 64-bit count of milliseconds, the duration threshold. */
  function ThresholdStep(line: string, i: nat, h: Handler, isDuration: bool): (s: Step)
    ensures s.Continue? ==> s.next == i + 1
  {
    match ArgumentValue(line)
    case Err(e) => Stop(h, e)
    case Ok(None) => Continue(i + 1, h)
    case Ok(Some(v)) =>
      Continue(i + 1, if isDuration then h.(durationThreshold := Wrap(v, Int64)) else h.(orderThreshold := v))
  }

  /** A section banner runs its section parser from the next line; any
      other line is passed over. */
  function SectionStep(lines: seq<string>, i: nat, line: string, h: Handler): (s: Step)
    requires i < |lines|
    ensures s.Continue? ==> i < s.next <= |lines|
  {
    if Mentions(line, INCOMING_KEY) then IncomingStep(lines, i, h)
    else if Mentions(line, PREPROCESSOR_KEY) then PreProcessorStep(lines, i, h)
    else if Mentions(line, ORDERBOOK_KEY) then OrderBookStep(lines, i, h)
    else if Mentions(line, TRADES_KEY) then TradesStep(lines, i, h)
    else Continue(i + 1, h)
  }

  /** parseUpdate from the line after the banner: the rows become updates. */
  function IncomingStep(lines: seq<string>, i: nat, h: Handler): (s: Step)
    requires i < |lines|
    ensures s.Continue? ==> i < s.next <= |lines|
  {
    var s := ScanSection(lines, i + 1, INCOMING_END, ParseUpdateRow);
    AfterSection(s.next, h.(updates := h.updates + s.records), s.error)
  }

  /** parsePreprocessorResults. */
  function PreProcessorStep(lines: seq<string>, i: nat, h: Handler): (s: Step)
    requires i < |lines|
    ensures s.Continue? ==> i < s.next <= |lines|
  {
    var s := ScanSection(lines, i + 1, PREPROCESSOR_END, ParsePreProcessorRow);
    AfterSection(s.next, h.(preResults := h.preResults + s.records), s.error)
  }

  /** parseOrderbookResults. */
  function OrderBookStep(lines: seq<string>, i: nat, h: Handler): (s: Step)
    requires i < |lines|
    ensures s.Continue? ==> i < s.next <= |lines|
  {
    var s := ScanSection(lines, i + 1, ORDERBOOK_END, ParseOrderBookRow);
    AfterSection(s.next, h.(obResults := h.obResults + s.records), s.error)
  }

  /** parseTradeResults. */
  function TradesStep(lines: seq<string>, i: nat, h: Handler): (s: Step)
    requires i < |lines|
    ensures s.Continue? ==> i < s.next <= |lines|
  {
    var s := ScanSection(lines, i + 1, TRADES_END, ParseTradeRow);
    AfterSection(s.next, h.(trResults := h.trResults + s.records), s.error)
  }

  /** After a section parser: go on at `next`, or stop at its exception. */
  function AfterSection(next: nat, h: Handler, error: Option<ParseError>): Step
  {
    if error.Some? then Stop(h, error.value) else Continue(next, h)
  }

  /** parseTestFile from line `i` on, until the end of the file or the first
      exception. */
  function ReadFrom(lines: seq<string>, i: nat, h: Handler): (Handler, Option<ParseError>)
    requires i <= |lines|
    decreases |lines| - i
  {
    if i == |lines| then (h, None)
    else match ReadLine(lines, i, h)
      case Stop(h', e) => (h', Some(e))
      case Continue(next, h') => ReadFrom(lines, next, h')
  }

  /** Record lists that only grew. */
  predicate Extends(h: Handler, h': Handler)
  {
    h.updates <= h'.updates && h.preResults <= h'.preResults
    && h.obResults <= h'.obResults && h.trResults <= h'.trResults
  }

  /** One line never takes a record away. */
  lemma ReadLineExtends(lines: seq<string>, i: nat, h: Handler)
    requires i < |lines|
    ensures Extends(h, ReadLine(lines, i, h).h)
  {
    var line := AsRead(lines[i]);
    if !Mentions(line, ORDER_THRESHOLD_KEY) && !Mentions(line, DURATION_THRESHOLD_KEY) {
      SectionStepExtends(lines, i, line, h);
    }
  }

  lemma SectionStepExtends(lines: seq<string>, i: nat, line: string, h: Handler)
    requires i < |lines|
    ensures Extends(h, SectionStep(lines, i, line, h).h)
  {
    if Mentions(line, INCOMING_KEY) {
      AppendExtends(h.updates, ScanSection(lines, i + 1, INCOMING_END, ParseUpdateRow).records);
    } else if Mentions(line, PREPROCESSOR_KEY) {
      AppendExtends(h.preResults, ScanSection(lines, i + 1, PREPROCESSOR_END, ParsePreProcessorRow).records);
    } else if Mentions(line, ORDERBOOK_KEY) {
      AppendExtends(h.obResults, ScanSection(lines, i + 1, ORDERBOOK_END, ParseOrderBookRow).records);
    } else if Mentions(line, TRADES_KEY) {
      AppendExtends(h.trResults, ScanSection(lines, i + 1, TRADES_END, ParseTradeRow).records);
    }
  }

  lemma AppendExtends<X>(a: seq<X>, b: seq<X>)
    ensures a <= a + b
  {
  }

  /** Reading never forgets: every record list of the handler only grows. */
  lemma {:induction false} ReadFromExtends(lines: seq<string>, i: nat, h: Handler)
    requires i <= |lines|
    ensures Extends(h, ReadFrom(lines, i, h).0)
    decreases |lines| - i
  {
    if i < |lines| {
      var step := ReadLine(lines, i, h);
      ReadLineExtends(lines, i, h);
      if step.Continue? {
        ReadFromExtends(lines, step.next, step.h);
      }
    }
  }

  /** The test handler: the two preprocessor arguments and the four record
      lists the sections fill. */
  class TestHandler {
    var orderThreshold: nat
    var durationThreshold: int
    var finalUpdates: seq<Update>
    var preResults: seq<PreProcessorResult>
    var obResults: seq<OrderBookResult>
    var trResults: seq<TradeResult>

    function State(): Handler
      reads this
    {
      Handler(orderThreshold, durationThreshold, finalUpdates, preResults, obResults, trResults)
    }

    /** A handler with empty record lists; the thresholds start as given. */
    constructor (orderThreshold0: nat, durationThreshold0: int)
      ensures State() == Handler(orderThreshold0, durationThreshold0, [], [], [], [])
    {
      orderThreshold := orderThreshold0;
      durationThreshold := durationThreshold0;
      finalUpdates := [];
      preResults := [];
      obResults := [];
      trResults := [];
    }

    /** parseUpdate: appends the updates up to the "EXPECTED RESULT" line. */
    method ParseUpdate(lines: seq<string>, start: nat) returns (next: nat, error: Option<ParseError>)
      requires start <= |lines|
      modifies this
      ensures var s := ScanSection(lines, start, INCOMING_END, ParseUpdateRow);
        State() == old(State()).(updates := old(finalUpdates) + s.records) && next == s.next && error == s.error
    {
      var records;
      records, next, error := ReadSection(lines, start, INCOMING_END, ParseUpdateRow);
      finalUpdates := finalUpdates + records;
    }

    /** parsePreprocessorResults: up to the "PREPROCESSOR END" line. */
    method ParsePreprocessorResults(lines: seq<string>, start: nat) returns (next: nat, error: Option<ParseError>)
      requires start <= |lines|
      modifies this
      ensures var s := ScanSection(lines, start, PREPROCESSOR_END, ParsePreProcessorRow);
        State() == old(State()).(preResults := old(preResults) + s.records) && next == s.next && error == s.error
    {
      var records;
      records, next, error := ReadSection(lines, start, PREPROCESSOR_END, ParsePreProcessorRow);
      preResults := preResults + records;
    }

    /** parseOrderbookResults: up to the "ORDERBOOK END" line. */
    method ParseOrderbookResults(lines: seq<string>, start: nat) returns (next: nat, error: Option<ParseError>)
      requires start <= |lines|
      modifies this
      ensures var s := ScanSection(lines, start, ORDERBOOK_END, ParseOrderBookRow);
        State() == old(State()).(obResults := old(obResults) + s.records) && next == s.next && error == s.error
    {
      var records;
      records, next, error := ReadSection(lines, start, ORDERBOOK_END, ParseOrderBookRow);
      obResults := obResults + records;
    }

    /** parseTradeResults: up to the "TRADES END" line. */
    method ParseTradeResults(lines: seq<string>, start: nat) returns (next: nat, error: Option<ParseError>)
      requires start <= |lines|
      modifies this
      ensures var s := ScanSection(lines, start, TRADES_END, ParseTradeRow);
        State() == old(State()).(trResults := old(trResults) + s.records) && next == s.next && error == s.error
    {
      var records;
      records, next, error := ReadSection(lines, start, TRADES_END, ParseTradeRow);
      trResults := trResults + records;
    }

    /** One iteration of parseTestFile's loop, at line `i`. */
    method ReadLineStep(lines: seq<string>, i: nat) returns (step: Step)
      requires i < |lines|
      modifies this
      ensures step == ReadLine(lines, i, old(State())) && State() == step.h
    {
      var line := lines[i];
      if |line| > 0 && line[0] == '-' {
        line := TrimNonDataString(line);
      }
      assert line == AsRead(lines[i]);
      if Find(line, ORDER_THRESHOLD_KEY).Some? {
        step := ReadThreshold(line, i, false);
      } else if Find(line, DURATION_THRESHOLD_KEY).Some? {
        step := ReadThreshold(line, i, true);
      } else {
        step := ReadSectionLine(lines, i, line);
      }
    }

    /** A threshold line: `stoull(line.substr(pos + 2))` after the ':'. */
    method ReadThreshold(line: string, i: nat, isDuration: bool) returns (step: Step)
      modifies this
      ensures step == ThresholdStep(line, i, old(State()), isDuration) && State() == step.h
    {
      match ArgumentValue(line) {
        case Err(e) =>
          return Stop(State(), e);
        case Ok(v) =>
          if v.Some? {
            if isDuration {
              durationThreshold := Wrap(v.value, Int64);
            } else {
              orderThreshold := v.value;
            }
          }
      }
      return Continue(i + 1, State());
    }

    /** A line that is not a threshold line: a section banner runs its
        section parser. */
    method ReadSectionLine(lines: seq<string>, i: nat, line: string) returns (step: Step)
      requires i < |lines|
      modifies this
      ensures step == SectionStep(lines, i, line, old(State())) && State() == step.h
    {
      if Find(line, INCOMING_KEY).Some? {
        var next, error := ParseUpdate(lines, i + 1);
        return AfterSection(next, State(), error);
      } else if Find(line, PREPROCESSOR_KEY).Some? {
        var next, error := ParsePreprocessorResults(lines, i + 1);
        return AfterSection(next, State(), error);
      } else if Find(line, ORDERBOOK_KEY).Some? {
        var next, error := ParseOrderbookResults(lines, i + 1);
        return AfterSection(next, State(), error);
      } else if Find(line, TRADES_KEY).Some? {
        var next, error := ParseTradeResults(lines, i + 1);
        return AfterSection(next, State(), error);
      }
      return Continue(i + 1, State());
    }

    /** parseTestFile over the lines of the file. */
    method ParseTestFile(lines: seq<string>) returns (error: Option<ParseError>)
      modifies this
      ensures (State(), error) == ReadFrom(lines, 0, old(State()))
    {
      var i := 0;
      while i < |lines|
        invariant i <= |lines|
        invariant ReadFrom(lines, i, State()) == ReadFrom(lines, 0, old(State()))
        decreases |lines| - i
      {
        var step := ReadLineStep(lines, i);
        match step {
          case Stop(_, e) => return Some(e);
          case Continue(next, _) => i := next;
        }
      }
      return None;
    }
  }
}
