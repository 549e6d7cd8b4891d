# Order-matching engine and its test fixtures, in Dafny

This project models the core of a small stock exchange ("xchange") written in
C++, together with the Python page that writes its text test fixtures and the
C++ test handler that reads them back.

The fixture layer:

- The **fixture writer** (`tests/sample/TestCaseFormatter.py`) checks five
  tables cell by cell (positive integers, 3-letter symbols,
  `digits_XXXX` participant IDs, order counters). It defaults and checks the
  activation and deactivation times of the incoming orders. It renders each
  table as a bordered text block with `format_table`, and writes the fixture
  as dash banners, two threshold lines and the table blocks.
- The **fixture reader** (`tests/testHandler.cpp`, with
  `utils/helpers/HelperFunctions.{cpp,hpp}`) walks the lines. It strips the
  dashes of banner lines and collapses data lines into space-separated words.
  It reads the two thresholds and parses each section's rows into updates and
  expected results. The string parsers (`parseAction`, `parseSide`,
  `parseOrderType`, `parseOptionalNumeric`, `parseTimeStamp`) are modelled
  with the exceptions they throw.
- The **round trip** (`FixtureRoundTrip.FixtureReadBack`) proves that reading
  a fixture the writer produced raises no exception, and gives back the
  thresholds and every table's rows, in order, as the reader's records. Its
  premise (`ReadableFixture`) is that both thresholds are at most
  ULLONG_MAX and that every non-empty table is readable:
  - every column name is a single word (non-empty, no whitespace, no '|')
    without a digit;
  - every cell is a single word;
  - every row holds at least one digit;
  - every row parses under the reader's row parser.

  The writer does not guarantee that premise (see "Left out").

The engine layer:

- **Order** (`src/Order.cpp`) is a value. It carries the bit-packed 64-bit
  `OrderID`: time in bits 32-63, price in bits 1-31, side in bit 0. The
  model proves that the decoders invert the encoding. It also proves that
  the price-time `operator<` is a strict weak order.
- **Level** (`src/Level.cpp`) is a class. It holds a FIFO list of order IDs,
  an index of order copies and the total remaining quantity. Every method is
  proved against a function on the level's state. The invariant "quantity =
  sum of the listed orders' remaining quantities" is proved to be preserved.
- **OrderBook** (`src/OrderBook.cpp`) is a class holding bid and ask levels
  keyed by price. `AddOrder` reprices market-style orders, places the order
  and runs at most one match. `CancelOrder` finds the level from the price
  in the ID. `MatchPotentialOrders` trades the front orders of the best bid
  and best ask. All three are proved equal to functions whose properties are
  lemmas: who trades, how much, at which price, and that no empty level is
  left behind.
- **PreProcessor** (`src/PreProcess.cpp`) is a class. It buffers adds and
  cancels of one side in ten type-ranked buffers. It flushes them to the
  book when enough are waiting or enough time has passed. Just before an
  order is forwarded it applies the type rules: fill-or-kill, all-or-none,
  immediate-or-cancel, good-after-time, good-for-day and good-till-date.
- **Participant** (`src/Participant.cpp`) is a class. It records the orders
  a participant placed, books the trades that concern it into its trade
  history and portfolio, and reports valuations. The trade index that all
  participants share becomes a shared `TradeCursor` object.
- **Xchange** (`src/Xchange.cpp`) is a class holding the participant
  registry keyed by government ID and the traded symbols, each with its book
  and two preprocessors. It also provides the `placeOrder` entry point for
  add, modify and cancel. The singleton becomes an `ExchangeHolder` object.
  What `placeOrder` does to the participant and to the preprocessor of the
  order's side is stated on snapshots of both (module `Placements`).

The wall clock and the market calendar become a `Clock` parameter: the time
now, whether the market is open, and the next open and close. The writer's
"now" default is also a parameter. Lines of a file are a sequence of strings.

The fixture is read back by `tests/testHandler.cpp`, and the model covers
both the writer and the reader. `Order::Order` in `src/Order.cpp:33-36` takes no participant ID,
while its header and every caller pass one. The model stores the participant
ID the callers pass.

## Model

| member | source | states |
|---|---|---|
| Text.NatToString | tests/sample/TestCaseFormatter.py:378 | a number is rendered as a non-empty digit string, one character exactly when below 10 |
| Text.NatToStringValue | tests/sample/TestCaseFormatter.py:378-379 | the decimal rendering reads back as the number it renders |
| Text.NatToStringInjective | tests/sample/TestCaseFormatter.py:378-379 | distinct numbers get distinct renderings |
| Text.Find | tests/testHandler.cpp:44-64 | `std::string::find` gives the first occurrence, or none when the text does not occur at all |
| Text.StripNoSpace | tests/sample/TestCaseFormatter.py:59 | a string without whitespace is its own `strip()` |
| Text.Repeat | tests/sample/TestCaseFormatter.py:303 | `c * n` is n copies of c |
| DateTimes.StrpTime | tests/sample/TestCaseFormatter.py:124 | strptime accepts only a real calendar instant in the zero-padded layout |
| DateTimes.Format | tests/sample/TestCaseFormatter.py:85 | strftime writes exactly 19 characters |
| DateTimes.StrpTimeFormat | tests/sample/TestCaseFormatter.py:85-86 | strptime reads back exactly what strftime wrote (so the defaults always parse) |
| DateTimes.BeforeIrreflexive | tests/sample/TestCaseFormatter.py:131 | no date-time is after itself |
| DateTimes.BeforeTotal | tests/sample/TestCaseFormatter.py:131 | any two date-times are ordered or equal |
| DateTimes.BeforeTransitive | tests/sample/TestCaseFormatter.py:131 | the date-time order is transitive |
| FixtureWriter.ValidatePositiveInteger | tests/sample/TestCaseFormatter.py:31-36 | no error exactly for a placeholder or a positive digit string |
| FixtureWriter.ValidateDateTime | tests/sample/TestCaseFormatter.py:38-45 | no error exactly for a placeholder or a value strptime accepts with a space separator |
| FixtureWriter.ValidateParticipantId | tests/sample/TestCaseFormatter.py:47-54 | no error exactly for a placeholder or digits, '_' and four alphanumerics |
| FixtureWriter.ValidateSymbol | tests/sample/TestCaseFormatter.py:56-62 | no error exactly for a placeholder or three letters after stripping |
| FixtureWriter.ValidateOrderCounter | tests/sample/TestCaseFormatter.py:64-71 | a counter is required: blank gives "required", "-" gives "cannot be '-'", otherwise it must be a positive digit string |
| FixtureWriter.PositiveIntegerAccepts | tests/sample/TestCaseFormatter.py:31-36 | "7", " - " and a missing cell pass |
| FixtureWriter.PositiveIntegerRejects | tests/sample/TestCaseFormatter.py:31-36 | "0", "-5" and "abc" fail |
| FixtureWriter.ParticipantIdAccepts | tests/sample/TestCaseFormatter.py:47-54 | "123_AB12" passes |
| FixtureWriter.ParticipantIdRejects | tests/sample/TestCaseFormatter.py:47-54 | a three-character suffix or a non-digit head fails |
| FixtureWriter.SymbolExamples | tests/sample/TestCaseFormatter.py:56-62 | " ABC " and "-" pass, "AB1" fails |
| FixtureWriter.OrderCounterPlaceholders | tests/sample/TestCaseFormatter.py:64-68 | no placeholder exempts the counter |
| FixtureWriter.OrderCounterValues | tests/sample/TestCaseFormatter.py:69-71 | "0" is not positive, "12" passes |
| FixtureWriter.ColumnIndex | tests/sample/TestCaseFormatter.py:77 | a column is found at its position, or is absent from the table |
| FixtureWriter.ValidateDataframe | tests/sample/TestCaseFormatter.py:73-81 | the errors are every row's issues, for each check whose column exists |
| FixtureWriter.ValidateRow | tests/sample/TestCaseFormatter.py:76-80 | the inner loop yields the row's issues in mapping order |
| FixtureWriter.TableIssuesInOrder | tests/sample/TestCaseFormatter.py:73-81 | every issue names the table and an existing row, and rows come in order |
| FixtureWriter.IncomingTable | tests/sample/TestCaseFormatter.py:24-27 | the incoming orders form a well-formed table with one row per order |
| FixtureWriter.CheckMandatoryTimes | tests/sample/TestCaseFormatter.py:95-115 | the mandatory-time issues and the defaulted row |
| FixtureWriter.CheckTimeValues | tests/sample/TestCaseFormatter.py:117-134 | the format issues of the present times, then the order check |
| FixtureWriter.ValidateAndFixTimes | tests/sample/TestCaseFormatter.py:88-135 | the issues and the defaulted row of validate_and_fix_times |
| FixtureWriter.ValidateIncomingOrders | tests/sample/TestCaseFormatter.py:137-173 | the issues of every row, and one fixed row per input row |
| FixtureWriter.CheckIncomingRow | tests/sample/TestCaseFormatter.py:140-171 | the issues and the fixed row of one incoming order |
| FixtureWriter.DefaultDeactivateParses | tests/sample/TestCaseFormatter.py:86 | the deactivation default is 1 January 2100, midnight |
| FixtureWriter.ActivateRule | tests/sample/TestCaseFormatter.py:99-106 | a missing activation is defaulted, except that GoodAfterTime gets exactly one "required" issue |
| FixtureWriter.DeactivateRule | tests/sample/TestCaseFormatter.py:108-115 | a missing deactivation becomes 01-01-2100, except that GoodTillCancel and GoodForDay get exactly one "required" issue |
| FixtureWriter.DefaultsParse | tests/sample/TestCaseFormatter.py:104-134 | defaulted times never raise a format issue |
| FixtureWriter.FixedTimeParses | tests/sample/TestCaseFormatter.py:117-129 | a time field with no issue is present and parses |
| FixtureWriter.CleanRowTimes | tests/sample/TestCaseFormatter.py:117-134 | a clean non-Cancel row has both times present, valid and in order |
| FixtureWriter.CancelRowColumns | tests/sample/TestCaseFormatter.py:153-169 | a Cancel row is checked only for its counter and action |
| FixtureWriter.IncomingRowIssuesRow | tests/sample/TestCaseFormatter.py:140-171 | every issue of a row is tagged with that row |
| FixtureWriter.IncomingIssuesInOrder | tests/sample/TestCaseFormatter.py:137-171 | issues of the incoming orders come row by row |
| FixtureWriter.FixedRowKeeps | tests/sample/TestCaseFormatter.py:141-171 | a fixed row differs from its input only in the two time fields |
| FixtureWriter.FixedRowsShape | tests/sample/TestCaseFormatter.py:171-172 | one fixed row per input row, in order |
| FixtureLayout.ColumnWidthIsMax | tests/sample/TestCaseFormatter.py:301 | a column width is the longest of its header and cells |
| FixtureLayout.Widths | tests/sample/TestCaseFormatter.py:301 | one width per column |
| FixtureLayout.PadRight | tests/sample/TestCaseFormatter.py:302 | `{:<w}` keeps the text and pads with spaces to width w, never cutting |
| FixtureLayout.FormatLineLength | tests/sample/TestCaseFormatter.py:302-307 | a line of fitting cells is sum(widths) + 3·ncols + 1 long and starts with '\|' |
| FixtureLayout.FormatTable | tests/sample/TestCaseFormatter.py:298-309 | format_table's loop produces the table text |
| FixtureLayout.FormatRows | tests/sample/TestCaseFormatter.py:306-307 | the row loop appends one line per row in row order |
| FixtureLayout.TableTextTerminated | tests/sample/TestCaseFormatter.py:303-308 | the table text is rule, header, rule, rows, rule, each ended by a newline |
| FixtureLayout.LinesFit | tests/sample/TestCaseFormatter.py:301 | the header and every cell fit their column |
| FixtureLayout.TableShape | tests/sample/TestCaseFormatter.py:298-309 | 4 + nrows lines: header on line 1, row i on line 3 + i, all-dash rules on lines 0, 2 and last |
| FixtureLayout.TableLineLengths | tests/sample/TestCaseFormatter.py:301-308 | every line, rules included, has the same length |
| FixtureLayout.TableLineStarts | tests/sample/TestCaseFormatter.py:303-308 | every table line starts with '-' or '\|' |
| FixtureLayout.Banner | tests/sample/TestCaseFormatter.py:377-399 | a banner is 51 characters and starts with a dash |
| FixtureLayout.BannerTexts | tests/sample/TestCaseFormatter.py:377-399 | the first and last banners are spelled as written; all nine are built by Banner |
| FixtureLayout.GenerateTestFile | tests/sample/TestCaseFormatter.py:311-399 | the button handler either reports all issues or yields the fixture text |
| FixtureLayout.WriteFixture | tests/sample/TestCaseFormatter.py:376-399 | the write sequence produces the fixture lines, newline-terminated |
| FixtureLayout.WriteLine | tests/sample/TestCaseFormatter.py:377 | one write adds one terminated line |
| FixtureLayout.WriteBlock | tests/sample/TestCaseFormatter.py:381-382 | a non-empty table adds its block, an empty one nothing |
| FixtureLayout.FixtureLineStarts | tests/sample/TestCaseFormatter.py:376-399 | every fixture line starts with '-', '\|' or a threshold key, and "<empty>" never appears |
| FixtureLayout.NoEmptyMarker | tests/sample/TestCaseFormatter.py:299-300 | a well-starting line is never the "<empty>" placeholder |
| FixtureLayout.SectionsStartWell | tests/sample/TestCaseFormatter.py:380-399 | the section skeleton keeps every line well-starting |
| HelperFunctions.ParseOptionalString | utils/helpers/HelperFunctions.cpp:5-10 | absent exactly for "-" and "", the text itself otherwise |
| HelperFunctions.ParseActionSpec | utils/helpers/HelperFunctions.cpp:31-39 | accepts exactly Add, Cancel and Modify, otherwise throws "Unknown Action" |
| HelperFunctions.ParseSideSpec | utils/helpers/HelperFunctions.cpp:41-47 | accepts exactly Buy and Sell, otherwise throws "Unknown Side" |
| HelperFunctions.ParseOrderTypeSpec | utils/helpers/HelperFunctions.cpp:49-72 | accepts exactly the names of the ten order types, otherwise throws |
| HelperFunctions.ParseOrderTypeGetType | src/PreProcess.cpp:625-650 | every name the engine prints for a type parses back to it |
| HelperFunctions.ParseSideName | utils/helpers/HelperFunctions.cpp:41-47 | a side's name parses back to it |
| HelperFunctions.ParseActionName | utils/helpers/HelperFunctions.cpp:31-39 | an action's name parses back to it |
| HelperFunctions.LeadingDigits | utils/helpers/HelperFunctions.hpp:18 | the longest digit prefix `stoll` consumes |
| HelperFunctions.StoLL | utils/helpers/HelperFunctions.hpp:18 | a converted value lies in the range of long long |
| HelperFunctions.StoULL | tests/testHandler.cpp:48 | a converted value lies in the range of unsigned long long |
| HelperFunctions.Wrap | utils/helpers/HelperFunctions.hpp:18 | the `static_cast` to a fixed width lands in range and keeps in-range values |
| HelperFunctions.ParseOptionalNumericAbsent | utils/helpers/HelperFunctions.hpp:15-16 | only "-" and "" are absent |
| HelperFunctions.ParseOptionalNumericDigits | utils/helpers/HelperFunctions.hpp:18 | a digit string gives its value, cast to the target type |
| HelperFunctions.ParseOptionalNumericNegative | utils/helpers/HelperFunctions.hpp:15-18 | "-5" is a number, not a placeholder |
| HelperFunctions.ParseOptionalNumericPrefix | utils/helpers/HelperFunctions.hpp:18 | a numeric prefix is taken and the rest ignored |
| HelperFunctions.ParseOptionalNumericInvalid | utils/helpers/HelperFunctions.hpp:18 | text with no numeric prefix throws invalid_argument |
| HelperFunctions.ParseTimeStamp | utils/helpers/HelperFunctions.cpp:13-19 | a parsed time has the layout, its fields, and get_time's field ranges |
| HelperFunctions.ParseTimeStampAcceptsStrpTime | tests/testHandler.cpp:277-293 | every date-time the writer's strptime accepts is read back unchanged |
| ReaderText.RemoveChars | tests/testHandler.cpp:218-225 | deleting a character leaves none of it and adds nothing |
| ReaderText.TrimNonDataString | tests/testHandler.cpp:218-225 | the loop drops every '-' of the line |
| ReaderText.ContainsNoDigits | tests/testHandler.cpp:227-234 | true exactly when no character is a digit |
| ReaderText.JoinPieces | tests/testHandler.cpp:206-216 | the pieces between delimiters join back to the string |
| ReaderText.SplitString | tests/testHandler.cpp:206-216 | the getline loop yields the delimiter-separated tokens |
| ReaderText.JoinSplit | tests/testHandler.cpp:206-216 | tokens join back to the string, less one trailing delimiter |
| ReaderText.SplitJoin | tests/testHandler.cpp:206-216 | splitting words joined by spaces gives the words back |
| ReaderText.WordsAreWords | tests/testHandler.cpp:238-258 | every word is non-empty, with no whitespace and no '\|' |
| ReaderText.WordsSplit | tests/testHandler.cpp:246-247 | a whitespace character separates the words of both sides |
| ReaderText.TrimDataString | tests/testHandler.cpp:238-258 | the loop produces the line's words joined by single spaces |
| ReaderText.TrimDataShape | tests/testHandler.cpp:238-258 | the result has no '\|', no outer whitespace, and splits at spaces into its non-empty words |
| ReaderText.JoinOfWords | tests/testHandler.cpp:238-258 | words joined by spaces have no '\|' and no outer whitespace |
| FixtureReader.ParseUpdateRow | tests/testHandler.cpp:109-128 | each field is parsed from its token with the helper's exceptions; a row with too few tokens is an error (the source indexes past the end) |
| FixtureReader.ParsePreProcessorRow | tests/testHandler.cpp:144-152 | a row with too few tokens is an error |
| FixtureReader.ParseOrderBookRow | tests/testHandler.cpp:168-175 | a row with too few tokens is an error |
| FixtureReader.ParseTradeRow | tests/testHandler.cpp:191-198 | a row with too few tokens is an error |
| FixtureReader.ColumnNames | tests/sample/TestCaseFormatter.py:24-27 | the writer's column positions, by name |
| FixtureReader.UpdateRowColumns | tests/testHandler.cpp:110-127 | every update field comes from the writer's column of that name |
| FixtureReader.PreProcessorRowColumns | tests/testHandler.cpp:145-151 | every preprocessor result field comes from its column |
| FixtureReader.OrderBookRowColumns | tests/testHandler.cpp:169-174 | every order-book result field comes from its column |
| FixtureReader.TradeRowColumns | tests/testHandler.cpp:192-197 | every trade result field comes from its column |
| FixtureReader.ScanSection | tests/testHandler.cpp:97-130 | a section parser never goes back, and a record list only grows |
| FixtureReader.ScanSectionShape | tests/testHandler.cpp:99-129 | one record per data line, stopping only at the first end marker or the end of the file |
| FixtureReader.ReadSection | tests/testHandler.cpp:97-130 | the loop over lines computes the section scan |
| FixtureReader.ArgumentValue | tests/testHandler.cpp:44-56 | no ':' leaves the threshold, a ':' in last position throws out_of_range, else `stoull` of the rest |
| FixtureReader.ReadLine | tests/testHandler.cpp:40-67 | one loop iteration tries the keywords in the source's order |
| FixtureReader.ThresholdStep | tests/testHandler.cpp:44-56 | a threshold line sets the order or duration threshold |
| FixtureReader.SectionStep | tests/testHandler.cpp:57-66 | a section keyword runs its parser, any other line is passed over |
| FixtureReader.ReadLineExtends | tests/testHandler.cpp:40-67 | one line never takes a record away |
| FixtureReader.ReadFromExtends | tests/testHandler.cpp:32-69 | reading never forgets a record |
| FixtureReader.TestHandler.constructor | tests/testHandler.hpp:63-87 | a handler starts with empty record lists |
| FixtureReader.TestHandler.ParseUpdate | tests/testHandler.cpp:97-130 | appends the scanned updates up to "EXPECTED RESULT" |
| FixtureReader.TestHandler.ParsePreprocessorResults | tests/testHandler.cpp:132-154 | appends the results up to "PREPROCESSOR END" |
| FixtureReader.TestHandler.ParseOrderbookResults | tests/testHandler.cpp:156-177 | appends the results up to "ORDERBOOK END" |
| FixtureReader.TestHandler.ParseTradeResults | tests/testHandler.cpp:179-200 | appends the results up to "TRADES END" |
| FixtureReader.TestHandler.ReadLineStep | tests/testHandler.cpp:40-67 | one iteration updates the handler as ReadLine says |
| FixtureReader.TestHandler.ReadThreshold | tests/testHandler.cpp:44-56 | a threshold line updates the handler as ThresholdStep says |
| FixtureReader.TestHandler.ReadSectionLine | tests/testHandler.cpp:57-66 | a banner line updates the handler as SectionStep says |
| FixtureReader.TestHandler.ParseTestFile | tests/testHandler.cpp:32-69 | the whole loop reads the file as ReadFrom says, error included |
| FixtureRoundTrip.WordsFormatLine | tests/testHandler.cpp:100-109 | a line format_table writes collapses to exactly its cells |
| FixtureRoundTrip.FormatLineDigit | tests/testHandler.cpp:104-105 | a written line is skipped as digit-free exactly when all its cells are |
| FixtureRoundTrip.RuleSkipped | tests/testHandler.cpp:100-103 | a table rule is passed over by every section parser |
| FixtureRoundTrip.BannerName | tests/testHandler.cpp:41-42 | a banner reads as its name once the dashes are dropped |
| FixtureRoundTrip.BlockRead | tests/testHandler.cpp:99-129 | a written table block reads back as its rows' records, in order |
| FixtureRoundTrip.ThresholdValue | tests/testHandler.cpp:44-56 | a threshold line the writer produces reads back as its number |
| FixtureRoundTrip.OrderLine | tests/testHandler.cpp:44-49 | the order-threshold line sets that threshold |
| FixtureRoundTrip.DurationLine | tests/testHandler.cpp:50-56 | the duration-threshold line sets that threshold |
| FixtureRoundTrip.EndBannerCloses | tests/testHandler.cpp:101 | an end banner closes its own section |
| FixtureRoundTrip.EndMarkers | tests/testHandler.cpp:136 | the reader's end markers are the names of the writer's end banners |
| FixtureRoundTrip.SectionRead | tests/testHandler.cpp:97-130 | a parser reads a block up to its end banner and goes on after it |
| FixtureRoundTrip.PairRead | tests/sample/TestCaseFormatter.py:385-388 | the bid and ask tables of a section read back one after the other |
| FixtureRoundTrip.HeadRead | tests/sample/TestCaseFormatter.py:377-379 | the first three lines set the two thresholds |
| FixtureRoundTrip.SectionsRead | tests/testHandler.cpp:57-64 | the four sections read to the end of the file, appending their records |
| FixtureRoundTrip.LaidOutRead | tests/testHandler.cpp:32-69 | lines laid out as a fixture read without an exception |
| FixtureRoundTrip.FixtureReadBack | tests/sample/TestCaseFormatter.py:376-399 | given both thresholds at most ULLONG_MAX and, in every non-empty table, single-word column names without digits, single-word cells, a digit in every row and every row parsing under the reader's row parser, reading the written fixture raises nothing and gives back the thresholds and every table's rows |
| Orders.TimePart | src/Order.cpp:125 | the time part of an ID fits in 64 bits |
| Orders.PricePart | src/Order.cpp:126 | the price part of an ID fits in 64 bits |
| Orders.DecodePrice | src/OrderBook.cpp:23-29 | the decoded price lies in [0, 2^31) |
| Orders.TimeBits | src/PreProcess.cpp:54-55 | the time bits lie in [0, 2^32) |
| Orders.EncodeFields | src/Order.cpp:107-130 | for a 31-bit price the OR of the parts is time·2^32 + 2·price + side |
| Orders.DecodeEncode | src/Order.cpp:124-127 | side, price and time decode back from an encoded ID |
| Orders.IdFromFields | src/PreProcess.cpp:42-67 | side, price and time bits determine the ID |
| Orders.NewOrder | src/Order.cpp:33-63 | the ID encodes side, price and time; absent times default to creation and the end of time |
| Orders.SideBit | src/OrderBook.cpp:17-21 | bit 0 of an ID is the side flag for any price |
| Orders.CopyOrder | src/Order.cpp:100-105 | a copy keeps the trading fields and drops the timestamp, participant and status |
| Orders.LessIsKeyOrder | src/Order.cpp:137-148 | between orders of one side, `<` is the lexicographic (price, time, larger quantity) order |
| Orders.LessStrictWeakOrder | src/Order.cpp:137-148 | `<` is irreflexive, and on one side transitive with transitive incomparability |
| Orders.EqualIncomparable | src/Order.cpp:150-157 | equal orders are incomparable under `<` |
| Orders.CopyEqual | src/Order.cpp:100-105 | a copy equals its original exactly when the original's timestamp is the epoch |
| Orders.FillPartially | src/Order.cpp:131-134 | a fill lowers the remaining quantity by exactly q and changes nothing else |
| Orders.FillCompletes | src/Order.cpp:159 | a fill leaves the order fully filled exactly when it takes all that remained |
| Levels.RemoveID | src/Level.cpp:41-55 | erasing an ID removes every occurrence and nothing else |
| Levels.TotalRemove | src/Level.cpp:41-55 | removing a listed ID lowers the sum by its remaining quantity |
| Levels.TotalUpdate | src/Level.cpp:62-64 | changing one order's remaining quantity moves the sum by the same amount |
| Levels.RemoveIDAt | src/Level.cpp:66-77 | erasing keeps the other orders in their FIFO order |
| Levels.LevelAddKeepsValid | src/Level.cpp:19-39 | a known ID is ignored; a new order goes to the back, and the quantity grows by its remaining quantity |
| Levels.LevelCancelKeepsValid | src/Level.cpp:41-55 | cancel keeps the invariant and the ID is gone |
| Levels.LevelCancelRemovesOne | src/Level.cpp:41-55 | an unknown ID changes nothing; a known one lowers the quantity by its remaining quantity and keeps the others' order |
| Levels.LevelModifyKeepsValid | src/Level.cpp:57-60 | modify keeps the invariant and replaces the old ID |
| Levels.LevelFillKeepsValid | src/Level.cpp:62-64 | filling the front order and lowering the level quantity restores the invariant |
| Levels.LevelRemoveFrontKeepsValid | src/Level.cpp:66-77 | removing a used-up front order leaves the rest of the list and the lowered quantity |
| Levels.ZeroQuantity | src/OrderBook.cpp:191-192 | a level's quantity is zero exactly when all its orders are used up |
| Levels.Level.constructor | src/Level.cpp:6-7 | a new level is empty, and valid exactly when created with quantity 0 |
| Levels.Level.AddOrder | src/Level.cpp:19-39 | AddOrder performs LevelAdd and keeps the invariant |
| Levels.Level.CancelOrder | src/Level.cpp:41-55 | CancelOrder performs LevelCancel and keeps the invariant |
| Levels.Level.ModifyOrder | src/Level.cpp:57-60 | ModifyOrder performs cancel then add and keeps the invariant |
| Levels.Level.UpdateLevelQuantityPostMatch | src/Level.cpp:62-64 | the level quantity drops by the filled quantity |
| Levels.Level.RemoveMatchedOrder | src/Level.cpp:66-77 | removing a used-up order keeps the invariant |
| OrderBooks.MinKey | src/OrderBook.cpp:155 | `begin()` of the asks is the lowest ask price |
| OrderBooks.MaxKey | src/OrderBook.cpp:154 | `begin()` of the bids is the highest bid price |
| OrderBooks.PlaceOn | src/OrderBook.cpp:68-82 | placing an order keeps the side valid |
| OrderBooks.PlaceKeepsLevelValid | src/OrderBook.cpp:69-74 | the receiving level stays valid and non-empty |
| OrderBooks.Placed | src/OrderBook.cpp:43-82 | both sides stay valid after a placement |
| OrderBooks.RepriceSpec | src/OrderBook.cpp:43-63 | a market-style order becomes GoodTillCancel at the worst opposite price; others are untouched |
| OrderBooks.PlaceOnSpec | src/OrderBook.cpp:68-82 | the order is indexed at its price and every other level is untouched |
| OrderBooks.PlaceOnNoEmpty | src/OrderBook.cpp:68-82 | placing an order with quantity left adds no empty level |
| OrderBooks.SettleLevel | src/OrderBook.cpp:180-198 | a match lowers the best level by q and removes a used-up front order |
| OrderBooks.SettleSide | src/OrderBook.cpp:186-201 | settling keeps the side valid |
| OrderBooks.SettleSideSpec | src/OrderBook.cpp:186-201 | settling touches only the best level; a remaining level keeps a positive quantity |
| OrderBooks.Match | src/OrderBook.cpp:147-210 | a match keeps both sides valid |
| OrderBooks.MatchNoTrade | src/OrderBook.cpp:149-160 | no trade, and no change, exactly when a side is empty or the best bid is below the best ask |
| OrderBooks.MatchTrade | src/OrderBook.cpp:163-209 | the trade fills the smaller front quantity at the best ask's price, so one front order is used up |
| OrderBooks.MatchQuantities | src/OrderBook.cpp:183-184 | each best level leaves or holds exactly the filled quantity less |
| OrderBooks.SettleBoth | src/OrderBook.cpp:180-202 | both sides are settled by the same quantity and nothing else moves |
| OrderBooks.MatchNoEmptyLevel | src/OrderBook.cpp:186-202 | a match leaves no empty level behind |
| OrderBooks.CancelOn | src/OrderBook.cpp:93-112 | cancelling keeps a side valid |
| OrderBooks.Cancelled | src/OrderBook.cpp:87-118 | both sides stay valid after a cancel |
| OrderBooks.CancelKeepsValid | src/OrderBook.cpp:87-118 | the ID leaves the level at its decoded price, no other level changes, no empty level remains |
| OrderBooks.CancelMissesOtherPrices | src/OrderBook.cpp:88-98 | an order resting at another price than its ID encodes is never cancelled |
| OrderBooks.AsksAtMostSum | src/PreProcess.cpp:375-382 | the early-exit walk over asks sums exactly the levels at or below the limit |
| OrderBooks.BidsAtLeastSum | src/PreProcess.cpp:383-390 | the early-exit walk over bids sums exactly the levels at or above the limit |
| OrderBooks.OrderBook.constructor | include/OrderBook.hpp:25 | a new book for a symbol is empty |
| OrderBooks.OrderBook.AddOrder | src/OrderBook.cpp:37-84 | another symbol is refused; otherwise the book is the match of the placed sides, and the trade is returned |
| OrderBooks.OrderBook.PlaceAt | src/OrderBook.cpp:68-82 | the level is created when missing and receives the order |
| OrderBooks.OrderBook.CancelOrder | src/OrderBook.cpp:87-118 | the book becomes Cancelled of its sides, and no trade results |
| OrderBooks.OrderBook.CancelAt | src/OrderBook.cpp:93-112 | the level at the decoded price cancels the ID and leaves when empty |
| OrderBooks.OrderBook.ModifyOrder | src/OrderBook.cpp:120-124 | cancel, then add |
| OrderBooks.OrderBook.CanMatchOrder | src/OrderBook.cpp:127-144 | a bid can trade iff some ask is at or below it; an ask iff some bid is at or above it |
| OrderBooks.OrderBook.SettleBest | src/OrderBook.cpp:180-201 | one side's part of a match equals SettleSide |
| OrderBooks.OrderBook.MatchPotentialOrders | src/OrderBook.cpp:147-210 | the book becomes the match of its sides, returning its trade |
| OrderBooks.OrderBook.MatchSides | src/OrderBook.cpp:149-209 | the body of MatchPotentialOrders equals Match |
| PreProcessing.TruncDiv | src/PreProcess.cpp:235-237 | duration_cast rounds toward zero |
| PreProcessing.TypeRank | src/PreProcess.cpp:599-611 | every type has a buffer rank below 10, and the rank table inverts it |
| PreProcessing.RankTypeInverse | src/PreProcess.cpp:613-623 | the two rank tables are mutually inverse |
| PreProcessing.IdBeforeOrder | src/PreProcess.cpp:42-67 | on one side the comparator is a strict total order whose equivalence is ID equality |
| PreProcessing.FirstExists | src/PreProcess.cpp:278-279 | a non-empty buffer has a first entry in comparator order |
| PreProcessing.BufferedKeepsValid | src/PreProcess.cpp:103-111 | buffering a seen entry keeps the buffers valid |
| PreProcessing.UnbufferedKeepsValid | src/PreProcess.cpp:188-194 | erasing an entry keeps the buffers valid |
| PreProcessing.BufferedCounts | src/PreProcess.cpp:106 | buffering a new ID adds one to the count, a held one nothing |
| PreProcessing.UnbufferedCounts | src/PreProcess.cpp:192 | erasing a held ID takes one off the count |
| PreProcessing.AvailableCrossing | src/PreProcess.cpp:369-393 | the walk counts exactly the resting quantity the order crosses |
| PreProcessing.QtyAvailableForMatch | src/PreProcess.cpp:369-393 | the loop computes the available quantity |
| PreProcessing.Admitted | src/PreProcess.cpp:122-126 | an admitted day order expires at the next close; others are unchanged |
| PreProcessing.Trimmed | src/PreProcess.cpp:438-443 | an immediate-or-cancel order keeps the smaller of its quantity and what the book can fill |
| PreProcessing.AdmitsWholeFill | src/PreProcess.cpp:424-437 | fill-or-kill and all-or-none are admitted iff the crossing quantity covers them; only a refused fill-or-kill is withdrawn |
| PreProcessing.AdmitsTimed | src/PreProcess.cpp:409-422 | day and dated orders pass before deactivation and are withdrawn after; good-after-time waits for activation |
| PreProcessing.PreProcessor.constructor | src/PreProcess.cpp:84-95 | the given limits, empty buffers, and the flush clock at now |
| PreProcessing.PreProcessor.WithDefaults | src/PreProcess.cpp:73-82 | limits 3 orders and 100 ms, empty buffers |
| PreProcessing.PreProcessor.SetMaxPendingOrdersThreshold | src/PreProcess.cpp:550-552 | only the threshold changes |
| PreProcessing.PreProcessor.SetMaxPendingDuration | src/PreProcess.cpp:558-560 | only the duration changes |
| PreProcessing.PreProcessor.HasOrderEnteredOrderbook | src/PreProcess.cpp:141-159 | not entered exactly when the ID is still buffered under its type with both records |
| PreProcessing.PreProcessor.GetBufferedOrderCount | src/PreProcess.cpp:214-220 | the sum of the buffer sizes |
| PreProcessing.PreProcessor.InsertIntoPreprocessing | src/PreProcess.cpp:103-111 | the entry is buffered and recorded; without a due flush nothing else changes |
| PreProcessing.PreProcessor.InsertAddOrderIntoPreprocessing | src/PreProcess.cpp:113-132 | a missing, already-held, or closed-market day order is ignored; otherwise the stamped order is recorded and buffered |
| PreProcessing.PreProcessor.InsertCancelOrderIntoPreProcessing | src/PreProcess.cpp:134-139 | a cancel entry is buffered and recorded |
| PreProcessing.PreProcessor.RemoveFromPreprocessing | src/PreProcess.cpp:162-197 | an unseen ID is ignored; an entered order gets a cancel entry; a waiting one loses its records and buffer entry |
| PreProcessing.PreProcessor.ModifyInPreprocessing | src/PreProcess.cpp:199-206 | the old waiting order is gone and the new one is seen |
| PreProcessing.PreProcessor.TryFlush | src/PreProcess.cpp:229-251 | no flush and no change unless count or elapsed time reaches its limit; a flush resets the clock and leaves the market-on-close and market-on-open buffers as they were outside their minute |
| PreProcessing.PreProcessor.QueueOrdersForInsertion | src/PreProcess.cpp:253-268 | the flush keeps the invariant and only forgets orders; outside the closing minute the market-on-close buffer, and outside the opening minute the market-on-open buffer, are left as they were |
| PreProcessing.PreProcessor.EmptyTypeRankedOrders | src/PreProcess.cpp:270-314 | emptying a buffer keeps the invariant and only forgets orders; the market-on-close and market-on-open buffers, unless they are the one emptied, stay as they were outside their minute |
| PreProcessing.PreProcessor.EmptyOrderIntoOrderbook | src/PreProcess.cpp:315-338 | nothing while closed; otherwise the book receives the add or cancel and filled orders are forgotten |
| PreProcessing.PreProcessor.ClearSeenOrdersWhenMatched | src/PreProcess.cpp:340-361 | exactly the fully filled orders of this side named in trades are forgotten |
| PreProcessing.PreProcessor.ClearSeen | src/PreProcess.cpp:345-360 | the walk drops exactly the cleared set, whatever the trade order |
| PreProcessing.PreProcessor.CanInsertOrderIntoOrderbook | src/PreProcess.cpp:395-446 | the answer is the type rule; an expired or unfillable order still waiting is withdrawn, and one that already reached the book gets a cancel entry queued at its rank (unless a flush is then due); immediate-or-cancel is trimmed; the market-on-close and market-on-open buffers stay as they were outside their minute |
| Participants.TradeCursor.constructor | src/Participant.cpp:13 | the shared trade index starts at 0 |
| Participants.RelevantExactly | src/Participant.cpp:56-69 | the kept trades are exactly those that concern the participant |
| Participants.StatusAfter | src/Participant.cpp:86-90 | status updates keep the set of orders |
| Participants.StatusOnly | src/Participant.cpp:86-90 | only the status changes, only to Fulfilled, and only for used-up orders |
| Participants.WorthRemove | src/Participant.cpp:112-117 | the worth is one symbol's amount plus the worth of the rest |
| Participants.WorthUpdate | src/Participant.cpp:95-100 | setting one amount moves the worth by the difference |
| Participants.WorthAfterTrades | src/Participant.cpp:53-83 | recording trades moves the worth by exactly their cash flow |
| Participants.OneTradeBooking | src/Participant.cpp:92-101 | a buy adds to the symbol's amount, a sell subtracts, no other symbol moves |
| Participants.Participant.constructor | src/Xchange.cpp:74 | a new participant has no ID, orders, trades or portfolio |
| Participants.Participant.SetParticipantID | src/Participant.cpp:151-153 | only the ID changes |
| Participants.Participant.RecordNonCancelOrder | src/Participant.cpp:29-51 | a new order is created and filed under its ID in both registries |
| Participants.Participant.RecordCancelOrder | src/Participant.cpp:22-27 | an order the participant placed is forgotten; any other ID is ignored |
| Participants.Participant.GetOrderInformation | src/Participant.cpp:119-122 | the recorded information, or none where `at` throws |
| Participants.Participant.GetValuationOfSymbol | src/Participant.cpp:106-110 | the symbol's amount, 0 when absent |
| Participants.Participant.GetValuationOfPortfolio | src/Participant.cpp:112-117 | the sum over the portfolio |
| Participants.Participant.RecordTrades | src/Participant.cpp:53-84 | the relevant trades are appended, booked ones move the portfolio, and the cursor advances by the number kept |
| Participants.Participant.UpdateOrderStatus | src/Participant.cpp:86-90 | a fully filled order becomes Fulfilled; otherwise nothing changes |
| Participants.Participant.UpdatePortfolio | src/Participant.cpp:92-101 | the symbol's amount moves by ±price·quantity, and so does the worth |
| Exchange.SizeT | src/Xchange.cpp:38 | `static_cast<size_t>` of an int wraps negatives |
| Exchange.AfterLastUnderscore | src/Xchange.cpp:90-98 | the reverse scan collects the '_'-free suffix after the last '_' |
| Exchange.FirstUnderscore | src/Xchange.cpp:63-64 | the position of the first '_', if any |
| Exchange.GovIDRecovered | src/Xchange.cpp:58-66 | the government ID is recovered from every generated participant ID |
| Exchange.AsWrittenRecovery | src/Xchange.cpp:90-98 | the scan as written recovers the government ID iff it holds no '_' |
| Exchange.AsWrittenLosesGovID | src/Xchange.cpp:90-101 | "HIHD2_J" is looked up as "J" on removal |
| Exchange.ScanGovIDAsWritten | src/Xchange.cpp:90-98 | the loop as written computes the suffix after the last '_' |
| Exchange.ScanGovID | src/Xchange.cpp:90-98 | the corrected loop computes the text after the first '_' |
| Exchange.SymbolInfo.constructor | src/SymbolInfo.cpp:12-23 | a new symbol has an empty book and two preprocessors with the given limits |
| Exchange.SymbolInfo.PreFor | src/Xchange.cpp:143-145 | Buy selects the bid preprocessor |
| Exchange.TableGrow | src/Xchange.cpp:195-203 | adding a symbol with a valid book and preprocessors keeps the symbol table valid |
| Exchange.TableShrink | src/Xchange.cpp:205-210 | dropping a symbol keeps the rest of the table valid |
| Exchange.RegistryAdd | src/Xchange.cpp:72-77 | registering a new government ID keeps the registry paired |
| Exchange.RegistryRemove | src/Xchange.cpp:81-103 | removing a participant with its government ID keeps the registry paired, and the source's asserts hold |
| Exchange.Xchange.constructor | src/Xchange.cpp:27 | the given limits and time zone, and empty registries |
| Exchange.Xchange.GenerateParticipantID | src/Xchange.cpp:58-66 | a known government ID keeps its ID; otherwise count, '_' and the government ID, unused so far |
| Exchange.Xchange.AddParticipant | src/Xchange.cpp:68-79 | a registered government ID gets its ID back; otherwise a fresh participant is registered |
| Exchange.Xchange.Enrol | src/Xchange.cpp:72-78 | a fresh participant under a new ID is registered |
| Exchange.Xchange.RemoveParticipant | src/Xchange.cpp:81-103 | an unknown ID is ignored; otherwise the participant, its government ID and the pairing go |
| Exchange.Xchange.TradeNewSymbol | src/Xchange.cpp:195-203 | a known symbol is kept; an unsupported time zone throws; otherwise an empty book is added |
| Exchange.Xchange.RetireOldSymbol | src/Xchange.cpp:205-210 | the symbol is dropped and nothing else changes |
| Exchange.Xchange.GetOrderBook | src/Xchange.cpp:212-217 | the symbol's book, none for an untraded symbol |
| Exchange.Xchange.GetPreProcessor | src/Xchange.cpp:219-228 | the side's preprocessor of the symbol, none for an untraded symbol |
| Exchange.Xchange.GetParticipantIDFromGovID | src/Xchange.cpp:255-261 | the participant carrying the government ID, "" when unknown |
| Exchange.Xchange.PlaceOrder | src/Xchange.cpp:106-189 | missing inputs give none; a cancel with full fields fails the assert and changes nothing; a complete add to a traded symbol returns the new order's ID; for an untraded symbol the participant records the order built (if any) and the call throws; altered side/type/symbol throws after recording; otherwise the participant records the order and it is routed through its side's preprocessor as PlacementRouted says: an add leaves the participant alone and, unless ignored (then nothing changes), is seen and, when no flush follows, is queued in its buffer, admitted to the composition and its action info recorded with nothing else changed; a matching cancel of an order that reached the book queues a Cancel entry; a matching cancel of a waiting order drops it from buffer, action info and composition; a matching modify or cancel is forgotten by the participant unless it reached the book; a modify with no new order and an add without full fields leave the preprocessor unchanged; every other symbol, the other side's preprocessor and every other participant are unchanged |
| Exchange.Xchange.PlaceChecked | src/Xchange.cpp:125-189 | placeOrder once its inputs are present: the outcomes as PlaceOrder (bundled in Answer), the whole routing effect on the participant and its side's preprocessor as PlacementRouted says for a traded symbol, the recorded participant for an untraded one, the returned order ID and the frames, over the exchange's own participant and symbol tables |
| Exchange.PlaceForParticipant | src/Xchange.cpp:125-188 | placeOrder after the participant check: the outcomes as Answer says, PlacementRouted for a traded symbol, the participant as Recorded says for an untraded one; other symbols and the other side are unchanged |
| Exchange.RecordUnrouted | src/Xchange.cpp:125-139 | an untraded symbol or a complete cancel: the participant ends as Recorded says (a complete cancel changes nothing) and the call fails with the assertion failure or out-of-range |
| Exchange.RecordAndRoute | src/Xchange.cpp:125-189 | for a traded symbol: the participant records the order built (if any), which is then routed as PlacementRouted says; the outcomes as Answer says |
| Exchange.NewParticipant | src/Xchange.cpp:74-75 | a fresh participant carrying the given ID |
| Exchange.RecordPlacement | src/Xchange.cpp:125-137 | with all fields the participant records a new order (a cancel fails the assert): its placed orders and order objects gain exactly that order under its ID, and its portfolio and history stay; otherwise nothing changes; the result is the participant as Placements.Recorded describes (built from PlacedWith and OrdersWith) |
| Exchange.RouteToSymbol | src/Xchange.cpp:139-188 | the order is routed through that symbol's preprocessor of its side as Placements.Routed says (an add returns its ID, leaves the participant alone and follows AddRouted; a matching modify or cancel is forgotten by the participant only if it has not reached the book and follows MatchRouted; anything else changes neither); altered side/type/symbol throws; other symbols are untouched |
| Exchange.RouteThroughSide | src/Xchange.cpp:143-188 | the same routing (Placements.Routed) on one symbol's preprocessor of the order's side; the symbol's book and both preprocessors stay valid |
| Exchange.RouteOrder | src/Xchange.cpp:149-188 | an add returns its ID and changes the preprocessor as AddRouted says (ignored: nothing changes; otherwise seen, and without a flush queued, admitted and its action info recorded with nothing else changed); a modify or cancel without an old ID, with an unknown one, or with altered side, type or symbol throws and changes nothing; a matching one proceeds as ApplyMatching says |
| Exchange.ApplyMatching | src/Xchange.cpp:165-189 | the participant forgets the order only if it has not reached the book; the preprocessor changes as MatchRouted says: a cancel of an unseen order changes nothing, of an entered one queues a Cancel entry (no flush), of a waiting one drops it from composition and, without a flush, from its buffer and action info with nothing else changed; a modify removes the old waiting order and records the new one as seen; a modify with no new order changes nothing |
| Placements.Placement | src/Xchange.cpp:125-137 | an order is built exactly when price, quantity and both times are given, and it carries the symbol, type, side, participant, price, quantity, the time now and an ID encoding its side |
| Placements.EnteredAsViewed | src/PreProcess.cpp:141-159 | hasOrderEnteredOrderbook agrees with EnteredIn read off the preprocessor's snapshot, which Routed and MatchRouted use |
| Exchange.ExchangeHolder.constructor | src/Xchange.cpp:25 | no instance yet |
| Exchange.ExchangeHolder.GetInstance | src/Xchange.cpp:33-43 | the first call with a supported time zone creates the exchange; later calls return it |
| Exchange.ExchangeHolder.GetDefaultInstance | src/Xchange.cpp:45-48 | getInstance with "Asia/Kolkata" |
| Exchange.ExchangeHolder.DestroyInstance | src/Xchange.cpp:52 | the instance is gone |

## Left out

- The Streamlit page itself (inputs, buttons, messages) and the file system
  are not modelled. The writer's result is the fixture text, or its issues.
  The reader's input is the sequence of lines.
- The writer's "now" (`DEFAULT_ACTIVATE_TIME`) is a parameter.
- `mktime` and the conversion to `time_point` are left out. `parseTimeStamp`
  and `convertDateTimeToTimeStamp` stop at the broken-down time. The
  engine's own time stamps are integers in nanoseconds.
- `strptime` and `std::get_time` are modelled strictly: two-digit fields,
  the exact layout with exactly one space, and a real calendar date. Python
  accepts some non-padded fields and matches the format's space against any
  run of whitespace; `std::get_time` is similarly lenient. Those inputs are
  not modelled.
- `isdigit`, `isalpha` and `\d` are modelled for ASCII only.
- FixtureWriter.ValidateDataframe and FixtureWriter.ValidateIncomingOrders:
  issues name rows by position (1-based). The source prints the pandas index
  label plus one (`tests/sample/TestCaseFormatter.py:75`, `:140`). After rows
  are deleted in the editor the labels are no longer 0..n-1, so the source's
  messages can name other row numbers than the model's.
- FixtureRoundTrip.FixtureReadBack: assumes `ReadableFixture`, which the
  writer does not guarantee. Fixtures the writer accepts but the round trip
  does not cover:
  - blank cells. `validate_positive_integer` lets a blank through
    (`tests/sample/TestCaseFormatter.py:31-32`). `format_table` pads the
    blank to spaces, the reader's `trimDataString` drops the empty token,
    and every later field of the row shifts left.
  - multi-word cells. A cell with inner spaces splits into several tokens.
  - rows without a digit. The reader skips such a line as a non-data line.
  - thresholds above ULLONG_MAX. `stoull` throws out_of_range on them.
  - rows the row parser refuses. The writer never checks the OrderType and
    Side columns, and checks only the counter and action of a Cancel row
    (`tests/sample/TestCaseFormatter.py:149-171`).

  So a fixture the writer accepts can still make the reader throw or misread
  its rows.
- FixtureReader.ParseUpdateRow, FixtureReader.ParsePreProcessorRow,
  FixtureReader.ParseOrderBookRow and FixtureReader.ParseTradeRow: a row with
  too few tokens gives an error in the model. In the source
  `std::vector::operator[]` past the end is undefined behaviour, not an
  exception.
- The wall clock and the market calendar become a `Clock` parameter.
  `canTrade`, `isHoliday` and `getNextMarketTime` are not modelled.
- `Constants::EndOfTime` is a parameter.
- Orders.NewOrder: starts the status at `Unset`. The source's constructor
  leaves `m_orderStatus` uninitialised. Its `runtime_error` on a time that
  does not parse (`src/Order.cpp:76`) is absent, because orders are built
  from times that are already parsed.
- Exchange.ExchangeHolder.GetInstance: with no instance yet and an
  unsupported time zone it returns null. The source dereferences the empty
  `unique_ptr` there (`src/Xchange.cpp:42`), which is undefined behaviour.
- Floating point is not modelled. Prices are the integer prices the engine
  stores (`PRICE_MULTIPLIER` is not applied). The trade's
  `settlementPrice / 100` and the `double` valuations become integers.
- 64-bit wrap-around of quantities and level totals is not modelled, because
  they are unbounded integers. The IDs, `static_cast<size_t>` and the
  `stoll`/`stoull` conversions do wrap explicitly.
- Shared pointers are replaced by values. A level copies each order it
  receives (`src/Level.cpp:29`), as the model does, and trades from the book
  carry the participant ID "" of those copies. What the model drops is the
  sharing of one `Order` between the participant and the preprocessor
  (`src/Xchange.cpp:133` and `:151`): in the source, the good-for-day expiry
  stamp (`src/PreProcess.cpp:125`), the immediate-or-cancel trim
  (`src/PreProcess.cpp:441`) and the market-to-good-till-cancel reprice
  (`src/OrderBook.cpp:43-61`) also show in the participant's
  `m_orderComposition`. In the model the participant keeps the order as
  placed.
- PreProcessing.PreProcessor.QueueOrdersForInsertion: its contract states
  the invariant, that orders are only forgotten and when the market-on-close
  and market-on-open buffers stay as they were, not which entries reach the
  book. The order of flushes depends on the re-entrant calls
  below.
- PreProcessing.PreProcessor.EmptyTypeRankedOrders: the same as above. The
  walk is modelled in comparator order, but the contract does not list the
  forwarded entries.
- PreProcessing.PreProcessor.ModifyInPreprocessing: states what happens to
  the old and new IDs, not the whole new state.
- Placements.AddRouted and Placements.MatchRouted: when the order's
  arrival makes a flush due, they state only that the ID is seen (an add)
  or gone from the composition (a cancel of a waiting order). For a modify
  with a new order they state only what ModifyInPreprocessing states. What
  a flush forwards is left unstated, as for QueueOrdersForInsertion above.
- The source's flush is re-entrant: `canInsertOrderIntoOrderbook` may call
  `RemoveFromPreprocessing`, which flushes again. Every re-entrant method
  takes a `fuel` bound, and a nested flush with no fuel left is skipped.
- Debug printing (`printOrderBookState`, `printPreProcessorStatus`,
  `printTimeInfo`, `returnReadableTime`) is left out.
- Plain getters are left out, because their fields are readable in the
  model directly. This covers `getOrderThreshold`, `getParticipantCount`,
  `isSymbolTraded`, `getHistoryOfTrades`, `getNumberOfOrderTypes`,
  `hasOrderBeenEncountered`, `getOrder` and the like.
- `Level::getActivationTime` and `getDeactivationTime` are left out, because
  no caller in the core uses them.
- `src/Preprocess.cpp`, `include/Preprocess.hpp` and the root-level
  `Order.cpp`, `OrderBook.cpp`, `Level.cpp` and `Preprocess.cpp` are older
  copies and are not part of this model.
- `SymbolInfo` passes the time zone and trading hours to a preprocessor
  constructor that `src/PreProcess.cpp` does not define. The model passes
  the limits only.
- Exchange.Xchange.RemoveParticipant: models the corrected scan (see
  Findings). The scan as written is `Exchange.ScanGovIDAsWritten`.

## Findings

| source | as written | input that shows it | evidently intended | confidence | as-written member | corrected member |
|---|---|---|---|---|---|---|
| src/Xchange.cpp:90-102 | `removeParticipant` recovers the government ID as the characters after the LAST '_' of the participant ID | government ID "HIHD2_J" gets participant ID "0_HIHD2_J", and removal looks up "J", so the asserts at lines 99 and 101 fail | the government ID is everything after the first '_', which `generateParticipantID` puts after the count | not executed | Exchange.AsWrittenLosesGovID | Exchange.ScanGovID |
