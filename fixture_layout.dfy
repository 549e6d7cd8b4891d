/** The writer's output side: `format_table`, which renders a DataFrame as a
    bordered fixed-width block, and the fixture assembly, which either
    reports every validation error or produces the fixture text with its
    section banners in a fixed order. */
module FixtureLayout {
  import opened Wrappers
  import opened Text
  import opened FixtureWriter

  // ---------------------------------------------------------------------
  // Widths, padding and lines.

  function Max(a: nat, b: nat): nat
  {
    if a < b then b else a
  }

  function Sum(ws: seq<nat>): nat
  {
    if ws == [] then 0 else ws[0] + Sum(ws[1..])
  }

  /** The width of column `j` over the header and the first `n` rows: the
      longest of `len(str(col))` and `len(str(cell))`. */
  function ColumnWidth(t: Table, j: nat, n: nat): nat
    requires WellFormed(t) && j < |t.columns| && n <= |t.rows|
  {
    if n == 0 then |t.columns[j]| else Max(ColumnWidth(t, j, n - 1), |CellString(t.rows[n - 1][j])|)
  }

  /** The width is the maximum: at least every length, and equal to one. */
  lemma {:induction false} ColumnWidthIsMax(t: Table, j: nat, n: nat)
    requires WellFormed(t) && j < |t.columns| && n <= |t.rows|
    ensures |t.columns[j]| <= ColumnWidth(t, j, n)
    ensures forall i :: 0 <= i < n ==> |CellString(t.rows[i][j])| <= ColumnWidth(t, j, n)
    ensures ColumnWidth(t, j, n) == |t.columns[j]|
      || exists i :: 0 <= i < n && ColumnWidth(t, j, n) == |CellString(t.rows[i][j])|
  {
    if n > 0 {
      ColumnWidthIsMax(t, j, n - 1);
    }
  }

  /** `col_widths`, one per column, in column order. */
  function Widths(t: Table): (ws: seq<nat>)
    requires WellFormed(t)
    ensures |ws| == |t.columns|
  {
    WidthsUpTo(t, |t.columns|)
  }

  function WidthsUpTo(t: Table, n: nat): (ws: seq<nat>)
    requires WellFormed(t) && n <= |t.columns|
    ensures |ws| == n
  {
    if n == 0 then [] else WidthsUpTo(t, n - 1) + [ColumnWidth(t, n - 1, |t.rows|)]
  }

  /** `"{:<w}".format(s)`: `s` followed by spaces up to width `w`; never cut. */
  function PadRight(s: string, w: nat): (r: string)
    ensures |r| == Max(|s|, w) && r[..|s|] == s
    ensures forall k :: |s| <= k < |r| ==> r[k] == ' '
  {
    if |s| < w then s + Repeat(' ', w - |s|) else s
  }

  function Padded(cells: seq<string>, widths: seq<nat>): (ps: seq<string>)
    requires |cells| == |widths|
    ensures |ps| == |cells|
  {
    if cells == [] then [] else [PadRight(cells[0], widths[0])] + Padded(cells[1..], widths[1..])
  }

  /** `sep.format(*cells)` with `sep = "| " + " | ".join(...) + " |"`. */
  function FormatLine(cells: seq<string>, widths: seq<nat>): string
    requires |cells| == |widths|
  {
    "| " + Join(" | ", Padded(cells, widths)) + " |"
  }

  /** The same line read field by field: " p |" for each padded field. */
  function Segments(ps: seq<string>): string
  {
    if ps == [] then [] else " " + ps[0] + " |" + Segments(ps[1..])
  }

  lemma {:induction false} JoinSegments(ps: seq<string>)
    requires |ps| >= 1
    ensures " " + Join(" | ", ps) + " |" == Segments(ps)
  {
    if |ps| == 1 {
      assert ps[1..] == [];
    } else {
      JoinSegments(ps[1..]);
      assert Join(" | ", ps) == ps[0] + " | " + Join(" | ", ps[1..]);
    }
  }

  /** A line with at least one column is "|" followed by its segments. */
  lemma FormatLineSegments(cells: seq<string>, widths: seq<nat>)
    requires |cells| == |widths| >= 1
    ensures FormatLine(cells, widths) == "|" + Segments(Padded(cells, widths))
  {
    JoinSegments(Padded(cells, widths));
  }

  lemma {:induction false} SegmentsLength(ps: seq<string>, widths: seq<nat>)
    requires |ps| == |widths|
    requires forall k :: 0 <= k < |ps| ==> |ps[k]| == widths[k]
    ensures |Segments(ps)| == Sum(widths) + 3 * |widths|
  {
    if ps != [] {
      SegmentsLength(ps[1..], widths[1..]);
    }
  }

  /** When every cell fits its column, a line is exactly
      sum(widths) + 3 * ncols + 1 characters long. */
  lemma FormatLineLength(cells: seq<string>, widths: seq<nat>)
    requires |cells| == |widths| >= 1
    requires forall k :: 0 <= k < |cells| ==> |cells[k]| <= widths[k]
    ensures |FormatLine(cells, widths)| == Sum(widths) + 3 * |widths| + 1
    ensures FormatLine(cells, widths)[0] == '|'
  {
    FormatLineSegments(cells, widths);
    PaddedAt(cells, widths);
    SegmentsLength(Padded(cells, widths), widths);
  }

  lemma {:induction false} PaddedAt(cells: seq<string>, widths: seq<nat>)
    requires |cells| == |widths|
    ensures forall k :: 0 <= k < |cells| ==> Padded(cells, widths)[k] == PadRight(cells[k], widths[k])
  {
    if cells != [] {
      PaddedAt(cells[1..], widths[1..]);
    }
  }

  /** The horizontal rule: as long as every line of the table. */
  function Rule(widths: seq<nat>): string
  {
    Repeat('-', Sum(widths) + 3 * |widths| + 1)
  }

  function CellStrings(row: seq<Cell>): (r: seq<string>)
    ensures |r| == |row|
  {
    if row == [] then [] else [CellString(row[0])] + CellStrings(row[1..])
  }

  function HeaderLine(t: Table): string
    requires WellFormed(t)
  {
    FormatLine(t.columns, Widths(t))
  }

  function RowLine(t: Table, i: nat): string
    requires WellFormed(t) && i < |t.rows|
  {
    FormatLine(CellStrings(t.rows[i]), Widths(t))
  }

  /** One line per row, in row order. */
  function RowLines(t: Table): (lines: seq<string>)
    requires WellFormed(t)
    ensures |lines| == |t.rows|
  {
    RowLinesUpTo(t, |t.rows|)
  }

  function RowLinesUpTo(t: Table, n: nat): (lines: seq<string>)
    requires WellFormed(t) && n <= |t.rows|
    ensures |lines| == n
  {
    if n == 0 then [] else RowLinesUpTo(t, n - 1) + [RowLine(t, n - 1)]
  }

  /** The lines of a non-empty table: rule, header, rule, one line per row,
      rule. */
  function TableLines(t: Table): seq<string>
    requires WellFormed(t)
  {
    var rule := Rule(Widths(t));
    [rule, HeaderLine(t), rule] + RowLines(t) + [rule]
  }

  /** Each line followed by a newline. */
  function Terminated(lines: seq<string>): string
  {
    if lines == [] then [] else Terminated(lines[..|lines| - 1]) + lines[|lines| - 1] + "\n"
  }

  lemma {:induction false} TerminatedAppend(a: seq<string>, b: seq<string>)
    ensures Terminated(a + b) == Terminated(a) + Terminated(b)
  {
    if b == [] {
      assert a + b == a;
    } else {
      var init, last := b[..|b| - 1], b[|b| - 1];
      TerminatedAppend(a, init);
      assert (a + b)[..|a + b| - 1] == a + init;
      assert (a + b)[|a + b| - 1] == last;
      calc {
        Terminated(a + b);
        Terminated(a + init) + last + "\n";
        Terminated(a) + Terminated(init) + last + "\n";
        Terminated(a) + (Terminated(init) + last + "\n");
      }
    }
  }

  lemma AppendAssoc(a: string, b: string, c: string)
    ensures (a + b) + c == a + (b + c)
  {
  }

  lemma TerminatedSnoc(lines: seq<string>, line: string)
    ensures Terminated(lines + [line]) == Terminated(lines) + (line + "\n")
  {
    assert (lines + [line])[..|lines|] == lines;
  }

  /** The text format_table returns. */
  function TableText(t: Table): string
    requires WellFormed(t)
  {
    if IsEmpty(t) then "<empty>\n" else Terminated(TableLines(t))
  }

  /** format_table: the rule, the header, the rule, one line per row in
      row order, and the closing rule, each ended by a newline. */
  method FormatTable(t: Table) returns (out: string)
    requires WellFormed(t)
    ensures out == TableText(t)
  {
    if IsEmpty(t) {
      return "<empty>\n";
    }
    var widths := Widths(t);
    var rule := Repeat('-', Sum(widths) + 3 * |widths| + 1);
    var header := FormatLine(t.columns, widths);
    out := rule + "\n";
    assert out == Terminated([rule]);
    out := out + header + "\n";
    assert [rule, header][..1] == [rule];
    assert out == Terminated([rule, header]);
    out := out + rule + "\n";
    assert [rule, header, rule][..2] == [rule, header];
    out := FormatRows(t, widths, out);
    out := out + rule + "\n";
    TableTextTerminated(t);
  }

  /** The row loop of format_table: appends each row's line to `top`. */
  method FormatRows(t: Table, widths: seq<nat>, top: string) returns (out: string)
    requires WellFormed(t) && widths == Widths(t)
    ensures out == top + Terminated(RowLines(t))
  {
    out := top;
    for i := 0 to |t.rows|
      invariant out == top + Terminated(RowLinesUpTo(t, i))
    {
      var line := FormatLine(CellStrings(t.rows[i]), widths);
      assert RowLinesUpTo(t, i + 1) == RowLinesUpTo(t, i) + [line];
      TerminatedSnoc(RowLinesUpTo(t, i), line);
      AppendAssoc(top, Terminated(RowLinesUpTo(t, i)), line + "\n");
      out := out + (line + "\n");
    }
  }

  /** The three pieces FormatTable writes make up the table text. */
  lemma TableTextTerminated(t: Table)
    requires WellFormed(t) && !IsEmpty(t)
    ensures TableText(t) == Terminated([Rule(Widths(t)), HeaderLine(t), Rule(Widths(t))])
      + Terminated(RowLines(t)) + Rule(Widths(t)) + "\n"
  {
    var rule := Rule(Widths(t));
    var rows := RowLines(t);
    TerminatedAppend([rule, HeaderLine(t), rule], rows);
    TerminatedAppend([rule, HeaderLine(t), rule] + rows, [rule]);
    assert Terminated([rule]) == rule + "\n";
  }

  lemma {:induction false} CellStringsAt(row: seq<Cell>)
    ensures forall k :: 0 <= k < |row| ==> CellStrings(row)[k] == CellString(row[k])
  {
    if row != [] {
      CellStringsAt(row[1..]);
    }
  }

  lemma {:induction false} WidthsUpToAt(t: Table, n: nat)
    requires WellFormed(t) && n <= |t.columns|
    ensures forall j :: 0 <= j < n ==> WidthsUpTo(t, n)[j] == ColumnWidth(t, j, |t.rows|)
  {
    if n > 0 {
      WidthsUpToAt(t, n - 1);
    }
  }

  lemma {:induction false} RowLinesUpToAt(t: Table, n: nat, i: nat)
    requires WellFormed(t) && i < n <= |t.rows|
    ensures RowLinesUpTo(t, n)[i] == RowLine(t, i)
  {
    if i < n - 1 {
      RowLinesUpToAt(t, n - 1, i);
    }
  }

  /** The header and every row fit the computed widths. */
  lemma LinesFit(t: Table)
    requires WellFormed(t)
    ensures forall k :: 0 <= k < |t.columns| ==> |t.columns[k]| <= Widths(t)[k]
    ensures forall i, k :: 0 <= i < |t.rows| && 0 <= k < |t.columns| ==>
      |CellStrings(t.rows[i])[k]| <= Widths(t)[k]
  {
    WidthsUpToAt(t, |t.columns|);
    forall k | 0 <= k < |t.columns|
      ensures |t.columns[k]| <= ColumnWidth(t, k, |t.rows|)
      ensures forall i :: 0 <= i < |t.rows| ==> |CellString(t.rows[i][k])| <= ColumnWidth(t, k, |t.rows|)
    {
      ColumnWidthIsMax(t, k, |t.rows|);
    }
    forall i | 0 <= i < |t.rows|
      ensures forall k :: 0 <= k < |t.columns| ==> CellStrings(t.rows[i])[k] == CellString(t.rows[i][k])
    {
      CellStringsAt(t.rows[i]);
    }
  }

  /** The shape of format_table's output: 4 + nrows lines, the header on
      line 1, row `i` on line 3 + i, and an all-dash rule on lines 0 and 2
      and last. */
  lemma TableShape(t: Table)
    requires WellFormed(t) && !IsEmpty(t)
    ensures |TableLines(t)| == 4 + |t.rows|
    ensures TableLines(t)[1] == HeaderLine(t)
    ensures forall i :: 0 <= i < |t.rows| ==> TableLines(t)[3 + i] == RowLine(t, i)
    ensures forall k :: k in {0, 2, 3 + |t.rows|} ==>
      TableLines(t)[k] == Rule(Widths(t)) && forall m :: 0 <= m < |TableLines(t)[k]| ==> TableLines(t)[k][m] == '-'
  {
    forall i | 0 <= i < |t.rows|
      ensures RowLines(t)[i] == RowLine(t, i)
    {
      RowLinesUpToAt(t, |t.rows|, i);
    }
  }

  /** The layout law of format_table: every line, rules included, is
      sum(widths) + 3 * ncols + 1 characters long, where each width is the
      longest of the column's header and cells. */
  lemma TableLineLengths(t: Table)
    requires WellFormed(t) && !IsEmpty(t)
    ensures forall k :: 0 <= k < |TableLines(t)| ==>
      |TableLines(t)[k]| == Sum(Widths(t)) + 3 * |t.columns| + 1
  {
    var ws := Widths(t);
    LinesFit(t);
    FormatLineLength(t.columns, ws);
    forall i | 0 <= i < |t.rows|
      ensures |RowLines(t)[i]| == Sum(ws) + 3 * |t.columns| + 1
    {
      RowLinesUpToAt(t, |t.rows|, i);
      FormatLineLength(CellStrings(t.rows[i]), ws);
    }
  }

  /** Every line of a non-empty table starts with '-' (a rule) or '|' (the
      header or a row). */
  lemma TableLineStarts(t: Table)
    requires WellFormed(t) && !IsEmpty(t)
    ensures forall k :: 0 <= k < |TableLines(t)| ==>
      |TableLines(t)[k]| > 0 && TableLines(t)[k][0] in "-|"
  {
    var ws := Widths(t);
    LinesFit(t);
    FormatLineLength(t.columns, ws);
    forall i | 0 <= i < |t.rows|
      ensures RowLines(t)[i] == RowLine(t, i)
      ensures |RowLine(t, i)| > 0 && RowLine(t, i)[0] == '|'
    {
      RowLinesUpToAt(t, |t.rows|, i);
      FormatLineLength(CellStrings(t.rows[i]), ws);
    }
  }

  // ---------------------------------------------------------------------
  // The fixture.

  /** A section banner: 21 dashes, the section name, then dashes up to 51
      characters. */
  function Banner(name: string): (b: string)
    requires |name| <= 30
    ensures |b| == 51 && b[0] == '-'
  {
    Repeat('-', 21) + name + Repeat('-', 30 - |name|)
  }

  /** The section names the banners carry. */
  const ARGUMENTS_NAME: string := "ARGUMENTS"
  const INCOMING_NAME: string := "INCOMING ORDERS"
  const EXPECTED_NAME: string := "EXPECTED RESULT"
  const PREPROCESSOR_NAME: string := "PREPROCESSOR"
  const PREPROCESSOR_END_NAME: string := "PREPROCESSOR END"
  const ORDERBOOK_NAME: string := "ORDERBOOK"
  const ORDERBOOK_END_NAME: string := "ORDERBOOK END"
  const TRADES_NAME: string := "TRADES"
  const TRADES_END_NAME: string := "TRADES END"

  const ARGUMENTS_BANNER: string := Banner(ARGUMENTS_NAME)
  const INCOMING_BANNER: string := Banner(INCOMING_NAME)
  const EXPECTED_BANNER: string := Banner(EXPECTED_NAME)
  const PREPROCESSOR_BANNER: string := Banner(PREPROCESSOR_NAME)
  const PREPROCESSOR_END_BANNER: string := Banner(PREPROCESSOR_END_NAME)
  const ORDERBOOK_BANNER: string := Banner(ORDERBOOK_NAME)
  const ORDERBOOK_END_BANNER: string := Banner(ORDERBOOK_END_NAME)
  const TRADES_BANNER: string := Banner(TRADES_NAME)
  const TRADES_END_BANNER: string := Banner(TRADES_END_NAME)

  /** The banners spelled out. */
  lemma BannerTexts()
    ensures ARGUMENTS_BANNER == "---------------------ARGUMENTS---------------------"
    ensures TRADES_END_BANNER == "---------------------TRADES END--------------------"
  {
    assert Repeat('-', 21) == "---------------------";
    assert Repeat('-', 20) == "--------------------";
  }

  const PREPROCESSOR_COLUMNS: seq<string> := ["Symbol", "Side", "Action", "Price", "Quantity", "ParticipantID"]
  const ORDERBOOK_COLUMNS: seq<string> := ["Symbol", "Side", "Price", "Quantity", "OrderListSize"]
  const TRADES_COLUMNS: seq<string> := ["Symbol", "SettlementPrice", "Quantity", "BuyerID", "SellerID"]

  const PREPROCESSOR_CHECKS: seq<(string, Check)> :=
    [("Symbol", Symbol), ("Price", PositiveInteger), ("Quantity", PositiveInteger), ("ParticipantID", ParticipantId)]
  const ORDERBOOK_CHECKS: seq<(string, Check)> :=
    [("Symbol", Symbol), ("Price", PositiveInteger), ("Quantity", PositiveInteger), ("OrderListSize", PositiveInteger)]
  const TRADES_CHECKS: seq<(string, Check)> :=
    [("Symbol", Symbol), ("SettlementPrice", PositiveInteger), ("Quantity", PositiveInteger),
     ("BuyerID", ParticipantId), ("SellerID", ParticipantId)]

  /** What the page holds when the button is pressed: the two thresholds,
      the incoming-orders editor and the five expected-result editors. */
  datatype Inputs = Inputs(
    pendingOrderThreshold: nat, pendingDurationThreshold: nat,
    incoming: seq<IncomingRow>,
    preBids: Table, preAsks: Table, bookBids: Table, bookAsks: Table, trades: Table)

  /** Each result editor has its fixed columns and a cell per column. */
  predicate ValidInputs(p: Inputs)
  {
    WellFormed(p.preBids) && p.preBids.columns == PREPROCESSOR_COLUMNS
    && WellFormed(p.preAsks) && p.preAsks.columns == PREPROCESSOR_COLUMNS
    && WellFormed(p.bookBids) && p.bookBids.columns == ORDERBOOK_COLUMNS
    && WellFormed(p.bookAsks) && p.bookAsks.columns == ORDERBOOK_COLUMNS
    && WellFormed(p.trades) && p.trades.columns == TRADES_COLUMNS
  }

  /** Every error of the page, in the order the button handler collects
      them: incoming orders, then the five result tables. */
  function AllIssues(p: Inputs, defaultActivate: string): seq<Issue>
    requires ValidInputs(p)
  {
    IncomingIssues(p.incoming, defaultActivate, |p.incoming|)
    + TableIssues(p.preBids, PREPROCESSOR_CHECKS, "Preprocessor Bids", |p.preBids.rows|)
    + TableIssues(p.preAsks, PREPROCESSOR_CHECKS, "Preprocessor Asks", |p.preAsks.rows|)
    + TableIssues(p.bookBids, ORDERBOOK_CHECKS, "Orderbook Bids", |p.bookBids.rows|)
    + TableIssues(p.bookAsks, ORDERBOOK_CHECKS, "Orderbook Asks", |p.bookAsks.rows|)
    + TableIssues(p.trades, TRADES_CHECKS, "Trades", |p.trades.rows|)
  }

  /** The lines of a table block, written only when the table is not
      empty. */
  function BlockLines(t: Table): seq<string>
    requires WellFormed(t)
  {
    if IsEmpty(t) then [] else TableLines(t)
  }

  function IncomingFixed(p: Inputs, defaultActivate: string): Table
  {
    IncomingTable(FixedRows(p.incoming, defaultActivate, |p.incoming|))
  }

  /** The lines of the fixture, section by section; `incoming` is the
      incoming-orders table as validation left it. */
  function FixtureLines(p: Inputs, incoming: Table): seq<string>
    requires ValidInputs(p) && WellFormed(incoming)
  {
    HeadLines(p.pendingOrderThreshold, p.pendingDurationThreshold)
    + BlockLines(incoming)
    + [EXPECTED_BANNER]
    + [PREPROCESSOR_BANNER]
    + BlockLines(p.preBids)
    + BlockLines(p.preAsks)
    + [PREPROCESSOR_END_BANNER]
    + [ORDERBOOK_BANNER]
    + BlockLines(p.bookBids)
    + BlockLines(p.bookAsks)
    + [ORDERBOOK_END_BANNER]
    + [TRADES_BANNER]
    + BlockLines(p.trades)
    + [TRADES_END_BANNER]
  }

  /** The outcome of "Generate Test File": the errors, or the text. */
  function Assemble(p: Inputs, defaultActivate: string): Result<string, seq<Issue>>
    requires ValidInputs(p)
  {
    var issues := AllIssues(p, defaultActivate);
    if issues != [] then Err(issues) else Ok(Terminated(FixtureLines(p, IncomingFixed(p, defaultActivate))))
  }

  /** The button handler: validate everything, then either report the
      errors or write the file (here: return its text). */
  method GenerateTestFile(p: Inputs, defaultActivate: string) returns (r: Result<string, seq<Issue>>)
    requires ValidInputs(p)
    ensures r == Assemble(p, defaultActivate)
  {
    var errors, fixed := ValidateIncomingOrders(p.incoming, defaultActivate);
    var more := ValidateDataframe(p.preBids, PREPROCESSOR_CHECKS, "Preprocessor Bids");
    errors := errors + more;
    more := ValidateDataframe(p.preAsks, PREPROCESSOR_CHECKS, "Preprocessor Asks");
    errors := errors + more;
    more := ValidateDataframe(p.bookBids, ORDERBOOK_CHECKS, "Orderbook Bids");
    errors := errors + more;
    more := ValidateDataframe(p.bookAsks, ORDERBOOK_CHECKS, "Orderbook Asks");
    errors := errors + more;
    more := ValidateDataframe(p.trades, TRADES_CHECKS, "Trades");
    errors := errors + more;
    if errors != [] {
      return Err(errors);
    }
    var text := WriteFixture(p, IncomingTable(fixed));
    return Ok(text);
  }

  /** The `f.write` sequence: banners, thresholds and the non-empty tables. */
  method WriteFixture(p: Inputs, incoming: Table) returns (out: string)
    requires ValidInputs(p) && WellFormed(incoming)
    ensures out == Terminated(FixtureLines(p, incoming))
  {
    ghost var lines: seq<string> := [ARGUMENTS_BANNER];
    out := ARGUMENTS_BANNER + "\n";
    assert out == Terminated(lines);
    out, lines := WriteLine(out, lines, "PendingOrderThreshold: " + NatToString(p.pendingOrderThreshold));
    out, lines := WriteLine(out, lines, "PendingDurationThreshold: " + NatToString(p.pendingDurationThreshold));
    out, lines := WriteLine(out, lines, INCOMING_BANNER);
    out, lines := WriteBlock(out, lines, incoming);
    out, lines := WriteLine(out, lines, EXPECTED_BANNER);
    out, lines := WriteLine(out, lines, PREPROCESSOR_BANNER);
    out, lines := WriteBlock(out, lines, p.preBids);
    out, lines := WriteBlock(out, lines, p.preAsks);
    out, lines := WriteLine(out, lines, PREPROCESSOR_END_BANNER);
    out, lines := WriteLine(out, lines, ORDERBOOK_BANNER);
    out, lines := WriteBlock(out, lines, p.bookBids);
    out, lines := WriteBlock(out, lines, p.bookAsks);
    out, lines := WriteLine(out, lines, ORDERBOOK_END_BANNER);
    out, lines := WriteLine(out, lines, TRADES_BANNER);
    out, lines := WriteBlock(out, lines, p.trades);
    out, lines := WriteLine(out, lines, TRADES_END_BANNER);
  }

  /** `f.write(s + "\n")`. */
  method WriteLine(out: string, ghost lines: seq<string>, s: string) returns (out': string, ghost lines': seq<string>)
    requires out == Terminated(lines)
    ensures lines' == lines + [s] && out' == Terminated(lines')
  {
    out' := out + s + "\n";
    lines' := lines + [s];
    TerminatedSnoc(lines, s);
  }

  /** `if not df.empty: f.write(format_table(df))`. */
  method WriteBlock(out: string, ghost lines: seq<string>, t: Table) returns (out': string, ghost lines': seq<string>)
    requires WellFormed(t) && out == Terminated(lines)
    ensures lines' == lines + BlockLines(t) && out' == Terminated(lines')
  {
    out', lines' := out, lines + BlockLines(t);
    if !IsEmpty(t) {
      var block := FormatTable(t);
      out' := out + block;
      TerminatedAppend(lines, TableLines(t));
    } else {
      assert lines + BlockLines(t) == lines;
    }
  }

  /** Every line is non-empty and starts with a dash, a bar or a 'P'. */
  predicate StartsWell(lines: seq<string>)
  {
    forall k :: 0 <= k < |lines| ==> |lines[k]| > 0 && lines[k][0] in "-|P"
  }

  lemma StartsWellAppend(a: seq<string>, b: seq<string>)
    requires StartsWell(a) && StartsWell(b)
    ensures StartsWell(a + b)
  {
    assert forall k :: |a| <= k < |a + b| ==> (a + b)[k] == b[k - |a|];
  }

  /** No line of a fixture is "<empty>": every line is a dash banner, a
      threshold line or a line of a non-empty table. */
  lemma FixtureLineStarts(p: Inputs, incoming: Table)
    requires ValidInputs(p) && WellFormed(incoming)
    ensures StartsWell(FixtureLines(p, incoming))
    ensures "<empty>" !in FixtureLines(p, incoming)
  {
    BlockLineStarts(incoming);
    BlockLineStarts(p.preBids);
    BlockLineStarts(p.preAsks);
    BlockLineStarts(p.bookBids);
    BlockLineStarts(p.bookAsks);
    BlockLineStarts(p.trades);
    HeadStartsWell(p.pendingOrderThreshold, p.pendingDurationThreshold);
    SectionsStartWell(HeadLines(p.pendingOrderThreshold, p.pendingDurationThreshold),
      BlockLines(incoming), BlockLines(p.preBids), BlockLines(p.preAsks),
      BlockLines(p.bookBids), BlockLines(p.bookAsks), BlockLines(p.trades));
    NoEmptyMarker(FixtureLines(p, incoming));
  }

  /** The first four lines: the arguments banner, the two thresholds and
      the incoming-orders banner. */
  function HeadLines(orderThreshold: nat, durationThreshold: nat): seq<string>
  {
    [ARGUMENTS_BANNER]
    + ["PendingOrderThreshold: " + NatToString(orderThreshold)]
    + ["PendingDurationThreshold: " + NatToString(durationThreshold)]
    + [INCOMING_BANNER]
  }

  lemma HeadStartsWell(orderThreshold: nat, durationThreshold: nat)
    ensures StartsWell(HeadLines(orderThreshold, durationThreshold))
  {
  }

  /** A line starting well is never the "<empty>" placeholder. */
  lemma NoEmptyMarker(lines: seq<string>)
    requires StartsWell(lines)
    ensures "<empty>" !in lines
  {
    forall k | 0 <= k < |lines|
      ensures lines[k] != "<empty>"
    {
      assert "<empty>"[0] !in "-|P";
    }
  }

  /** The section skeleton of FixtureLines over arbitrary blocks. */
  lemma SectionsStartWell(head: seq<string>, incoming: seq<string>, preBids: seq<string>, preAsks: seq<string>,
                          bookBids: seq<string>, bookAsks: seq<string>, trades: seq<string>)
    requires StartsWell(head) && StartsWell(incoming) && StartsWell(preBids) && StartsWell(preAsks)
    requires StartsWell(bookBids) && StartsWell(bookAsks) && StartsWell(trades)
    ensures StartsWell(head + incoming + [EXPECTED_BANNER] + [PREPROCESSOR_BANNER] + preBids + preAsks
      + [PREPROCESSOR_END_BANNER] + [ORDERBOOK_BANNER] + bookBids + bookAsks
      + [ORDERBOOK_END_BANNER] + [TRADES_BANNER] + trades + [TRADES_END_BANNER])
  {
    var acc := head + incoming;
    StartsWellAppend(head, incoming);
    acc := AppendBanner(acc, EXPECTED_BANNER);
    acc := AppendBanner(acc, PREPROCESSOR_BANNER);
    StartsWellAppend(acc, preBids);
    acc := acc + preBids;
    StartsWellAppend(acc, preAsks);
    acc := acc + preAsks;
    acc := AppendBanner(acc, PREPROCESSOR_END_BANNER);
    acc := AppendBanner(acc, ORDERBOOK_BANNER);
    StartsWellAppend(acc, bookBids);
    acc := acc + bookBids;
    StartsWellAppend(acc, bookAsks);
    acc := acc + bookAsks;
    acc := AppendBanner(acc, ORDERBOOK_END_BANNER);
    acc := AppendBanner(acc, TRADES_BANNER);
    StartsWellAppend(acc, trades);
    acc := acc + trades;
    acc := AppendBanner(acc, TRADES_END_BANNER);
  }

  lemma AppendBanner(acc: seq<string>, banner: string) returns (acc': seq<string>)
    requires StartsWell(acc) && |banner| > 0 && banner[0] == '-'
    ensures acc' == acc + [banner] && StartsWell(acc')
  {
    acc' := acc + [banner];
    StartsWellAppend(acc, [banner]);
  }

  lemma BlockLineStarts(t: Table)
    requires WellFormed(t)
    ensures StartsWell(BlockLines(t))
  {
    if !IsEmpty(t) {
      TableLineStarts(t);
    }
  }
}
