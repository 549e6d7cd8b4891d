/** The writer and the reader together: a line that format_table writes
    (tests/sample/TestCaseFormatter.py) is read back by trimDataString and
    splitString (tests/testHandler.cpp) as exactly its cells, provided every
    cell is a word; rules and digit-free header lines are passed over; and
    a whole fixture the writer produces is read back section by section. */
module FixtureRoundTrip {
  import opened Wrappers
  import opened Text
  import opened HelperFunctions
  import opened ReaderText
  import opened FixtureWriter
  import opened FixtureLayout
  import opened FixtureReader

  // ---------------------------------------------------------------------
  // The words of a written line.

  /** Leading blanks are not part of any word. */
  lemma {:induction false} WordsBlanks(n: nat, x: string)
    ensures Words(Repeat(' ', n) + x) == Words(x)
  {
    if n == 0 {
      assert Repeat(' ', n) + x == x;
    } else {
      WordsBlanks(n - 1, "");
      WordsEmpty();
      assert Repeat(' ', n - 1) + "" == Repeat(' ', n - 1);
      assert Repeat(' ', n) + x == Repeat(' ', n - 1) + [' '] + x;
      WordsSplit(Repeat(' ', n - 1), ' ', x);
    }
  }

  /** A word, a blank, more blanks and a border: the word, then whatever
      follows the border. */
  lemma {:induction false} WordThenBorder(c: string, k: nat, rest: string)
    requires IsWord(c)
    ensures Words(c + [' '] + (Repeat(' ', k) + "|" + rest)) == [c] + Words(rest)
  {
    WordsSplit(c, ' ', Repeat(' ', k) + "|" + rest);
    WordsOfWord(c);
    assert Repeat(' ', k) + "|" + rest == Repeat(' ', k) + ("|" + rest);
    WordsBlanks(k, "|" + rest);
    WordsPipe(rest);
  }

  lemma {:induction false} BlankShift(k: nat)
    ensures Repeat(' ', k) + [' '] == [' '] + Repeat(' ', k)
  {
  }

  /** One field " cell<padding> |" followed by the rest of the line: the
      cell is the next word. */
  lemma {:induction false} WordsSegment(c: string, w: nat, rest: string)
    requires IsWord(c)
    ensures Words(" " + PadRight(c, w) + " |" + rest) == [c] + Words(rest)
  {
    var k := if |c| < w then w - |c| else 0;
    assert PadRight(c, w) == c + Repeat(' ', k);
    FieldShape(c, k, rest);
    WordsSplit("", ' ', c + [' '] + (Repeat(' ', k) + "|" + rest));
    WordsEmpty();
    WordThenBorder(c, k, rest);
  }

  /** A field regrouped around the blank after its cell. */
  lemma {:induction false} FieldShape(c: string, k: nat, rest: string)
    ensures " " + (c + Repeat(' ', k)) + " |" + rest == "" + [' '] + (c + [' '] + (Repeat(' ', k) + "|" + rest))
  {
    var pad := Repeat(' ', k);
    BlankShift(k);
    calc {
      " " + (c + pad) + " |" + rest;
      [' '] + (c + pad) + ([' '] + "|") + rest;
      [' '] + c + (pad + [' ']) + "|" + rest;
      [' '] + c + ([' '] + pad) + "|" + rest;
      "" + [' '] + (c + [' '] + (pad + "|" + rest));
    }
  }

  /** The fields of a line give its cells back, in order. */
  lemma {:induction false} WordsSegments(cells: seq<string>, widths: seq<nat>)
    requires |cells| == |widths| && AllWords(cells)
    ensures Words(Segments(Padded(cells, widths))) == cells
  {
    if cells == [] {
      WordsEmpty();
    } else {
      var ps := Padded(cells, widths);
      assert ps[1..] == Padded(cells[1..], widths[1..]);
      WordsSegments(cells[1..], widths[1..]);
      WordsSegment(cells[0], widths[0], Segments(ps[1..]));
      assert [cells[0]] + cells[1..] == cells;
    }
  }

  /** A bordered line of words reads back as exactly its cells. */
  lemma {:induction false} WordsFormatLine(cells: seq<string>, widths: seq<nat>)
    requires |cells| == |widths| >= 1 && AllWords(cells)
    ensures Words(FormatLine(cells, widths)) == cells
    ensures Split(TrimData(FormatLine(cells, widths)), ' ') == cells
  {
    FormatLineSegments(cells, widths);
    WordsPipe(Segments(Padded(cells, widths)));
    WordsSegments(cells, widths);
    TrimDataShape(FormatLine(cells, widths));
  }

  // ---------------------------------------------------------------------
  // Digits in a written line.

  /** Some cell has a digit. */
  predicate AnyDigit(cells: seq<string>)
  {
    exists j :: 0 <= j < |cells| && HasDigit(cells[j])
  }

  lemma {:induction false} HasDigitAppend(a: string, b: string)
    ensures HasDigit(a + b) <==> HasDigit(a) || HasDigit(b)
  {
    if HasDigit(a + b) {
      var i :| 0 <= i < |a + b| && IsDigit((a + b)[i]);
      if i >= |a| {
        assert b[i - |a|] == (a + b)[i];
      }
    }
    if HasDigit(a) {
      var i :| 0 <= i < |a| && IsDigit(a[i]);
      assert (a + b)[i] == a[i];
    }
    if HasDigit(b) {
      var i :| 0 <= i < |b| && IsDigit(b[i]);
      assert (a + b)[|a| + i] == b[i];
    }
  }

  lemma {:induction false} NoDigitInBlanks(n: nat)
    ensures !HasDigit(Repeat(' ', n))
  {
    forall i | 0 <= i < n
      ensures !IsDigit(Repeat(' ', n)[i])
    {
    }
  }

  /** One field " cell<padding> |" has a digit exactly when its cell does. */
  lemma {:induction false} SegmentDigit(c: string, w: nat, rest: string)
    ensures HasDigit(" " + PadRight(c, w) + " |" + rest) <==> HasDigit(c) || HasDigit(rest)
  {
    var k := if |c| < w then w - |c| else 0;
    var pad := Repeat(' ', k);
    assert PadRight(c, w) == c + pad;
    assert " " + PadRight(c, w) + " |" + rest == " " + (c + (pad + (" |" + rest)));
    HasDigitAppend(" ", c + (pad + (" |" + rest)));
    HasDigitAppend(c, pad + (" |" + rest));
    HasDigitAppend(pad, " |" + rest);
    HasDigitAppend(" |", rest);
    NoDigitInBlanks(k);
    assert !HasDigit(" ") && !HasDigit(" |");
  }

  /** Some cell has a digit exactly when the first one or a later one does. */
  lemma {:induction false} AnyDigitCons(cells: seq<string>)
    requires cells != []
    ensures AnyDigit(cells) <==> HasDigit(cells[0]) || AnyDigit(cells[1..])
  {
    if AnyDigit(cells[1..]) {
      var j :| 0 <= j < |cells[1..]| && HasDigit(cells[1..][j]);
      assert HasDigit(cells[j + 1]);
    }
    if AnyDigit(cells) && !HasDigit(cells[0]) {
      var j :| 0 <= j < |cells| && HasDigit(cells[j]);
      assert cells[1..][j - 1] == cells[j];
    }
  }

  /** A line has a digit exactly when one of its cells does. */
  lemma {:induction false} SegmentsDigit(cells: seq<string>, widths: seq<nat>)
    requires |cells| == |widths|
    ensures HasDigit(Segments(Padded(cells, widths))) <==> AnyDigit(cells)
  {
    if cells != [] {
      var ps := Padded(cells, widths);
      assert ps[1..] == Padded(cells[1..], widths[1..]);
      SegmentsDigit(cells[1..], widths[1..]);
      SegmentDigit(cells[0], widths[0], Segments(ps[1..]));
      AnyDigitCons(cells);
    }
  }

  lemma {:induction false} FormatLineDigit(cells: seq<string>, widths: seq<nat>)
    requires |cells| == |widths| >= 1
    ensures HasDigit(FormatLine(cells, widths)) <==> AnyDigit(cells)
    ensures FormatLine(cells, widths)[0] == '|'
  {
    FormatLineSegments(cells, widths);
    HasDigitAppend("|", Segments(Padded(cells, widths)));
    SegmentsDigit(cells, widths);
    assert !HasDigit("|");
  }

  // ---------------------------------------------------------------------
  // Dash lines.

  lemma {:induction false} RemoveRun(c: char, n: nat)
    ensures Remove(Repeat(c, n), c) == []
  {
    if n > 0 {
      RemoveRun(c, n - 1);
      assert Repeat(c, n)[..n - 1] == Repeat(c, n - 1);
    }
  }

  /** A rule is passed over by every section parser. */
  lemma {:induction false} RuleSkipped(widths: seq<nat>, marker: string)
    requires marker != []
    ensures Classify(Rule(widths), marker) == Skipped
  {
    RemoveRun('-', Sum(widths) + 3 * |widths| + 1);
    ShorterLacks([], marker);
  }

  /** A banner without dashes in its name reads as its name. */
  lemma {:induction false} BannerName(name: string)
    requires |name| <= 30 && '-' !in name
    ensures Remove(Banner(name), '-') == name
  {
    PaddedName(21, 30 - |name|, name);
  }

  lemma {:induction false} PaddedName(n: nat, m: nat, name: string)
    requires '-' !in name
    ensures Remove(Repeat('-', n) + name + Repeat('-', m), '-') == name
  {
    RemoveAppend(Repeat('-', n) + name, Repeat('-', m), '-');
    RemoveAppend(Repeat('-', n), name, '-');
    RemoveRun('-', n);
    RemoveRun('-', m);
    RemoveChars(name, '-');
  }

  // ---------------------------------------------------------------------
  // Blocks of lines.

  /** The records a block of lines gives when it holds no end marker and no
      row that throws. */
  function ReadsAs<X>(block: seq<string>, marker: string, parse: seq<string> -> Result<X, ParseError>): Option<seq<X>>
  {
    if block == [] then Some([])
    else
      var rest := ReadsAs(block[1..], marker, parse);
      match Classify(block[0], marker)
      case EndOfSection => None
      case Skipped => rest
      case Data =>
        match parse(Split(TrimData(block[0]), ' '))
        case Err(_) => None
        case Ok(x) => if rest.Some? then Some([x] + rest.value) else None
  }

  /** A section parser goes through such a block, appending its records. */
  lemma {:induction false} ScanThrough<X>(lines: seq<string>, i: nat, block: seq<string>, marker: string,
                                          parse: seq<string> -> Result<X, ParseError>)
    requires i + |block| <= |lines| && lines[i..i + |block|] == block
    requires ReadsAs(block, marker, parse).Some?
    ensures ScanSection(lines, i, marker, parse)
      == Prepend(ReadsAs(block, marker, parse).value, ScanSection(lines, i + |block|, marker, parse))
    decreases |block|
  {
    if block != [] {
      SliceFirst(lines, i, block);
      ScanThrough(lines, i + 1, block[1..], marker, parse);
      var tail := ReadsAs(block[1..], marker, parse).value;
      match Classify(block[0], marker)
      case Skipped =>
        ScanSkips(lines, i, marker, parse);
      case Data =>
        var x := parse(Split(TrimData(block[0]), ' ')).value;
        ScanTakes(lines, i, marker, parse, x);
        PrependTwice([x], tail, ScanSection(lines, i + |block|, marker, parse));
    }
  }

  lemma {:induction false} ScanSkips<X>(lines: seq<string>, i: nat, marker: string, parse: seq<string> -> Result<X, ParseError>)
    requires i < |lines| && Classify(lines[i], marker) == Skipped
    ensures ScanSection(lines, i, marker, parse) == ScanSection(lines, i + 1, marker, parse)
  {
  }

  lemma {:induction false} ScanTakes<X>(lines: seq<string>, i: nat, marker: string, parse: seq<string> -> Result<X, ParseError>, x: X)
    requires i < |lines| && Classify(lines[i], marker) == Data && parse(Split(TrimData(lines[i]), ' ')) == Ok(x)
    ensures ScanSection(lines, i, marker, parse) == Prepend([x], ScanSection(lines, i + 1, marker, parse))
  {
  }

  lemma {:induction false} PrependTwice<X>(a: seq<X>, b: seq<X>, s: Scan<X>)
    ensures Prepend(a, Prepend(b, s)) == Prepend(a + b, s)
  {
    assert a + (b + s.records) == (a + b) + s.records;
  }

  lemma {:induction false} SliceFirst<T>(lines: seq<T>, i: nat, block: seq<T>)
    requires block != [] && i + |block| <= |lines| && lines[i..i + |block|] == block
    ensures i < |lines| && lines[i] == block[0]
    ensures i + 1 + |block[1..]| <= |lines| && lines[i + 1..i + 1 + |block[1..]|] == block[1..]
  {
    assert lines[i..i + |block|][0] == lines[i];
    assert lines[i + 1..i + 1 + |block[1..]|] == lines[i..i + |block|][1..];
  }

  lemma {:induction false} ReadsAsAppend<X>(a: seq<string>, b: seq<string>, marker: string,
                                           parse: seq<string> -> Result<X, ParseError>)
    requires ReadsAs(a, marker, parse).Some? && ReadsAs(b, marker, parse).Some?
    ensures ReadsAs(a + b, marker, parse) == Some(ReadsAs(a, marker, parse).value + ReadsAs(b, marker, parse).value)
  {
    if a == [] {
      assert a + b == b;
      assert [] + ReadsAs(b, marker, parse).value == ReadsAs(b, marker, parse).value;
    } else {
      assert (a + b)[0] == a[0] && (a + b)[1..] == a[1..] + b;
      ReadsAsAppend(a[1..], b, marker, parse);
      var xs := ReadsAs(a[1..], marker, parse).value;
      var ys := ReadsAs(b, marker, parse).value;
      match Classify(a[0], marker)
      case Skipped =>
      case Data =>
        var x := parse(Split(TrimData(a[0]), ' ')).value;
        assert ReadsAs(a, marker, parse) == Some([x] + xs);
        assert [x] + (xs + ys) == ([x] + xs) + ys;
    }
  }

  lemma {:induction false} ReadsAsOne<X>(line: string, marker: string, parse: seq<string> -> Result<X, ParseError>)
    ensures ReadsAs([line], marker, parse) == match Classify(line, marker)
      case EndOfSection => None
      case Skipped => Some([])
      case Data =>
        match parse(Split(TrimData(line), ' '))
        case Err(_) => None
        case Ok(x) => Some([x])
  {
    assert [line][1..] == [];
    assert ReadsAs([line][1..], marker, parse) == Some([]);
    match Classify(line, marker)
    case EndOfSection =>
    case Skipped =>
    case Data =>
      match parse(Split(TrimData(line), ' '))
      case Err(_) =>
      case Ok(x) => assert [x] + [] == [x];
  }

  // ---------------------------------------------------------------------
  // Tables.

  /** The cells of row `k` as the writer prints them. */
  function RowText(t: Table, k: nat): seq<string>
    requires k < |t.rows|
  {
    CellStrings(t.rows[k])
  }

  /** A table the reader gets back: either the writer leaves it out, or its
      column names and cells are words, the names have no digits, every row
      has a digit somewhere and parses without an exception. */
  predicate Readable<X>(t: Table, parse: seq<string> -> Result<X, ParseError>)
  {
    WellFormed(t)
    && (!IsEmpty(t) ==>
          AllWords(t.columns) && !AnyDigit(t.columns)
          && forall k :: 0 <= k < |t.rows| ==>
               AllWords(RowText(t, k)) && AnyDigit(RowText(t, k)) && parse(RowText(t, k)).Ok?)
  }

  /** The records of the first `n` rows. */
  function ParsedRows<X>(t: Table, n: nat, parse: seq<string> -> Result<X, ParseError>): seq<X>
    requires n <= |t.rows| && forall k :: 0 <= k < n ==> parse(RowText(t, k)).Ok?
  {
    if n == 0 then [] else ParsedRows(t, n - 1, parse) + [parse(RowText(t, n - 1)).value]
  }

  /** What the reader gets back from a written table. */
  function Expected<X>(t: Table, parse: seq<string> -> Result<X, ParseError>): seq<X>
    requires Readable(t, parse)
  {
    if IsEmpty(t) then [] else ParsedRows(t, |t.rows|, parse)
  }

  lemma {:induction false} RowLinesRead<X>(t: Table, n: nat, marker: string, parse: seq<string> -> Result<X, ParseError>)
    requires Readable(t, parse) && !IsEmpty(t) && n <= |t.rows|
    ensures ReadsAs(RowLinesUpTo(t, n), marker, parse) == Some(ParsedRows(t, n, parse))
  {
    if n > 0 {
      RowLinesRead(t, n - 1, marker, parse);
      var cells := RowText(t, n - 1);
      var line := RowLine(t, n - 1);
      assert AllWords(cells) && AnyDigit(cells) && parse(cells).Ok?;
      WordsFormatLine(cells, Widths(t));
      FormatLineDigit(cells, Widths(t));
      assert Classify(line, marker) == Data;
      ReadsAsOne(line, marker, parse);
      assert ReadsAs([line], marker, parse) == Some([parse(cells).value]);
      ReadsAsAppend(RowLinesUpTo(t, n - 1), [line], marker, parse);
    }
  }

  /** Lines every section parser passes over add nothing. */
  lemma {:induction false} SkippedLines<X>(block: seq<string>, marker: string, parse: seq<string> -> Result<X, ParseError>)
    requires forall k :: 0 <= k < |block| ==> Classify(block[k], marker) == Skipped
    ensures ReadsAs(block, marker, parse) == Some([])
  {
    if block != [] {
      assert Classify(block[0], marker) == Skipped;
      SkippedLines(block[1..], marker, parse);
    }
  }

  /** A written table block reads back as its rows' records, in row order;
      the rules and the header line are passed over. */
  lemma {:induction false} BlockRead<X>(t: Table, marker: string, parse: seq<string> -> Result<X, ParseError>)
    requires Readable(t, parse) && marker != []
    ensures ReadsAs(BlockLines(t), marker, parse) == Some(Expected(t, parse))
  {
    if !IsEmpty(t) {
      var rule := Rule(Widths(t));
      var header := HeaderLine(t);
      RuleSkipped(Widths(t), marker);
      FormatLineDigit(t.columns, Widths(t));
      SkippedLines([rule, header, rule], marker, parse);
      SkippedLines([rule], marker, parse);
      RowLinesRead(t, |t.rows|, marker, parse);
      var rows := ParsedRows(t, |t.rows|, parse);
      ReadsAsAppend([rule, header, rule], RowLines(t), marker, parse);
      ReadsAsAppend([rule, header, rule] + RowLines(t), [rule], marker, parse);
      assert [] + rows + [] == rows;
    }
  }

  // ---------------------------------------------------------------------
  // Keywords.

  /** `t` cannot start anywhere `s` has room for it. */
  lemma {:induction false} Lacks(s: string, t: string)
    requires |t| > 0
    requires forall i :: 0 <= i && i + |t| <= |s| ==> s[i] != t[0]
    ensures !Contains(s, t)
  {
    forall i: nat
      ensures !OccursAt(s, t, i)
    {
      if i + |t| <= |s| {
        assert s[i..i + |t|][0] == s[i];
      }
    }
  }

  lemma {:induction false} SameContains(s: string)
    ensures Contains(s, s)
  {
    PrefixContains(s, s, []);
  }

  /** A threshold line: the key, ": ", the number. The first ':' follows
      the key. */
  lemma {:induction false} FindColon(key: string, rest: string)
    requires ':' !in key
    ensures Find(key + ": " + rest, ":") == Some(|key|)
  {
    var s := key + ": " + rest;
    assert s[|key|..|key| + 1] == ":";
    assert OccursAt(s, ":", |key|);
    forall i: nat | i < |key|
      ensures !OccursAt(s, ":", i)
    {
      assert s[i] == key[i];
      assert s[i..i + 1] == [s[i]];
    }
    var r := Find(s, ":");
    assert r.Some?;
    assert r.value <= |key|;
  }

  /** std::stoull reads back a number written in decimal. */
  lemma {:induction false} StoULLNatToString(n: nat)
    requires n <= ULLONG_MAX
    ensures StoULL(NatToString(n)) == Ok(n)
  {
    ScanNatToString(n);
  }

  lemma {:induction false} ScanNatToString(n: nat)
    ensures ScanInteger(NatToString(n)) == Some((false, n))
  {
    DigitsScan(NatToString(n));
    NatToStringValue(n);
  }

  lemma {:induction false} DigitsScan(d: string)
    requires |d| > 0 && IsDigits(d)
    ensures ScanInteger(d) == Some((false, DigitsValue(d)))
  {
    assert SkipCSpaces(d) == d by {
      assert IsDigit(d[0]) && !IsCSpace(d[0]);
    }
    assert d[0] != '-' && d[0] != '+' by {
      assert IsDigit(d[0]);
    }
    assert LeadingDigits(d) == d by {
      LeadingDigitsAll(d);
    }
  }

  /** The value of a threshold line the writer produces. */
  lemma {:induction false} ThresholdValue(key: string, n: nat)
    requires ':' !in key && n <= ULLONG_MAX
    ensures ArgumentValue(key + ": " + NatToString(n)) == Ok(Some(n))
  {
    var line := key + ": " + NatToString(n);
    FindColon(key, NatToString(n));
    assert line[|key| + 2..] == NatToString(n);
    StoULLNatToString(n);
  }

  lemma {:induction false} KeysHaveNoColon()
    ensures ':' !in ORDER_THRESHOLD_KEY && ':' !in DURATION_THRESHOLD_KEY
  {
  }

  /** The order-threshold line is read as such. */
  lemma {:induction false} OrderLine(lines: seq<string>, i: nat, h: Handler, n: nat)
    requires i < |lines| && lines[i] == "PendingOrderThreshold: " + NatToString(n) && n <= ULLONG_MAX
    ensures ReadLine(lines, i, h) == Continue(i + 1, h.(orderThreshold := n))
  {
    var line := lines[i];
    assert line[0] == 'P';
    PrefixContains(line, ORDER_THRESHOLD_KEY, ": " + NatToString(n));
    KeysHaveNoColon();
    assert line == ORDER_THRESHOLD_KEY + ": " + NatToString(n);
    ThresholdValue(ORDER_THRESHOLD_KEY, n);
  }

  /** The duration line does not mention the order key. */
  lemma {:induction false} DurationLineNotOrder(n: nat)
    ensures !Mentions("PendingDurationThreshold: " + NatToString(n), ORDER_THRESHOLD_KEY)
  {
    var line := "PendingDurationThreshold: " + NatToString(n);
    assert forall i :: 0 < i < |line| ==> line[i] != 'P';
    assert line[7] != ORDER_THRESHOLD_KEY[7];
    FirstCharOnlyAtStart(line, ORDER_THRESHOLD_KEY);
  }

  /** The duration-threshold line is read as such. */
  lemma {:induction false} DurationLine(lines: seq<string>, i: nat, h: Handler, n: nat)
    requires i < |lines| && lines[i] == "PendingDurationThreshold: " + NatToString(n) && n <= ULLONG_MAX
    ensures ReadLine(lines, i, h) == Continue(i + 1, h.(durationThreshold := Wrap(n, Int64)))
  {
    var line := lines[i];
    assert line[0] == 'P';
    DurationLineNotOrder(n);
    PrefixContains(line, DURATION_THRESHOLD_KEY, ": " + NatToString(n));
    KeysHaveNoColon();
    assert line == DURATION_THRESHOLD_KEY + ": " + NatToString(n);
    ThresholdValue(DURATION_THRESHOLD_KEY, n);
  }

  /** The arguments banner reads as "ARGUMENTS", which names no key. */
  lemma {:induction false} ArgumentsLine(lines: seq<string>, i: nat, h: Handler)
    requires i < |lines| && lines[i] == ARGUMENTS_BANNER
    ensures ReadLine(lines, i, h) == Continue(i + 1, h)
  {
    var name := "ARGUMENTS";
    BannerName(name);
    assert AsRead(lines[i]) == name;
    ShorterLacks(name, ORDER_THRESHOLD_KEY);
    ShorterLacks(name, DURATION_THRESHOLD_KEY);
    ShorterLacks(name, INCOMING_KEY);
    ShorterLacks(name, PREPROCESSOR_KEY);
    Lacks(name, ORDERBOOK_KEY);
    Lacks(name, TRADES_KEY);
  }

  // ---------------------------------------------------------------------
  // Sections.

  /** An end banner closes its own section. */
  lemma {:induction false} EndBannerCloses(name: string)
    requires 0 < |name| <= 30 && '-' !in name
    ensures Classify(Banner(name), name) == EndOfSection
  {
    BannerName(name);
    SameContains(name);
  }

  /** A section parser reads a block up to the end banner that follows it,
      and goes on after the banner. */
  lemma {:induction false} SectionRead<X>(lines: seq<string>, i: nat, block: seq<string>, marker: string,
                       parse: seq<string> -> Result<X, ParseError>)
    requires i + |block| < |lines| && lines[i..i + |block|] == block
    requires ReadsAs(block, marker, parse).Some?
    requires Classify(lines[i + |block|], marker) == EndOfSection
    ensures ScanSection(lines, i, marker, parse) == Scan(ReadsAs(block, marker, parse).value, i + |block| + 1, None)
  {
    ScanThrough(lines, i, block, marker, parse);
    assert ReadsAs(block, marker, parse).value + [] == ReadsAs(block, marker, parse).value;
  }

  /** The place of a section in a file: what comes before it, its banner,
      its block, its end banner and what comes after. */
  lemma {:induction false} SectionLayout(pre: seq<string>, banner: string, block: seq<string>, end: string, post: seq<string>)
    ensures var lines := pre + [banner] + block + [end] + post;
      |pre| + 1 + |block| < |lines| && lines[|pre|] == banner
      && lines[|pre| + 1..|pre| + 1 + |block|] == block && lines[|pre| + 1 + |block|] == end
  {
    var lines := pre + [banner] + block + [end] + post;
    assert lines[|pre| + 1..|pre| + 1 + |block|] == block by {
      forall k | 0 <= k < |block|
        ensures lines[|pre| + 1 + k] == block[k]
      {
      }
    }
  }

  /** A banner line names no threshold key: parseTestFile goes on to the
      section keywords with the banner's name. */
  lemma {:induction false} BannerLine(lines: seq<string>, i: nat, h: Handler, name: string)
    requires i < |lines| && |name| <= 30 && '-' !in name && lines[i] == Banner(name)
    requires !Mentions(name, ORDER_THRESHOLD_KEY) && !Mentions(name, DURATION_THRESHOLD_KEY)
    ensures ReadLine(lines, i, h) == SectionStep(lines, i, name, h)
  {
    BannerName(name);
  }

  /** What a section banner reads as. */
  predicate Opens(name: string, keysBefore: seq<string>, key: string)
  {
    |name| <= 30 && '-' !in name
    && !Mentions(name, ORDER_THRESHOLD_KEY) && !Mentions(name, DURATION_THRESHOLD_KEY)
    && (forall k :: 0 <= k < |keysBefore| ==> !Mentions(name, keysBefore[k]))
    && Mentions(name, key)
  }

  lemma {:induction false} OpensIncoming()
    ensures Opens("INCOMING ORDERS", [], INCOMING_KEY)
  {
    var name := "INCOMING ORDERS";
    ShorterLacks(name, ORDER_THRESHOLD_KEY);
    ShorterLacks(name, DURATION_THRESHOLD_KEY);
    SameContains(name);
  }

  lemma {:induction false} OpensPreProcessor()
    ensures Opens("PREPROCESSOR", [INCOMING_KEY], PREPROCESSOR_KEY)
  {
    var name := "PREPROCESSOR";
    ShorterLacks(name, ORDER_THRESHOLD_KEY);
    ShorterLacks(name, DURATION_THRESHOLD_KEY);
    ShorterLacks(name, INCOMING_KEY);
    SameContains(name);
  }

  lemma {:induction false} OpensOrderBook()
    ensures Opens("ORDERBOOK", [INCOMING_KEY, PREPROCESSOR_KEY], ORDERBOOK_KEY)
  {
    var name := "ORDERBOOK";
    ShorterLacks(name, ORDER_THRESHOLD_KEY);
    ShorterLacks(name, DURATION_THRESHOLD_KEY);
    ShorterLacks(name, INCOMING_KEY);
    ShorterLacks(name, PREPROCESSOR_KEY);
    SameContains(name);
  }

  lemma {:induction false} OpensTrades()
    ensures Opens("TRADES", [INCOMING_KEY, PREPROCESSOR_KEY, ORDERBOOK_KEY], TRADES_KEY)
  {
    var name := "TRADES";
    ShorterLacks(name, ORDER_THRESHOLD_KEY);
    ShorterLacks(name, DURATION_THRESHOLD_KEY);
    ShorterLacks(name, INCOMING_KEY);
    ShorterLacks(name, PREPROCESSOR_KEY);
    ShorterLacks(name, ORDERBOOK_KEY);
    SameContains(name);
  }

  /** The INCOMING ORDERS banner starts IncomingStep. */
  lemma {:induction false} IncomingBannerLine(lines: seq<string>, i: nat, h: Handler)
    requires i < |lines| && lines[i] == INCOMING_BANNER
    ensures ReadLine(lines, i, h) == IncomingStep(lines, i, h)
  {
    OpensIncoming();
    BannerLine(lines, i, h, "INCOMING ORDERS");
  }

  /** The PREPROCESSOR banner starts PreProcessorStep. */
  lemma {:induction false} PreProcessorBannerLine(lines: seq<string>, i: nat, h: Handler)
    requires i < |lines| && lines[i] == PREPROCESSOR_BANNER
    ensures ReadLine(lines, i, h) == PreProcessorStep(lines, i, h)
  {
    OpensPreProcessor();
    BannerLine(lines, i, h, "PREPROCESSOR");
  }

  /** The ORDERBOOK banner starts OrderBookStep. */
  lemma {:induction false} OrderBookBannerLine(lines: seq<string>, i: nat, h: Handler)
    requires i < |lines| && lines[i] == ORDERBOOK_BANNER
    ensures ReadLine(lines, i, h) == OrderBookStep(lines, i, h)
  {
    OpensOrderBook();
    BannerLine(lines, i, h, "ORDERBOOK");
  }

  /** The TRADES banner starts TradesStep. */
  lemma {:induction false} TradesBannerLine(lines: seq<string>, i: nat, h: Handler)
    requires i < |lines| && lines[i] == TRADES_BANNER
    ensures ReadLine(lines, i, h) == TradesStep(lines, i, h)
  {
    OpensTrades();
    BannerLine(lines, i, h, "TRADES");
  }

  /** A name an end banner closes its section with. */
  predicate EndName(marker: string)
  {
    0 < |marker| <= 30 && '-' !in marker
  }

  /** The end markers the reader looks for are the names of the end
      banners the writer writes. */
  lemma {:induction false} EndMarkers()
    ensures EndName(INCOMING_END) && EXPECTED_BANNER == Banner(INCOMING_END)
    ensures EndName(PREPROCESSOR_END) && PREPROCESSOR_END_BANNER == Banner(PREPROCESSOR_END)
    ensures EndName(ORDERBOOK_END) && ORDERBOOK_END_BANNER == Banner(ORDERBOOK_END)
    ensures EndName(TRADES_END) && TRADES_END_BANNER == Banner(TRADES_END)
  {
    assert INCOMING_END == EXPECTED_NAME && PREPROCESSOR_END == PREPROCESSOR_END_NAME;
    assert ORDERBOOK_END == ORDERBOOK_END_NAME && TRADES_END == TRADES_END_NAME;
  }

  /** The two tables of a result section read back one after the other. */
  lemma {:induction false} PairRead<X>(a: Table, b: Table, marker: string, parse: seq<string> -> Result<X, ParseError>)
    requires Readable(a, parse) && Readable(b, parse) && marker != []
    ensures ReadsAs(BlockLines(a) + BlockLines(b), marker, parse) == Some(Expected(a, parse) + Expected(b, parse))
  {
    BlockRead(a, marker, parse);
    BlockRead(b, marker, parse);
    ReadsAsAppend(BlockLines(a), BlockLines(b), marker, parse);
  }

  /** A block in a file, between a banner and an end banner: the section
      parser started after the banner reads the block's records and goes on
      after the end banner. */
  lemma {:induction false} BlockScan<X>(lines: seq<string>, pre: seq<string>, banner: string, block: seq<string>, records: seq<X>,
                     marker: string, parse: seq<string> -> Result<X, ParseError>, next: nat)
    requires EndName(marker) && ReadsAs(block, marker, parse) == Some(records)
    requires next == |pre| + 2 + |block| && next <= |lines|
    requires lines[..next] == pre + [banner] + block + [Banner(marker)]
    ensures |pre| < |lines| && lines[|pre|] == banner
    ensures ScanSection(lines, |pre| + 1, marker, parse) == Scan(records, next, None)
  {
    SectionPrefix(lines, pre, banner, block, Banner(marker));
    BlockAt(lines, pre, block, records, marker, parse, next);
  }

  /** A block after `pre` and a banner, followed by the end banner of its marker. */
  lemma {:induction false} BlockAt<X>(lines: seq<string>, pre: seq<string>, block: seq<string>, records: seq<X>,
                   marker: string, parse: seq<string> -> Result<X, ParseError>, next: nat)
    requires EndName(marker) && ReadsAs(block, marker, parse) == Some(records)
    requires next == |pre| + 2 + |block|
    requires |pre| + 1 + |block| < |lines| && lines[|pre| + 1..|pre| + 1 + |block|] == block
      && lines[|pre| + 1 + |block|] == Banner(marker)
    ensures ScanSection(lines, |pre| + 1, marker, parse) == Scan(records, next, None)
  {
    EndBannerCloses(marker);
    SectionRead(lines, |pre| + 1, block, marker, parse);
  }

  /** A written table in a file, between its banner and an end banner. */
  lemma {:induction false} SectionScan<X>(lines: seq<string>, pre: seq<string>, banner: string, t: Table, marker: string,
                       parse: seq<string> -> Result<X, ParseError>, next: nat)
    requires Readable(t, parse) && EndName(marker)
    requires next == |pre| + 2 + |BlockLines(t)| && next <= |lines|
    requires lines[..next] == pre + [banner] + BlockLines(t) + [Banner(marker)]
    ensures |pre| < |lines| && lines[|pre|] == banner
    ensures ScanSection(lines, |pre| + 1, marker, parse) == Scan(Expected(t, parse), next, None)
  {
    BlockRead(t, marker, parse);
    BlockScan(lines, pre, banner, BlockLines(t), Expected(t, parse), marker, parse, next);
  }

  /** The two tables of a result section, bids then asks, in a file. */
  lemma {:induction false} PairScan<X>(lines: seq<string>, pre: seq<string>, banner: string, a: Table, b: Table, marker: string,
                    parse: seq<string> -> Result<X, ParseError>, next: nat)
    requires Readable(a, parse) && Readable(b, parse) && EndName(marker)
    requires next == |pre| + 2 + |BlockLines(a) + BlockLines(b)| && next <= |lines|
    requires lines[..next] == pre + [banner] + (BlockLines(a) + BlockLines(b)) + [Banner(marker)]
    ensures |pre| < |lines| && lines[|pre|] == banner
    ensures ScanSection(lines, |pre| + 1, marker, parse) == Scan(Expected(a, parse) + Expected(b, parse), next, None)
  {
    PairRead(a, b, marker, parse);
    BlockScan(lines, pre, banner, BlockLines(a) + BlockLines(b), Expected(a, parse) + Expected(b, parse),
      marker, parse, next);
  }

  /** The incoming-orders banner, then a section the parser reads without
      an exception: its records are appended to the updates. */
  lemma {:induction false} IncomingAt(lines: seq<string>, i: nat, h: Handler, records: seq<Update>, next: nat, h': Handler)
    requires i < |lines| && lines[i] == INCOMING_BANNER
    requires ScanSection(lines, i + 1, INCOMING_END, ParseUpdateRow) == Scan(records, next, None)
    requires h' == h.(updates := h.updates + records)
    ensures ReadLine(lines, i, h) == Continue(next, h')
  {
    IncomingBannerLine(lines, i, h);
  }

  /** The same for the preprocessor section and its results. */
  lemma {:induction false} PreProcessorAt(lines: seq<string>, i: nat, h: Handler, records: seq<PreProcessorResult>, next: nat, h': Handler)
    requires i < |lines| && lines[i] == PREPROCESSOR_BANNER
    requires ScanSection(lines, i + 1, PREPROCESSOR_END, ParsePreProcessorRow) == Scan(records, next, None)
    requires h' == h.(preResults := h.preResults + records)
    ensures ReadLine(lines, i, h) == Continue(next, h')
  {
    PreProcessorBannerLine(lines, i, h);
  }

  /** The same for the order-book section and its results. */
  lemma {:induction false} OrderBookAt(lines: seq<string>, i: nat, h: Handler, records: seq<OrderBookResult>, next: nat, h': Handler)
    requires i < |lines| && lines[i] == ORDERBOOK_BANNER
    requires ScanSection(lines, i + 1, ORDERBOOK_END, ParseOrderBookRow) == Scan(records, next, None)
    requires h' == h.(obResults := h.obResults + records)
    ensures ReadLine(lines, i, h) == Continue(next, h')
  {
    OrderBookBannerLine(lines, i, h);
  }

  /** The same for the trades section and its results. */
  lemma {:induction false} TradesAt(lines: seq<string>, i: nat, h: Handler, records: seq<TradeResult>, next: nat, h': Handler)
    requires i < |lines| && lines[i] == TRADES_BANNER
    requires ScanSection(lines, i + 1, TRADES_END, ParseTradeRow) == Scan(records, next, None)
    requires h' == h.(trResults := h.trResults + records)
    ensures ReadLine(lines, i, h) == Continue(next, h')
  {
    TradesBannerLine(lines, i, h);
  }

  // ---------------------------------------------------------------------
  // The whole file.

  /** A line that does not end reading: reading goes on where it says. */
  lemma {:induction false} ReadFromStep(lines: seq<string>, i: nat, h: Handler, next: nat, h': Handler)
    requires i < |lines| && next <= |lines| && ReadLine(lines, i, h) == Continue(next, h')
    ensures ReadFrom(lines, i, h) == ReadFrom(lines, next, h')
  {
  }

  /** Four lines that each hand over to the next, the last reaching the
      end of the file: reading ends there without an exception. */
  lemma {:induction false} ReadChain(lines: seq<string>, i0: nat, h0: Handler, i1: nat, h1: Handler, i2: nat, h2: Handler,
                  i3: nat, h3: Handler, h4: Handler)
    requires i0 < i1 < i2 < i3 < |lines|
    requires ReadLine(lines, i0, h0) == Continue(i1, h1) && ReadLine(lines, i1, h1) == Continue(i2, h2)
    requires ReadLine(lines, i2, h2) == Continue(i3, h3) && ReadLine(lines, i3, h3) == Continue(|lines|, h4)
    ensures ReadFrom(lines, i0, h0) == (h4, None)
  {
    ReadFromStep(lines, i0, h0, i1, h1);
    ReadFromStep(lines, i1, h1, i2, h2);
    ReadFromStep(lines, i2, h2, i3, h3);
    ReadFromStep(lines, i3, h3, |lines|, h4);
  }

  /** The incoming-orders section that follows `pre` hands over to the line
      after its end banner, with its rows appended as updates. */
  lemma {:induction false} IncomingAfter(lines: seq<string>, pre: seq<string>, t: Table, h: Handler, next: nat, h': Handler)
    requires Readable(t, ParseUpdateRow)
    requires next == |pre| + 2 + |BlockLines(t)| && next <= |lines|
    requires lines[..next] == pre + [INCOMING_BANNER] + BlockLines(t) + [EXPECTED_BANNER]
    requires h' == h.(updates := h.updates + Expected(t, ParseUpdateRow))
    ensures ReadLine(lines, |pre|, h) == Continue(next, h')
  {
    EndMarkers();
    SectionScan(lines, pre, INCOMING_BANNER, t, INCOMING_END, ParseUpdateRow, next);
    IncomingAt(lines, |pre|, h, Expected(t, ParseUpdateRow), next, h');
  }

  /** The preprocessor section that follows `pre` hands over to the line
      after its end banner, with both tables' rows appended as results. */
  lemma {:induction false} PreProcessorAfter(lines: seq<string>, pre: seq<string>, bids: Table, asks: Table, h: Handler,
                          next: nat, h': Handler)
    requires Readable(bids, ParsePreProcessorRow) && Readable(asks, ParsePreProcessorRow)
    requires next == |pre| + 2 + |BlockLines(bids) + BlockLines(asks)| && next <= |lines|
    requires lines[..next] == pre + [PREPROCESSOR_BANNER] + (BlockLines(bids) + BlockLines(asks)) + [PREPROCESSOR_END_BANNER]
    requires h' == h.(preResults := h.preResults
      + (Expected(bids, ParsePreProcessorRow) + Expected(asks, ParsePreProcessorRow)))
    ensures ReadLine(lines, |pre|, h) == Continue(next, h')
  {
    EndMarkers();
    PairScan(lines, pre, PREPROCESSOR_BANNER, bids, asks, PREPROCESSOR_END, ParsePreProcessorRow, next);
    PreProcessorAt(lines, |pre|, h, Expected(bids, ParsePreProcessorRow) + Expected(asks, ParsePreProcessorRow), next, h');
  }

  /** The order-book section that follows `pre` hands over to the line
      after its end banner, with both tables' rows appended as results. */
  lemma {:induction false} OrderBookAfter(lines: seq<string>, pre: seq<string>, bids: Table, asks: Table, h: Handler,
                       next: nat, h': Handler)
    requires Readable(bids, ParseOrderBookRow) && Readable(asks, ParseOrderBookRow)
    requires next == |pre| + 2 + |BlockLines(bids) + BlockLines(asks)| && next <= |lines|
    requires lines[..next] == pre + [ORDERBOOK_BANNER] + (BlockLines(bids) + BlockLines(asks)) + [ORDERBOOK_END_BANNER]
    requires h' == h.(obResults := h.obResults
      + (Expected(bids, ParseOrderBookRow) + Expected(asks, ParseOrderBookRow)))
    ensures ReadLine(lines, |pre|, h) == Continue(next, h')
  {
    EndMarkers();
    PairScan(lines, pre, ORDERBOOK_BANNER, bids, asks, ORDERBOOK_END, ParseOrderBookRow, next);
    OrderBookAt(lines, |pre|, h, Expected(bids, ParseOrderBookRow) + Expected(asks, ParseOrderBookRow), next, h');
  }

  /** The trades section that follows `pre` hands over to the line after its
      end banner, with its rows appended as trade results. */
  lemma {:induction false} TradesAfter(lines: seq<string>, pre: seq<string>, t: Table, h: Handler, next: nat, h': Handler)
    requires Readable(t, ParseTradeRow)
    requires next == |pre| + 2 + |BlockLines(t)| && next <= |lines|
    requires lines[..next] == pre + [TRADES_BANNER] + BlockLines(t) + [TRADES_END_BANNER]
    requires h' == h.(trResults := h.trResults + Expected(t, ParseTradeRow))
    ensures ReadLine(lines, |pre|, h) == Continue(next, h')
  {
    EndMarkers();
    SectionScan(lines, pre, TRADES_BANNER, t, TRADES_END, ParseTradeRow, next);
    TradesAt(lines, |pre|, h, Expected(t, ParseTradeRow), next, h');
  }

  /** The first three lines: the arguments banner is passed over, then the
      two thresholds are set. */
  lemma {:induction false} HeadRead(lines: seq<string>, o: nat, d: nat, h: Handler, h1: Handler, h2: Handler)
    requires 3 < |lines| && o <= ULLONG_MAX && d <= ULLONG_MAX
    requires lines[..3] == [ARGUMENTS_BANNER] + ["PendingOrderThreshold: " + NatToString(o)]
      + ["PendingDurationThreshold: " + NatToString(d)]
    requires h1 == h.(orderThreshold := o) && h2 == h1.(durationThreshold := Wrap(d, Int64))
    ensures ReadFrom(lines, 0, h) == ReadFrom(lines, 3, h2)
  {
    assert lines[0] == lines[..3][0] && lines[1] == lines[..3][1] && lines[2] == lines[..3][2];
    ArgumentsLine(lines, 0, h);
    ReadFromStep(lines, 0, h, 1, h);
    OrderLine(lines, 1, h, o);
    ReadFromStep(lines, 1, h, 2, h1);
    DurationLine(lines, 2, h1, d);
    ReadFromStep(lines, 2, h1, 3, h2);
  }

  /** Lines appended after a prefix leave it in place. */
  lemma {:induction false} KeepsPrefix(a: seq<string>, b: seq<string>, n: nat)
    requires n <= |a|
    ensures (a + b)[..n] == a[..n]
  {
  }

  /** A two-table section `[b] + t1 + t2 + [e]` in a file. */
  lemma {:induction false} PairAssoc(x: seq<string>, b: string, t1: seq<string>, t2: seq<string>, e: string)
    ensures x + [b] + t1 + t2 + [e] == x + [b] + (t1 + t2) + [e]
  {
    assert x + [b] + t1 + t2 == x + [b] + (t1 + t2);
  }

  /** A file whose first lines are a section: banner, block, end banner. */
  lemma {:induction false} SectionPrefix(lines: seq<string>, pre: seq<string>, banner: string, block: seq<string>, end: string)
    requires |pre| + 2 + |block| <= |lines| && lines[..|pre| + 2 + |block|] == pre + [banner] + block + [end]
    ensures |pre| + 1 + |block| < |lines| && lines[|pre|] == banner
      && lines[|pre| + 1..|pre| + 1 + |block|] == block && lines[|pre| + 1 + |block|] == end
  {
    var part := pre + [banner] + block + [end];
    SectionLayout(pre, banner, block, end, []);
    assert part + [] == part;
    assert lines[|pre| + 1..|pre| + 1 + |block|] == part[|pre| + 1..|pre| + 1 + |block|];
  }

  /** The tables of a fixture the reader gets back in full. */
  predicate ReadableFixture(p: Inputs, incoming: Table)
  {
    p.pendingOrderThreshold <= ULLONG_MAX && p.pendingDurationThreshold <= ULLONG_MAX
    && Readable(incoming, ParseUpdateRow)
    && Readable(p.preBids, ParsePreProcessorRow) && Readable(p.preAsks, ParsePreProcessorRow)
    && Readable(p.bookBids, ParseOrderBookRow) && Readable(p.bookAsks, ParseOrderBookRow)
    && Readable(p.trades, ParseTradeRow)
  }

  /** The handler after reading a written fixture: both thresholds, the
      duration as a signed 64-bit count, and each section's records appended
      in the order the writer wrote them. */
  function AfterFixture(p: Inputs, incoming: Table, h: Handler): Handler
    requires ReadableFixture(p, incoming)
  {
    Handler(p.pendingOrderThreshold, Wrap(p.pendingDurationThreshold, Int64),
      h.updates + Expected(incoming, ParseUpdateRow),
      h.preResults + (Expected(p.preBids, ParsePreProcessorRow) + Expected(p.preAsks, ParsePreProcessorRow)),
      h.obResults + (Expected(p.bookBids, ParseOrderBookRow) + Expected(p.bookAsks, ParseOrderBookRow)),
      h.trResults + Expected(p.trades, ParseTradeRow))
  }

  /** Where the writer puts each section, for a file laid out as the
      writer lays it out: each prefix that ends with a section's end banner
      is where the section's lines are. */
  lemma {:induction false} FilePrefixes(lines: seq<string>, h3: seq<string>, ib: string, bi: seq<string>, eb: string,
                     pb: string, bp1: seq<string>, bp2: seq<string>, peb: string,
                     ob: string, bo1: seq<string>, bo2: seq<string>, oeb: string,
                     tb: string, bt: seq<string>, teb: string)
    requires lines == h3 + [ib] + bi + [eb] + [pb] + bp1 + bp2 + [peb] + [ob] + bo1 + bo2 + [oeb] + [tb] + bt + [teb]
    ensures var a1 := h3 + [ib] + bi + [eb];
      var a2 := a1 + [pb] + (bp1 + bp2) + [peb];
      var a3 := a2 + [ob] + (bo1 + bo2) + [oeb];
      |h3| <= |a1| <= |a2| <= |a3| && |lines| == |a3| + 2 + |bt|
      && lines[..|h3|] == h3 && lines[..|a1|] == a1 && lines[..|a2|] == a2 && lines[..|a3|] == a3
      && lines[..|lines|] == a3 + [tb] + bt + [teb]
  {
    var a1 := h3 + [ib] + bi + [eb];
    var a2 := a1 + [pb] + (bp1 + bp2) + [peb];
    var a3 := a2 + [ob] + (bo1 + bo2) + [oeb];
    PairAssoc(a1, pb, bp1, bp2, peb);
    PairAssoc(a2, ob, bo1, bo2, oeb);
    assert lines == a3 + [tb] + bt + [teb];
    KeepsPrefix(a3, [tb] + bt + [teb], |a3|);
    assert lines == a3 + ([tb] + bt + [teb]);
    KeepsPrefix(a2, [ob] + (bo1 + bo2) + [oeb], |a2|);
    assert a3 == a2 + ([ob] + (bo1 + bo2) + [oeb]);
    KeepsPrefix(a1, [pb] + (bp1 + bp2) + [peb], |a1|);
    assert a2 == a1 + ([pb] + (bp1 + bp2) + [peb]);
    KeepsPrefix(h3, [ib] + bi + [eb], |h3|);
    assert a1 == h3 + ([ib] + bi + [eb]);
    assert lines[..|a2|] == a3[..|a2|];
    assert lines[..|a1|] == a2[..|a1|];
    assert lines[..|h3|] == a1[..|h3|];
    assert lines[..|lines|] == lines;
  }

  /** A file that holds the four sections after its first three lines,
      where the writer puts them, reads from the fourth line on to the end
      without an exception, appending each section's records in turn. */
  lemma {:induction false} SectionsRead(lines: seq<string>, a1: seq<string>, a2: seq<string>, a3: seq<string>,
                     p: Inputs, incoming: Table, h1: Handler, h2: Handler, h3: Handler, h4: Handler, h5: Handler)
    requires ReadableFixture(p, incoming)
    requires |a1| == 3 + 2 + |BlockLines(incoming)| <= |lines|
    requires lines[..|a1|] == lines[..3] + [INCOMING_BANNER] + BlockLines(incoming) + [EXPECTED_BANNER]
    requires |a2| == |a1| + 2 + |BlockLines(p.preBids) + BlockLines(p.preAsks)| <= |lines|
    requires lines[..|a2|]
      == a1 + [PREPROCESSOR_BANNER] + (BlockLines(p.preBids) + BlockLines(p.preAsks)) + [PREPROCESSOR_END_BANNER]
    requires |a3| == |a2| + 2 + |BlockLines(p.bookBids) + BlockLines(p.bookAsks)| <= |lines|
    requires lines[..|a3|]
      == a2 + [ORDERBOOK_BANNER] + (BlockLines(p.bookBids) + BlockLines(p.bookAsks)) + [ORDERBOOK_END_BANNER]
    requires |lines| == |a3| + 2 + |BlockLines(p.trades)|
    requires lines[..|lines|] == a3 + [TRADES_BANNER] + BlockLines(p.trades) + [TRADES_END_BANNER]
    requires h2 == h1.(updates := h1.updates + Expected(incoming, ParseUpdateRow))
    requires h3 == h2.(preResults := h2.preResults
      + (Expected(p.preBids, ParsePreProcessorRow) + Expected(p.preAsks, ParsePreProcessorRow)))
    requires h4 == h3.(obResults := h3.obResults
      + (Expected(p.bookBids, ParseOrderBookRow) + Expected(p.bookAsks, ParseOrderBookRow)))
    requires h5 == h4.(trResults := h4.trResults + Expected(p.trades, ParseTradeRow))
    ensures ReadFrom(lines, 3, h1) == (h5, None)
  {
    IncomingAfter(lines, lines[..3], incoming, h1, |a1|, h2);
    PreProcessorAfter(lines, a1, p.preBids, p.preAsks, h2, |a2|, h3);
    OrderBookAfter(lines, a2, p.bookBids, p.bookAsks, h3, |a3|, h4);
    TradesAfter(lines, a3, p.trades, h4, |lines|, h5);
    ReadChain(lines, 3, h1, |a1|, h2, |a2|, h3, |a3|, h4, h5);
  }

  /** Where the writer puts the head and the four sections of a fixture:
      `a1`, `a2` and `a3` are the lines up to the end of the incoming-orders,
      preprocessor and order-book sections. */
  lemma {:induction false} FixtureLayoutOf(p: Inputs, incoming: Table) returns (a1: seq<string>, a2: seq<string>, a3: seq<string>)
    requires ValidInputs(p) && WellFormed(incoming)
    ensures var lines := FixtureLines(p, incoming);
      var o, d := p.pendingOrderThreshold, p.pendingDurationThreshold;
      3 < |lines| && lines[..3] == [ARGUMENTS_BANNER] + ["PendingOrderThreshold: " + NatToString(o)]
        + ["PendingDurationThreshold: " + NatToString(d)]
      && |a1| == 3 + 2 + |BlockLines(incoming)| <= |lines|
      && lines[..|a1|] == lines[..3] + [INCOMING_BANNER] + BlockLines(incoming) + [EXPECTED_BANNER]
      && |a2| == |a1| + 2 + |BlockLines(p.preBids) + BlockLines(p.preAsks)| <= |lines|
      && lines[..|a2|]
        == a1 + [PREPROCESSOR_BANNER] + (BlockLines(p.preBids) + BlockLines(p.preAsks)) + [PREPROCESSOR_END_BANNER]
      && |a3| == |a2| + 2 + |BlockLines(p.bookBids) + BlockLines(p.bookAsks)| <= |lines|
      && lines[..|a3|]
        == a2 + [ORDERBOOK_BANNER] + (BlockLines(p.bookBids) + BlockLines(p.bookAsks)) + [ORDERBOOK_END_BANNER]
      && |lines| == |a3| + 2 + |BlockLines(p.trades)|
      && lines[..|lines|] == a3 + [TRADES_BANNER] + BlockLines(p.trades) + [TRADES_END_BANNER]
  {
    var lines := FixtureLines(p, incoming);
    var o, d := p.pendingOrderThreshold, p.pendingDurationThreshold;
    var h3 := [ARGUMENTS_BANNER] + ["PendingOrderThreshold: " + NatToString(o)]
      + ["PendingDurationThreshold: " + NatToString(d)];
    var bi := BlockLines(incoming);
    var bp1, bp2 := BlockLines(p.preBids), BlockLines(p.preAsks);
    var bo1, bo2 := BlockLines(p.bookBids), BlockLines(p.bookAsks);
    var bt := BlockLines(p.trades);
    a1 := h3 + [INCOMING_BANNER] + bi + [EXPECTED_BANNER];
    a2 := a1 + [PREPROCESSOR_BANNER] + (bp1 + bp2) + [PREPROCESSOR_END_BANNER];
    a3 := a2 + [ORDERBOOK_BANNER] + (bo1 + bo2) + [ORDERBOOK_END_BANNER];
    FilePrefixes(lines, h3, INCOMING_BANNER, bi, EXPECTED_BANNER,
      PREPROCESSOR_BANNER, bp1, bp2, PREPROCESSOR_END_BANNER,
      ORDERBOOK_BANNER, bo1, bo2, ORDERBOOK_END_BANNER, TRADES_BANNER, bt, TRADES_END_BANNER);
    assert lines[..3] == h3;
  }

  /** Reading lines laid out as a fixture: the head, then the four sections
      ending at `a1`, `a2`, `a3` and the last line. */
  lemma {:induction false} LaidOutRead(lines: seq<string>, a1: seq<string>, a2: seq<string>, a3: seq<string>,
                    p: Inputs, incoming: Table, h: Handler)
    requires ReadableFixture(p, incoming)
    requires 3 < |lines| && lines[..3] == [ARGUMENTS_BANNER]
      + ["PendingOrderThreshold: " + NatToString(p.pendingOrderThreshold)]
      + ["PendingDurationThreshold: " + NatToString(p.pendingDurationThreshold)]
    requires |a1| == 3 + 2 + |BlockLines(incoming)| <= |lines|
    requires lines[..|a1|] == lines[..3] + [INCOMING_BANNER] + BlockLines(incoming) + [EXPECTED_BANNER]
    requires |a2| == |a1| + 2 + |BlockLines(p.preBids) + BlockLines(p.preAsks)| <= |lines|
    requires lines[..|a2|]
      == a1 + [PREPROCESSOR_BANNER] + (BlockLines(p.preBids) + BlockLines(p.preAsks)) + [PREPROCESSOR_END_BANNER]
    requires |a3| == |a2| + 2 + |BlockLines(p.bookBids) + BlockLines(p.bookAsks)| <= |lines|
    requires lines[..|a3|]
      == a2 + [ORDERBOOK_BANNER] + (BlockLines(p.bookBids) + BlockLines(p.bookAsks)) + [ORDERBOOK_END_BANNER]
    requires |lines| == |a3| + 2 + |BlockLines(p.trades)|
    requires lines[..|lines|] == a3 + [TRADES_BANNER] + BlockLines(p.trades) + [TRADES_END_BANNER]
    ensures ReadFrom(lines, 0, h) == (AfterFixture(p, incoming, h), None)
  {
    var o, d := p.pendingOrderThreshold, p.pendingDurationThreshold;
    var g1 := h.(orderThreshold := o);
    var g2 := g1.(durationThreshold := Wrap(d, Int64));
    var g3 := g2.(updates := g2.updates + Expected(incoming, ParseUpdateRow));
    var g4 := g3.(preResults := g3.preResults
      + (Expected(p.preBids, ParsePreProcessorRow) + Expected(p.preAsks, ParsePreProcessorRow)));
    var g5 := g4.(obResults := g4.obResults
      + (Expected(p.bookBids, ParseOrderBookRow) + Expected(p.bookAsks, ParseOrderBookRow)));
    var g6 := g5.(trResults := g5.trResults + Expected(p.trades, ParseTradeRow));
    HeadRead(lines, o, d, h, g1, g2);
    SectionsRead(lines, a1, a2, a3, p, incoming, g2, g3, g4, g5, g6);
  }

  /** Reading a fixture the writer produced: no exception, the thresholds
      it was given, and every table's rows back as records. */
  lemma {:induction false} FixtureReadBack(p: Inputs, incoming: Table, h: Handler)
    requires ValidInputs(p) && ReadableFixture(p, incoming)
    ensures ReadFrom(FixtureLines(p, incoming), 0, h) == (AfterFixture(p, incoming, h), None)
  {
    var a1, a2, a3 := FixtureLayoutOf(p, incoming);
    LaidOutRead(FixtureLines(p, incoming), a1, a2, a3, p, incoming, h);
  }
}
