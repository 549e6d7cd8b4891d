/** The fixture writer (a Streamlit page): per-cell validators, the
    ActivateTime/DeactivateTime defaulting rules, the fixed-width table
    renderer and the fixture assembly. Widgets, `st.error` and the file write
    are outside the model; the assembly returns the errors and the text. */
module FixtureWriter {
  import opened Wrappers
  import opened Text
  import opened DateTimes

  // ---------------------------------------------------------------------
  // Cells and messages.

  /** A DataFrame cell: text, or pandas' NaN. */
  datatype Cell = Str(s: string) | Missing

  /** `str(val)`: NaN prints as "nan". */
  function CellString(c: Cell): string
  {
    match c
    case Str(s) => s
    case Missing => "nan"
  }

  /** `pd.isna(val) or str(val).strip() in ["-", ""]`. */
  predicate IsBlank(c: Cell)
  {
    c.Missing? || Strip(c.s) == "-" || Strip(c.s) == ""
  }

  /** Why a cell was refused; each reason has its own message text. */
  datatype Reason =
    | NotPositiveInteger
    | NotDateTime
    | NotParticipantId
    | NotSymbol
    | CounterRequired
    | CounterDash
    | CounterNotPositive
    | InvalidAction(action: string)
    | TimeRequired(orderType: string)
    | TimeFormat
    | TimeOrder

  /** One error: table name, 0-based row position, column, reason. */
  datatype Issue = Issue(table: string, row: nat, column: string, reason: Reason)

  const INCOMING: string := "Incoming Orders"

  function RowLabel(row: nat): string
  {
    "Row " + NatToString(row + 1)
  }

  /** The text the validators return, before the "[table] " prefix. */
  function Message(i: Issue): string
  {
    var row := RowLabel(i.row);
    var col := "'" + i.column + "'";
    match i.reason
    case NotPositiveInteger => row + " in column " + col + " must be a positive integer or '-'."
    case NotDateTime => row + " in column " + col + " must be in format %d-%m-%Y %H:%M:%S or '-'."
    case NotParticipantId =>
      row + " in column " + col
      + " must be digits_part2 where part2 is exactly 4 alphanumeric characters, or '-'."
    case NotSymbol => row + ": " + col + " must be exactly 3 letters (A-Z) or '-'."
    case CounterRequired => row + " in column " + col + " is required."
    case CounterDash => row + " in column " + col + " cannot be '-'."
    case CounterNotPositive => row + " in column " + col + " must be a positive integer."
    case InvalidAction(a) => row + ": Invalid action '" + a + "'."
    case TimeRequired(t) => row + ": " + col + " is required for OrderType '" + t + "'."
    case TimeFormat => row + ": " + col + " must be in format %d-%m-%Y/%H:%M:%S or '-'."
    case TimeOrder => row + ": 'ActivateTime' cannot be after 'DeactivateTime'."
  }

  /** The error line shown to the user. */
  function Render(i: Issue): string
  {
    "[" + i.table + "] " + Message(i)
  }

  // ---------------------------------------------------------------------
  // Validators: None means the cell is accepted.

  predicate IsAsciiLetter(c: char)
  {
    'A' <= c <= 'Z' || 'a' <= c <= 'z'
  }

  predicate IsAsciiAlnum(c: char)
  {
    IsAsciiLetter(c) || IsDigit(c)
  }

  /** `s.isdigit() and int(s) > 0`. */
  predicate IsPositiveIntegerText(s: string)
  {
    |s| > 0 && IsDigits(s) && DigitsValue(s) > 0
  }

  /** `re.fullmatch(r"(\d+)_([A-Za-z0-9]{4})", s)`: since a digit is never
      '_', the underscore must sit five characters from the end. */
  predicate IsParticipantIdText(s: string)
  {
    |s| >= 6 && IsDigits(s[..|s| - 5]) && s[|s| - 5] == '_'
    && forall i :: |s| - 4 <= i < |s| ==> IsAsciiAlnum(s[i])
  }

  /** Stripped text of exactly three letters. */
  predicate IsSymbolText(s: string)
  {
    |Strip(s)| == 3 && forall i :: 0 <= i < 3 ==> IsAsciiLetter(Strip(s)[i])
  }

  function ValidatePositiveInteger(val: Cell): (r: Option<Reason>)
    ensures r.None? <==> IsBlank(val) || IsPositiveIntegerText(CellString(val))
    ensures r.Some? ==> r.value == NotPositiveInteger
  {
    if IsBlank(val) then None
    else if !(|CellString(val)| > 0 && IsDigits(CellString(val))) || DigitsValue(CellString(val)) <= 0
    then Some(NotPositiveInteger)
    else None
  }

  /** Defined beside the others, though no table uses it. */
  function ValidateDateTime(val: Cell): (r: Option<Reason>)
    ensures r.None? <==> IsBlank(val) || StrpTime(CellString(val), ' ').Some?
  {
    if IsBlank(val) then None
    else if StrpTime(CellString(val), ' ').None? then Some(NotDateTime)
    else None
  }

  function ValidateParticipantId(val: Cell): (r: Option<Reason>)
    ensures r.None? <==> IsBlank(val) || IsParticipantIdText(CellString(val))
  {
    if IsBlank(val) then None
    else if !IsParticipantIdText(CellString(val)) then Some(NotParticipantId)
    else None
  }

  function ValidateSymbol(val: Cell): (r: Option<Reason>)
    ensures r.None? <==> IsBlank(val) || IsSymbolText(CellString(val))
  {
    if IsBlank(val) then None
    else if !IsSymbolText(CellString(val)) then Some(NotSymbol)
    else None
  }

  /** OrderCounter has no placeholder: a blank or "-" counter is an error. */
  function ValidateOrderCounter(val: Cell): (r: Option<Reason>)
    ensures r.None? <==> val.Str? && IsPositiveIntegerText(val.s)
    ensures r == Some(CounterRequired) <==> val.Missing? || Strip(val.s) == ""
    ensures r == Some(CounterDash) <==> val.Str? && Strip(val.s) == "-"
  {
    if val.Missing? || Strip(val.s) == "" then Some(CounterRequired)
    else if Strip(val.s) == "-" then Some(CounterDash)
    else if !(|val.s| > 0 && IsDigits(val.s)) || DigitsValue(val.s) <= 0 then Some(CounterNotPositive)
    else None
  }

  function Report(r: Option<Reason>, table: string, row: nat, column: string): seq<Issue>
  {
    if r.Some? then [Issue(table, row, column, r.value)] else []
  }

  /** validate_positive_integer accepts a positive digit string and the
      placeholders. */
  lemma PositiveIntegerAccepts()
    ensures ValidatePositiveInteger(Str("7")).None?
    ensures ValidatePositiveInteger(Str(" - ")).None?
    ensures ValidatePositiveInteger(Missing).None?
  {
    assert DigitsValue("7") == 7;
    assert Strip(" - ") == "-";
  }

  /** validate_positive_integer refuses zero, a sign and letters. */
  lemma PositiveIntegerRejects()
    ensures ValidatePositiveInteger(Str("0")).Some?
    ensures ValidatePositiveInteger(Str("-5")).Some?
    ensures ValidatePositiveInteger(Str("abc")).Some?
  {
    assert DigitsValue("0") == 0;
    assert !IsDigit('-') && !IsDigit('a');
  }

  /** validate_participant_id accepts digits, '_' and four alphanumerics. */
  lemma ParticipantIdAccepts()
    ensures ValidateParticipantId(Str("123_AB12")).None?
  {
    assert Strip("123_AB12") == "123_AB12";
  }

  /** validate_participant_id refuses a short suffix and a non-digit head. */
  lemma ParticipantIdRejects()
    ensures ValidateParticipantId(Str("123_AB1")).Some?
    ensures ValidateParticipantId(Str("abc_AB12")).Some?
  {
    assert Strip("123_AB1") == "123_AB1";
    assert Strip("abc_AB12") == "abc_AB12";
    assert !IsDigit('a');
  }

  /** validate_symbol on sample cells: the value is stripped first. */
  lemma SymbolExamples()
    ensures ValidateSymbol(Str(" ABC ")).None?
    ensures ValidateSymbol(Str("AB1")).Some?
    ensures ValidateSymbol(Str("-")).None?
  {
    assert StripLeft(" ABC ") == "ABC ";
    assert StripRight("ABC ") == "ABC";
    assert Strip("AB1") == "AB1";
    assert Strip("-") == "-";
  }

  /** validate_order_counter exempts no placeholder. */
  lemma OrderCounterPlaceholders()
    ensures ValidateOrderCounter(Missing) == Some(CounterRequired)
    ensures ValidateOrderCounter(Str("  ")) == Some(CounterRequired)
    ensures ValidateOrderCounter(Str("-")) == Some(CounterDash)
  {
    assert StripLeft("  ") == "";
    assert Strip("-") == "-";
  }

  /** validate_order_counter wants a positive digit string. */
  lemma OrderCounterValues()
    ensures ValidateOrderCounter(Str("0")) == Some(CounterNotPositive)
    ensures ValidateOrderCounter(Str("12")) == None
  {
    assert Strip("0") == "0";
    assert Strip("12") == "12";
    assert DigitsValue("12") == 12;
  }

  // ---------------------------------------------------------------------
  // Tables.

  /** A DataFrame: column names and rows of cells. */
  datatype Table = Table(columns: seq<string>, rows: seq<seq<Cell>>)

  /** Every row has one cell per column. */
  predicate WellFormed(t: Table)
  {
    forall i :: 0 <= i < |t.rows| ==> |t.rows[i]| == |t.columns|
  }

  /** `df.empty`: no rows or no columns. */
  predicate IsEmpty(t: Table)
  {
    |t.rows| == 0 || |t.columns| == 0
  }

  function ColumnIndex(columns: seq<string>, name: string): (r: Option<nat>)
    ensures r.Some? ==> r.value < |columns| && columns[r.value] == name
    ensures r.None? ==> name !in columns
  {
    if columns == [] then None
    else if columns[0] == name then Some(0)
    else match ColumnIndex(columns[1..], name)
      case None => None
      case Some(k) => Some(k + 1)
  }

  /** The checks the assembly applies to the expected-result tables. */
  datatype Check = PositiveInteger | Symbol | ParticipantId

  function Apply(c: Check, val: Cell): Option<Reason>
  {
    match c
    case PositiveInteger => ValidatePositiveInteger(val)
    case Symbol => ValidateSymbol(val)
    case ParticipantId => ValidateParticipantId(val)
  }

  /** Issues of one row, checks in mapping order, skipping absent columns. */
  function RowIssues(t: Table, i: nat, checks: seq<(string, Check)>, name: string): seq<Issue>
    requires WellFormed(t) && i < |t.rows|
  {
    if checks == [] then []
    else
      var rest := RowIssues(t, i, checks[..|checks| - 1], name);
      var (col, check) := checks[|checks| - 1];
      match ColumnIndex(t.columns, col)
      case None => rest
      case Some(j) => rest + Report(Apply(check, t.rows[i][j]), name, i, col)
  }

  /** Issues of the first `n` rows, row by row. */
  function TableIssues(t: Table, checks: seq<(string, Check)>, name: string, n: nat): seq<Issue>
    requires WellFormed(t) && n <= |t.rows|
  {
    if n == 0 then [] else TableIssues(t, checks, name, n - 1) + RowIssues(t, n - 1, checks, name)
  }

  /** validate_dataframe: every row, every check whose column exists. */
  method ValidateDataframe(t: Table, checks: seq<(string, Check)>, name: string) returns (errors: seq<Issue>)
    requires WellFormed(t)
    ensures errors == TableIssues(t, checks, name, |t.rows|)
  {
    errors := [];
    var i := 0;
    while i < |t.rows|
      invariant 0 <= i <= |t.rows|
      invariant errors == TableIssues(t, checks, name, i)
    {
      var rowErrors := ValidateRow(t, i, checks, name);
      errors := errors + rowErrors;
      i := i + 1;
    }
  }

  /** The inner loop of validate_dataframe: the checks, in mapping order, on
      row `i`. */
  method ValidateRow(t: Table, i: nat, checks: seq<(string, Check)>, name: string) returns (errors: seq<Issue>)
    requires WellFormed(t) && i < |t.rows|
    ensures errors == RowIssues(t, i, checks, name)
  {
    errors := [];
    var k := 0;
    while k < |checks|
      invariant 0 <= k <= |checks|
      invariant errors == RowIssues(t, i, checks[..k], name)
    {
      var (col, check) := checks[k];
      assert checks[..k + 1][..k] == checks[..k];
      var j := ColumnIndex(t.columns, col);
      if j.Some? {
        errors := errors + Report(Apply(check, t.rows[i][j.value]), name, i, col);
      }
      k := k + 1;
    }
    assert checks[..|checks|] == checks;
  }

  /** Every issue of a table is tagged with the table name, a row of the
      table and one of the checked columns, and the rows come in order. */
  lemma {:induction false} TableIssuesInOrder(t: Table, checks: seq<(string, Check)>, name: string, n: nat)
    requires WellFormed(t) && n <= |t.rows|
    ensures forall k :: 0 <= k < |TableIssues(t, checks, name, n)| ==>
      TableIssues(t, checks, name, n)[k].table == name && TableIssues(t, checks, name, n)[k].row < n
    ensures forall k, l :: 0 <= k < l < |TableIssues(t, checks, name, n)| ==>
      TableIssues(t, checks, name, n)[k].row <= TableIssues(t, checks, name, n)[l].row
  {
    if n > 0 {
      TableIssuesInOrder(t, checks, name, n - 1);
      RowIssuesRow(t, n - 1, checks, name);
    }
  }

  lemma {:induction false} RowIssuesRow(t: Table, i: nat, checks: seq<(string, Check)>, name: string)
    requires WellFormed(t) && i < |t.rows|
    ensures forall k :: 0 <= k < |RowIssues(t, i, checks, name)| ==>
      RowIssues(t, i, checks, name)[k].table == name && RowIssues(t, i, checks, name)[k].row == i
  {
    if checks != [] {
      RowIssuesRow(t, i, checks[..|checks| - 1], name);
    }
  }

  // ---------------------------------------------------------------------
  // Incoming orders.

  const INCOMING_COLUMNS: seq<string> :=
    ["OrderCounter", "Action", "Symbol", "OrderType", "Side",
     "Price", "Quantity", "ActivateTime", "DeactivateTime", "ParticipantID"]

  /** One row of the incoming-orders editor, column by column. */
  datatype IncomingRow = IncomingRow(
    orderCounter: Cell, action: Cell, symbol: Cell, orderType: Cell, side: Cell,
    price: Cell, quantity: Cell, activateTime: Cell, deactivateTime: Cell, participantId: Cell)

  function RowCells(r: IncomingRow): seq<Cell>
  {
    [r.orderCounter, r.action, r.symbol, r.orderType, r.side,
     r.price, r.quantity, r.activateTime, r.deactivateTime, r.participantId]
  }

  function IncomingTable(rows: seq<IncomingRow>): (t: Table)
    ensures WellFormed(t) && |t.rows| == |rows|
  {
    Table(INCOMING_COLUMNS, seq(|rows|, i requires 0 <= i < |rows| => RowCells(rows[i])))
  }

  const DEFAULT_DEACTIVATE_TIME: string := "01-01-2100/00:00:00"

  /** The order type a row names, or None for "-", "" and NaN (after strip);
      the value itself is kept unstripped. */
  function NamedOrderType(c: Cell): Option<string>
  {
    var s := Strip(CellString(c));
    if s == "-" || s == "" || s == "nan" then None else Some(CellString(c))
  }

  predicate RequiresActivate(orderType: Option<string>)
  {
    orderType == Some("GoodAfterTime")
  }

  predicate RequiresDeactivate(orderType: Option<string>)
  {
    orderType == Some("GoodTillCancel") || orderType == Some("GoodForDay")
  }

  /** The value of a time field after defaulting. */
  function FixedTime(c: Cell, required: bool, default: string): Cell
  {
    if !required && IsBlank(c) then Str(default) else c
  }

  /** A time field that is present but does not parse. */
  predicate IsMalformedTime(c: Cell)
  {
    !IsBlank(c) && StrpTime(CellString(c), '/').None?
  }

  /** Every issue in `issues` is about `row` of the incoming orders. */
  predicate TaggedRow(issues: seq<Issue>, row: nat)
  {
    forall k :: 0 <= k < |issues| ==> issues[k].table == INCOMING && issues[k].row == row
  }

  function FormatIssues(c: Cell, row: nat, column: string): seq<Issue>
  {
    if IsMalformedTime(c) then [Issue(INCOMING, row, column, TimeFormat)] else []
  }

  /** The mandatory-time checks of validate_and_fix_times: a GoodAfterTime
      order needs an ActivateTime, a GoodTillCancel or GoodForDay order a
      DeactivateTime. */
  function MandatoryIssues(r: IncomingRow, row: nat): seq<Issue>
  {
    var orderType := NamedOrderType(r.orderType);
    (if RequiresActivate(orderType) && IsBlank(r.activateTime)
     then [Issue(INCOMING, row, "ActivateTime", TimeRequired("GoodAfterTime"))] else [])
    + (if RequiresDeactivate(orderType) && IsBlank(r.deactivateTime)
       then [Issue(INCOMING, row, "DeactivateTime", TimeRequired(orderType.value))] else [])
  }

  /** The row with every blank time that is not mandatory defaulted. */
  function Defaulted(r: IncomingRow, defaultActivate: string): IncomingRow
  {
    var orderType := NamedOrderType(r.orderType);
    r.(activateTime := FixedTime(r.activateTime, RequiresActivate(orderType), defaultActivate),
       deactivateTime := FixedTime(r.deactivateTime, RequiresDeactivate(orderType), DEFAULT_DEACTIVATE_TIME))
  }

  /** The parsed value of a time field, when it is present and parses. */
  function Parsed(c: Cell): Option<DateTime>
  {
    if IsBlank(c) then None else StrpTime(CellString(c), '/')
  }

  /** The order check: both times parse and ActivateTime is later. */
  function OrderIssues(r: IncomingRow, row: nat): seq<Issue>
  {
    var activate := Parsed(r.activateTime);
    var deactivate := Parsed(r.deactivateTime);
    if activate.Some? && deactivate.Some? && Before(deactivate.value, activate.value)
    then [Issue(INCOMING, row, "ActivateTime", TimeOrder)] else []
  }

  /** The format and order issues of a row whose times are defaulted. */
  function TimeValueIssues(fixed: IncomingRow, row: nat): seq<Issue>
  {
    FormatIssuesUpTo(fixed, row, 2) + OrderIssues(fixed, row)
  }

  /** The issues validate_and_fix_times reports (the fixed row is
      `Defaulted`). */
  function TimeIssues(r: IncomingRow, row: nat, defaultActivate: string): seq<Issue>
  {
    MandatoryIssues(r, row) + TimeValueIssues(Defaulted(r, defaultActivate), row)
  }

  const TIME_COLUMNS: seq<string> := ["ActivateTime", "DeactivateTime"]

  function TimeFields(r: IncomingRow): seq<Cell>
  {
    [r.activateTime, r.deactivateTime]
  }

  /** The format issues of the first `k` time fields. */
  function FormatIssuesUpTo(r: IncomingRow, row: nat, k: nat): seq<Issue>
    requires k <= 2
  {
    if k == 0 then []
    else FormatIssuesUpTo(r, row, k - 1) + FormatIssues(TimeFields(r)[k - 1], row, TIME_COLUMNS[k - 1])
  }

  /** The first half of validate_and_fix_times: the mandatory-time checks
      and the defaults. */
  method CheckMandatoryTimes(r: IncomingRow, row: nat, defaultActivate: string)
    returns (errors: seq<Issue>, fixed: IncomingRow)
    ensures errors == MandatoryIssues(r, row)
    ensures fixed == Defaulted(r, defaultActivate)
  {
    errors := [];
    fixed := r;
    var orderType := NamedOrderType(r.orderType);
    var needsActivate := RequiresActivate(orderType);
    var needsDeactivate := RequiresDeactivate(orderType);
    if needsActivate {
      if IsBlank(r.activateTime) {
        errors := errors + [Issue(INCOMING, row, "ActivateTime", TimeRequired("GoodAfterTime"))];
      }
    } else if IsBlank(r.activateTime) {
      fixed := fixed.(activateTime := Str(defaultActivate));
    }
    if needsDeactivate {
      if IsBlank(r.deactivateTime) {
        errors := errors + [Issue(INCOMING, row, "DeactivateTime", TimeRequired(orderType.value))];
      }
    } else if IsBlank(r.deactivateTime) {
      fixed := fixed.(deactivateTime := Str(DEFAULT_DEACTIVATE_TIME));
    }
  }

  /** The second half of validate_and_fix_times: a loop over the two time
      fields, in which a present value must parse, then the order check on
      the parsed values. */
  method CheckTimeValues(fixed: IncomingRow, row: nat) returns (errors: seq<Issue>)
    ensures errors == TimeValueIssues(fixed, row)
  {
    errors := [];
    var parsed: seq<Option<DateTime>> := [];
    var fields := TimeFields(fixed);
    for k := 0 to 2
      invariant |parsed| == k
      invariant forall m :: 0 <= m < k ==> parsed[m] == Parsed(fields[m])
      invariant errors == FormatIssuesUpTo(fixed, row, k)
    {
      var val := fields[k];
      if IsBlank(val) {
        parsed := parsed + [None];
      } else {
        var d := StrpTime(CellString(val), '/');
        if d.None? {
          errors := errors + [Issue(INCOMING, row, TIME_COLUMNS[k], TimeFormat)];
        }
        parsed := parsed + [d];
      }
    }
    assert parsed[0] == Parsed(fixed.activateTime) && parsed[1] == Parsed(fixed.deactivateTime);
    if parsed[0].Some? && parsed[1].Some? && Before(parsed[1].value, parsed[0].value) {
      errors := errors + [Issue(INCOMING, row, "ActivateTime", TimeOrder)];
    }
  }

  /** validate_and_fix_times: the mandatory checks and defaults, then the
      format and order checks on the defaulted row. */
  method ValidateAndFixTimes(r: IncomingRow, row: nat, defaultActivate: string)
    returns (errors: seq<Issue>, fixed: IncomingRow)
    ensures errors == TimeIssues(r, row, defaultActivate)
    ensures fixed == Defaulted(r, defaultActivate)
  {
    errors, fixed := CheckMandatoryTimes(r, row, defaultActivate);
    var valueErrors := CheckTimeValues(fixed, row);
    errors := errors + valueErrors;
  }

  predicate IsCancel(r: IncomingRow)
  {
    Strip(CellString(r.action)) == "Cancel"
  }

  /** An action other than Add, Modify and Cancel is reported. */
  function ActionIssues(action: string, row: nat): seq<Issue>
  {
    if action == "Add" || action == "Modify" || action == "Cancel" then []
    else [Issue(INCOMING, row, "Action", InvalidAction(action))]
  }

  /** The checks every incoming row gets: the counter and the action. */
  function CommonIssues(r: IncomingRow, row: nat): seq<Issue>
  {
    Report(ValidateOrderCounter(r.orderCounter), INCOMING, row, "OrderCounter")
    + ActionIssues(Strip(CellString(r.action)), row)
  }

  /** All issues of one incoming row: a Cancel row has only its counter and
      action checked. */
  function IncomingRowIssues(r: IncomingRow, row: nat, defaultActivate: string): seq<Issue>
  {
    if IsCancel(r) then CommonIssues(r, row)
    else
      var fixed := Defaulted(r, defaultActivate);
      CommonIssues(r, row)
      + Report(ValidateSymbol(r.symbol), INCOMING, row, "Symbol")
      + TimeIssues(r, row, defaultActivate)
      + Report(ValidatePositiveInteger(fixed.price), INCOMING, row, "Price")
      + Report(ValidatePositiveInteger(fixed.quantity), INCOMING, row, "Quantity")
      + Report(ValidateParticipantId(fixed.participantId), INCOMING, row, "ParticipantID")
  }

  /** The row as validate_incoming_orders keeps it. */
  function FixedRow(r: IncomingRow, defaultActivate: string): IncomingRow
  {
    if IsCancel(r) then r else Defaulted(r, defaultActivate)
  }

  /** The issues of row `i`, or none past the last row. */
  function RowIssuesOf(rows: seq<IncomingRow>, defaultActivate: string): nat -> seq<Issue>
  {
    (i: nat) => if i < |rows| then IncomingRowIssues(rows[i], i, defaultActivate) else []
  }

  /** The issues of rows 0..n-1, row after row. */
  function IssuesUpTo(perRow: nat -> seq<Issue>, n: nat): seq<Issue>
  {
    if n == 0 then [] else IssuesUpTo(perRow, n - 1) + perRow(n - 1)
  }

  /** The errors validate_incoming_orders collects over the first `n` rows. */
  function IncomingIssues(rows: seq<IncomingRow>, defaultActivate: string, n: nat): seq<Issue>
  {
    IssuesUpTo(RowIssuesOf(rows, defaultActivate), n)
  }

  /** `f` applied to each of the first `n` rows, in order. */
  function MapUpTo(f: IncomingRow -> IncomingRow, rows: seq<IncomingRow>, n: nat): seq<IncomingRow>
    requires n <= |rows|
  {
    if n == 0 then [] else MapUpTo(f, rows, n - 1) + [f(rows[n - 1])]
  }

  /** The first `n` rows as validate_incoming_orders keeps them. */
  function FixedRows(rows: seq<IncomingRow>, defaultActivate: string, n: nat): seq<IncomingRow>
    requires n <= |rows|
  {
    MapUpTo(r => FixedRow(r, defaultActivate), rows, n)
  }

  /** validate_incoming_orders: checks every row and keeps one (possibly
      defaulted) row per input row. */
  method ValidateIncomingOrders(rows: seq<IncomingRow>, defaultActivate: string)
    returns (errors: seq<Issue>, updated: seq<IncomingRow>)
    ensures errors == IncomingIssues(rows, defaultActivate, |rows|)
    ensures updated == FixedRows(rows, defaultActivate, |rows|)
  {
    errors := [];
    updated := [];
    var i := 0;
    while i < |rows|
      invariant 0 <= i <= |rows|
      invariant errors == IncomingIssues(rows, defaultActivate, i)
      invariant updated == FixedRows(rows, defaultActivate, i)
    {
      var rowErrors, row := CheckIncomingRow(rows[i], i, defaultActivate);
      errors := errors + rowErrors;
      updated := updated + [row];
      i := i + 1;
    }
  }

  /** The body of the validate_incoming_orders loop for one row. */
  method CheckIncomingRow(r: IncomingRow, i: nat, defaultActivate: string)
    returns (errors: seq<Issue>, row: IncomingRow)
    ensures errors == IncomingRowIssues(r, i, defaultActivate)
    ensures row == FixedRow(r, defaultActivate)
  {
    row := r;
    errors := Report(ValidateOrderCounter(row.orderCounter), INCOMING, i, "OrderCounter");
    var action := Strip(CellString(row.action));
    errors := errors + ActionIssues(action, i);
    if action != "Cancel" {
      errors := errors + Report(ValidateSymbol(row.symbol), INCOMING, i, "Symbol");
      var timeErrors;
      timeErrors, row := ValidateAndFixTimes(row, i, defaultActivate);
      errors := errors + timeErrors;
      errors := errors + Report(ValidatePositiveInteger(row.price), INCOMING, i, "Price");
      errors := errors + Report(ValidatePositiveInteger(row.quantity), INCOMING, i, "Quantity");
      errors := errors + Report(ValidateParticipantId(row.participantId), INCOMING, i, "ParticipantID");
    }
  }

  // ---------------------------------------------------------------------
  // Properties of the incoming-orders checks.

  /** A string with the date-time layout has no whitespace. */
  lemma LayoutHasNoSpace(s: string)
    requires |s| == 19 && HasLayout(s, '/')
    ensures NoPySpace(s)
  {
    forall i | 0 <= i < |s|
      ensures !IsPySpace(s[i])
    {
      if !IsDigitPosition(i) {
        assert i in {2, 5, 10, 13, 16};
      }
    }
  }

  /** A cell of two or more characters none of which is whitespace is not
      a placeholder. */
  lemma NoSpaceIsPresent(s: string)
    requires |s| >= 2 && NoPySpace(s)
    ensures !IsBlank(Str(s))
  {
    StripNoSpace(s);
    var t := Strip(s);
    assert t == s && |t| >= 2;
    assert t != "-" && t != "";
  }

  /** A string that parses as a date-time is, as a cell, present and
      parses to the same value. */
  lemma ParsedIsPresent(s: string)
    requires StrpTime(s, '/').Some?
    ensures !IsBlank(Str(s)) && Parsed(Str(s)) == StrpTime(s, '/')
  {
    LayoutHasNoSpace(s);
    NoSpaceIsPresent(s);
  }

  /** The fixed DeactivateTime default is 1 January 2100, midnight. */
  lemma DefaultDeactivateParses()
    ensures StrpTime(DEFAULT_DEACTIVATE_TIME, '/') == Some(DateTime(2100, 1, 1, 0, 0, 0))
  {
    var d := DateTime(2100, 1, 1, 0, 0, 0);
    assert Pad2(1) == "01" && Pad2(21) == "21" && Pad2(0) == "00";
    assert Format(d, '/') == DEFAULT_DEACTIVATE_TIME;
    StrpTimeFormat(d, '/');
  }

  /** The ActivateTime rule for a placeholder: it is defaulted, unless the
      order is GoodAfterTime, which instead gets exactly one "required"
      issue and keeps the placeholder. */
  lemma ActivateRule(r: IncomingRow, row: nat, defaultActivate: string)
    requires IsBlank(r.activateTime)
    ensures RequiresActivate(NamedOrderType(r.orderType)) ==>
      MandatoryIssues(r, row) == [Issue(INCOMING, row, "ActivateTime", TimeRequired("GoodAfterTime"))]
      && Defaulted(r, defaultActivate).activateTime == r.activateTime
    ensures !RequiresActivate(NamedOrderType(r.orderType)) ==>
      Defaulted(r, defaultActivate).activateTime == Str(defaultActivate)
      && forall k :: 0 <= k < |MandatoryIssues(r, row)| ==> MandatoryIssues(r, row)[k].column != "ActivateTime"
  {
  }

  /** The DeactivateTime rule for a placeholder: it becomes 01-01-2100,
      unless the order is GoodTillCancel or GoodForDay, which instead gets
      exactly one "required" issue and keeps the placeholder. */
  lemma DeactivateRule(r: IncomingRow, row: nat, defaultActivate: string)
    requires IsBlank(r.deactivateTime)
    ensures RequiresDeactivate(NamedOrderType(r.orderType)) ==>
      MandatoryIssues(r, row) == [Issue(INCOMING, row, "DeactivateTime", TimeRequired(NamedOrderType(r.orderType).value))]
      && Defaulted(r, defaultActivate).deactivateTime == r.deactivateTime
    ensures !RequiresDeactivate(NamedOrderType(r.orderType)) ==>
      Defaulted(r, defaultActivate).deactivateTime == Str(DEFAULT_DEACTIVATE_TIME)
      && forall k :: 0 <= k < |MandatoryIssues(r, row)| ==> MandatoryIssues(r, row)[k].column != "DeactivateTime"
  {
  }

  /** Defaulted values never cause a format issue (the activation default
      is the current time, formatted, so it parses). */
  lemma DefaultsParse(r: IncomingRow, row: nat, defaultActivate: string)
    requires StrpTime(defaultActivate, '/').Some?
    ensures IsBlank(r.activateTime) && !RequiresActivate(NamedOrderType(r.orderType)) ==>
      Parsed(Defaulted(r, defaultActivate).activateTime) == StrpTime(defaultActivate, '/')
    ensures IsBlank(r.deactivateTime) && !RequiresDeactivate(NamedOrderType(r.orderType)) ==>
      Parsed(Defaulted(r, defaultActivate).deactivateTime) == Some(DateTime(2100, 1, 1, 0, 0, 0))
  {
    ParsedIsPresent(defaultActivate);
    DefaultDeactivateParses();
    ParsedIsPresent(DEFAULT_DEACTIVATE_TIME);
  }

  /** A time field of the fixed row that raised neither a "required" nor
      a format issue is present and parses. */
  lemma FixedTimeParses(c: Cell, required: bool, default: string, column: string, row: nat)
    requires StrpTime(default, '/').Some?
    requires required ==> !IsBlank(c)
    requires FormatIssues(FixedTime(c, required, default), row, column) == []
    ensures Parsed(FixedTime(c, required, default)).Some?
  {
    if !required && IsBlank(c) {
      ParsedIsPresent(default);
    }
  }

  /** A non-Cancel row without issues ends with both times present,
      well-formed and in order (ActivateTime not after DeactivateTime). */
  lemma CleanRowTimes(r: IncomingRow, row: nat, defaultActivate: string)
    requires StrpTime(defaultActivate, '/').Some?
    requires !IsCancel(r) && IncomingRowIssues(r, row, defaultActivate) == []
    ensures Parsed(FixedRow(r, defaultActivate).activateTime).Some?
    ensures Parsed(FixedRow(r, defaultActivate).deactivateTime).Some?
    ensures !Before(Parsed(FixedRow(r, defaultActivate).deactivateTime).value,
                    Parsed(FixedRow(r, defaultActivate).activateTime).value)
  {
    var fixed := Defaulted(r, defaultActivate);
    var orderType := NamedOrderType(r.orderType);
    CleanRowTimeIssues(r, row, defaultActivate);
    CleanTimeValues(fixed, row);
    FixedTimeParses(r.activateTime, RequiresActivate(orderType), defaultActivate, "ActivateTime", row);
    DefaultDeactivateParses();
    FixedTimeParses(r.deactivateTime, RequiresDeactivate(orderType), DEFAULT_DEACTIVATE_TIME, "DeactivateTime", row);
  }

  lemma CleanRowTimeIssues(r: IncomingRow, row: nat, defaultActivate: string)
    requires !IsCancel(r) && IncomingRowIssues(r, row, defaultActivate) == []
    ensures MandatoryIssues(r, row) == [] && TimeValueIssues(Defaulted(r, defaultActivate), row) == []
  {
    assert |TimeIssues(r, row, defaultActivate)| == 0;
  }

  lemma CleanTimeValues(fixed: IncomingRow, row: nat)
    requires TimeValueIssues(fixed, row) == []
    ensures FormatIssues(fixed.activateTime, row, "ActivateTime") == []
    ensures FormatIssues(fixed.deactivateTime, row, "DeactivateTime") == []
    ensures OrderIssues(fixed, row) == []
  {
    assert FormatIssuesUpTo(fixed, row, 2) == FormatIssuesUpTo(fixed, row, 1)
      + FormatIssues(fixed.deactivateTime, row, "DeactivateTime");
  }

  /** A Cancel row is checked only for its counter and its action. */
  lemma CancelRowColumns(r: IncomingRow, row: nat, defaultActivate: string)
    requires IsCancel(r)
    ensures forall k :: 0 <= k < |IncomingRowIssues(r, row, defaultActivate)| ==>
      IncomingRowIssues(r, row, defaultActivate)[k].column in {"OrderCounter", "Action"}
  {
  }

  lemma TaggedRowAppend(a: seq<Issue>, b: seq<Issue>, row: nat)
    requires TaggedRow(a, row) && TaggedRow(b, row)
    ensures TaggedRow(a + b, row)
  {
    forall k | 0 <= k < |a + b|
      ensures (a + b)[k].table == INCOMING && (a + b)[k].row == row
    {
      if k >= |a| {
        assert (a + b)[k] == b[k - |a|];
      }
    }
  }

  lemma FormatIssuesRow(c: Cell, row: nat, column: string)
    ensures TaggedRow(FormatIssues(c, row, column), row)
  {
  }

  lemma MandatoryIssuesRow(r: IncomingRow, row: nat)
    ensures TaggedRow(MandatoryIssues(r, row), row)
  {
  }

  lemma OrderIssuesRow(r: IncomingRow, row: nat)
    ensures TaggedRow(OrderIssues(r, row), row)
  {
  }

  lemma ReportRow(reason: Option<Reason>, row: nat, column: string)
    ensures TaggedRow(Report(reason, INCOMING, row, column), row)
  {
  }

  lemma TimeValueIssuesRow(fixed: IncomingRow, row: nat)
    ensures TaggedRow(TimeValueIssues(fixed, row), row)
  {
    var first := FormatIssues(fixed.activateTime, row, "ActivateTime");
    var second := FormatIssues(fixed.deactivateTime, row, "DeactivateTime");
    FormatIssuesRow(fixed.activateTime, row, "ActivateTime");
    FormatIssuesRow(fixed.deactivateTime, row, "DeactivateTime");
    assert FormatIssuesUpTo(fixed, row, 1) == [] + first;
    assert FormatIssuesUpTo(fixed, row, 2) == FormatIssuesUpTo(fixed, row, 1) + second;
    TaggedRowAppend(FormatIssuesUpTo(fixed, row, 1), second, row);
    OrderIssuesRow(fixed, row);
    TaggedRowAppend(FormatIssuesUpTo(fixed, row, 2), OrderIssues(fixed, row), row);
  }

  lemma TimeIssuesRow(r: IncomingRow, row: nat, defaultActivate: string)
    ensures TaggedRow(TimeIssues(r, row, defaultActivate), row)
  {
    MandatoryIssuesRow(r, row);
    TimeValueIssuesRow(Defaulted(r, defaultActivate), row);
    TaggedRowAppend(MandatoryIssues(r, row), TimeValueIssues(Defaulted(r, defaultActivate), row), row);
  }

  lemma TaggedRowAppend6(a: seq<Issue>, b: seq<Issue>, c: seq<Issue>, d: seq<Issue>, e: seq<Issue>,
                         f: seq<Issue>, row: nat)
    requires TaggedRow(a, row) && TaggedRow(b, row) && TaggedRow(c, row)
    requires TaggedRow(d, row) && TaggedRow(e, row) && TaggedRow(f, row)
    ensures TaggedRow(a + b + c + d + e + f, row)
  {
    TaggedRowAppend(a, b, row);
    TaggedRowAppend(a + b, c, row);
    TaggedRowAppend(a + b + c, d, row);
    TaggedRowAppend(a + b + c + d, e, row);
    TaggedRowAppend(a + b + c + d + e, f, row);
  }

  lemma ActionIssuesRow(action: string, row: nat)
    ensures TaggedRow(ActionIssues(action, row), row)
  {
  }

  lemma CommonIssuesRow(r: IncomingRow, row: nat)
    ensures TaggedRow(CommonIssues(r, row), row)
  {
    ReportRow(ValidateOrderCounter(r.orderCounter), row, "OrderCounter");
    ActionIssuesRow(Strip(CellString(r.action)), row);
    TaggedRowAppend(Report(ValidateOrderCounter(r.orderCounter), INCOMING, row, "OrderCounter"),
                    ActionIssues(Strip(CellString(r.action)), row), row);
  }

  /** Every issue of a row is tagged "Incoming Orders" and that row. */
  lemma IncomingRowIssuesRow(r: IncomingRow, row: nat, defaultActivate: string)
    ensures TaggedRow(IncomingRowIssues(r, row, defaultActivate), row)
  {
    CommonIssuesRow(r, row);
    if !IsCancel(r) {
      var fixed := Defaulted(r, defaultActivate);
      ReportRow(ValidateSymbol(r.symbol), row, "Symbol");
      TimeIssuesRow(r, row, defaultActivate);
      ReportRow(ValidatePositiveInteger(fixed.price), row, "Price");
      ReportRow(ValidatePositiveInteger(fixed.quantity), row, "Quantity");
      ReportRow(ValidateParticipantId(fixed.participantId), row, "ParticipantID");
      TaggedRowAppend6(CommonIssues(r, row),
                       Report(ValidateSymbol(r.symbol), INCOMING, row, "Symbol"),
                       TimeIssues(r, row, defaultActivate),
                       Report(ValidatePositiveInteger(fixed.price), INCOMING, row, "Price"),
                       Report(ValidatePositiveInteger(fixed.quantity), INCOMING, row, "Quantity"),
                       Report(ValidateParticipantId(fixed.participantId), INCOMING, row, "ParticipantID"),
                       row);
    }
  }

  /** Every issue is about one of the first `n` rows of the incoming
      orders, and the rows never go down along the sequence. */
  predicate RowOrdered(issues: seq<Issue>, n: nat)
  {
    (forall k :: 0 <= k < |issues| ==> issues[k].table == INCOMING && issues[k].row < n)
    && (forall k, l :: 0 <= k < l < |issues| ==> issues[k].row <= issues[l].row)
  }

  lemma RowOrderedAppend(a: seq<Issue>, b: seq<Issue>, row: nat)
    requires RowOrdered(a, row) && TaggedRow(b, row)
    ensures RowOrdered(a + b, row + 1)
  {
    forall k, l | 0 <= k < l < |a + b|
      ensures (a + b)[k].row <= (a + b)[l].row
    {
      if l >= |a| {
        assert (a + b)[l] == b[l - |a|];
        if k >= |a| {
          assert (a + b)[k] == b[k - |a|];
        }
      }
    }
    forall k | 0 <= k < |a + b|
      ensures (a + b)[k].table == INCOMING && (a + b)[k].row < row + 1
    {
      if k >= |a| {
        assert (a + b)[k] == b[k - |a|];
      }
    }
  }

  lemma {:induction false} IssuesUpToOrdered(perRow: nat -> seq<Issue>, n: nat)
    requires forall i :: 0 <= i < n ==> TaggedRow(perRow(i), i)
    ensures RowOrdered(IssuesUpTo(perRow, n), n)
  {
    if n > 0 {
      IssuesUpToOrdered(perRow, n - 1);
      RowOrderedAppend(IssuesUpTo(perRow, n - 1), perRow(n - 1), n - 1);
    }
  }

  /** Issues of the incoming orders come row by row, in row order. */
  lemma IncomingIssuesInOrder(rows: seq<IncomingRow>, defaultActivate: string)
    ensures RowOrdered(IncomingIssues(rows, defaultActivate, |rows|), |rows|)
  {
    var perRow := RowIssuesOf(rows, defaultActivate);
    forall i | 0 <= i < |rows|
      ensures TaggedRow(perRow(i), i)
    {
      IncomingRowIssuesRow(rows[i], i, defaultActivate);
    }
    IssuesUpToOrdered(perRow, |rows|);
  }

  /** A kept row differs from the input only in its two time fields. */
  lemma FixedRowKeeps(r: IncomingRow, defaultActivate: string)
    ensures FixedRow(r, defaultActivate)
      == r.(activateTime := FixedRow(r, defaultActivate).activateTime,
            deactivateTime := FixedRow(r, defaultActivate).deactivateTime)
  {
  }

  lemma {:induction false} MapUpToShape(f: IncomingRow -> IncomingRow, rows: seq<IncomingRow>, n: nat)
    requires n <= |rows|
    ensures |MapUpTo(f, rows, n)| == n
    ensures forall i :: 0 <= i < n ==> MapUpTo(f, rows, n)[i] == f(rows[i])
  {
    if n > 0 {
      MapUpToShape(f, rows, n - 1);
    }
  }

  /** validate_incoming_orders keeps one row per input row, in order. */
  lemma FixedRowsShape(rows: seq<IncomingRow>, defaultActivate: string)
    ensures |FixedRows(rows, defaultActivate, |rows|)| == |rows|
    ensures forall i :: 0 <= i < |rows| ==>
      FixedRows(rows, defaultActivate, |rows|)[i] == FixedRow(rows[i], defaultActivate)
  {
    MapUpToShape(r => FixedRow(r, defaultActivate), rows, |rows|);
  }
}
