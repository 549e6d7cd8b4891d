/** The string parsers of the engine's helper library. The fixture reader
    carries character-for-character copies of them (parseOptionalNumeric,
    parseOptionalString, parseTimeStamp, parseAction, parseSide,
    parseOrderType), so these definitions stand for both copies. */
module HelperFunctions {
  import opened Wrappers
  import opened Text
  import opened Enums
  import opened DateTimes

  /** The exceptions the parsers and their callers throw. */
  datatype ParseError =
    | UnknownAction(text: string)       // runtime_error("Unknown Action: " + str)
    | UnknownSide(text: string)         // runtime_error("Unknown Side: " + str)
    | UnknownOrderType(text: string)    // runtime_error("Unknown OrderType: " + str)
    | TimeNotParsed(text: string)       // runtime_error("Time could NOT be parsed")
    | InvalidArgument(text: string)     // invalid_argument from stoll / stoul / stoull
    | OutOfRange(text: string)          // out_of_range from stoll / stoul / stoull / substr
    | MissingToken(index: nat)          // tokens[index] read past the end of the vector

  /** The reader's notion of an absent field. */
  predicate IsPlaceholder(s: string)
  {
    s == "-" || s == ""
  }

  /** parseOptionalString: nullopt exactly for "-" and "", the text itself otherwise. */
  function ParseOptionalString(str: string): (r: Option<string>)
    ensures r.None? <==> IsPlaceholder(str)
    ensures r.Some? ==> r.value == str
  {
    if str == "-" || str == "" then None else Some(str)
  }

  /** parseAction: exactly the three case-sensitive names; anything else throws. */
  function ParseAction(str: string): Result<Action, ParseError>
  {
    if str == "Add" then Ok(Add)
    else if str == "Cancel" then Ok(Cancel)
    else if str == "Modify" then Ok(Modify)
    else Err(UnknownAction(str))
  }

  /** parseSide: exactly "Buy" and "Sell"; anything else throws. */
  function ParseSide(str: string): Result<Side, ParseError>
  {
    if str == "Buy" then Ok(Buy)
    else if str == "Sell" then Ok(Sell)
    else Err(UnknownSide(str))
  }

  /** parseOrderType: a string is accepted iff it is the name getType gives
      some order type, and then that type is the result. */
  function ParseOrderType(typeString: string): Result<OrderType, ParseError>
  {
    if typeString == "Market" then Ok(Market)
    else if typeString == "FillOrKill" then Ok(FillOrKill)
    else if typeString == "ImmediateOrCancel" then Ok(ImmediateOrCancel)
    else if typeString == "GoodAfterTime" then Ok(GoodAfterTime)
    else if typeString == "GoodForDay" then Ok(GoodForDay)
    else if typeString == "GoodTillDate" then Ok(GoodTillDate)
    else if typeString == "AllOrNone" then Ok(AllOrNone)
    else if typeString == "GoodTillCancel" then Ok(GoodTillCancel)
    else if typeString == "MarketOnOpen" then Ok(MarketOnOpen)
    else if typeString == "MarketOnClose" then Ok(MarketOnClose)
    else Err(UnknownOrderType(typeString))
  }

  /** parseAction accepts exactly the three names, each giving the action
      of that name, and throws "Unknown Action" for anything else. */
  lemma ParseActionSpec(str: string)
    ensures ParseAction(str).Ok? <==> str in {"Add", "Cancel", "Modify"}
    ensures ParseAction(str).Ok? ==> ActionName(ParseAction(str).value) == str
    ensures ParseAction(str).Err? ==> ParseAction(str).error == UnknownAction(str)
  {
  }

  /** parseSide accepts exactly "Buy" and "Sell". */
  lemma ParseSideSpec(str: string)
    ensures ParseSide(str).Ok? <==> str in {"Buy", "Sell"}
    ensures ParseSide(str).Ok? ==> SideName(ParseSide(str).value) == str
    ensures ParseSide(str).Err? ==> ParseSide(str).error == UnknownSide(str)
  {
  }

  /** parseOrderType accepts a string iff it is the name getType gives some
      order type, and then that type is the result. */
  lemma ParseOrderTypeSpec(typeString: string)
    ensures ParseOrderType(typeString).Ok? ==> GetType(ParseOrderType(typeString).value) == typeString
    ensures ParseOrderType(typeString).Err? ==> ParseOrderType(typeString).error == UnknownOrderType(typeString)
    ensures ParseOrderType(typeString).Err? <==> forall t: OrderType :: GetType(t) != typeString
  {
  }

  /** Every name the engine prints for an order type parses back to it. */
  lemma ParseOrderTypeGetType(t: OrderType)
    ensures ParseOrderType(GetType(t)) == Ok(t)
  {
    var r := ParseOrderType(GetType(t));
    assert r.Ok?;
    assert GetType(r.value) == GetType(t);
  }

  lemma ParseSideName(s: Side)
    ensures ParseSide(SideName(s)) == Ok(s)
  {
  }

  lemma ParseActionName(a: Action)
    ensures ParseAction(ActionName(a)) == Ok(a)
  {
  }

  // ---------------------------------------------------------------------
  // Integer conversion: std::stoll / std::stoul / std::stoull and casts.

  const LLONG_MIN: int := -0x8000_0000_0000_0000
  const LLONG_MAX: int := 0x7FFF_FFFF_FFFF_FFFF
  const ULLONG_MAX: int := 0xFFFF_FFFF_FFFF_FFFF

  function SkipCSpaces(s: string): (r: string)
    ensures |r| <= |s| && r == s[|s| - |r|..]
    ensures r != [] ==> !IsCSpace(r[0])
  {
    if s != [] && IsCSpace(s[0]) then SkipCSpaces(s[1..]) else s
  }

  /** The longest prefix of decimal digits. */
  function LeadingDigits(s: string): (r: string)
    ensures |r| <= |s| && IsDigits(r) && r == s[..|r|]
    ensures |r| < |s| ==> !IsDigit(s[|r|])
  {
    if s != [] && IsDigit(s[0]) then [s[0]] + LeadingDigits(s[1..]) else []
  }

  /** The base-10 strtol-family scan: leading C spaces, an optional sign,
      then the longest run of digits. Gives (negative, magnitude), or None
      when no digit follows. Text after the digits is ignored. */
  function ScanInteger(s: string): Option<(bool, nat)>
  {
    var t := SkipCSpaces(s);
    var negative := t != [] && t[0] == '-';
    var u := if t != [] && (t[0] == '-' || t[0] == '+') then t[1..] else t;
    var d := LeadingDigits(u);
    if d == [] then None else Some((negative, DigitsValue(d)))
  }

  /** std::stoll. */
  function StoLL(s: string): (r: Result<int, ParseError>)
    ensures r.Ok? ==> LLONG_MIN <= r.value <= LLONG_MAX
  {
    match ScanInteger(s)
    case None => Err(InvalidArgument(s))
    case Some((negative, magnitude)) =>
      var v: int := if negative then -(magnitude as int) else magnitude;
      if v < LLONG_MIN || v > LLONG_MAX then Err(OutOfRange(s)) else Ok(v)
  }

  /** std::stoul and std::stoull (64-bit unsigned long): a '-' sign negates
      modulo 2^64, and only a magnitude above ULLONG_MAX is out of range. */
  function StoULL(s: string): (r: Result<nat, ParseError>)
    ensures r.Ok? ==> r.value <= ULLONG_MAX
  {
    match ScanInteger(s)
    case None => Err(InvalidArgument(s))
    case Some((negative, magnitude)) =>
      if magnitude > ULLONG_MAX then Err(OutOfRange(s))
      else if negative then Ok((ULLONG_MAX + 1 - magnitude) % (ULLONG_MAX + 1))
      else Ok(magnitude)
  }

  /** The integer types a value is converted to. */
  datatype Width = Int32 | UInt32 | Int64 | UInt64

  predicate InRange(v: int, w: Width)
  {
    match w
    case Int32 => -0x8000_0000 <= v < 0x8000_0000
    case UInt32 => 0 <= v < 0x1_0000_0000
    case Int64 => LLONG_MIN <= v <= LLONG_MAX
    case UInt64 => 0 <= v <= ULLONG_MAX
  }

  /** Conversion of an integer to a fixed-width type: keep the low bits
      (two's complement for the signed type). */
  function Wrap(v: int, w: Width): (r: int)
    ensures InRange(r, w)
    ensures InRange(v, w) ==> r == v
  {
    match w
    case Int32 => (v + 0x8000_0000) % 0x1_0000_0000 - 0x8000_0000
    case UInt32 => v % 0x1_0000_0000
    case Int64 => (v - LLONG_MIN) % (ULLONG_MAX + 1) + LLONG_MIN
    case UInt64 => v % (ULLONG_MAX + 1)
  }

  /** parseOptionalNumeric<T>: nullopt for "-" and "", otherwise std::stoll
      followed by static_cast<T>. */
  function ParseOptionalNumeric(str: string, w: Width): Result<Option<int>, ParseError>
  {
    if str == "-" || str == "" then Ok(None)
    else
      match StoLL(str)
      case Ok(v) => Ok(Some(Wrap(v, w)))
      case Err(e) => Err(e)
  }

  /** Only "-" and "" are absent: every other input is converted or throws. */
  lemma ParseOptionalNumericAbsent(str: string, w: Width)
    ensures ParseOptionalNumeric(str, w) == Ok(None) <==> IsPlaceholder(str)
  {
  }

  /** A string of decimal digits gives its value, converted to the target type. */
  lemma ParseOptionalNumericDigits(d: string, w: Width)
    requires |d| > 0 && IsDigits(d) && DigitsValue(d) <= LLONG_MAX
    ensures ParseOptionalNumeric(d, w) == Ok(Some(Wrap(DigitsValue(d), w)))
  {
    assert d != "-" by { assert !IsDigit('-'); assert IsDigit(d[0]); }
    assert SkipCSpaces(d) == d by { assert !IsCSpace(d[0]); }
    assert d[0] != '-' && d[0] != '+' by { assert IsDigit(d[0]); }
    LeadingDigitsAll(d);
    assert ScanInteger(d) == Some((false, DigitsValue(d)));
    assert StoLL(d) == Ok(DigitsValue(d));
  }

  /** All digits: the scan consumes the whole string. */
  lemma {:induction false} LeadingDigitsAll(d: string)
    requires IsDigits(d)
    ensures LeadingDigits(d) == d
  {
    if d != [] {
      LeadingDigitsAll(d[1..]);
    }
  }

  /** "-5" is a number, not a placeholder. */
  lemma ParseOptionalNumericNegative()
    ensures ParseOptionalNumeric("-5", Int32) == Ok(Some(-5))
  {
    var s := "-5";
    assert s != "-" && s != "";
    assert SkipCSpaces(s) == s;
    assert s[1..] == "5";
    LeadingDigitsAll("5");
    assert DigitsValue("5") == 5 by { assert "5"[..0] == []; }
    assert ScanInteger(s) == Some((true, 5));
    assert StoLL(s) == Ok(-5);
  }

  /** A numeric prefix is taken and the rest ignored. */
  lemma ParseOptionalNumericPrefix()
    ensures ParseOptionalNumeric("12ab", UInt64) == Ok(Some(12))
  {
    var s := "12ab";
    assert SkipCSpaces(s) == s;
    assert LeadingDigits(s[2..]) == [];
    assert LeadingDigits(s[1..]) == "2";
    assert LeadingDigits(s) == "12";
    assert DigitsValue("12") == 12 by {
      assert "12"[..1] == "1";
      assert "1"[..0] == [];
    }
  }

  /** A string with no numeric prefix throws invalid_argument. */
  lemma ParseOptionalNumericInvalid()
    ensures ParseOptionalNumeric("abc", Int32) == Err(InvalidArgument("abc"))
  {
    assert SkipCSpaces("abc") == "abc";
    assert LeadingDigits("abc") == [];
  }

  // ---------------------------------------------------------------------
  // Time stamps.

  /** parseTimeStamp up to the call of mktime: std::get_time with
      "%d-%m-%Y/%H:%M:%S" on zero-padded input, with the field ranges get_time
      enforces. The broken-down time is the result; characters after the
      seconds are not looked at. */
  function ParseTimeStamp(dateTime: string): (r: Result<DateTime, ParseError>)
    ensures r.Ok? ==> HasLayout(dateTime, '/') && r.value == LayoutFields(dateTime, '/')
    ensures r.Ok? ==> 1 <= r.value.day <= 31 && 1 <= r.value.month <= 12 && r.value.second <= 60
  {
    if HasLayout(dateTime, '/') then
      var d := LayoutFields(dateTime, '/');
      if 1 <= d.day <= 31 && 1 <= d.month <= 12 && d.hour <= 23 && d.minute <= 59 && d.second <= 60
      then Ok(d)
      else Err(TimeNotParsed(dateTime))
    else Err(TimeNotParsed(dateTime))
  }

  /** Every date-time the writer's strptime accepts is read back unchanged. */
  lemma ParseTimeStampAcceptsStrpTime(s: string)
    requires StrpTime(s, '/').Some?
    ensures ParseTimeStamp(s) == Ok(StrpTime(s, '/').value)
  {
  }
}
