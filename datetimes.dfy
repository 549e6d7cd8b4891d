/** Calendar date-times as (year, month, day, hour, minute, second) tuples,
    compared lexicographically, and the fixed-layout text form
    "DD-MM-YYYY?HH:MM:SS" both the writer and the reader use. */
module DateTimes {
  import opened Wrappers
  import opened Text

  datatype DateTime = DateTime(year: nat, month: nat, day: nat, hour: nat, minute: nat, second: nat)

  predicate IsLeapYear(y: nat)
  {
    y % 4 == 0 && (y % 100 != 0 || y % 400 == 0)
  }

  function DaysInMonth(y: nat, m: nat): nat
    requires 1 <= m <= 12
  {
    if m == 2 then (if IsLeapYear(y) then 29 else 28)
    else if m == 4 || m == 6 || m == 9 || m == 11 then 30
    else 31
  }

  /** What Python's datetime constructor accepts (years 1..9999). */
  predicate IsValidDateTime(d: DateTime)
  {
    1 <= d.year <= 9999 && 1 <= d.month <= 12 && 1 <= d.day <= DaysInMonth(d.year, d.month)
    && d.hour < 24 && d.minute < 60 && d.second < 60
  }

  /** Strict chronological order. */
  predicate Before(a: DateTime, b: DateTime)
  {
    if a.year != b.year then a.year < b.year
    else if a.month != b.month then a.month < b.month
    else if a.day != b.day then a.day < b.day
    else if a.hour != b.hour then a.hour < b.hour
    else if a.minute != b.minute then a.minute < b.minute
    else a.second < b.second
  }

  lemma BeforeIrreflexive(a: DateTime)
    ensures !Before(a, a)
  {
  }

  lemma BeforeTotal(a: DateTime, b: DateTime)
    ensures Before(a, b) || Before(b, a) || a == b
  {
  }

  lemma BeforeTransitive(a: DateTime, b: DateTime, c: DateTime)
    requires Before(a, b) && Before(b, c)
    ensures Before(a, c)
  {
  }

  /** Offsets of the digit positions in "DD-MM-YYYY?HH:MM:SS". */
  predicate IsDigitPosition(i: int)
  {
    i in {0, 1, 3, 4, 6, 7, 8, 9, 11, 12, 14, 15, 17, 18}
  }

  /** The first 19 characters have the layout "DD-MM-YYYY<sep>HH:MM:SS"
      with every field zero-padded. */
  predicate HasLayout(s: string, sep: char)
  {
    |s| >= 19
    && (forall i :: 0 <= i < 19 && IsDigitPosition(i) ==> IsDigit(s[i]))
    && s[2] == '-' && s[5] == '-' && s[10] == sep && s[13] == ':' && s[16] == ':'
  }

  /** The value of the two digits at `i` and `i + 1`. */
  function TwoDigits(s: string, i: nat): nat
    requires i + 1 < |s| && IsDigit(s[i]) && IsDigit(s[i + 1])
  {
    10 * DigitValue(s[i]) + DigitValue(s[i + 1])
  }

  /** The fields of a string with the layout: day, month, year, hour,
      minute, second, read as decimal numbers. */
  function LayoutFields(s: string, sep: char): DateTime
    requires HasLayout(s, sep)
  {
    assert IsDigitPosition(0) && IsDigitPosition(1) && IsDigitPosition(3) && IsDigitPosition(4);
    assert IsDigitPosition(6) && IsDigitPosition(7) && IsDigitPosition(8) && IsDigitPosition(9);
    assert IsDigitPosition(11) && IsDigitPosition(12) && IsDigitPosition(14) && IsDigitPosition(15);
    assert IsDigitPosition(17) && IsDigitPosition(18);
    DateTime(100 * TwoDigits(s, 6) + TwoDigits(s, 8), TwoDigits(s, 3), TwoDigits(s, 0),
             TwoDigits(s, 11), TwoDigits(s, 14), TwoDigits(s, 17))
  }

  /** Python `datetime.strptime(s, "%d-%m-%Y<sep>%H:%M:%S")` on zero-padded
      input: the whole string must have the layout and name a real instant. */
  function StrpTime(s: string, sep: char): (r: Option<DateTime>)
    ensures r.Some? ==> IsValidDateTime(r.value)
  {
    if |s| == 19 && HasLayout(s, sep) && IsValidDateTime(LayoutFields(s, sep))
    then Some(LayoutFields(s, sep))
    else None
  }

  /** `n` as exactly two decimal digits. */
  function Pad2(n: nat): (s: string)
    requires n < 100
    ensures |s| == 2 && IsDigit(s[0]) && IsDigit(s[1]) && TwoDigits(s, 0) == n
  {
    [DigitChar(n / 10), DigitChar(n % 10)]
  }

  /** `strftime("%d-%m-%Y<sep>%H:%M:%S")`, which zero-pads every field. */
  function Format(d: DateTime, sep: char): (s: string)
    requires IsValidDateTime(d)
    ensures |s| == 19
  {
    Pad2(d.day) + "-" + Pad2(d.month) + "-" + Pad2(d.year / 100) + Pad2(d.year % 100) + [sep]
    + Pad2(d.hour) + ":" + Pad2(d.minute) + ":" + Pad2(d.second)
  }

  /** A formatted date-time has the layout, and its fields read back. */
  lemma FormatFields(d: DateTime, sep: char)
    requires IsValidDateTime(d)
    ensures HasLayout(Format(d, sep), sep) && LayoutFields(Format(d, sep), sep) == d
  {
    var s := Format(d, sep);
    assert s[0..2] == Pad2(d.day);
    assert s[3..5] == Pad2(d.month);
    assert s[6..8] == Pad2(d.year / 100);
    assert s[8..10] == Pad2(d.year % 100);
    assert s[11..13] == Pad2(d.hour);
    assert s[14..16] == Pad2(d.minute);
    assert s[17..19] == Pad2(d.second);
  }

  /** strptime reads back exactly what strftime wrote. */
  lemma StrpTimeFormat(d: DateTime, sep: char)
    requires IsValidDateTime(d)
    ensures StrpTime(Format(d, sep), sep) == Some(d)
  {
    FormatFields(d, sep);
  }
}
