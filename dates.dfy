// Dates as the report generator reads them: `datetime.strptime(s, "%Y-%m-%d")`
// (ASCII digits), the French long form `format_date_fr` and the month count
// `calculate_duration`.
module Dates {
  import opened Wrappers
  import opened Text

  datatype Date = Date(year: nat, month: nat, day: nat)

  predicate IsLeap(y: nat)
  {
    y % 4 == 0 && (y % 100 != 0 || y % 400 == 0)
  }

  function DaysInMonth(y: nat, m: nat): nat
    requires 1 <= m <= 12
  {
    if m == 2 then (if IsLeap(y) then 29 else 28)
    else if m == 4 || m == 6 || m == 9 || m == 11 then 30
    else 31
  }

  /** A date `datetime` accepts: year 1..9999, a month, a day of that month. */
  predicate ValidDate(d: Date)
  {
    1 <= d.year <= 9999 && 1 <= d.month <= 12 && 1 <= d.day <= DaysInMonth(d.year, d.month)
  }

  function DigitValue(c: char): nat
    requires IsDigit(c)
  {
    c as int - '0' as int
  }

  predicate InRange(c: char, lo: char, hi: char)
  {
    lo <= c <= hi
  }

  /**
   * The `%m` directive followed by the literal '-': `1[0-2]|0[1-9]|[1-9]`, the
   * alternatives tried in order and backtracked when no '-' follows. Gives the
   * month and the number of characters consumed, '-' included.
   */
  function MonthField(r: string): (o: Option<(nat, nat)>)
    ensures o.Some? ==> 1 <= o.value.0 <= 12 && 2 <= o.value.1 <= 3 && o.value.1 <= |r| && r[o.value.1 - 1] == '-'
  {
    if |r| >= 3 && r[2] == '-' && r[0] == '1' && InRange(r[1], '0', '2') then Some((10 + DigitValue(r[1]), 3))
    else if |r| >= 3 && r[2] == '-' && r[0] == '0' && InRange(r[1], '1', '9') then Some((DigitValue(r[1]), 3))
    else if |r| >= 2 && r[1] == '-' && InRange(r[0], '1', '9') then Some((DigitValue(r[0]), 2))
    else None
  }

  /**
   * The `%d` directive, last in the pattern: the first alternative of
   * `3[01]|[12]\d|0[1-9]|[1-9]| [1-9]` that matches. Gives the day and the
   * number of characters consumed.
   */
  function DayField(r: string): (o: Option<(nat, nat)>)
    ensures o.Some? ==> 1 <= o.value.0 <= 31 && 1 <= o.value.1 <= 2 && o.value.1 <= |r|
  {
    if |r| >= 2 && r[0] == '3' && InRange(r[1], '0', '1') then Some((30 + DigitValue(r[1]), 2))
    else if |r| >= 2 && InRange(r[0], '1', '2') && IsDigit(r[1]) then Some((10 * DigitValue(r[0]) + DigitValue(r[1]), 2))
    else if |r| >= 2 && r[0] == '0' && InRange(r[1], '1', '9') then Some((DigitValue(r[1]), 2))
    else if |r| >= 1 && InRange(r[0], '1', '9') then Some((DigitValue(r[0]), 1))
    else if |r| >= 2 && r[0] == ' ' && InRange(r[1], '1', '9') then Some((DigitValue(r[1]), 2))
    else None
  }

  /**
   * `datetime.strptime(s, "%Y-%m-%d")`: four digits and '-', a month field, a
   * day field that must end the string ("unconverted data remains" otherwise),
   * and a date `datetime` can hold. None where it raises ValueError.
   */
  function ParseYmd(s: string): (o: Option<Date>)
    ensures o.Some? ==> ValidDate(o.value)
  {
    if |s| < 5 || !AllDigits(s[..4]) || s[4] != '-' then None
    else
      var year := 1000 * DigitValue(s[0]) + 100 * DigitValue(s[1]) + 10 * DigitValue(s[2]) + DigitValue(s[3]);
      match MonthField(s[5..])
      case None => None
      case Some((month, used)) =>
        var rest := s[5 + used..];
        match DayField(rest)
        case None => None
        case Some((day, dayLen)) =>
          if dayLen != |rest| then None
          else if year < 1 || day > DaysInMonth(year, month) then None
          else Some(Date(year, month, day))
  }

  function MonthName(m: nat): string
    requires 1 <= m <= 12
  {
    ["janvier", "février", "mars", "avril", "mai", "juin",
     "juillet", "août", "septembre", "octobre", "novembre", "décembre"][m - 1]
  }

  /** `f"{d.day} {mois[d.month-1]} {d.year}"`. */
  function LongForm(d: Date): string
    requires 1 <= d.month <= 12
  {
    NatToString(d.day) + " " + MonthName(d.month) + " " + NatToString(d.year)
  }

  /** `format_date_fr`: "[Date]" for the empty string, the text itself when it is no date. */
  function FormatDateFr(s: string): (r: string)
    ensures r != ""
    ensures s == "" ==> r == "[Date]"
    ensures s != "" && ParseYmd(s).None? ==> r == s
    ensures ParseYmd(s).Some? ==> r == LongForm(ParseYmd(s).value)
  {
    if s == "" then "[Date]"
    else
      match ParseYmd(s)
      case None => s
      case Some(d) => LongForm(d)
  }

  /** `calculate_duration`: whole calendar months from start to end, the days ignored. */
  function CalculateDuration(start: string, end: string): (r: string)
    ensures (start == "" || end == "" || ParseYmd(start).None? || ParseYmd(end).None?) ==> r == "[durée]"
    ensures ParseYmd(start).Some? && ParseYmd(end).Some? ==>
      var a, b := ParseYmd(start).value, ParseYmd(end).value;
      r == IntToString((b.year - a.year) * 12 + b.month - a.month) + " mois"
  {
    if start == "" || end == "" then "[durée]"
    else
      match (ParseYmd(start), ParseYmd(end))
      case (Some(a), Some(b)) => IntToString((b.year - a.year) * 12 + b.month - a.month) + " mois"
      case _ => "[durée]"
  }

  // ---------------------------------------------------------------------
  // The ISO form as the browser's date input writes it, and round trips
  // ---------------------------------------------------------------------

  function TwoDigits(n: nat): (s: string)
    requires n < 100
    ensures |s| == 2 && AllDigits(s) && DigitValue(s[0]) == n / 10 && DigitValue(s[1]) == n % 10
  {
    [DigitChar(n / 10), DigitChar(n % 10)]
  }

  function FourDigits(n: nat): (s: string)
    requires n < 10000
    ensures |s| == 4 && AllDigits(s)
    ensures 1000 * DigitValue(s[0]) + 100 * DigitValue(s[1]) + 10 * DigitValue(s[2]) + DigitValue(s[3]) == n
  {
    TwoDigits(n / 100) + TwoDigits(n % 100)
  }

  /** `yyyy-mm-dd`, zero-padded. */
  function IsoString(d: Date): string
    requires d.year < 10000 && d.month < 100 && d.day < 100
  {
    FourDigits(d.year) + "-" + TwoDigits(d.month) + "-" + TwoDigits(d.day)
  }

  lemma {:induction false} MonthFieldPadded(m: nat, tail: string)
    requires 1 <= m <= 12
    ensures MonthField(TwoDigits(m) + "-" + tail) == Some((m, 3))
  {
    var r := TwoDigits(m) + "-" + tail;
    assert r[0] == TwoDigits(m)[0] && r[1] == TwoDigits(m)[1] && r[2] == '-';
  }

  lemma {:induction false} DayFieldPadded(d: nat)
    requires 1 <= d <= 31
    ensures DayField(TwoDigits(d)) == Some((d, 2))
  {
  }

  /** Every valid date survives the round trip through its ISO form. */
  lemma {:induction false} ParseIsoRoundTrip(d: Date)
    requires ValidDate(d)
    ensures ParseYmd(IsoString(d)) == Some(d)
  {
    var s := IsoString(d);
    var y, m, dd := FourDigits(d.year), TwoDigits(d.month), TwoDigits(d.day);
    assert s == y + "-" + m + "-" + dd;
    assert s[..4] == y;
    assert s[0] == y[0] && s[1] == y[1] && s[2] == y[2] && s[3] == y[3] && s[4] == '-';
    assert s[5..] == m + "-" + dd;
    MonthFieldPadded(d.month, dd);
    assert s[5 + 3..] == dd;
    DayFieldPadded(d.day);
  }

  /** What the report prints for a date picked in the form. */
  lemma {:induction false} FormatIsoDate(d: Date)
    requires ValidDate(d)
    ensures FormatDateFr(IsoString(d)) == NatToString(d.day) + " " + MonthName(d.month) + " " + NatToString(d.year)
  {
    ParseIsoRoundTrip(d);
  }

  /** The duration between two picked dates counts months only. */
  lemma {:induction false} DurationOfIsoDates(a: Date, b: Date)
    requires ValidDate(a) && ValidDate(b)
    ensures CalculateDuration(IsoString(a), IsoString(b))
      == IntToString((b.year - a.year) * 12 + b.month - a.month) + " mois"
  {
    ParseIsoRoundTrip(a);
    ParseIsoRoundTrip(b);
  }

  /** Two dates in the same month are "0 mois" apart, whatever their days. */
  lemma {:induction false} DurationIgnoresDays(a: Date, b: Date)
    requires ValidDate(a) && ValidDate(b) && a.year == b.year && a.month == b.month
    ensures CalculateDuration(IsoString(a), IsoString(b)) == "0 mois"
  {
    DurationOfIsoDates(a, b);
  }

  // ---------------------------------------------------------------------
  // Spellings `strptime` accepts beside the padded one, and ones it refuses
  // ---------------------------------------------------------------------

  lemma {:induction false} LenientSpellings()
    ensures ParseYmd("2024-3-5") == Some(Date(2024, 3, 5))
    ensures ParseYmd("2024-03- 5") == Some(Date(2024, 3, 5))
  {
    var s := "2024-3-5";
    assert s[..4] == "2024" && s[5..] == "3-5" && s[5 + 2..] == "5";
    var t := "2024-03- 5";
    assert t[..4] == "2024" && t[5..] == "03- 5" && t[5 + 3..] == " 5";
  }

  lemma {:induction false} RefusedSpellings()
    ensures ParseYmd("2023-02-29") == None
    ensures ParseYmd("2024-01-32") == None
    ensures ParseYmd("0000-01-01") == None
  {
    var s := "2023-02-29";
    assert s[..4] == "2023" && s[5..] == "02-29" && s[5 + 3..] == "29";
    var t := "2024-01-32";
    assert t[..4] == "2024" && t[5..] == "01-32" && t[5 + 3..] == "32";
    var u := "0000-01-01";
    assert u[..4] == "0000" && u[5..] == "01-01" && u[5 + 3..] == "01";
  }

  /** What the form shows for a date that is not one: the text itself. */
  lemma {:induction false} InvalidDateShownVerbatim()
    ensures FormatDateFr("15/01/2024") == "15/01/2024"
    ensures FormatDateFr("") == "[Date]"
    ensures CalculateDuration("2024-01-15", "") == "[durée]"
  {
    assert "15/01/2024"[..4][2] == '/';
  }
}
