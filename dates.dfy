/** Calendar dates as the views use them through date-fns: `parseISO` on the stored
    ISO strings, `isBefore`, `isSameMonth`, `addMonths(_, 1)` and
    `format(_, "dd/MM/yyyy")`. Dates are local calendar dates; a moment is a date and
    the milliseconds since its local midnight. */
module Dates {
  import opened Common

  datatype Date = Date(year: int, month: int, day: int)

  datatype Moment = Moment(date: Date, millis: int)

  const DayMillis: int := 86400000

  predicate LeapYear(y: int) { (y % 4 == 0 && y % 100 != 0) || y % 400 == 0 }

  function DaysInMonth(y: int, m: int): (n: int)
    requires 1 <= m <= 12
    ensures 28 <= n <= 31
  {
    if m == 2 then (if LeapYear(y) then 29 else 28)
    else if m == 4 || m == 6 || m == 9 || m == 11 then 30
    else 31
  }

  predicate ValidDate(d: Date)
  {
    1 <= d.month <= 12 && 1 <= d.day <= DaysInMonth(d.year, d.month)
  }

  predicate ValidMoment(m: Moment)
  {
    ValidDate(m.date) && 0 <= m.millis < DayMillis
  }

  /** Calendar order on dates. */
  predicate DateBefore(a: Date, b: Date)
  {
    a.year < b.year
    || (a.year == b.year && a.month < b.month)
    || (a.year == b.year && a.month == b.month && a.day < b.day)
  }

  /** `isBefore(a, b)`. */
  predicate Before(a: Moment, b: Moment)
  {
    DateBefore(a.date, b.date) || (a.date == b.date && a.millis < b.millis)
  }

  /** `isSameMonth(a, b)`. */
  predicate SameMonth(a: Date, b: Date)
  {
    a.year == b.year && a.month == b.month
  }

  /** `addMonths(d, 1)`: the same day one month later, clamped to the length of that
      month (31 January becomes the last day of February). */
  function AddMonth(d: Date): (r: Date)
    requires ValidDate(d)
    ensures ValidDate(r)
    ensures r.year * 12 + r.month == d.year * 12 + d.month + 1
    ensures r.day <= d.day
  {
    var y := if d.month == 12 then d.year + 1 else d.year;
    var m := if d.month == 12 then 1 else d.month + 1;
    Date(y, m, if d.day <= DaysInMonth(y, m) then d.day else DaysInMonth(y, m))
  }

  // ---------------------------------------------------------------------------
  // Fixed-width decimal fields

  function Pow10(w: nat): (p: nat)
    ensures p >= 1
  {
    if w == 0 then 1 else 10 * Pow10(w - 1)
  }

  /** The `w` lowest decimal digits of `n`, zero-padded on the left. */
  function PadDigits(n: nat, w: nat): (s: string)
    ensures |s| == w && AllDigits(s)
  {
    if w == 0 then [] else PadDigits(n / 10, w - 1) + [DigitChar(n % 10)]
  }

  lemma {:induction false} PadDigitsValue(n: nat, w: nat)
    requires n < Pow10(w)
    ensures DigitsValue(PadDigits(n, w)) == n
  {
    if w > 0 {
      var s := PadDigits(n / 10, w - 1);
      var t := s + [DigitChar(n % 10)];
      assert t[..|t| - 1] == s;
      PadDigitsValue(n / 10, w - 1);
    }
  }

  lemma {:induction false} DigitsBound(s: string)
    requires AllDigits(s)
    ensures DigitsValue(s) < Pow10(|s|)
  {
    if s != [] {
      DigitsBound(s[..|s| - 1]);
    }
  }

  // ---------------------------------------------------------------------------
  // parseISO and format

  /** Where `split(/[T ]/)` cuts the date from the time: the first `T` or space, or
      `|s|` when there is none. */
  function TimeDelimiter(s: string): (k: nat)
    ensures k <= |s|
    ensures forall i | 0 <= i < k :: s[i] != 'T' && s[i] != ' '
    ensures k < |s| ==> s[k] == 'T' || s[k] == ' '
  {
    if s == [] || s[0] == 'T' || s[0] == ' ' then 0 else 1 + TimeDelimiter(s[1..])
  }

  /** The date part: `YYYY`, `YYYY-MM` or `YYYY-MM-DD`, naming a day that exists; a
      missing month or day is the first. */
  function ParseDatePart(t: string): (r: Option<Date>)
    ensures r.Some? ==> ValidDate(r.value) && 0 <= r.value.year < 10000
  {
    if |t| < 4 || !AllDigits(t[..4]) then None
    else
      var y := DigitsValue(t[..4]);
      DigitsBound(t[..4]);
      if |t| == 4 then Some(Date(y, 1, 1))
      else if |t| < 7 || t[4] != '-' || !AllDigits(t[5..7]) then None
      else
        var m := DigitsValue(t[5..7]);
        if m < 1 || m > 12 then None
        else if |t| == 7 then Some(Date(y, m, 1))
        else if |t| != 10 || t[7] != '-' || !AllDigits(t[8..10]) then None
        else
          var d := DigitsValue(t[8..10]);
          if d < 1 || d > DaysInMonth(y, m) then None
          else Some(Date(y, m, d))
  }

  /** The time part, as milliseconds since midnight: `HH`, `HH:mm` or `HH:mm:ss`, the
      seconds optionally followed by `.` or `,` and digits; any other text, or a time
      that does not exist, is refused. */
  function ParseTime(t: string): (r: Option<int>)
    ensures r.Some? ==> 0 <= r.value < DayMillis
    ensures r.Some? ==> |t| == 2 || (|t| >= 5 && t[2] == ':')
  {
    if |t| < 2 || !AllDigits(t[..2]) then None
    else
      var hh := DigitsValue(t[..2]);
      if hh >= 24 then None
      else if |t| == 2 then Some(hh * 3600000)
      else if |t| < 5 || t[2] != ':' || !AllDigits(t[3..5]) then None
      else
        var mm := DigitsValue(t[3..5]);
        if mm >= 60 then None
        else if |t| == 5 then Some((hh * 60 + mm) * 60000)
        else if |t| < 8 || t[5] != ':' || !AllDigits(t[6..8]) then None
        else
          var ss := DigitsValue(t[6..8]);
          if ss >= 60 || (|t| > 8 && !((t[8] == '.' || t[8] == ',') && AllDigits(t[9..]))) then None
          else Some(((hh * 60 + mm) * 60 + ss) * 1000)
  }

  /** `parseISO(s)` on the local shapes the stored dates take: a date part, then
      optionally a `T` or a space and a time part. An empty time part is midnight; a
      date part or a time part the grammars above refuse makes an Invalid Date. */
  function ParseIso(s: string): (r: Option<Moment>)
    ensures r.Some? ==> ValidMoment(r.value) && 0 <= r.value.date.year < 10000
    ensures r.Some? <==> ParseDatePart(s[..TimeDelimiter(s)]).Some?
                         && (TimeDelimiter(s) + 1 >= |s| || ParseTime(s[TimeDelimiter(s) + 1..]).Some?)
  {
    var k := TimeDelimiter(s);
    match ParseDatePart(s[..k])
    case None => None
    case Some(d) =>
      if k + 1 >= |s| then Some(Moment(d, 0))
      else match ParseTime(s[k + 1..])
        case None => None
        case Some(ms) => Some(Moment(d, ms))
  }

  /** The `YYYY-MM-DD` text a date input delivers. */
  function IsoDate(d: Date): string
    requires 0 <= d.year < 10000 && ValidDate(d)
  {
    PadDigits(d.year, 4) + "-" + PadDigits(d.month, 2) + "-" + PadDigits(d.day, 2)
  }

  /** `format(d, "dd/MM/yyyy")`. */
  function FormatDmy(d: Date): (s: string)
    requires 0 <= d.year < 10000 && ValidDate(d)
    ensures |s| == 10 && s[2] == '/' && s[5] == '/'
    ensures AllDigits(s[..2]) && DigitsValue(s[..2]) == d.day
    ensures AllDigits(s[3..5]) && DigitsValue(s[3..5]) == d.month
    ensures AllDigits(s[6..]) && DigitsValue(s[6..]) == d.year
  {
    var dd, mm, yyyy := PadDigits(d.day, 2), PadDigits(d.month, 2), PadDigits(d.year, 4);
    PadDigitsValue(d.day, 2);
    PadDigitsValue(d.month, 2);
    PadDigitsValue(d.year, 4);
    var s := dd + "/" + mm + "/" + yyyy;
    assert s[..2] == dd && s[3..5] == mm && s[6..] == yyyy;
    s
  }

  /** `formatDate` of the admin, subcontractor and overview tables: "-" for an empty
      value, and "-" when `format` throws on an Invalid Date. */
  function FormatDate(s: string): (r: string)
    ensures r == "-" <==> s == "" || ParseIso(s).None?
    ensures s != "" && ParseIso(s).Some? ==> r == FormatDmy(ParseIso(s).value.date)
  {
    if s == "" then "-"
    else match ParseIso(s)
      case None => "-"
      case Some(m) => FormatDmy(m.date)
  }

  /** A date written by a date input parses back to that date at local midnight. */
  lemma IsoDateRoundTrip(d: Date)
    requires 0 <= d.year < 10000 && ValidDate(d)
    ensures ParseIso(IsoDate(d)) == Some(Moment(d, 0))
  {
    var s := IsoDate(d);
    IsoDateParts(d);
    assert s[..10] == s;
  }

  /** The text of a date input is ten characters: the date part alone, with no `T` or
      space in it. */
  lemma IsoDateParts(d: Date)
    requires 0 <= d.year < 10000 && ValidDate(d)
    ensures |IsoDate(d)| == 10 && TimeDelimiter(IsoDate(d)) == 10
    ensures ParseDatePart(IsoDate(d)) == Some(d)
  {
    var s := IsoDate(d);
    assert s[..4] == PadDigits(d.year, 4);
    assert s[5..7] == PadDigits(d.month, 2);
    assert s[8..10] == PadDigits(d.day, 2);
    PadDigitsValue(d.year, 4);
    PadDigitsValue(d.month, 2);
    PadDigitsValue(d.day, 2);
    assert forall i | 0 <= i < 10 :: s[i] != 'T' && s[i] != ' ';
    DelimiterAfter(s, 10);
  }

  /** With no delimiter before `k` and one at `k` (or nothing left), the cut is at `k`. */
  lemma {:induction false} DelimiterAfter(s: string, k: nat)
    requires k <= |s| && forall i | 0 <= i < k :: s[i] != 'T' && s[i] != ' '
    requires k < |s| ==> s[k] == 'T' || s[k] == ' '
    ensures TimeDelimiter(s) == k
  {
    if k > 0 {
      DelimiterAfter(s[1..], k - 1);
    }
  }

  /** A date input's text, a delimiter and a time: the cut falls on the delimiter. */
  lemma JoinedAtDelimiter(d: Date, sep: char, time: string)
    requires 0 <= d.year < 10000 && ValidDate(d)
    requires sep == 'T' || sep == ' '
    ensures var s := IsoDate(d) + [sep] + time;
            TimeDelimiter(s) == 10 && s[..10] == IsoDate(d) && s[11..] == time
            && ParseDatePart(s[..10]) == Some(d)
  {
    var s := IsoDate(d) + [sep] + time;
    IsoDateParts(d);
    assert s[..10] == IsoDate(d) && s[10] == sep && s[11..] == time;
    DelimiterAfter(s, 10);
  }

  /** `HH:mm` is that time of day. */
  lemma HourMinute(hh: nat, mm: nat)
    requires hh < 24 && mm < 60
    ensures ParseTime(PadDigits(hh, 2) + ":" + PadDigits(mm, 2)) == Some((hh * 60 + mm) * 60000)
  {
    var t := PadDigits(hh, 2) + ":" + PadDigits(mm, 2);
    assert t[..2] == PadDigits(hh, 2) && t[3..5] == PadDigits(mm, 2);
    PadDigitsValue(hh, 2);
    PadDigitsValue(mm, 2);
  }

  /** `HH:mm` followed by text that does not start with `:` is refused. */
  lemma HourMinuteThenText(hh: nat, mm: nat, rest: string)
    requires rest != [] && rest[0] != ':'
    ensures ParseTime(PadDigits(hh, 2) + ":" + PadDigits(mm, 2) + rest).None?
  {
    var t := PadDigits(hh, 2) + ":" + PadDigits(mm, 2) + rest;
    assert |t| > 5 && t[5] == rest[0];
  }

  /** A date and a time `HH:mm`, joined by `T` or by a space, parse back to that day and
      time. */
  lemma IsoDateTimeRoundTrip(d: Date, sep: char, hh: nat, mm: nat)
    requires 0 <= d.year < 10000 && ValidDate(d)
    requires sep == 'T' || sep == ' '
    requires hh < 24 && mm < 60
    ensures ParseIso(IsoDate(d) + [sep] + (PadDigits(hh, 2) + ":" + PadDigits(mm, 2)))
            == Some(Moment(d, (hh * 60 + mm) * 60000))
  {
    JoinedAtDelimiter(d, sep, PadDigits(hh, 2) + ":" + PadDigits(mm, 2));
    HourMinute(hh, mm);
  }

  /** Text after `HH:mm` other than `:ss` makes the whole string an Invalid Date. */
  lemma TrailingTextRefused(d: Date, hh: nat, mm: nat, rest: string)
    requires 0 <= d.year < 10000 && ValidDate(d)
    requires rest != [] && rest[0] != ':'
    ensures ParseIso(IsoDate(d) + "T" + (PadDigits(hh, 2) + ":" + PadDigits(mm, 2) + rest)).None?
  {
    JoinedAtDelimiter(d, 'T', PadDigits(hh, 2) + ":" + PadDigits(mm, 2) + rest);
    HourMinuteThenText(hh, mm, rest);
  }

  /** The tables show such a date as `dd/MM/yyyy`. */
  lemma FormatIsoDate(d: Date)
    requires 0 <= d.year < 10000 && ValidDate(d)
    ensures FormatDate(IsoDate(d)) == FormatDmy(d)
  {
    IsoDateRoundTrip(d);
  }
}
