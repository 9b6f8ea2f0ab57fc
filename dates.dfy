/**
 * The month key of a record's `changed` timestamp, as
 * `TotalSummarizer._parse_date` computes it: strip, translate one Spanish
 * month abbreviation, collapse whitespace, parse with
 * `datetime.strptime(_, "%d/%b/%y %I:%M %p")`, render with `"%Y-%m"`.
 */
module Dates {
  import opened Wrappers
  import opened Errors
  import opened PyStr

  /** The Spanish-to-English month abbreviations, in the order they are tried. */
  const SpanishMonths: seq<(string, string)> := [
    ("ene", "Jan"), ("feb", "Feb"), ("mar", "Mar"), ("abr", "Apr"),
    ("may", "May"), ("jun", "Jun"), ("jul", "Jul"), ("ago", "Aug"),
    ("sep", "Sep"), ("oct", "Oct"), ("nov", "Nov"), ("dic", "Dec")
  ]

  /** The month abbreviations `%b` accepts, compared without regard to case. */
  const EnglishMonths: seq<string> := [
    "jan", "feb", "mar", "apr", "may", "jun", "jul", "aug", "sep", "oct", "nov", "dec"
  ]

  // ---------------------------------------------------------------------
  // Normalisation

  /** The first abbreviation, at or after position `i` of the table, that occurs in `s`. */
  function FirstSpanishFrom(s: string, i: nat): (r: Option<nat>)
    requires i <= |SpanishMonths|
    ensures r.Some? ==> i <= r.value < |SpanishMonths| && Contains(s, SpanishMonths[r.value].0)
    ensures r.Some? ==> forall j :: i <= j < r.value ==> !Contains(s, SpanishMonths[j].0)
    ensures r.None? ==> forall j :: i <= j < |SpanishMonths| ==> !Contains(s, SpanishMonths[j].0)
    decreases |SpanishMonths| - i
  {
    if i == |SpanishMonths| then None
    else if Contains(s, SpanishMonths[i].0) then Some(i)
    else FirstSpanishFrom(s, i + 1)
  }

  /**
   * Step 2 of the normalisation: only the first abbreviation of the table
   * found in `s` is replaced (all of its occurrences); if none occurs, `s`
   * is returned as it is.
   */
  function TranslateMonth(s: string): string {
    match FirstSpanishFrom(s, 0)
    case None => s
    case Some(k) => ReplaceAll(s, SpanishMonths[k].0, SpanishMonths[k].1)
  }

  /** The string `strptime` is given: stripped, translated, whitespace collapsed. */
  function Normalize(s: string): string {
    Collapse(TranslateMonth(StripSpace(s)))
  }

  // ---------------------------------------------------------------------
  // strptime(t, "%d/%b/%y %I:%M %p")

  /** A parsed timestamp; `hour` is on the 24-hour clock. */
  datatype Stamp = Stamp(year: int, month: int, day: int, hour: int, minute: int)

  /** The six fields of the pattern, cut at the literal `/`, `/`, ` `, `:`, ` `. */
  datatype Fields = Fields(day: string, month: string, year: string, hour: string, minute: string, ampm: string)

  function CutAt(s: string, c: char): Option<(string, string)> {
    if c in s then
      var i := FindChar(s, c);
      Some((s[..i], s[i + 1..]))
    else None
  }

  function SplitFields(t: string): Option<Fields> {
    match CutAt(t, '/')
    case None => None
    case Some((d, r1)) =>
      match CutAt(r1, '/')
      case None => None
      case Some((b, r2)) =>
        match CutAt(r2, ' ')
        case None => None
        case Some((y, r3)) =>
          match CutAt(r3, ':')
          case None => None
          case Some((h, r4)) =>
            match CutAt(r4, ' ')
            case None => None
            case Some((m, p)) => Some(Fields(d, b, y, h, m, p))
  }

  predicate AllDigits(s: string) {
    forall i :: 0 <= i < |s| ==> IsDigit(s[i])
  }

  /** One or two digits are worth at most 99. */
  lemma TwoDigitsBound(s: string)
    requires |s| <= 2 && AllDigits(s)
    ensures DigitsValue(s) <= 99
  {
    if |s| == 2 {
      assert DigitsValue(s[..1]) <= 9;
    }
  }

  /** The value of one or two digits, digit by digit. */
  lemma SmallDigitsValue(s: string)
    requires 1 <= |s| <= 2 && AllDigits(s)
    ensures DigitsValue(s) == if |s| == 1 then DigitValue(s[0]) else 10 * DigitValue(s[0]) + DigitValue(s[1])
  {
    assert s[..|s| - 1][..0] == [];
    if |s| == 2 {
      assert s[..1][0] == s[0];
    }
  }

  /*
   * The field patterns of `strptime`, one alternative per line.  Each regex
   * also has a space-padded alternative (`" [1-9]"`), which never matches
   * here: the day starts a stripped string, and the hour follows the single
   * space a collapsed string has there.
   */

  /** `%d`: `3[01]|[12]\d|0[1-9]|[1-9]`. */
  predicate DayPattern(s: string) {
    || (|s| == 2 && s[0] == '3' && '0' <= s[1] <= '1')
    || (|s| == 2 && '1' <= s[0] <= '2' && IsDigit(s[1]))
    || (|s| == 2 && s[0] == '0' && '1' <= s[1] <= '9')
    || (|s| == 1 && '1' <= s[0] <= '9')
  }

  /** `%I`: `1[0-2]|0[1-9]|[1-9]`. */
  predicate HourPattern(s: string) {
    || (|s| == 2 && s[0] == '1' && '0' <= s[1] <= '2')
    || (|s| == 2 && s[0] == '0' && '1' <= s[1] <= '9')
    || (|s| == 1 && '1' <= s[0] <= '9')
  }

  /** `%M`: `[0-5]\d|\d`. */
  predicate MinutePattern(s: string) {
    || (|s| == 2 && '0' <= s[0] <= '5' && IsDigit(s[1]))
    || (|s| == 1 && IsDigit(s[0]))
  }

  /** `%y`: `\d\d`. */
  predicate YearPattern(s: string) {
    |s| == 2 && IsDigit(s[0]) && IsDigit(s[1])
  }

  /** `%p` in the C locale: `am` or `pm`, in any case. */
  predicate AmPmPattern(s: string) {
    Lower(s) == "am" || Lower(s) == "pm"
  }

  /** `%d`: the day the pattern matches, which is exactly one or two digits worth 1 to 31. */
  function ParseDay(s: string): (r: Option<int>)
    ensures r.Some? <==> 1 <= |s| <= 2 && AllDigits(s) && 1 <= DigitsValue(s) <= 31
    ensures r.Some? ==> r.value == DigitsValue(s)
  {
    if 1 <= |s| <= 2 && AllDigits(s) then SmallDigitsValue(s); (if DayPattern(s) then Some(DigitsValue(s)) else None)
    else None
  }

  /** `%I`: the hour the pattern matches, which is exactly one or two digits worth 1 to 12. */
  function ParseHour12(s: string): (r: Option<int>)
    ensures r.Some? <==> 1 <= |s| <= 2 && AllDigits(s) && 1 <= DigitsValue(s) <= 12
    ensures r.Some? ==> r.value == DigitsValue(s)
  {
    if 1 <= |s| <= 2 && AllDigits(s) then SmallDigitsValue(s); (if HourPattern(s) then Some(DigitsValue(s)) else None)
    else None
  }

  /** `%M`: the minute the pattern matches, which is exactly one or two digits worth at most 59. */
  function ParseMinute(s: string): (r: Option<int>)
    ensures r.Some? <==> 1 <= |s| <= 2 && AllDigits(s) && DigitsValue(s) <= 59
    ensures r.Some? ==> r.value == DigitsValue(s)
  {
    if 1 <= |s| <= 2 && AllDigits(s) then SmallDigitsValue(s); (if MinutePattern(s) then Some(DigitsValue(s)) else None)
    else None
  }

  /** No digit string matches a pattern unless it is one or two digits. */
  lemma PatternsAreDigits(s: string)
    ensures (DayPattern(s) || HourPattern(s) || MinutePattern(s)) ==> 1 <= |s| <= 2 && AllDigits(s)
    ensures YearPattern(s) <==> |s| == 2 && AllDigits(s)
  {
  }

  /** `3[01]|[12]\d|0[1-9]|[1-9]` matches exactly the one- or two-digit strings worth 1 to 31. */
  lemma DayPatternRange(s: string)
    ensures DayPattern(s) <==> 1 <= |s| <= 2 && AllDigits(s) && 1 <= DigitsValue(s) <= 31
  {
    if 1 <= |s| <= 2 && AllDigits(s) { SmallDigitsValue(s); }
  }

  /** `1[0-2]|0[1-9]|[1-9]` matches exactly the one- or two-digit strings worth 1 to 12. */
  lemma HourPatternRange(s: string)
    ensures HourPattern(s) <==> 1 <= |s| <= 2 && AllDigits(s) && 1 <= DigitsValue(s) <= 12
  {
    if 1 <= |s| <= 2 && AllDigits(s) { SmallDigitsValue(s); }
  }

  /** `[0-5]\d|\d` matches exactly the one- or two-digit strings worth at most 59. */
  lemma MinutePatternRange(s: string)
    ensures MinutePattern(s) <==> 1 <= |s| <= 2 && AllDigits(s) && DigitsValue(s) <= 59
  {
    if 1 <= |s| <= 2 && AllDigits(s) { SmallDigitsValue(s); }
  }

  /**
   * `%y`'s pivot: the year in the hundred years from 1969 to 2068 whose last
   * two digits are the field, so 69-99 are 19xx and 00-68 are 20xx.
   */
  function Pivot(yy: string): (year: int)
    requires YearPattern(yy)
    ensures 1969 <= year <= 2068 && year % 100 == DigitsValue(yy)
  {
    PatternsAreDigits(yy);
    TwoDigitsBound(yy);
    var v := DigitsValue(yy);
    if v <= 68 then 2000 + v else 1900 + v
  }

  /** `%y`: exactly two digits, read through the pivot. */
  function ParseYear2(s: string): (r: Option<int>)
    ensures r.Some? <==> |s| == 2 && AllDigits(s)
    ensures r.Some? ==> 1969 <= r.value <= 2068 && r.value % 100 == DigitsValue(s)
  {
    if YearPattern(s) then Some(Pivot(s)) else None
  }

  /** `%I` with `%p`: 12 AM is hour 0, 12 PM hour 12, any other PM hour twelve later. */
  function Hour24(h: int, pm: bool): (hour: int)
    ensures 1 <= h <= 12 ==> 0 <= hour < 24 && hour % 12 == h % 12 && (hour >= 12 <==> pm)
  {
    (if h == 12 then 0 else h) + (if pm then 12 else 0)
  }

  function IndexOfMonth(s: string, i: nat): (r: Option<nat>)
    requires i <= 12
    ensures r.Some? ==> i <= r.value < 12 && EnglishMonths[r.value] == s
    ensures r.None? ==> forall j :: i <= j < 12 ==> EnglishMonths[j] != s
    decreases 12 - i
  {
    if i == 12 then None else if EnglishMonths[i] == s then Some(i) else IndexOfMonth(s, i + 1)
  }

  /** `%b`: an English abbreviation in any case; the month number 1-12. */
  function ParseMonthName(s: string): (r: Option<int>)
    ensures r.Some? ==> 1 <= r.value <= 12 && EnglishMonths[r.value - 1] == Lower(s)
    ensures r.None? ==> Lower(s) !in EnglishMonths
  {
    match IndexOfMonth(Lower(s), 0)
    case None => None
    case Some(i) => Some(i + 1)
  }

  /** `%p`: `am` or `pm` in any case; `Some(true)` for `pm`. */
  function ParseAmPm(s: string): Option<bool> {
    if Lower(s) == "am" then Some(false) else if Lower(s) == "pm" then Some(true) else None
  }

  predicate IsLeapYear(y: int) {
    y % 4 == 0 && (y % 100 != 0 || y % 400 == 0)
  }

  function DaysInMonth(year: int, month: int): int
    requires 1 <= month <= 12
  {
    if month == 2 then (if IsLeapYear(year) then 29 else 28)
    else if month == 4 || month == 6 || month == 9 || month == 11 then 30
    else 31
  }

  /**
   * `datetime.strptime(t, "%d/%b/%y %I:%M %p")` on a string whose only
   * whitespace is single spaces; `None` where it raises `ValueError`
   * (no match, trailing text, or a day past the end of the month).
   */
  function ParseStamp(t: string): (r: Option<Stamp>)
    ensures r.Some? ==> 1 <= r.value.month <= 12 && 1969 <= r.value.year <= 2068
    ensures r.Some? ==> 1 <= r.value.day <= DaysInMonth(r.value.year, r.value.month)
    ensures r.Some? ==> 0 <= r.value.hour < 24 && 0 <= r.value.minute < 60
  {
    match SplitFields(t)
    case None => None
    case Some(f) =>
      var d, mo, y := ParseDay(f.day), ParseMonthName(f.month), ParseYear2(f.year);
      var h, mi, pm := ParseHour12(f.hour), ParseMinute(f.minute), ParseAmPm(f.ampm);
      if d.Some? && mo.Some? && y.Some? && h.Some? && mi.Some? && pm.Some?
         && d.value <= DaysInMonth(y.value, mo.value)
      then
        Some(Stamp(y.value, mo.value, d.value, Hour24(h.value, pm.value), mi.value))
      else None
  }

  // ---------------------------------------------------------------------
  // Which stamps parse, and to what

  /** The text of a stamp: its six fields with the literals of the pattern between them. */
  function StampText(f: Fields): string {
    f.day + ("/" + (f.month + ("/" + (f.year + (" " + (f.hour + (":" + (f.minute + (" " + f.ampm)))))))))
  }

  /** Cutting `a + [c] + b` at its first `c` gives back `a` and `b` when `a` has no `c`. */
  lemma CutJoin(a: string, c: char, b: string)
    requires c !in a
    ensures CutAt(a + ([c] + b), c) == Some((a, b))
  {
    var s := a + ([c] + b);
    assert s[|a|] == c;
    var i := FindChar(s, c);
    assert s[..i] == a && s[i + 1..] == b;
  }

  /** A successful cut splits the string around its first `c`. */
  lemma CutSplit(s: string, c: char)
    requires CutAt(s, c).Some?
    ensures s == CutAt(s, c).value.0 + ([c] + CutAt(s, c).value.1) && c !in CutAt(s, c).value.0
  {
    var i := FindChar(s, c);
    assert s == s[..i] + ([c] + s[i + 1..]);
  }

  /** Splitting a stamp's text gives back its fields, when none holds the literal that ends it. */
  lemma SplitFieldsText(f: Fields)
    requires '/' !in f.day && '/' !in f.month && ' ' !in f.year && ':' !in f.hour && ' ' !in f.minute
    ensures SplitFields(StampText(f)) == Some(f)
  {
    var r4 := f.minute + (" " + f.ampm);
    var r3 := f.hour + (":" + r4);
    var r2 := f.year + (" " + r3);
    var r1 := f.month + ("/" + r2);
    CutJoin(f.day, '/', r1);
    CutJoin(f.month, '/', r2);
    CutJoin(f.year, ' ', r3);
    CutJoin(f.hour, ':', r4);
    CutJoin(f.minute, ' ', f.ampm);
  }

  /** A text that splits is the text of its fields, each free of the literal that ends it. */
  lemma SplitFieldsSound(t: string)
    requires SplitFields(t).Some?
    ensures var f := SplitFields(t).value;
      && t == StampText(f)
      && '/' !in f.day && '/' !in f.month && ' ' !in f.year && ':' !in f.hour && ' ' !in f.minute
  {
    CutSplit(t, '/');
    var r1 := CutAt(t, '/').value.1;
    CutSplit(r1, '/');
    var r2 := CutAt(r1, '/').value.1;
    CutSplit(r2, ' ');
    var r3 := CutAt(r2, ' ').value.1;
    CutSplit(r3, ':');
    var r4 := CutAt(r3, ':').value.1;
    CutSplit(r4, ' ');
  }

  /** The English abbreviations are twelve different words of lower-case letters. */
  lemma EnglishMonthsFacts()
    ensures forall k, i :: 0 <= k < 12 && 0 <= i < |EnglishMonths[k]| ==> 'a' <= EnglishMonths[k][i] <= 'z'
    ensures forall k, j :: 0 <= k < 12 && 0 <= j < 12 && EnglishMonths[k] == EnglishMonths[j] ==> k == j
  {
  }

  /** A month name is read as the number of the abbreviation it spells, and holds no literal of the pattern. */
  lemma MonthNameOf(name: string, m: int)
    requires 1 <= m <= 12 && Lower(name) == EnglishMonths[m - 1]
    ensures ParseMonthName(name) == Some(m)
    ensures '/' !in name && ' ' !in name && ':' !in name
  {
    EnglishMonthsFacts();
    forall i | 0 <= i < |name| ensures name[i] != '/' && name[i] != ' ' && name[i] != ':' {
      assert Lower(name)[i] == LowerChar(name[i]);
    }
  }

  /**
   * Completeness: every text of the form `%d/%b/%y %I:%M %p` whose day the
   * month has parses, to the pivoted year, the month the name spells, and
   * the day, hour and minute its digits denote.
   */
  lemma ParseStampComplete(f: Fields, m: int)
    requires DayPattern(f.day) && YearPattern(f.year) && HourPattern(f.hour) && MinutePattern(f.minute)
    requires 1 <= m <= 12 && Lower(f.month) == EnglishMonths[m - 1]
    requires AmPmPattern(f.ampm)
    requires DigitsValue(f.day) <= DaysInMonth(Pivot(f.year), m)
    ensures ParseStamp(StampText(f)) == Some(Stamp(Pivot(f.year), m, DigitsValue(f.day),
      Hour24(DigitsValue(f.hour), Lower(f.ampm) == "pm"), DigitsValue(f.minute)))
  {
    PatternsAreDigits(f.day);
    PatternsAreDigits(f.year);
    PatternsAreDigits(f.hour);
    PatternsAreDigits(f.minute);
    MonthNameOf(f.month, m);
    SplitFieldsText(f);
  }

  /**
   * Soundness: a text that parses is the text of fields that match the
   * patterns, and the stamp is the one those fields denote.
   */
  lemma ParseStampSound(t: string)
    requires ParseStamp(t).Some?
    ensures SplitFields(t).Some?
    ensures var f, st := SplitFields(t).value, ParseStamp(t).value;
      && t == StampText(f)
      && DayPattern(f.day) && YearPattern(f.year) && HourPattern(f.hour) && MinutePattern(f.minute)
      && AmPmPattern(f.ampm)
      && ParseMonthName(f.month) == Some(st.month)
      && st == Stamp(Pivot(f.year), st.month, DigitsValue(f.day),
                     Hour24(DigitsValue(f.hour), Lower(f.ampm) == "pm"), DigitsValue(f.minute))
  {
    SplitFieldsSound(t);
    var f := SplitFields(t).value;
    var d, mo, y := ParseDay(f.day), ParseMonthName(f.month), ParseYear2(f.year);
    var h, mi, pm := ParseHour12(f.hour), ParseMinute(f.minute), ParseAmPm(f.ampm);
    assert d.Some? && mo.Some? && y.Some? && h.Some? && mi.Some? && pm.Some?;
    FieldsMatch(f);
    assert ParseStamp(t).value == Stamp(y.value, mo.value, d.value, Hour24(h.value, pm.value), mi.value);
  }

  /** Fields that all parse match their patterns, and parse to the values their digits denote. */
  lemma FieldsMatch(f: Fields)
    requires ParseDay(f.day).Some? && ParseMonthName(f.month).Some? && ParseYear2(f.year).Some?
    requires ParseHour12(f.hour).Some? && ParseMinute(f.minute).Some? && ParseAmPm(f.ampm).Some?
    ensures DayPattern(f.day) && YearPattern(f.year) && HourPattern(f.hour) && MinutePattern(f.minute)
    ensures ParseDay(f.day).value == DigitsValue(f.day) && ParseYear2(f.year).value == Pivot(f.year)
    ensures ParseHour12(f.hour).value == DigitsValue(f.hour) && ParseMinute(f.minute).value == DigitsValue(f.minute)
    ensures AmPmPattern(f.ampm)
    ensures ParseAmPm(f.ampm).value == (Lower(f.ampm) == "pm")
  {
  }

  // ---------------------------------------------------------------------
  // strftime("%Y-%m")

  /** A number written with at least `width` digits, zero-padded. */
  function PadNat(n: nat, width: nat): (s: string)
    ensures |s| >= width && forall i :: 0 <= i < |s| ==> IsDigit(s[i])
    ensures DigitsValue(s) == n
  {
    var d := NatToString(n);
    NatToStringValue(n);
    if |d| >= width then d
    else
      ZerosValue(Zeros(width - |d|), d);
      Zeros(width - |d|) + d
  }

  /** Leading zeros do not change the value of a digit string. */
  lemma {:induction false} ZerosValue(z: string, d: string)
    requires forall i :: 0 <= i < |z| ==> z[i] == '0'
    requires AllDigits(d)
    ensures AllDigits(z + d) && DigitsValue(z + d) == DigitsValue(d)
    decreases |z| + |d|
  {
    if d == [] {
      assert z + d == z;
      if z != [] {
        ZerosValue(z[..|z| - 1], []);
        assert z[..|z| - 1] + [] == z[..|z| - 1];
      }
    } else {
      var d' := d[..|d| - 1];
      assert (z + d)[..|z + d| - 1] == z + d';
      ZerosValue(z, d');
    }
  }

  function Zeros(k: nat): (s: string)
    ensures |s| == k && forall i :: 0 <= i < k ==> s[i] == '0'
  {
    seq(k, i => '0')
  }

  /** A month key: four year digits, `-`, two month digits. */
  predicate IsMonthKey(key: string) {
    && |key| == 7
    && key[4] == '-'
    && AllDigits(key[..4])
    && AllDigits(key[5..])
    && 1 <= DigitsValue(key[5..]) <= 12
  }

  /** `strftime("%Y-%m")` of a date in years 1000-9999. */
  function MonthKeyOf(year: int, month: int): (key: string)
    requires 1000 <= year <= 9999 && 1 <= month <= 12
    ensures IsMonthKey(key)
    ensures DigitsValue(key[..4]) == year && DigitsValue(key[5..]) == month
  {
    var y := NatToString(year);
    var m := PadNat(month, 2);
    NatToStringValue(year);
    NatToStringLength(year);
    PadTwo(month);
    var key := y + "-" + m;
    assert key[..4] == y && key[5..] == m;
    key
  }

  lemma {:induction false} NatToStringLength(n: nat)
    requires 1000 <= n <= 9999
    ensures |NatToString(n)| == 4
  {
    assert NatToString(n) == NatToString(n / 10) + [DigitChar(n % 10)];
    assert NatToString(n / 10) == NatToString(n / 100) + [DigitChar(n / 10 % 10)];
    assert NatToString(n / 100) == NatToString(n / 1000) + [DigitChar(n / 100 % 10)];
  }

  // ---------------------------------------------------------------------
  // The whole of _parse_date

  /**
   * The month key of a `changed` value, or the `ValueError` that quotes the
   * normalised string.
   */
  function MonthKey(s: string): Result<string, Error> {
    var t := Normalize(s);
    match ParseStamp(t)
    case None => Failure(DateParseError(t))
    case Some(st) => Success(MonthKeyOf(st.year, st.month))
  }

  /**
   * A month key is `YYYY-MM` with a month from 1 to 12; the only failure is
   * the error quoting the normalised string, raised exactly when that string
   * does not match the pattern or names a day the month does not have.
   */
  lemma MonthKeySpec(s: string)
    ensures MonthKey(s).Success? ==> IsMonthKey(MonthKey(s).value)
    ensures MonthKey(s).Failure? ==> MonthKey(s).error == DateParseError(Normalize(s))
    ensures MonthKey(s).Success? <==> ParseStamp(Normalize(s)).Some?
  {
  }

  /**
   * A `changed` value whose normalised form is a well-formed stamp gets the
   * key of the pivoted year and the month its name spells.
   */
  lemma MonthKeyComplete(s: string, f: Fields, m: int)
    requires DayPattern(f.day) && YearPattern(f.year) && HourPattern(f.hour) && MinutePattern(f.minute)
    requires 1 <= m <= 12 && Lower(f.month) == EnglishMonths[m - 1]
    requires AmPmPattern(f.ampm)
    requires DigitsValue(f.day) <= DaysInMonth(Pivot(f.year), m)
    requires Normalize(s) == StampText(f)
    ensures MonthKey(s) == Success(MonthKeyOf(Pivot(f.year), m))
  {
    ParseStampComplete(f, m);
  }

  /**
   * Conversely, a key comes from the normalised value's year field, through
   * the pivot, and from the number of its month name.
   */
  lemma MonthKeySound(s: string)
    requires MonthKey(s).Success?
    ensures SplitFields(Normalize(s)).Some?
    ensures var f := SplitFields(Normalize(s)).value;
      && YearPattern(f.year) && ParseMonthName(f.month).Some?
      && MonthKey(s).value == MonthKeyOf(Pivot(f.year), ParseMonthName(f.month).value)
  {
    ParseStampSound(Normalize(s));
  }

  // ---------------------------------------------------------------------
  // Stamps written with zero-padded numbers

  /** The year `%y` gives two digits: 69-99 are 19xx, 00-68 are 20xx. */
  function PivotYear(yy: nat): (year: int)
    requires yy <= 99
    ensures 1969 <= year <= 2068 && year % 100 == yy
  {
    if yy <= 68 then 2000 + yy else 1900 + yy
  }

  /** A number below 100, padded to two digits, is two digits worth that number. */
  lemma PadTwo(n: nat)
    requires n <= 99
    ensures |PadNat(n, 2)| == 2 && AllDigits(PadNat(n, 2)) && DigitsValue(PadNat(n, 2)) == n
  {
    if n >= 10 {
      assert NatToString(n) == NatToString(n / 10) + [DigitChar(n % 10)];
    }
  }

  /** The pivot of a padded two-digit year is the year that number denotes. */
  lemma PivotPadded(yy: nat)
    requires yy <= 99
    ensures YearPattern(PadNat(yy, 2)) && Pivot(PadNat(yy, 2)) == PivotYear(yy)
  {
    PadTwo(yy);
    PatternsAreDigits(PadNat(yy, 2));
  }

  /**
   * Completeness for numbers: a day the month has, a month name in any
   * case, a two-digit year, an hour 1-12, a minute 0-59 and AM or PM,
   * written zero-padded as `dd/mon/yy hh:mm AM`, parse to that date with
   * the pivoted year and the 24-hour hour.
   */
  lemma ParseStampPadded(d: nat, name: string, m: int, yy: nat, h: nat, mi: nat, pm: bool)
    requires 1 <= m <= 12 && Lower(name) == EnglishMonths[m - 1]
    requires yy <= 99 && 1 <= d <= DaysInMonth(PivotYear(yy), m)
    requires 1 <= h <= 12 && mi <= 59
    ensures ParseStamp(StampText(Fields(PadNat(d, 2), name, PadNat(yy, 2), PadNat(h, 2), PadNat(mi, 2),
                                        if pm then "PM" else "AM")))
      == Some(Stamp(PivotYear(yy), m, d, Hour24(h, pm), mi))
  {
    var ampm := if pm then "PM" else "AM";
    assert Lower("PM") == "pm" && Lower("AM") == "am";
    var f := Fields(PadNat(d, 2), name, PadNat(yy, 2), PadNat(h, 2), PadNat(mi, 2), ampm);
    assert d <= 31 by { assert DaysInMonth(PivotYear(yy), m) <= 31; }
    PadTwo(d);
    PadTwo(h);
    PadTwo(mi);
    PivotPadded(yy);
    DayPatternRange(f.day);
    HourPatternRange(f.hour);
    MinutePatternRange(f.minute);
    ParseStampComplete(f, m);
  }

  // ---------------------------------------------------------------------
  // Extra whitespace and a Spanish month name

  /** `day/month/year`, the first word of a stamp. */
  function DateWord(f: Fields): string {
    f.day + ("/" + (f.month + ("/" + f.year)))
  }

  /** `hour:minute`, the second word of a stamp. */
  function TimeWord(f: Fields): string {
    f.hour + (":" + f.minute)
  }

  /** A stamp written with the runs of whitespace `g1` and `g2` where the pattern has single spaces. */
  function SpacedText(f: Fields, g1: string, g2: string): string {
    DateWord(f) + (g1 + (TimeWord(f) + (g2 + f.ampm)))
  }

  /** The pattern's text is its three words with single spaces. */
  lemma StampWords(f: Fields)
    ensures StampText(f) == SpacedText(f, " ", " ")
  {
    var tail := " " + (TimeWord(f) + (" " + f.ampm));
    ConcatAssoc(f.minute, " ", f.ampm);
    ConcatAssoc(":", f.minute, " " + f.ampm);
    ConcatAssoc(f.hour, ":" + f.minute, " " + f.ampm);
    ConcatAssoc(f.year, " ", TimeWord(f) + (" " + f.ampm));
    ConcatAssoc("/", f.year, tail);
    ConcatAssoc(f.month, "/" + f.year, tail);
    ConcatAssoc("/", f.month + ("/" + f.year), tail);
    ConcatAssoc(f.day, "/" + (f.month + ("/" + f.year)), tail);
  }

  /** Three lower-case letters, as every Spanish abbreviation is. */
  predicate IsAbbreviation(p: string) {
    |p| == 3 && forall k :: 0 <= k < 3 ==> 'a' <= p[k] <= 'z'
  }

  /** A string with no lower-case letter. */
  predicate NoLowerLetter(s: string) {
    forall j :: 0 <= j < |s| ==> !('a' <= s[j] <= 'z')
  }

  lemma SpanishAbbreviations()
    ensures forall j :: 0 <= j < |SpanishMonths| ==> IsAbbreviation(SpanishMonths[j].0)
  {
  }

  /** The fields other than the month cannot hold a lower-case abbreviation. */
  predicate LetterFree(f: Fields, g1: string, g2: string) {
    && NoLowerLetter(f.day) && NoLowerLetter(f.year) && NoLowerLetter(f.hour) && NoLowerLetter(f.minute)
    && IsBlank(g1) && IsBlank(g2) && |f.ampm| == 2
  }

  /** The patterns keep letters out of every field but the month and the two-letter AM/PM. */
  lemma PatternsLetterFree(f: Fields, g1: string, g2: string)
    requires DayPattern(f.day) && YearPattern(f.year) && HourPattern(f.hour) && MinutePattern(f.minute)
    requires AmPmPattern(f.ampm) && IsBlank(g1) && IsBlank(g2)
    ensures LetterFree(f, g1, g2)
  {
    PatternsAreDigits(f.day);
    PatternsAreDigits(f.year);
    PatternsAreDigits(f.hour);
    PatternsAreDigits(f.minute);
    assert |Lower(f.ampm)| == 2;
  }

  /** After the month an abbreviation cannot occur: the rest is digits, separators, whitespace and two letters. */
  lemma TailFree(f: Fields, g1: string, g2: string, pat: string)
    requires LetterFree(f, g1, g2) && IsAbbreviation(pat)
    ensures !Contains("/" + f.year, pat)
    ensures !Contains(g1 + (TimeWord(f) + (g2 + f.ampm)), pat)
  {
    assert pat[0] !in "/" + f.year;
    NotContainsChar("/" + f.year, pat, pat[0]);
    assert pat[0] !in g1 && pat[0] !in g2 && pat[0] !in TimeWord(f);
    ContainsKeep(g1, TimeWord(f) + (g2 + f.ampm), pat);
    ContainsKeep(TimeWord(f), g2 + f.ampm, pat);
    ContainsKeep(g2, f.ampm, pat);
  }

  /** An abbreviation occurs in a stamp exactly when it occurs in the month field. */
  lemma ContainsInStamp(f: Fields, g1: string, g2: string, pat: string)
    requires LetterFree(f, g1, g2) && IsAbbreviation(pat)
    ensures Contains(SpacedText(f, g1, g2), pat) <==> Contains(f.month, pat)
  {
    TailFree(f, g1, g2, pat);
    ContainsBreak(DateWord(f), g1 + (TimeWord(f) + (g2 + f.ampm)), pat);
    assert pat[0] !in f.day;
    ContainsKeep(f.day, "/" + (f.month + ("/" + f.year)), pat);
    ContainsSkip('/', f.month + ("/" + f.year), pat);
    ContainsBreak(f.month, "/" + f.year, pat);
  }

  /** Replacing an abbreviation in a stamp replaces it in the month field only. */
  lemma ReplaceInStamp(f: Fields, g1: string, g2: string, pat: string, rep: string)
    requires LetterFree(f, g1, g2) && IsAbbreviation(pat)
    ensures ReplaceAll(SpacedText(f, g1, g2), pat, rep)
      == SpacedText(f.(month := ReplaceAll(f.month, pat, rep)), g1, g2)
  {
    var tail := g1 + (TimeWord(f) + (g2 + f.ampm));
    TailFree(f, g1, g2, pat);
    ReplaceAbsent(tail, pat, rep);
    ReplaceAbsent("/" + f.year, pat, rep);
    ReplaceBreak(DateWord(f), tail, pat, rep);
    assert pat[0] !in f.day;
    ReplaceKeep(f.day, "/" + (f.month + ("/" + f.year)), pat, rep);
    ReplaceSkip('/', f.month + ("/" + f.year), pat, rep);
    ReplaceBreak(f.month, "/" + f.year, pat, rep);
  }

  /** The abbreviation looked for first in a stamp is the one looked for first in its month field. */
  lemma {:induction false} FirstSpanishInStamp(f: Fields, g1: string, g2: string, i: nat)
    requires LetterFree(f, g1, g2) && i <= |SpanishMonths|
    ensures FirstSpanishFrom(SpacedText(f, g1, g2), i) == FirstSpanishFrom(f.month, i)
    decreases |SpanishMonths| - i
  {
    if i < |SpanishMonths| {
      SpanishAbbreviations();
      ContainsInStamp(f, g1, g2, SpanishMonths[i].0);
      FirstSpanishInStamp(f, g1, g2, i + 1);
    }
  }

  /** Translating a stamp translates its month field and leaves the rest as it is. */
  lemma TranslateInStamp(f: Fields, g1: string, g2: string)
    requires LetterFree(f, g1, g2)
    ensures TranslateMonth(SpacedText(f, g1, g2)) == SpacedText(f.(month := TranslateMonth(f.month)), g1, g2)
  {
    FirstSpanishInStamp(f, g1, g2, 0);
    match FirstSpanishFrom(f.month, 0)
    case None =>
      assert f.(month := f.month) == f;
    case Some(k) =>
      SpanishAbbreviations();
      ReplaceInStamp(f, g1, g2, SpanishMonths[k].0, SpanishMonths[k].1);
  }

  /** A name that spells a month, in any case, is one word. */
  lemma MonthNameIsWord(name: string, m: int)
    requires 1 <= m <= 12 && Lower(name) == EnglishMonths[m - 1]
    ensures IsWord(name)
  {
    EnglishMonthsFacts();
    forall i | 0 <= i < |name| ensures !IsSpace(name[i]) {
      assert Lower(name)[i] == LowerChar(name[i]);
    }
  }

  /** Collapsing the whitespace of a stamp whose words are words gives the pattern's text. */
  lemma CollapseStamp(f: Fields, g1: string, g2: string)
    requires IsWord(DateWord(f)) && IsWord(TimeWord(f)) && IsWord(f.ampm) && IsBlank(g1) && IsBlank(g2)
    ensures Collapse(SpacedText(f, g1, g2)) == StampText(f)
  {
    CollapseThree(DateWord(f), g1, TimeWord(f), g2, f.ampm);
    StampWords(f);
  }

  /** The fields that match the patterns, and a month name that is one word, make three words. */
  lemma StampWordsAreWords(f: Fields)
    requires DayPattern(f.day) && YearPattern(f.year) && HourPattern(f.hour) && MinutePattern(f.minute)
    requires AmPmPattern(f.ampm) && IsWord(f.month)
    ensures IsWord(DateWord(f)) && IsWord(TimeWord(f)) && IsWord(f.ampm)
  {
    PatternsAreDigits(f.day);
    PatternsAreDigits(f.year);
    PatternsAreDigits(f.hour);
    PatternsAreDigits(f.minute);
    forall i | 0 <= i < |f.ampm| ensures !IsSpace(f.ampm[i]) {
      assert Lower(f.ampm)[i] == LowerChar(f.ampm[i]);
    }
  }

  /**
   * What `strptime` is given for a stamp surrounded by whitespace, with runs
   * of whitespace between its words: the pattern's text with the month
   * translated.
   */
  lemma NormalizeSpaced(lead: string, f: Fields, g1: string, g2: string, trail: string)
    requires LetterFree(f, g1, g2) && AllSpace(lead) && AllSpace(trail)
    requires IsWord(DateWord(f.(month := TranslateMonth(f.month)))) && IsWord(TimeWord(f)) && IsWord(f.ampm)
    requires IsWord(f.day)
    ensures Normalize(lead + (SpacedText(f, g1, g2) + trail)) == StampText(f.(month := TranslateMonth(f.month)))
  {
    var x := SpacedText(f, g1, g2);
    assert x[0] == f.day[0];
    assert x[|x| - 1] == f.ampm[|f.ampm| - 1];
    StripAround(lead, x, trail);
    TranslateInStamp(f, g1, g2);
    CollapseStamp(f.(month := TranslateMonth(f.month)), g1, g2);
  }

  /**
   * Completeness of the whole normalisation: a stamp surrounded by any
   * whitespace, with any runs of whitespace between its words, and whose
   * month name is English or becomes English once the Spanish
   * abbreviations are translated, gets the key of the pivoted year and that
   * month.
   */
  lemma MonthKeySpaced(lead: string, f: Fields, g1: string, g2: string, trail: string, m: int)
    requires DayPattern(f.day) && YearPattern(f.year) && HourPattern(f.hour) && MinutePattern(f.minute)
    requires AmPmPattern(f.ampm)
    requires AllSpace(lead) && IsBlank(g1) && IsBlank(g2) && AllSpace(trail)
    requires 1 <= m <= 12 && DigitsValue(f.day) <= DaysInMonth(Pivot(f.year), m)
    requires Lower(TranslateMonth(f.month)) == EnglishMonths[m - 1]
    ensures MonthKey(lead + (SpacedText(f, g1, g2) + trail)) == Success(MonthKeyOf(Pivot(f.year), m))
  {
    var f' := f.(month := TranslateMonth(f.month));
    PatternsLetterFree(f, g1, g2);
    MonthNameIsWord(f'.month, m);
    StampWordsAreWords(f');
    PatternsAreDigits(f.day);
    NormalizeSpaced(lead, f, g1, g2, trail);
    MonthKeyComplete(lead + (SpacedText(f, g1, g2) + trail), f', m);
  }

  /** The Spanish abbreviations are twelve different words; their translations spell the English months in order. */
  lemma SpanishMonthsFacts()
    ensures forall j, k :: 0 <= j < 12 && 0 <= k < 12 && SpanishMonths[j].0 == SpanishMonths[k].0 ==> j == k
    ensures forall k :: 0 <= k < 12 ==> Lower(SpanishMonths[k].1) == EnglishMonths[k]
  {
  }

  /** A Spanish abbreviation, alone, is found at its own place in the table. */
  lemma {:induction false} SpanishFirstFrom(k: nat, i: nat)
    requires i <= k < |SpanishMonths|
    ensures FirstSpanishFrom(SpanishMonths[k].0, i) == Some(k)
    decreases k - i
  {
    SpanishAbbreviations();
    SpanishMonthsFacts();
    ContainsSameLength(SpanishMonths[k].0, SpanishMonths[i].0);
    if i < k {
      SpanishFirstFrom(k, i + 1);
    }
  }

  /** A Spanish abbreviation alone translates to its English name. */
  lemma TranslateSpanish(k: nat)
    requires k < |SpanishMonths|
    ensures TranslateMonth(SpanishMonths[k].0) == SpanishMonths[k].1
  {
    var (es, en) := SpanishMonths[k];
    SpanishFirstFrom(k, 0);
    ReplaceAtFront(es, [], en);
    assert es + [] == es;
  }

  /**
   * The Spanish case of `MonthKeySpaced`: a stamp whose month is the
   * Spanish abbreviation number `k` in the table gets month `k + 1`.
   */
  lemma MonthKeySpanish(lead: string, f: Fields, g1: string, g2: string, trail: string, k: nat)
    requires DayPattern(f.day) && YearPattern(f.year) && HourPattern(f.hour) && MinutePattern(f.minute)
    requires AmPmPattern(f.ampm)
    requires AllSpace(lead) && IsBlank(g1) && IsBlank(g2) && AllSpace(trail)
    requires k < 12 && DigitsValue(f.day) <= DaysInMonth(Pivot(f.year), k + 1)
    requires f.month == SpanishMonths[k].0
    ensures MonthKey(lead + (SpacedText(f, g1, g2) + trail)) == Success(MonthKeyOf(Pivot(f.year), k + 1))
  {
    TranslateSpanish(k);
    SpanishMonthsFacts();
    MonthKeySpaced(lead, f, g1, g2, trail, k + 1);
  }

  // ---------------------------------------------------------------------
  // Particular shapes of input

  /** A string with none of the letters `e f m a j s c v d` holds no Spanish abbreviation. */
  lemma NoSpanishMonth(s: string)
    requires 'e' !in s && 'f' !in s && 'm' !in s && 'a' !in s && 'j' !in s
    requires 's' !in s && 'c' !in s && 'v' !in s && 'd' !in s
    ensures TranslateMonth(s) == s
  {
    NotContainsChar(s, "ene", 'e');
    NotContainsChar(s, "feb", 'f');
    NotContainsChar(s, "mar", 'm');
    NotContainsChar(s, "abr", 'a');
    NotContainsChar(s, "may", 'm');
    NotContainsChar(s, "jun", 'j');
    NotContainsChar(s, "jul", 'j');
    NotContainsChar(s, "ago", 'a');
    NotContainsChar(s, "sep", 's');
    NotContainsChar(s, "oct", 'c');
    NotContainsChar(s, "nov", 'v');
    NotContainsChar(s, "dic", 'd');
    assert forall j :: 0 <= j < |SpanishMonths| ==> !Contains(s, SpanishMonths[j].0);
  }

  /** One occurrence of `ene`, and no other `e`, is translated to `Jan`. */
  lemma TranslateEne(a: string, rest: string)
    requires 'e' !in a && 'e' !in rest
    ensures TranslateMonth(a + ("ene" + rest)) == a + ("Jan" + rest)
  {
    EneFirst(a, rest);
    EneReplaced(a, rest);
  }

  lemma EneFirst(a: string, rest: string)
    ensures FirstSpanishFrom(a + ("ene" + rest), 0) == Some(0)
  {
    var s := a + ("ene" + rest);
    assert s[|a|..|a| + 3] == "ene";
    ContainsAt(s, "ene", |a|);
  }

  lemma EneReplaced(a: string, rest: string)
    requires 'e' !in a && 'e' !in rest
    ensures ReplaceAll(a + ("ene" + rest), "ene", "Jan") == a + ("Jan" + rest)
  {
    NotContainsChar(rest, "ene", 'e');
    ReplaceAbsent(rest, "ene", "Jan");
    ReplaceAtFront("ene", rest, "Jan");
    ReplaceKeep(a, "ene" + rest, "ene", "Jan");
  }

  /** A text whose month field is not one of the twelve names does not parse. */
  lemma UnknownMonthFails(f: Fields)
    requires '/' !in f.day && '/' !in f.month && ' ' !in f.year && ':' !in f.hour && ' ' !in f.minute
    requires Lower(f.month) !in EnglishMonths
    ensures ParseStamp(StampText(f)) == None
  {
    SplitFieldsText(f);
  }

  /** A text without a `/` does not parse. */
  lemma NoSlashFails(t: string)
    requires '/' !in t
    ensures ParseStamp(t) == None
  {
  }
}
