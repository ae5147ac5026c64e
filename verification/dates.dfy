/** The part of Python's `datetime.date` the update scripts use: calendar
    validity, the `<` comparison, `date - timedelta(days=1)`, `isoformat()`
    and `fromisoformat()`. Dates are proleptic Gregorian, years 1 to 9999, and
    are written in the ISO 8601 calendar date complete representation,
    extended format `YYYY-MM-DD` (ISO 8601:2004 section 4.1.2.2). */
module Dates {
  import opened Wrappers
  import opened Text

  datatype Date = Date(year: int, month: int, day: int)

  const MinYear := 1
  const MaxYear := 9999

  predicate IsLeapYear(y: int)
  {
    y % 4 == 0 && (y % 100 != 0 || y % 400 == 0)
  }

  function DaysInMonth(y: int, m: int): (n: int)
    requires 1 <= m <= 12
    ensures 28 <= n <= 31
  {
    if m == 2 then (if IsLeapYear(y) then 29 else 28)
    else if m == 4 || m == 6 || m == 9 || m == 11 then 30
    else 31
  }

  /** The dates `datetime.date` can represent. */
  predicate Valid(d: Date)
  {
    MinYear <= d.year <= MaxYear && 1 <= d.month <= 12 &&
    1 <= d.day <= DaysInMonth(d.year, d.month)
  }

  /** Python's `a < b` on dates: chronological order. */
  predicate Before(a: Date, b: Date)
  {
    a.year < b.year ||
    (a.year == b.year && (a.month < b.month || (a.month == b.month && a.day < b.day)))
  }

  /** `d - timedelta(days=1)`; Python raises OverflowError below 0001-01-01,
      which is `None` here. */
  function Yesterday(d: Date): (r: Option<Date>)
    requires Valid(d)
    ensures r.None? <==> d == Date(MinYear, 1, 1)
    ensures r.Some? ==> Valid(r.value) && Before(r.value, d)
  {
    if d.day > 1 then Some(Date(d.year, d.month, d.day - 1))
    else if d.month > 1 then Some(Date(d.year, d.month - 1, DaysInMonth(d.year, d.month - 1)))
    else if d.year > MinYear then Some(Date(d.year - 1, 12, 31))
    else None
  }

  /** `d + timedelta(days=1)`, the inverse step; OverflowError after 9999-12-31. */
  function Tomorrow(d: Date): (r: Option<Date>)
    requires Valid(d)
    ensures r.None? <==> d == Date(MaxYear, 12, 31)
    ensures r.Some? ==> Valid(r.value) && Before(d, r.value)
  {
    if d.day < DaysInMonth(d.year, d.month) then Some(Date(d.year, d.month, d.day + 1))
    else if d.month < 12 then Some(Date(d.year, d.month + 1, 1))
    else if d.year < MaxYear then Some(Date(d.year + 1, 1, 1))
    else None
  }

  /** Yesterday is the immediate predecessor: the day after it is today, and
      no valid date lies strictly between the two. */
  lemma YesterdayIsPredecessor(d: Date, e: Date)
    requires Valid(d) && Valid(e) && Yesterday(d).Some?
    ensures Tomorrow(Yesterday(d).value) == Some(d)
    ensures !(Before(Yesterday(d).value, e) && Before(e, d))
  {
  }

  /** `d.isoformat()`: `YYYY-MM-DD` with zero-padded fields. */
  function IsoFormat(d: Date): (s: string)
    requires Valid(d)
    ensures |s| == 10 && s[4] == '-' && s[7] == '-'
  {
    Padded(d.year, 4) + "-" + Padded(d.month, 2) + "-" + Padded(d.day, 2)
  }

  /** `date.fromisoformat(s)` for the `YYYY-MM-DD` form; `None` where Python
      raises ValueError (wrong shape, non-digits, or no such calendar day). */
  function FromIsoFormat(s: string): (r: Option<Date>)
    ensures r.Some? ==> Valid(r.value)
  {
    if |s| == 10 && s[4] == '-' && s[7] == '-' &&
       AllDigits(s[..4]) && AllDigits(s[5..7]) && AllDigits(s[8..])
    then
      var d := Date(DigitsValue(s[..4]), DigitsValue(s[5..7]), DigitsValue(s[8..]));
      if Valid(d) then Some(d) else None
    else None
  }

  /** Parsing what `isoformat` wrote gives the date back. */
  lemma ParseIsoFormat(d: Date)
    requires Valid(d)
    ensures FromIsoFormat(IsoFormat(d)) == Some(d)
  {
    var s := IsoFormat(d);
    assert s[..4] == Padded(d.year, 4);
    assert s[5..7] == Padded(d.month, 2);
    assert s[8..] == Padded(d.day, 2);
  }

  /** Every string `fromisoformat` accepts is the `isoformat` of its date, so
      the text form and the date determine each other. */
  lemma FormatParsedIso(s: string)
    requires FromIsoFormat(s).Some?
    ensures IsoFormat(FromIsoFormat(s).value) == s
  {
    PaddedOfValue(s[..4]);
    PaddedOfValue(s[5..7]);
    PaddedOfValue(s[8..]);
    assert s == s[..4] + "-" + s[5..7] + "-" + s[8..];
  }
}
