/** Python's naive datetime values as the routes use them: validity, comparison, subtraction
    (through the proleptic Gregorian ordinal), isoformat() and strftime("%Y-%m-%d"), and the two
    strptime formats the chart route applies to the upstream's date keys. */
module Calendar {
  import opened Outcomes
  import Text

  datatype Date = Date(year: int, month: int, day: int)

  datatype DateTime = DateTime(year: int, month: int, day: int,
                               hour: int, minute: int, second: int, micro: int)

  predicate IsLeap(y: int)
  {
    y % 4 == 0 && (y % 100 != 0 || y % 400 == 0)
  }

  function DaysInMonth(y: int, m: int): int
    requires 1 <= m <= 12
  {
    if m == 2 then (if IsLeap(y) then 29 else 28)
    else if m == 4 || m == 6 || m == 9 || m == 11 then 30
    else 31
  }

  /** What datetime.date accepts (MINYEAR = 1, MAXYEAR = 9999). */
  predicate ValidDate(d: Date)
    ensures ValidDate(d) ==> 1 <= d.day <= 31
    ensures 1 <= d.year <= 9999 && d.month == 2 && d.day == 29 ==> (ValidDate(d) <==> IsLeap(d.year))
    ensures d.month == 2 && d.day == 30 ==> !ValidDate(d)
    ensures d.month == 4 && d.day == 31 ==> !ValidDate(d)
  {
    1 <= d.year <= 9999 && 1 <= d.month <= 12 && 1 <= d.day <= DaysInMonth(d.year, d.month)
  }

  function DateOf(t: DateTime): Date
  {
    Date(t.year, t.month, t.day)
  }

  predicate ValidDateTime(t: DateTime)
  {
    ValidDate(DateOf(t)) && 0 <= t.hour < 24 && 0 <= t.minute < 60 && 0 <= t.second < 60 &&
    0 <= t.micro < 1000000
  }

  /** A datetime value Python can hold. */
  type Instant = t: DateTime | ValidDateTime(t) witness DateTime(1, 1, 1, 0, 0, 0, 0)

  /** date <= date, field by field as Python compares them. */
  predicate DateLeq(a: Date, b: Date)
  {
    a.year < b.year || (a.year == b.year && (a.month < b.month || (a.month == b.month && a.day <= b.day)))
  }

  /** Time of day in microseconds. */
  function DayMicros(t: DateTime): int
  {
    ((t.hour * 60 + t.minute) * 60 + t.second) * 1000000 + t.micro
  }

  /** datetime <= datetime: first the date, then the time of day. */
  predicate DateTimeLeq(a: DateTime, b: DateTime)
  {
    (DateLeq(DateOf(a), DateOf(b)) && DateOf(a) != DateOf(b)) ||
    (DateOf(a) == DateOf(b) && DayMicros(a) <= DayMicros(b))
  }

  function DaysBeforeYear(y: int): int
  {
    var p := y - 1;
    p * 365 + p / 4 - p / 100 + p / 400
  }

  function DaysBeforeMonth(y: int, m: int): int
    requires 1 <= m <= 12
  {
    var table := [0, 31, 59, 90, 120, 151, 181, 212, 243, 273, 304, 334];
    table[m - 1] + (if m > 2 && IsLeap(y) then 1 else 0)
  }

  /** date.toordinal(): 1 for 0001-01-01. */
  function Ordinal(d: Date): (r: int)
    requires 1 <= d.month <= 12
    ensures d == Date(1, 1, 1) ==> r == 1
    ensures d.year >= 1 && d.day >= 1 ==> r >= 1
  {
    DaysBeforeYear(d.year) + DaysBeforeMonth(d.year, d.month) + d.day
  }

  /** The instant in microseconds since 0001-01-01 00:00, so that `a - b` of two naive
      datetimes is Micros(a) - Micros(b) microseconds. */
  function Micros(t: DateTime): (r: int)
    requires 1 <= t.month <= 12
    ensures ValidDateTime(t) ==>
      Ordinal(DateOf(t)) * 86400000000 <= r < (Ordinal(DateOf(t)) + 1) * 86400000000
  {
    Ordinal(DateOf(t)) * 86400000000 + DayMicros(t)
  }

  /** A year has 365 days, 366 when it is a leap year. */
  lemma DaysBeforeYearStep(y: int)
    ensures DaysBeforeYear(y + 1) == DaysBeforeYear(y) + (if IsLeap(y) then 366 else 365)
  {
    QuotientStep4(y);
    QuotientStep100(y);
    QuotientStep400(y);
  }

  lemma QuotientStep4(y: int)
    ensures y / 4 - (y - 1) / 4 == if y % 4 == 0 then 1 else 0
  {
  }

  lemma QuotientStep100(y: int)
    ensures y / 100 - (y - 1) / 100 == if y % 100 == 0 then 1 else 0
  {
  }

  lemma QuotientStep400(y: int)
    ensures y / 400 - (y - 1) / 400 == if y % 400 == 0 then 1 else 0
  {
  }

  /** Each month starts the day after the previous one ends. */
  lemma DaysBeforeMonthStep(y: int, m: int)
    requires 1 <= m < 12
    ensures DaysBeforeMonth(y, m + 1) == DaysBeforeMonth(y, m) + DaysInMonth(y, m)
  {
  }

  lemma {:induction false} DaysBeforeYearGrows(a: int, b: int)
    requires a < b
    ensures DaysBeforeYear(a) + (if IsLeap(a) then 366 else 365) <= DaysBeforeYear(b)
    decreases b - a
  {
    DaysBeforeYearStep(a);
    if a + 1 < b {
      DaysBeforeYearGrows(a + 1, b);
    }
  }

  lemma {:induction false} DaysBeforeMonthGrows(y: int, a: int, b: int)
    requires 1 <= a < b <= 12
    ensures DaysBeforeMonth(y, a) + DaysInMonth(y, a) <= DaysBeforeMonth(y, b)
    decreases b - a
  {
    DaysBeforeMonthStep(y, a);
    if a + 1 < b {
      DaysBeforeMonthGrows(y, a + 1, b);
    }
  }

  /** date.toordinal() is strictly increasing: a date before another has a smaller ordinal. */
  lemma OrdinalIncreasing(a: Date, b: Date)
    requires ValidDate(a) && ValidDate(b) && DateLeq(a, b) && a != b
    ensures Ordinal(a) < Ordinal(b)
  {
    if a.year < b.year {
      DaysBeforeYearGrows(a.year, b.year);
      DaysBeforeMonthEnd(a.year, a.month);
    } else if a.month < b.month {
      DaysBeforeMonthGrows(a.year, a.month, b.month);
    }
  }

  /** No month ends after the year does. */
  lemma DaysBeforeMonthEnd(y: int, m: int)
    requires 1 <= m <= 12
    ensures DaysBeforeMonth(y, m) + DaysInMonth(y, m) <= (if IsLeap(y) then 366 else 365)
  {
  }

  /** `a <= b` on naive datetimes is the order of their microsecond counts, so `now - earlier`
      is negative exactly when `earlier` is later than `now`. */
  lemma MicrosOrder(a: Instant, b: Instant)
    ensures DateTimeLeq(a, b) <==> Micros(a) <= Micros(b)
  {
    if DateOf(a) != DateOf(b) {
      if DateLeq(DateOf(a), DateOf(b)) {
        OrdinalIncreasing(DateOf(a), DateOf(b));
      } else {
        OrdinalIncreasing(DateOf(b), DateOf(a));
      }
    }
  }

  /** `now - earlier < timedelta(minutes=minutes)`. */
  predicate WithinMinutes(now: DateTime, earlier: DateTime, minutes: nat)
    requires 1 <= now.month <= 12 && 1 <= earlier.month <= 12
  {
    Micros(now) - Micros(earlier) < minutes * 60000000
  }

  function DigitChar(n: int): char
    requires 0 <= n < 10
  {
    ('0' as int + n) as char
  }

  /** n written in decimal with exactly `width` digits (leading zeros; higher digits dropped). */
  function Digits(n: nat, width: nat): (r: string)
    ensures |r| == width
    ensures forall i :: 0 <= i < |r| ==> '0' <= r[i] <= '9'
  {
    if width == 0 then "" else Digits(n / 10, width - 1) + [DigitChar(n % 10)]
  }

  /** strftime("%Y-%m-%d") and date.isoformat(). */
  function DayText(d: Date): (r: string)
    requires ValidDate(d)
    ensures |r| == 10 && r[4] == '-' && r[7] == '-'
  {
    Digits(d.year, 4) + "-" + Digits(d.month, 2) + "-" + Digits(d.day, 2)
  }

  /** strftime("%H:%M:%S"). */
  function ClockText(t: DateTime): (r: string)
    requires ValidDateTime(t)
    ensures |r| == 8 && r[2] == ':' && r[5] == ':'
  {
    Digits(t.hour, 2) + ":" + Digits(t.minute, 2) + ":" + Digits(t.second, 2)
  }

  /** datetime.isoformat(): the microseconds appear only when they are not zero. */
  function IsoFormat(t: DateTime): (r: string)
    requires ValidDateTime(t)
    ensures |r| == (if t.micro == 0 then 19 else 26) && r[..10] == DayText(DateOf(t)) && r[10] == 'T'
  {
    DayText(DateOf(t)) + "T" + ClockText(t) + (if t.micro != 0 then "." + Digits(t.micro, 6) else "")
  }

  /** strftime("%Y-%m-%d %H:%M:%S"): the form of the upstream's intraday keys. */
  function MomentText(t: DateTime): (r: string)
    requires ValidDateTime(t)
    ensures |r| == 19 && r[..10] == DayText(DateOf(t)) && r[10] == ' '
  {
    DayText(DateOf(t)) + (" " + ClockText(t))
  }

  // ---- strptime ----------------------------------------------------------------------------
  // Python's strptime turns each directive into a regular expression whose alternatives are
  // tried in order, then insists that the whole string was consumed and that the fields make a
  // real date. Every two-character alternative comes before the one-character one, and what
  // follows a field never starts with a digit, so taking the first alternative that matches
  // here gives the same answer as the backtracking match.

  predicate IsDigit(c: char)
  {
    '0' <= c <= '9'
  }

  function DigitValue(c: char): int
    requires IsDigit(c)
  {
    c as int - '0' as int
  }

  /** A field's value and the index just past it. */
  datatype Field = Field(value: int, next: nat)

  predicate PairIn(s: string, i: nat, lo0: char, hi0: char, lo1: char, hi1: char)
  {
    i + 1 < |s| && lo0 <= s[i] <= hi0 && lo1 <= s[i + 1] <= hi1
  }

  function Two(s: string, i: nat): Field
    requires i + 1 < |s| && IsDigit(s[i]) && IsDigit(s[i + 1])
  {
    Field(10 * DigitValue(s[i]) + DigitValue(s[i + 1]), i + 2)
  }

  function One(s: string, i: nat): Field
    requires i < |s| && IsDigit(s[i])
  {
    Field(DigitValue(s[i]), i + 1)
  }

  /** %Y: \d\d\d\d */
  function YearField(s: string, i: nat): Option<Field>
  {
    if i + 3 < |s| && IsDigit(s[i]) && IsDigit(s[i + 1]) && IsDigit(s[i + 2]) && IsDigit(s[i + 3])
    then Some(Field(1000 * DigitValue(s[i]) + 100 * DigitValue(s[i + 1]) + 10 * DigitValue(s[i + 2]) + DigitValue(s[i + 3]), i + 4))
    else None
  }

  /** %m: 1[0-2]|0[1-9]|[1-9] */
  function MonthField(s: string, i: nat): Option<Field>
  {
    if PairIn(s, i, '1', '1', '0', '2') || PairIn(s, i, '0', '0', '1', '9') then Some(Two(s, i))
    else if i < |s| && '1' <= s[i] <= '9' then Some(One(s, i))
    else None
  }

  /** %d: 3[01]|[12]\d|0[1-9]|[1-9]| [1-9] */
  function DayField(s: string, i: nat): Option<Field>
  {
    if PairIn(s, i, '3', '3', '0', '1') || PairIn(s, i, '1', '2', '0', '9') || PairIn(s, i, '0', '0', '1', '9')
    then Some(Two(s, i))
    else if i < |s| && '1' <= s[i] <= '9' then Some(One(s, i))
    else if PairIn(s, i, ' ', ' ', '1', '9') then Some(Field(DigitValue(s[i + 1]), i + 2))
    else None
  }

  /** %H: 2[0-3]|[0-1]\d|\d */
  function HourField(s: string, i: nat): Option<Field>
  {
    if PairIn(s, i, '2', '2', '0', '3') || PairIn(s, i, '0', '1', '0', '9') then Some(Two(s, i))
    else if i < |s| && IsDigit(s[i]) then Some(One(s, i))
    else None
  }

  /** %M: [0-5]\d|\d */
  function MinuteField(s: string, i: nat): Option<Field>
  {
    if PairIn(s, i, '0', '5', '0', '9') then Some(Two(s, i))
    else if i < |s| && IsDigit(s[i]) then Some(One(s, i))
    else None
  }

  /** %S: 6[0-1]|[0-5]\d|\d */
  function SecondField(s: string, i: nat): Option<Field>
  {
    if PairIn(s, i, '6', '6', '0', '1') || PairIn(s, i, '0', '5', '0', '9') then Some(Two(s, i))
    else if i < |s| && IsDigit(s[i]) then Some(One(s, i))
    else None
  }

  predicate CharAt(s: string, i: nat, c: char)
  {
    i < |s| && s[i] == c
  }

  /** The index just past the run of whitespace that starts at i (a space in the format is \s+). */
  function SpaceRunEnd(s: string, i: nat): (j: nat)
    requires i <= |s|
    ensures i <= j <= |s|
    ensures forall k :: i <= k < j ==> Text.IsSpace(s[k])
    ensures j == |s| || !Text.IsSpace(s[j])
    decreases |s| - i
  {
    if i < |s| && Text.IsSpace(s[i]) then SpaceRunEnd(s, i + 1) else i
  }

  /** The "%Y-%m-%d" prefix of s: year, month, day and the index after the day. */
  function DatePrefix(s: string): Option<(Date, nat)>
  {
    match YearField(s, 0)
    case None => None
    case Some(y) =>
      if !CharAt(s, y.next, '-') then None else
      match MonthField(s, y.next + 1)
      case None => None
      case Some(m) =>
        if !CharAt(s, m.next, '-') then None else
        match DayField(s, m.next + 1)
        case None => None
        case Some(d) => Some((Date(y.value, m.value, d.value), d.next))
  }

  // ---- reading formatted dates back ----------------------------------------------------

  function Pow10(k: nat): nat
  {
    if k == 0 then 1 else 10 * Pow10(k - 1)
  }

  /** The number a string of decimal digits spells. */
  function DecimalValue(s: string): int
    requires forall i :: 0 <= i < |s| ==> IsDigit(s[i])
    decreases |s|
  {
    if s == [] then 0 else 10 * DecimalValue(s[..|s| - 1]) + DigitValue(s[|s| - 1])
  }

  /** A number with at most `width` digits is what its zero-padded text spells. */
  lemma {:induction false} DigitsValue(n: nat, width: nat)
    requires n < Pow10(width)
    ensures DecimalValue(Digits(n, width)) == n
    decreases width
  {
    if width > 0 {
      var s := Digits(n, width);
      assert s[..|s| - 1] == Digits(n / 10, width - 1);
      DigitsValue(n / 10, width - 1);
    }
  }

  /** The two digits of a number below 100, as the parsers read them. */
  lemma TwoDigits(n: nat)
    requires n < 100
    ensures var s := Digits(n, 2); 10 * DigitValue(s[0]) + DigitValue(s[1]) == n
  {
    var s := Digits(n, 2);
    assert Pow10(2) == 100;
    DigitsValue(n, 2);
    assert s[..1][..0] == [];
  }

  /** The four digits of a number below 10000, as the parsers read them. */
  lemma FourDigits(n: nat)
    requires n < 10000
    ensures var s := Digits(n, 4);
      1000 * DigitValue(s[0]) + 100 * DigitValue(s[1]) + 10 * DigitValue(s[2]) + DigitValue(s[3]) == n
  {
    var s := Digits(n, 4);
    assert Pow10(4) == 10000;
    DigitsValue(n, 4);
    assert s[..3][..2] == s[..2] && s[..2][..1] == s[..1] && s[..1][..0] == [];
    assert DecimalValue(s) == 10 * DecimalValue(s[..3]) + DigitValue(s[3]);
    assert DecimalValue(s[..3]) == 10 * DecimalValue(s[..2]) + DigitValue(s[2]);
    assert DecimalValue(s[..2]) == 10 * DecimalValue(s[..1]) + DigitValue(s[1]);
    assert DecimalValue(s[..1]) == DigitValue(s[0]);
  }

  // Each field parser reads the zero-padded text of a value in its range as that value.

  lemma YearAt(s: string, i: nat, y: int)
    requires 1 <= y <= 9999 && i + 4 <= |s|
    requires var t := Digits(y, 4); s[i] == t[0] && s[i + 1] == t[1] && s[i + 2] == t[2] && s[i + 3] == t[3]
    ensures YearField(s, i) == Some(Field(y, i + 4))
  {
    FourDigits(y);
  }

  lemma MonthAt(s: string, i: nat, m: int)
    requires 1 <= m <= 12 && i + 2 <= |s| && s[i] == Digits(m, 2)[0] && s[i + 1] == Digits(m, 2)[1]
    ensures MonthField(s, i) == Some(Field(m, i + 2))
  {
    TwoDigits(m);
  }

  lemma DayAt(s: string, i: nat, d: int)
    requires 1 <= d <= 31 && i + 2 <= |s| && s[i] == Digits(d, 2)[0] && s[i + 1] == Digits(d, 2)[1]
    ensures DayField(s, i) == Some(Field(d, i + 2))
  {
    TwoDigits(d);
  }

  lemma HourAt(s: string, i: nat, h: int)
    requires 0 <= h < 24 && i + 2 <= |s| && s[i] == Digits(h, 2)[0] && s[i + 1] == Digits(h, 2)[1]
    ensures HourField(s, i) == Some(Field(h, i + 2))
  {
    TwoDigits(h);
  }

  /** %M and %S read a zero-padded value below 60 alike. */
  lemma SixtyAt(s: string, i: nat, n: int)
    requires 0 <= n < 60 && i + 2 <= |s| && s[i] == Digits(n, 2)[0] && s[i + 1] == Digits(n, 2)[1]
    ensures MinuteField(s, i) == Some(Field(n, i + 2))
    ensures SecondField(s, i) == Some(Field(n, i + 2))
  {
    TwoDigits(n);
  }

  /** The "%Y-%m-%d" prefix of a text that starts with a formatted date is that date, read up to
      index 10 whatever follows. */
  lemma DatePrefixOf(d: Date, rest: string)
    requires ValidDate(d)
    ensures DatePrefix(DayText(d) + rest) == Some((d, 10))
  {
    var s := DayText(d) + rest;
    DateChars(d, rest);
    YearAt(s, 0, d.year);
    MonthAt(s, 5, d.month);
    DayAt(s, 8, d.day);
  }

  /** Where the digits and dashes of a formatted date sit. */
  lemma DateChars(d: Date, rest: string)
    requires ValidDate(d)
    ensures var s := DayText(d) + rest; var y := Digits(d.year, 4); var m := Digits(d.month, 2);
      var dd := Digits(d.day, 2);
      |s| == 10 + |rest| && s[0] == y[0] && s[1] == y[1] && s[2] == y[2] && s[3] == y[3] && s[4] == '-' &&
      s[5] == m[0] && s[6] == m[1] && s[7] == '-' && s[8] == dd[0] && s[9] == dd[1]
  {
    var y := Digits(d.year, 4);
    var m := Digits(d.month, 2);
    var dd := Digits(d.day, 2);
    assert DayText(d) == y + "-" + m + "-" + dd;
  }

  /** datetime.strptime(s, "%Y-%m-%d").date(), None where it raises ValueError. */
  function ParseDayKey(s: string): (r: Option<Date>)
    ensures r.Some? ==> ValidDate(r.value)
  {
    match DatePrefix(s)
    case None => None
    case Some(p) => if p.1 == |s| && ValidDate(p.0) then Some(p.0) else None
  }

  /** datetime.strptime(s, "%Y-%m-%d %H:%M:%S"), None where it raises ValueError. */
  function ParseMomentKey(s: string): (r: Option<DateTime>)
    ensures r.Some? ==> ValidDateTime(r.value) && r.value.micro == 0
  {
    match DatePrefix(s)
    case None => None
    case Some(p) =>
      if p.1 > |s| then None else
      var j := SpaceRunEnd(s, p.1);
      if j == p.1 then None else
      match HourField(s, j)
      case None => None
      case Some(h) =>
        if !CharAt(s, h.next, ':') then None else
        match MinuteField(s, h.next + 1)
        case None => None
        case Some(mi) =>
          if !CharAt(s, mi.next, ':') then None else
          match SecondField(s, mi.next + 1)
          case None => None
          case Some(sec) =>
            var t := DateTime(p.0.year, p.0.month, p.0.day, h.value, mi.value, sec.value, 0);
            if sec.next == |s| && ValidDateTime(t) then Some(t) else None
  }

  /** Every valid date, written as strftime("%Y-%m-%d") writes it, is read back as that date. */
  lemma ParseDayKeyRoundTrip(d: Date)
    requires ValidDate(d)
    ensures ParseDayKey(DayText(d)) == Some(d)
  {
    DatePrefixOf(d, "");
    assert DayText(d) + "" == DayText(d);
  }

  /** Every valid datetime without microseconds, written as "%Y-%m-%d %H:%M:%S", is read back as
      that datetime. */
  lemma ParseMomentKeyRoundTrip(t: Instant)
    requires t.micro == 0
    ensures ParseMomentKey(MomentText(t)) == Some(t)
  {
    var s := MomentText(t);
    DatePrefixOf(DateOf(t), " " + ClockText(t));
    ClockAt(s, t);
    MomentFields(s, t);
  }

  /** A text whose date and clock fields read as those of t, and that ends after the seconds, is
      read as t. */
  lemma MomentFields(s: string, t: Instant)
    requires t.micro == 0
    requires DatePrefix(s) == Some((DateOf(t), 10)) && |s| == 19 && SpaceRunEnd(s, 10) == 11
    requires HourField(s, 11) == Some(Field(t.hour, 13)) && CharAt(s, 13, ':')
    requires MinuteField(s, 14) == Some(Field(t.minute, 16)) && CharAt(s, 16, ':')
    requires SecondField(s, 17) == Some(Field(t.second, 19))
    ensures ParseMomentKey(s) == Some(t)
  {
  }

  /** Where the digits and colons of the clock sit in "%Y-%m-%d %H:%M:%S". */
  lemma ClockChars(s: string, t: Instant)
    requires s == MomentText(t)
    ensures var h := Digits(t.hour, 2); var mi := Digits(t.minute, 2); var sec := Digits(t.second, 2);
      s[10] == ' ' && s[11] == h[0] && s[12] == h[1] && s[13] == ':' && s[14] == mi[0] && s[15] == mi[1] &&
      s[16] == ':' && s[17] == sec[0] && s[18] == sec[1] && |s| == 19
  {
    var c := ClockText(t);
    var h := Digits(t.hour, 2);
    var mi := Digits(t.minute, 2);
    var sec := Digits(t.second, 2);
    assert c == h + ":" + mi + ":" + sec;
    assert c[0] == h[0] && c[1] == h[1] && c[3] == mi[0] && c[4] == mi[1] && c[6] == sec[0] && c[7] == sec[1];
    var rest := " " + c;
    assert forall k :: 0 <= k < 8 ==> s[11 + k] == c[k] by {
      assert s == DayText(DateOf(t)) + rest;
    }
  }

  /** The format's space consumes the one space before the hour. */
  lemma SpaceAt(s: string)
    requires |s| > 11 && s[10] == ' ' && '0' <= s[11] <= '9'
    ensures SpaceRunEnd(s, 10) == 11
  {
    assert !Text.IsSpace(s[11]);
  }

  /** After the date, " HH:MM:SS" is read as the clock of t, ending the text. */
  lemma ClockAt(s: string, t: Instant)
    requires s == MomentText(t)
    ensures SpaceRunEnd(s, 10) == 11
    ensures HourField(s, 11) == Some(Field(t.hour, 13)) && CharAt(s, 13, ':')
    ensures MinuteField(s, 14) == Some(Field(t.minute, 16)) && CharAt(s, 16, ':')
    ensures SecondField(s, 17) == Some(Field(t.second, 19)) && |s| == 19
  {
    ClockChars(s, t);
    SpaceAt(s);
    HourAt(s, 11, t.hour);
    SixtyAt(s, 14, t.minute);
    SixtyAt(s, 17, t.second);
  }
}
