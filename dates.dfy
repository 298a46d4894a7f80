/** Calendar days as Python's datetime.date holds them, the age computation
    the user record derives from a date of birth, and the strftime('%m-%d-%Y')
    rendering used by the dob and flightdate properties. */
module Dates {

  datatype Option<+T> = None | Some(value: T)

  /** A (year, month, day) triple; not every triple is a calendar day. */
  datatype Ymd = Ymd(year: int, month: int, day: int)

  /** datetime.MINYEAR and datetime.MAXYEAR */
  const MinYear := 1
  const MaxYear := 9999

  /** Gregorian leap years, as the proleptic calendar of datetime.date uses. */
  predicate IsLeapYear(y: int) {
    y % 4 == 0 && (y % 100 != 0 || y % 400 == 0)
  }

  function DaysInMonth(y: int, m: int): (n: int)
    requires 1 <= m <= 12
    ensures 28 <= n <= 31
    ensures n == 29 <==> m == 2 && IsLeapYear(y)
  {
    if m == 2 then (if IsLeapYear(y) then 29 else 28)
    else if m == 4 || m == 6 || m == 9 || m == 11 then 30
    else 31
  }

  predicate ValidDate(d: Ymd) {
    && MinYear <= d.year <= MaxYear
    && 1 <= d.month <= 12
    && 1 <= d.day <= DaysInMonth(d.year, d.month)
  }

  /** The values a datetime.date can take. */
  type Date = d: Ymd | ValidDate(d) witness Ymd(1, 1, 1)

  /** Python's tuple comparison (m1, d1) < (m2, d2). */
  predicate MonthDayBefore(m1: int, d1: int, m2: int, d2: int) {
    m1 < m2 || (m1 == m2 && d1 < d2)
  }

  /** Chronological order of triples: lexicographic on (year, month, day). */
  predicate OnOrBefore(a: Ymd, b: Ymd) {
    a.year < b.year || (a.year == b.year && !MonthDayBefore(b.month, b.day, a.month, a.day))
  }

  /** The n-th anniversary of a day, as a triple (29 February stays 29 February). */
  function Anniversary(d: Ymd, n: int): Ymd {
    Ymd(d.year + n, d.month, d.day)
  }

  /** Age in whole years on `today` of someone born on `dob`: the year difference,
      less one while this year's birthday is still ahead. Its meaning: the number of
      anniversaries of `dob` reached by `today`. */
  function Age(dob: Date, today: Date): (r: int)
    ensures OnOrBefore(Anniversary(dob, r), today)
    ensures !OnOrBefore(Anniversary(dob, r + 1), today)
  {
    today.year - dob.year - (if MonthDayBefore(today.month, today.day, dob.month, dob.day) then 1 else 0)
  }

  /** The one-year adjustment happens exactly when (month, day) of today comes
      before (month, day) of the birth date. */
  lemma AgeBirthdayAdjustment(dob: Date, today: Date)
    ensures Age(dob, today) == today.year - dob.year - 1
            <==> MonthDayBefore(today.month, today.day, dob.month, dob.day)
    ensures Age(dob, today) == today.year - dob.year
            <==> !MonthDayBefore(today.month, today.day, dob.month, dob.day)
  {
  }

  /** Age is the only count of anniversaries that brackets today. */
  lemma AgeIsUnique(dob: Date, today: Date, n: int)
    requires OnOrBefore(Anniversary(dob, n), today)
    requires !OnOrBefore(Anniversary(dob, n + 1), today)
    ensures n == Age(dob, today)
  {
  }

  /** Someone born on or before today has a non-negative age. */
  lemma AgeNonNegative(dob: Date, today: Date)
    requires OnOrBefore(dob, today)
    ensures Age(dob, today) >= 0
  {
  }

  /** On the birthday itself the age is the plain year difference. */
  lemma AgeOnBirthday(dob: Date, today: Date)
    requires today.month == dob.month && today.day == dob.day
    ensures Age(dob, today) == today.year - dob.year
  {
  }

  /** Age never decreases as time goes on. */
  lemma AgeMonotone(dob: Date, t1: Date, t2: Date)
    requires OnOrBefore(t1, t2)
    ensures Age(dob, t1) <= Age(dob, t2)
  {
  }

  // ---------------------------------------------------------------------
  // Decimal digits

  predicate IsDigit(c: char) {
    '0' <= c <= '9'
  }

  function DigitChar(k: int): (c: char)
    requires 0 <= k <= 9
    ensures IsDigit(c) && c as int - '0' as int == k
  {
    ('0' as int + k) as char
  }

  function DigitValue(c: char): int
    requires IsDigit(c)
  {
    c as int - '0' as int
  }

  function Pow10(k: nat): (p: nat)
    ensures p >= 1
  {
    if k == 0 then 1 else 10 * Pow10(k - 1)
  }

  lemma {:induction false} Pow10Monotone(j: nat, k: nat)
    requires j <= k
    ensures Pow10(j) <= Pow10(k)
  {
    if j < k {
      Pow10Monotone(j, k - 1);
    }
  }

  /** strftime's %m and %d: two digits, zero padded. */
  function TwoDigits(n: int): (s: string)
    requires 0 <= n < 100
    ensures |s| == 2 && IsDigit(s[0]) && IsDigit(s[1])
    ensures 10 * DigitValue(s[0]) + DigitValue(s[1]) == n
  {
    [DigitChar(n / 10), DigitChar(n % 10)]
  }

  /** A natural number in decimal with no leading zero (strftime's %Y under
      glibc, which does not pad years below 1000). */
  function Decimal(n: nat): (s: string)
    ensures |s| >= 1
    ensures forall i :: 0 <= i < |s| ==> IsDigit(s[i])
    ensures n < Pow10(|s|)
    ensures n >= 1 ==> Pow10(|s| - 1) <= n
  {
    if n < 10 then [DigitChar(n)] else Decimal(n / 10) + [DigitChar(n % 10)]
  }

  /** Years with four digits are rendered with exactly four characters. */
  lemma FourDigitYear(y: nat)
    requires y <= 9999
    ensures y >= 1000 ==> |Decimal(y)| == 4
  {
    var k := |Decimal(y)|;
    if y < 1000 {
    } else if k > 4 {
      Pow10Monotone(4, k - 1);
    } else if k < 4 {
      Pow10Monotone(k, 3);
    }
  }

  /** Reads back what Decimal writes; None on an empty or non-digit string. */
  function ParseDecimal(s: string): Option<nat>
  {
    if |s| == 0 || !IsDigit(s[|s| - 1]) then None
    else if |s| == 1 then Some(DigitValue(s[0]))
    else match ParseDecimal(s[..|s| - 1])
         case None => None
         case Some(v) => Some(10 * v + DigitValue(s[|s| - 1]))
  }

  lemma {:induction false} DecimalRoundTrip(n: nat)
    ensures ParseDecimal(Decimal(n)) == Some(n)
  {
    if n >= 10 {
      var s := Decimal(n);
      assert s[..|s| - 1] == Decimal(n / 10);
      DecimalRoundTrip(n / 10);
    }
  }

  function ParseTwoDigits(s: string): Option<int>
    requires |s| == 2
  {
    if IsDigit(s[0]) && IsDigit(s[1]) then Some(10 * DigitValue(s[0]) + DigitValue(s[1])) else None
  }

  /** strftime('%m-%d-%Y'): month and day with two digits, then the year, separated by '-'. */
  function FormatDate(d: Date): (s: string)
    ensures |s| >= 7 && s[2] == '-' && s[5] == '-'
    ensures s[..2] == TwoDigits(d.month) && s[3..5] == TwoDigits(d.day) && s[6..] == Decimal(d.year)
    ensures d.year >= 1000 ==> |s| == 10
  {
    FourDigitYear(d.year);
    TwoDigits(d.month) + "-" + TwoDigits(d.day) + "-" + Decimal(d.year)
  }

  /** The inverse of FormatDate: None unless `s` has the shape MM-DD-Y… of a calendar day. */
  function ParseDate(s: string): Option<Date>
  {
    if |s| < 7 || s[2] != '-' || s[5] != '-' then None
    else match (ParseTwoDigits(s[..2]), ParseTwoDigits(s[3..5]), ParseDecimal(s[6..]))
         case (Some(m), Some(dd), Some(y)) =>
           if ValidDate(Ymd(y, m, dd)) then Some(Ymd(y, m, dd)) else None
         case _ => None
  }

  /** The rendering loses nothing: the day can be read back from its text. */
  lemma FormatDateRoundTrip(d: Date)
    ensures ParseDate(FormatDate(d)) == Some(d)
  {
    var s := FormatDate(d);
    DecimalRoundTrip(d.year);
    assert ParseTwoDigits(s[..2]) == Some(d.month);
    assert ParseTwoDigits(s[3..5]) == Some(d.day);
  }

  /** Distinct days are rendered as distinct strings. */
  lemma FormatDateInjective(d1: Date, d2: Date)
    requires FormatDate(d1) == FormatDate(d2)
    ensures d1 == d2
  {
    FormatDateRoundTrip(d1);
    FormatDateRoundTrip(d2);
  }
}
