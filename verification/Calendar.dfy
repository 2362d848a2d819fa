/**
Calendar arithmetic of internal/partition/maintainer.go. A month is an index,
12 * year + (month - 1); an instant is milliseconds since the Unix epoch, UTC.
*/
module Calendar {
  import opened Wrappers
  import opened Text

  type Month = int
  type Millis = int

  const DAY_MS: int := 86400000
  const EPOCH: Month := 12 * 1970
  const MONTHS: int := 120000     // months of the years 0 to 9999

  predicate IsLeap(year: int) {
    year % 4 == 0 && (year % 100 != 0 || year % 400 == 0)
  }

  /** Length of a month, by the leap year rule of Appendix C of RFC 3339. */
  function Length(month: int, leap: bool): (days: nat)
    ensures 28 <= days <= 31
  {
    if month == 2 then if leap then 29 else 28
    else if month in {4, 6, 9, 11} then 30
    else 31
  }

  function DaysIn(m: Month): (days: nat)
    ensures 28 <= days <= 31
  {
    Length(m % 12 + 1, IsLeap(m / 12))
  }

  /** Days from 1970-01-01 to the first of the month: the lengths of the months
      between, added up. */
  function FirstDay(m: Month): int
    decreases if m < EPOCH then EPOCH - m else m - EPOCH
  {
    if m == EPOCH then 0
    else if m > EPOCH then FirstDay(m - 1) + DaysIn(m - 1)
    else FirstDay(m + 1) - DaysIn(m)
  }

  /** time.Date(year, month, 1, 0, 0, 0, 0, time.UTC).UnixMilli() for a month index. */
  function StartMs(m: Month): Millis {
    FirstDay(m) * DAY_MS
  }

  lemma FirstDayStep(m: Month)
    ensures FirstDay(m + 1) == FirstDay(m) + DaysIn(m)
  {
  }

  lemma {:induction false} FirstDayGrows(a: Month, b: Month)
    requires a <= b
    ensures FirstDay(a) + 28 * (b - a) <= FirstDay(b)
    decreases b - a
  {
    if a < b {
      FirstDayStep(a);
      FirstDayGrows(a + 1, b);
    }
  }

  /** Adding up month lengths is the usual closed form for days, in which years start with
      March: 365 days each, a leap day in those divisible by 4 but not by 100 unless by 400,
      and 153 days for any five months in a row. */
  lemma {:induction false} DaysAreCivil(m: Month)
    ensures var y, k := (m - 2) / 12, (m - 2) % 12;
            FirstDay(m) == 365 * y + y / 4 - y / 100 + y / 400 + (153 * k + 2) / 5 - 719468
  {
    FirstDayIsCivil(m);
    hide FirstDay;
  }

  function Civil(m: Month): int {
    var y, k := (m - 2) / 12, (m - 2) % 12;
    365 * y + y / 4 - y / 100 + y / 400 + (153 * k + 2) / 5 - 719468
  }

  lemma {:induction false} FirstDayIsCivil(m: Month)
    ensures FirstDay(m) == Civil(m)
    decreases if m < EPOCH then EPOCH - m else m - EPOCH
  {
    EpochIsCivil();
    hide Civil, DaysIn;
    if m > EPOCH {
      FirstDayIsCivil(m - 1);
      CivilStep(m - 1);
    } else if m < EPOCH {
      FirstDayIsCivil(m + 1);
      CivilStep(m);
    }
  }

  lemma EpochIsCivil()
    ensures Civil(EPOCH) == 0
  {
  }

  lemma CivilStep(m: Month)
    ensures Civil(m + 1) == Civil(m) + DaysIn(m)
  {
    var y, k := (m - 2) / 12, (m - 2) % 12;
    FromMarch(m);
    if k < 11 {
      FiveMonths(k, IsLeap(m / 12));
    } else {
      LeapDay(y);
    }
    hide Length, IsLeap;
  }

  lemma FromMarch(m: Month)
    ensures var y, k := (m - 2) / 12, (m - 2) % 12;
            && m % 12 == (k + 2) % 12 && (k == 11 ==> m / 12 == y + 1)
            && (m - 1) / 12 == (if k == 11 then y + 1 else y) && (m - 1) % 12 == if k == 11 then 0 else k + 1
  {
  }

  lemma FiveMonths(k: int, leap: bool)
    requires 0 <= k < 11
    ensures (153 * (k + 1) + 2) / 5 - (153 * k + 2) / 5 == Length((k + 2) % 12 + 1, leap)
  {
    assert k in {0, 1, 2, 3, 4, 5, 6, 7, 8, 9, 10};
  }

  lemma LeapDay(y: int)
    ensures var z := y + 1;
            365 + (z / 4 - y / 4) - (z / 100 - y / 100) + (z / 400 - y / 400) == 337 + Length(2, IsLeap(z))
  {
    var z := y + 1;
    Divides(y, 4);
    Divides(y, 100);
    Divides(y, 400);
    assert z % 400 == 0 ==> z % 100 == 0;
    assert z % 100 == 0 ==> z % 4 == 0;
  }

  lemma Divides(y: int, n: nat)
    requires n == 4 || n == 100 || n == 400
    ensures (y + 1) / n - y / n == if (y + 1) % n == 0 then 1 else 0
  {
  }

  /** The month a day falls in, walking up from a month that starts no later. */
  function MonthOfDay(day: int, lo: Month, hi: Month): (m: Month)
    requires lo < hi && FirstDay(lo) <= day < FirstDay(hi)
    ensures FirstDay(m) <= day < FirstDay(m + 1)
    decreases hi - lo
  {
    if day < FirstDay(lo + 1) then lo else MonthOfDay(day, lo + 1, hi)
  }

  /** t.Year() and t.Month() of an instant in UTC. */
  function MonthOf(t: Millis): (m: Month)
    ensures StartMs(m) <= t < StartMs(m + 1)
  {
    var day := t / DAY_MS;
    var bound := if day < 0 then 1 - day else day + 1;
    FirstDayGrows(EPOCH - bound, EPOCH);
    FirstDayGrows(EPOCH, EPOCH + bound);
    MonthOfDay(day, EPOCH - bound, EPOCH + bound)
  }

  lemma StartsInOrder(a: Month, b: Month)
    ensures a < b <==> StartMs(a) < StartMs(b)
    ensures a < b ==> StartMs(a + 1) <= StartMs(b)
  {
    if a < b {
      FirstDayGrows(a, b);
      FirstDayGrows(a + 1, b);
    } else {
      FirstDayGrows(b, a);
    }
  }

  /** Every instant lies in exactly one month. */
  lemma MonthOfUnique(t: Millis, m: Month)
    requires StartMs(m) <= t < StartMs(m + 1)
    ensures m == MonthOf(t)
  {
    StartsInOrder(m, MonthOf(t));
    StartsInOrder(MonthOf(t), m);
  }

  lemma MonthOfMonotone(t: Millis, u: Millis)
    requires t <= u
    ensures MonthOf(t) <= MonthOf(u)
  {
    StartsInOrder(MonthOf(u), MonthOf(t));
  }

  // ---------- time.Date, monthStart, addMonths ----------

  /** The month time.Date(year, month, 1, ...) means: an out-of-range month carries
      into the year. */
  function Carried(year: int, month: int): Month {
    12 * (year + (month - 1) / 12) + (month - 1) % 12
  }

  function Year(m: Month): int { m / 12 }

  function MonthNumber(m: Month): int { m % 12 + 1 }

  lemma CarriedMoves(m: Month, n: int)
    ensures Carried(Year(m), MonthNumber(m) + n) == m + n
  {
  }

  function MonthStart(t: Millis): Millis {
    StartMs(Carried(Year(MonthOf(t)), MonthNumber(MonthOf(t))))
  }

  function AddMonths(t: Millis, n: int): Millis {
    StartMs(Carried(Year(MonthOf(t)), MonthNumber(MonthOf(t)) + n))
  }

  lemma MonthOfStart(m: Month)
    ensures MonthOf(StartMs(m)) == m
  {
    StartsInOrder(m, m + 1);
    MonthOfUnique(StartMs(m), m);
  }

  /** Adding months moves the month index by exactly n, across any number of year ends
      and in either direction. */
  lemma AddMonthsMoves(t: Millis, n: int)
    ensures AddMonths(t, n) == StartMs(MonthOf(t) + n)
    ensures MonthOf(AddMonths(t, n)) == MonthOf(t) + n
    ensures MonthStart(t) == StartMs(MonthOf(t))
  {
    hide FirstDay, DaysIn, StartMs, MonthOf, Carried, Year, MonthNumber;
    CarriedMoves(MonthOf(t), n);
    CarriedMoves(MonthOf(t), 0);
    MonthOfStart(MonthOf(t) + n);
  }

  // ---------- the "200601" layout ----------

  function Pad2(n: nat): string
    requires n < 100
  {
    [Digit(n / 10), Digit(n % 10)]
  }

  /** At least four digits; more from year 10000 on. */
  function Pad4(n: nat): string {
    if n < 10000 then Pad2(n / 100) + Pad2(n % 100) else Dec(n)
  }

  function FormatMonth(m: Month): string {
    (if m / 12 < 0 then "-" + Pad4(-(m / 12)) else Pad4(m / 12)) + Pad2(m % 12 + 1)
  }

  /** time.Parse("200601", s): six digits, the last two a month number. */
  function ParseMonth(s: string): Option<Month> {
    if |s| == 6 && AllDigits(s) then
      var year := 100 * Two(s, 0) + Two(s, 2);
      var month := Two(s, 4);
      if 1 <= month <= 12 then Some(12 * year + month - 1) else None
    else None
  }

  function Two(s: string, i: nat): nat
    requires i + 1 < |s| && AllDigits(s)
  {
    10 * DigitValue(s[i]) + DigitValue(s[i + 1])
  }

  lemma DigitRoundTrip(d: nat)
    requires d < 10
    ensures IsDigit(Digit(d)) && DigitValue(Digit(d)) == d
  {
  }

  lemma Pad2Reads(n: nat)
    requires n < 100
    ensures |Pad2(n)| == 2 && AllDigits(Pad2(n)) && 10 * DigitValue(Pad2(n)[0]) + DigitValue(Pad2(n)[1]) == n
  {
    DigitRoundTrip(n / 10);
    DigitRoundTrip(n % 10);
  }

  /** For the years 0 to 9999 the layout is six digits and parses back to its month. */
  lemma FormatParses(m: Month)
    requires 0 <= m < MONTHS
    ensures |FormatMonth(m)| == 6 && AllDigits(FormatMonth(m)) && ParseMonth(FormatMonth(m)) == Some(m)
  {
    var year := m / 12;
    Pad2Reads(year / 100);
    Pad2Reads(year % 100);
    Pad2Reads(m % 12 + 1);
    var s := FormatMonth(m);
    assert s == Pad2(year / 100) + Pad2(year % 100) + Pad2(m % 12 + 1);
    assert Two(s, 0) == year / 100 && Two(s, 2) == year % 100 && Two(s, 4) == m % 12 + 1;
  }

  lemma Pad2OfTwo(s: string, i: nat)
    requires i + 1 < |s| && AllDigits(s)
    ensures Two(s, i) < 100 && Pad2(Two(s, i)) == s[i..i + 2]
  {
    var n := Two(s, i);
    assert n / 10 == DigitValue(s[i]) && n % 10 == DigitValue(s[i + 1]);
  }

  /** And nothing else parses: a text that does is the layout of the month it names. */
  lemma ParseIsFormat(s: string)
    ensures match ParseMonth(s)
            case Some(m) => 0 <= m < MONTHS && FormatMonth(m) == s
            case None => true
  {
    match ParseMonth(s)
    case None =>
    case Some(m) =>
      Pad2OfTwo(s, 0);
      Pad2OfTwo(s, 2);
      Pad2OfTwo(s, 4);
      Split12(100 * Two(s, 0) + Two(s, 2), Two(s, 4) - 1);
      assert s == s[0..2] + s[2..4] + s[4..6];
      Joined(m, Two(s, 0), Two(s, 2), Two(s, 4));
  }

  lemma Split12(year: nat, month: nat)
    requires month < 12
    ensures (12 * year + month) / 12 == year && (12 * year + month) % 12 == month
  {
  }

  lemma Joined(m: Month, century: nat, year: nat, month: nat)
    requires century < 100 && year < 100 && 1 <= month <= 12
    requires m / 12 == 100 * century + year && m % 12 == month - 1
    ensures 0 <= m < MONTHS && FormatMonth(m) == Pad2(century) + Pad2(year) + Pad2(month)
  {
    assert (100 * century + year) / 100 == century && (100 * century + year) % 100 == year;
  }

  lemma FormatInjective(a: Month, b: Month)
    requires 0 <= a < MONTHS && 0 <= b < MONTHS && FormatMonth(a) == FormatMonth(b)
    ensures a == b
  {
    FormatParses(a);
    FormatParses(b);
  }
}
