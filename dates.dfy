/** Calendar dates as the rollup handles them: Python `date` values, which
    are day counts in the proleptic Gregorian calendar (`date.toordinal()`,
    0001-01-01 is day 1), so `date + timedelta(days=n)` is `d + n` and date
    comparison is integer comparison. The civil conversion below gives
    `date.year` and `strftime('%Y%m%d')`. */
module Dates {
  import opened Digits

  type Date = int

  datatype Civil = Civil(year: int, month: int, day: int)

  predicate IsLeap(y: int) {
    y % 4 == 0 && (y % 100 != 0 || y % 400 == 0)
  }

  function DaysInYear(y: int): nat {
    if IsLeap(y) then 366 else 365
  }

  function DaysInMonth(y: int, m: int): nat
    requires 1 <= m <= 12
  {
    if m == 2 then (if IsLeap(y) then 29 else 28)
    else if m == 4 || m == 6 || m == 9 || m == 11 then 30
    else 31
  }

  /** Days of year `y` that lie in the months before month `m`. */
  function DaysBeforeMonth(y: int, m: int): nat
    requires 1 <= m <= 13
  {
    if m == 1 then 0 else DaysBeforeMonth(y, m - 1) + DaysInMonth(y, m - 1)
  }

  predicate ValidCivil(c: Civil) {
    1 <= c.month <= 12 && 1 <= c.day <= DaysInMonth(c.year, c.month)
  }

  /** The Gregorian calendar repeats every 400 years, 146097 days. */
  const DaysPerEra := 146097

  /** Days from the first day of a 400-year era to the first day of its
      year `k` (counting the era's years from 0). */
  function DaysBeforeYearInEra(k: int): int
    requires 0 <= k <= 400
  {
    365 * k + k / 4 - k / 100 + k / 400
  }

  lemma LeapPeriodic(era: int, k: int)
    ensures IsLeap(400 * era + k) == IsLeap(k)
  {
    ShiftMod4(k, 100 * era);
    ShiftMod100(k, 4 * era);
    ShiftMod400(k, era);
  }

  /** Proof scaffolding for `LeapPeriodic`: adding whole multiples of the
      modulus leaves the remainder alone (for 4, 100 and 400). */
  lemma ShiftMod4(a: int, t: int)
    ensures (a + 4 * t) % 4 == a % 4
  {
    assert a + 4 * t == 4 * (a / 4 + t) + a % 4;
  }

  lemma ShiftMod100(a: int, t: int)
    ensures (a + 100 * t) % 100 == a % 100
  {
    assert a + 100 * t == 100 * (a / 100 + t) + a % 100;
  }

  lemma ShiftMod400(a: int, t: int)
    ensures (a + 400 * t) % 400 == a % 400
  {
    assert a + 400 * t == 400 * (a / 400 + t) + a % 400;
  }

  lemma YearInEraStep(k: int)
    requires 0 <= k < 400
    ensures DaysBeforeYearInEra(k + 1) == DaysBeforeYearInEra(k) + DaysInYear(k + 1)
  {
    var y := k + 1;
    if y % 4 != 0 {
      assert y / 4 == k / 4 && y / 100 == k / 100 && y / 400 == k / 400;
    } else if y % 100 != 0 {
      assert y / 4 == k / 4 + 1 && y / 100 == k / 100 && y / 400 == k / 400;
    } else if y % 400 != 0 {
      assert y / 4 == k / 4 + 1 && y / 100 == k / 100 + 1 && y / 400 == k / 400;
    } else {
      assert y / 4 == k / 4 + 1 && y / 100 == k / 100 + 1 && y / 400 == k / 400 + 1;
    }
  }

  lemma MonthsMakeYear(y: int)
    ensures DaysBeforeMonth(y, 13) == DaysInYear(y)
  {
    var leap := if IsLeap(y) then 1 else 0;
    assert DaysBeforeMonth(y, 2) == 31;
    assert DaysBeforeMonth(y, 3) == 59 + leap;
    assert DaysBeforeMonth(y, 4) == 90 + leap;
    assert DaysBeforeMonth(y, 5) == 120 + leap;
    assert DaysBeforeMonth(y, 6) == 151 + leap;
    assert DaysBeforeMonth(y, 7) == 181 + leap;
    assert DaysBeforeMonth(y, 8) == 212 + leap;
    assert DaysBeforeMonth(y, 9) == 243 + leap;
    assert DaysBeforeMonth(y, 10) == 273 + leap;
    assert DaysBeforeMonth(y, 11) == 304 + leap;
    assert DaysBeforeMonth(y, 12) == 334 + leap;
  }

  /** The year of the era that holds its day `r`, searched from year `k`. */
  function YearInEra(r: int, k: int): (j: int)
    requires 0 <= k < 400 && DaysBeforeYearInEra(k) <= r < DaysPerEra
    ensures k <= j < 400
    ensures DaysBeforeYearInEra(j) <= r < DaysBeforeYearInEra(j + 1)
    decreases 400 - k
  {
    if r < DaysBeforeYearInEra(k + 1) then k else YearInEra(r, k + 1)
  }

  /** The month of year `y` that holds its day `doy` (0-based), searched
      from month `m`. */
  function MonthOf(y: int, doy: int, m: int): (r: int)
    requires 1 <= m <= 12 && DaysBeforeMonth(y, m) <= doy < DaysBeforeMonth(y, 13)
    ensures m <= r <= 12
    ensures DaysBeforeMonth(y, r) <= doy < DaysBeforeMonth(y, r + 1)
    decreases 12 - m
  {
    if doy < DaysBeforeMonth(y, m + 1) then m else MonthOf(y, doy, m + 1)
  }

  /** The calendar date of day number `n` (`date.fromordinal(n)`). */
  function CivilOf(n: Date): (c: Civil)
    ensures ValidCivil(c)
  {
    var era := (n - 1) / DaysPerEra;
    var r := (n - 1) % DaysPerEra;
    var k := YearInEra(r, 0);
    var y := 400 * era + k + 1;
    var doy := r - DaysBeforeYearInEra(k);
    LeapPeriodic(era, k + 1);
    YearInEraStep(k);
    MonthsMakeYear(y);
    var m := MonthOf(y, doy, 1);
    Civil(y, m, doy - DaysBeforeMonth(y, m) + 1)
  }

  /** The day number of a calendar date (`date.toordinal()`). */
  function OrdinalOf(c: Civil): Date
    requires ValidCivil(c)
  {
    var era := (c.year - 1) / 400;
    var k := (c.year - 1) % 400;
    DaysPerEra * era + DaysBeforeYearInEra(k) + DaysBeforeMonth(c.year, c.month) + c.day
  }

  /** Converting a day number to its calendar date and back is the
      identity, so every day has its own calendar date. */
  lemma OrdinalOfCivilOf(n: Date)
    ensures OrdinalOf(CivilOf(n)) == n
  {
    var era := (n - 1) / DaysPerEra;
    var r := (n - 1) % DaysPerEra;
    var k := YearInEra(r, 0);
    var c := CivilOf(n);
    assert c.year - 1 == 400 * era + k;
    assert (c.year - 1) / 400 == era && (c.year - 1) % 400 == k;
  }

  lemma CivilOfInjective(a: Date, b: Date)
    requires CivilOf(a) == CivilOf(b)
    ensures a == b
  {
    OrdinalOfCivilOf(a);
    OrdinalOfCivilOf(b);
  }

  function Year(d: Date): int {
    CivilOf(d).year
  }

  /** The year as `%Y` prints it: at least four digits. Years before 1
      do not occur in Python; they are given a leading '-'. */
  function YearText(y: int): (s: string)
    ensures |s| >= 4
  {
    if y >= 0 then Padded(y, 4) else "-" + Padded(-y, 4)
  }

  /** `d.strftime('%Y%m%d')`, the compact date in shard names and paths. */
  function Compact(d: Date): (s: string)
    ensures |s| >= 8
  {
    var c := CivilOf(d);
    YearText(c.year) + Padded(c.month, 2) + Padded(c.day, 2)
  }

  lemma YearTextInjective(a: int, b: int)
    requires YearText(a) == YearText(b)
    ensures a == b
  {
    var sa, sb := YearText(a), YearText(b);
    assert a >= 0 <==> IsDigit(sa[0]);
    assert b >= 0 <==> IsDigit(sb[0]);
    if a >= 0 {
      PaddedInjective(a, b, 4);
    } else {
      assert YearText(a)[1..] == Padded(-a, 4);
      assert YearText(b)[1..] == Padded(-b, 4);
      PaddedInjective(-a, -b, 4);
    }
  }

  /** Two days with the same compact rendering are the same day: shard
      names and artifact paths built from distinct dates never collide. */
  lemma CompactInjective(a: Date, b: Date)
    requires Compact(a) == Compact(b)
    ensures a == b
  {
    var ca, cb := CivilOf(a), CivilOf(b);
    assert Pow10(2) == 100;
    PaddedWidth(ca.month, 2);
    PaddedWidth(ca.day, 2);
    PaddedWidth(cb.month, 2);
    PaddedWidth(cb.day, 2);
    var s := Compact(a);
    var n := |s|;
    assert YearText(ca.year) == s[..n - 4] == YearText(cb.year);
    assert Padded(ca.month, 2) == s[n - 4..n - 2] == Padded(cb.month, 2);
    assert Padded(ca.day, 2) == s[n - 2..] == Padded(cb.day, 2);
    YearTextInjective(ca.year, cb.year);
    PaddedInjective(ca.month, cb.month, 2);
    PaddedInjective(ca.day, cb.day, 2);
    CivilOfInjective(a, b);
  }

  /** Within Python's four-digit years the compact date is exactly
      YYYYMMDD. */
  lemma CompactLength(d: Date)
    requires 1 <= Year(d) <= 9999
    ensures |Compact(d)| == 8 && AllDigits(Compact(d))
  {
    var c := CivilOf(d);
    assert Pow10(4) == 10000 && Pow10(2) == 100;
    PaddedWidth(c.year, 4);
    PaddedWidth(c.month, 2);
    PaddedWidth(c.day, 2);
  }
}
