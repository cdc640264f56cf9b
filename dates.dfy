/** Calendar days without a date library.

    The screens use date-fns (`getDay`, `startOfWeek`, `addDays`, `format`)
    on JavaScript `Date` values. Here a day is a natural number counted from
    0001-01-01 of the proleptic Gregorian calendar, which is a Monday, and a
    moment is a count of local milliseconds from that day's midnight. The
    calendar date of a day is defined by stepping forward one day at a time,
    a reference definition that keeps every fact about it elementary. */
module Dates {

  /** A calendar day: the number of days since 0001-01-01. */
  type Day = nat

  /** A moment in local time: milliseconds since 0001-01-01T00:00. */
  type Instant = nat

  const MsPerDay: nat := 86_400_000

  /** The local day a moment falls on (date-fns `startOfDay`). */
  function LocalDay(t: Instant): Day {
    t / MsPerDay
  }

  /** JavaScript's `Date.getDay`: 0 is Sunday, 1 Monday, ..., 6 Saturday. */
  function Weekday(d: Day): (w: nat)
    ensures w < 7
    ensures d % 7 == 0 ==> w == 1
  {
    (d + 1) % 7
  }

  datatype CivilDate = CivilDate(year: nat, month: nat, day: nat)

  predicate IsLeapYear(y: nat) {
    y % 4 == 0 && (y % 100 != 0 || y % 400 == 0)
  }

  function DaysInMonth(y: nat, m: nat): nat {
    if m == 2 then (if IsLeapYear(y) then 29 else 28)
    else if m == 4 || m == 6 || m == 9 || m == 11 then 30
    else 31
  }

  predicate ValidCivil(c: CivilDate) {
    1 <= c.year && 1 <= c.month <= 12 && 1 <= c.day <= DaysInMonth(c.year, c.month)
  }

  /** The calendar date that follows `c`. */
  function NextDay(c: CivilDate): CivilDate {
    if c.day < DaysInMonth(c.year, c.month) then c.(day := c.day + 1)
    else if c.month < 12 then CivilDate(c.year, c.month + 1, 1)
    else CivilDate(c.year + 1, 1, 1)
  }

  /** Chronological order of calendar dates. */
  predicate Earlier(a: CivilDate, b: CivilDate) {
    a.year < b.year
    || (a.year == b.year && (a.month < b.month || (a.month == b.month && a.day < b.day)))
  }

  /** The calendar date of day `d`. */
  function CivilOf(d: Day): (c: CivilDate)
    ensures ValidCivil(c)
  {
    if d == 0 then CivilDate(1, 1, 1) else NextDay(CivilOf(d - 1))
  }

  /** Later days have later calendar dates, so `CivilOf` is one-to-one. */
  lemma {:induction false} CivilOfIncreasing(a: Day, b: Day)
    requires a < b
    ensures Earlier(CivilOf(a), CivilOf(b))
  {
    if b > a + 1 {
      CivilOfIncreasing(a, b - 1);
    }
  }

  function DigitChar(n: nat): char
    requires n < 10
  {
    ('0' as int + n) as char
  }

  /** `n` in decimal, left-padded with zeros to at least `width` digits
      (the date-fns tokens `d`, `dd` and `yyyy`). */
  function Decimal(n: nat, width: nat): (s: string)
    ensures |s| >= 1 && |s| >= width
    ensures forall i :: 0 <= i < |s| ==> '0' <= s[i] <= '9'
    decreases n + width
  {
    if n < 10 && width <= 1 then [DigitChar(n)]
    else Decimal(n / 10, if width == 0 then 0 else width - 1) + [DigitChar(n % 10)]
  }

  /** Month and day numbers fill exactly two positions. */
  lemma TwoDigits(n: nat)
    requires n < 100
    ensures |Decimal(n, 2)| == 2
  {
    if n >= 10 {
      assert Decimal(n, 2) == Decimal(n / 10, 1) + [DigitChar(n % 10)];
    }
  }

  /** Different numbers never print the same at the same width. */
  lemma {:induction false} DecimalInjective(a: nat, b: nat, width: nat)
    requires Decimal(a, width) == Decimal(b, width)
    ensures a == b
    decreases a + width
  {
    var w' := if width == 0 then 0 else width - 1;
    var sa, sb := Decimal(a, width), Decimal(b, width);
    if a < 10 && width <= 1 {
      if !(b < 10 && width <= 1) {
        assert false;
      }
      assert sa[0] == sb[0];
    } else if b < 10 && width <= 1 {
      assert false;
    } else {
      assert sa == Decimal(a / 10, w') + [DigitChar(a % 10)];
      assert sb == Decimal(b / 10, w') + [DigitChar(b % 10)];
      assert sa[..|sa| - 1] == Decimal(a / 10, w');
      assert sb[..|sb| - 1] == Decimal(b / 10, w');
      DecimalInjective(a / 10, b / 10, w');
      assert sa[|sa| - 1] == sb[|sb| - 1];
    }
  }

  /** date-fns `format(date, 'yyyy-MM-dd')`: the ISO 8601 calendar date in
      extended format (ISO 8601:2004 section 4.1.2.2) for the years 1 to 9999. */
  function IsoDate(d: Day): (s: string)
    ensures |s| >= 10
  {
    var c := CivilOf(d);
    Decimal(c.year, 4) + "-" + Decimal(c.month, 2) + "-" + Decimal(c.day, 2)
  }

  /** date-fns `format(date, 'dd.MM.yyyy')`. */
  function DottedDate(d: Day): (s: string)
    ensures |s| >= 10
  {
    var c := CivilOf(d);
    Decimal(c.day, 2) + "." + Decimal(c.month, 2) + "." + Decimal(c.year, 4)
  }

  /** date-fns `format(date, 'd')`: the day of the month without padding. */
  function DayOfMonthText(d: Day): string {
    Decimal(CivilOf(d).day, 1)
  }

  /** Two days have the same ISO date string only if they are the same day. */
  lemma IsoDateInjective(a: Day, b: Day)
    requires IsoDate(a) == IsoDate(b)
    ensures a == b
  {
    var ca, cb := CivilOf(a), CivilOf(b);
    TwoDigits(ca.month); TwoDigits(ca.day);
    TwoDigits(cb.month); TwoDigits(cb.day);
    var s := IsoDate(a);
    var ya, yb := Decimal(ca.year, 4), Decimal(cb.year, 4);
    assert s == ya + "-" + Decimal(ca.month, 2) + "-" + Decimal(ca.day, 2);
    assert s == yb + "-" + Decimal(cb.month, 2) + "-" + Decimal(cb.day, 2);
    assert |ya| == |yb| == |s| - 6;
    assert s[..|s| - 6] == ya && s[..|s| - 6] == yb;
    assert s[|s| - 5..|s| - 3] == Decimal(ca.month, 2) == Decimal(cb.month, 2);
    assert s[|s| - 2..] == Decimal(ca.day, 2) == Decimal(cb.day, 2);
    DecimalInjective(ca.year, cb.year, 4);
    DecimalInjective(ca.month, cb.month, 2);
    DecimalInjective(ca.day, cb.day, 2);
    if a < b {
      CivilOfIncreasing(a, b);
    } else if b < a {
      CivilOfIncreasing(b, a);
    }
  }

  /** A dotted date with two-character day and month splits back into its
      three parts. */
  lemma DottedParts(d1: string, m1: string, y1: string, d2: string, m2: string, y2: string)
    requires |d1| == |d2| == 2 && |m1| == |m2| == 2
    requires d1 + "." + m1 + "." + y1 == d2 + "." + m2 + "." + y2
    ensures d1 == d2 && m1 == m2 && y1 == y2
  {
    var s1, s2 := d1 + "." + m1 + "." + y1, d2 + "." + m2 + "." + y2;
    assert s1[..2] == d1 && s2[..2] == d2;
    assert s1[3..5] == m1 && s2[3..5] == m2;
    assert s1[6..] == y1 && s2[6..] == y2;
  }

  /** Two days have the same dotted date string only if they are the same day. */
  lemma DottedDateInjective(a: Day, b: Day)
    requires DottedDate(a) == DottedDate(b)
    ensures a == b
  {
    var ca, cb := CivilOf(a), CivilOf(b);
    TwoDigits(ca.month); TwoDigits(ca.day);
    TwoDigits(cb.month); TwoDigits(cb.day);
    DottedParts(Decimal(ca.day, 2), Decimal(ca.month, 2), Decimal(ca.year, 4),
                Decimal(cb.day, 2), Decimal(cb.month, 2), Decimal(cb.year, 4));
    DecimalInjective(ca.year, cb.year, 4);
    DecimalInjective(ca.month, cb.month, 2);
    DecimalInjective(ca.day, cb.day, 2);
    if a < b {
      CivilOfIncreasing(a, b);
    } else if b < a {
      CivilOfIncreasing(b, a);
    }
  }
}
