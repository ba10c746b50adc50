/** The text of a time stamp: `datetime.now(UTC).isoformat()`.

    The job table stores stamps as text, and every ORDER BY, every `submitted_at >= ?` and the prune
    cutoff compare that text byte by byte.  Main result: for all years 1 to 9999 the order of the texts
    is the order of the instants, although the fraction is left out when it is zero. */
module Clock {
  import opened Common

  datatype Instant = Instant(year: nat, month: nat, day: nat, hour: nat, minute: nat, second: nat, micro: nat)

  // ---- the calendar --------------------------------------------------------------------------------

  predicate Leap(year: nat) { year % 4 == 0 && (year % 100 != 0 || year % 400 == 0) }

  function DaysIn(year: nat, month: nat): nat
  {
    if month == 2 then (if Leap(year) then 29 else 28)
    else if month == 4 || month == 6 || month == 9 || month == 11 then 30 else 31
  }

  predicate Valid(i: Instant)
  {
    && 1 <= i.year <= 9999 && 1 <= i.month <= 12 && 1 <= i.day <= DaysIn(i.year, i.month)
    && i.hour < 24 && i.minute < 60 && i.second < 60 && i.micro < 1000000
  }

  /** Leap days and all, the days of the years before this one. */
  function DaysBeforeYear(year: nat): int
  {
    (year - 1) * 365 + (year - 1) / 4 - (year - 1) / 100 + (year - 1) / 400
  }

  function DaysBeforeMonth(year: nat, month: nat): nat
    requires month >= 1
  {
    if month == 1 then 0 else DaysBeforeMonth(year, month - 1) + DaysIn(year, month - 1)
  }

  function Days(i: Instant): int
    requires i.month >= 1
  {
    DaysBeforeYear(i.year) + DaysBeforeMonth(i.year, i.month) + i.day
  }

  /** Microseconds on the time line; differences of these are the `timedelta`s of the program. */
  function Micros(i: Instant): int
    requires i.month >= 1
  {
    (((Days(i) * 24 + i.hour) * 60 + i.minute) * 60 + i.second) * 1000000 + i.micro
  }

  lemma {:induction false} MonthsGrow(year: nat, a: nat, b: nat)
    requires 1 <= a < b
    ensures DaysBeforeMonth(year, a) + DaysIn(year, a) <= DaysBeforeMonth(year, b)
  {
    if a + 1 < b { MonthsGrow(year, a, b - 1); }
  }

  lemma {:induction false} YearsGrow(a: nat, b: nat)
    requires 1 <= a < b
    ensures DaysBeforeYear(a) + DaysBeforeMonth(a, 13) <= DaysBeforeYear(b)
  {
    YearLength(b - 1);
    if a + 1 < b {
      YearsGrow(a, b - 1);
    }
  }

  lemma YearLength(year: nat)
    requires year >= 1
    ensures DaysBeforeMonth(year, 13) == if Leap(year) then 366 else 365
    ensures DaysBeforeYear(year + 1) == DaysBeforeYear(year) + DaysBeforeMonth(year, 13)
  {
    YearDays(year);
    Multiples(year, 4);
    Multiples(year, 100);
    Multiples(year, 400);
    Centuries(year);
  }

  lemma Centuries(year: nat)
    ensures year % 400 == 0 ==> year % 100 == 0
    ensures year % 100 == 0 ==> year % 4 == 0
  {
    if year % 400 == 0 { FourHundreds(year, year / 400); }
    if year % 100 == 0 { Hundreds(year, year / 100); }
  }

  lemma FourHundreds(year: nat, q: nat)
    requires year == 400 * q
    ensures year % 100 == 0
  {
    var k := 4 * q - year / 100;
    assert year % 100 == 100 * k;
  }

  lemma Hundreds(year: nat, q: nat)
    requires year == 100 * q
    ensures year % 4 == 0
  {
    var k := 25 * q - year / 4;
    assert year % 4 == 4 * k;
  }

  lemma YearDays(year: nat)
    ensures DaysBeforeMonth(year, 13) == if Leap(year) then 366 else 365
  {
    ThirdOfYear(year, 1);
    ThirdOfYear(year, 5);
    ThirdOfYear(year, 9);
  }

  lemma ThirdOfYear(year: nat, month: nat)
    requires month >= 1
    ensures DaysBeforeMonth(year, month + 4) == DaysBeforeMonth(year, month)
            + DaysIn(year, month) + DaysIn(year, month + 1) + DaysIn(year, month + 2) + DaysIn(year, month + 3)
  {
    assert DaysBeforeMonth(year, month + 2)
      == DaysBeforeMonth(year, month) + DaysIn(year, month) + DaysIn(year, month + 1);
  }

  lemma Multiples(year: nat, n: nat)
    requires year >= 1 && n in {4, 100, 400}
    ensures year / n == (year - 1) / n + if year % n == 0 then 1 else 0
  {
  }

  predicate EarlierDate(a: Instant, b: Instant)
  {
    a.year < b.year || (a.year == b.year && (a.month < b.month || (a.month == b.month && a.day < b.day)))
  }

  predicate EarlierTime(a: Instant, b: Instant)
  {
    a.hour < b.hour || (a.hour == b.hour && (a.minute < b.minute || (a.minute == b.minute
      && (a.second < b.second || (a.second == b.second && a.micro < b.micro)))))
  }

  predicate SameDate(a: Instant, b: Instant) { a.year == b.year && a.month == b.month && a.day == b.day }

  /** The fields compared one after the other, the year first. */
  predicate EarlierFields(a: Instant, b: Instant) { EarlierDate(a, b) || (SameDate(a, b) && EarlierTime(a, b)) }

  lemma LaterDateLaterDay(a: Instant, b: Instant)
    requires Valid(a) && Valid(b) && EarlierDate(a, b)
    ensures Days(a) < Days(b)
  {
    if a.year < b.year {
      YearsGrow(a.year, b.year);
      MonthsGrow(a.year, a.month, 13);
    } else if a.month < b.month {
      MonthsGrow(a.year, a.month, b.month);
    }
  }

  /** Comparing the fields in turn is comparing points on the time line. */
  lemma FieldsAreTime(a: Instant, b: Instant)
    requires Valid(a) && Valid(b)
    ensures Micros(a) < Micros(b) <==> EarlierFields(a, b)
  {
    if EarlierDate(a, b) { LaterDateLaterDay(a, b); }
    if EarlierDate(b, a) { LaterDateLaterDay(b, a); }
  }

  // ---- the text ------------------------------------------------------------------------------------

  function Digit(d: nat): char
    requires d < 10
  {
    ('0' as int + d) as char
  }

  function Pow10(width: nat): nat { if width == 0 then 1 else 10 * Pow10(width - 1) }

  /** Decimal, padded with zeros. */
  function Digits(n: nat, width: nat): (s: string)
    ensures |s| == width
  {
    if width == 0 then "" else Digits(n / 10, width - 1) + [Digit(n % 10)]
  }

  function Fraction(micro: nat): string { if micro == 0 then "" else "." + Digits(micro, 6) }

  function Iso(i: Instant): string
  {
    Digits(i.year, 4) + ("-" + (Digits(i.month, 2) + ("-" + (Digits(i.day, 2) + ("T" + IsoTime(i))))))
  }

  function IsoTime(i: Instant): string
  {
    Digits(i.hour, 2) + (":" + (Digits(i.minute, 2) + (":" + (Digits(i.second, 2) + Tail(i.micro)))))
  }

  function Tail(micro: nat): string { Fraction(micro) + "+00:00" }

  /** SQLite's BINARY collation, which is also Python's order on these strings. */
  predicate Less(a: string, b: string)
  {
    b != "" && (a == "" || a[0] < b[0] || (a[0] == b[0] && Less(a[1..], b[1..])))
  }

  lemma {:induction false} LessIsIrreflexive(a: string)
    ensures !Less(a, a)
  {
    if a != "" { LessIsIrreflexive(a[1..]); }
  }

  /** A part of fixed width decides the order unless it is the same in both. */
  lemma {:induction false} LessConcat(a: string, x: string, b: string, y: string)
    requires |a| == |b|
    ensures Less(a + x, b + y) <==> Less(a, b) || (a == b && Less(x, y))
  {
    if a == "" {
      assert a + x == x && b + y == y;
    } else {
      assert (a + x)[1..] == a[1..] + x && (b + y)[1..] == b[1..] + y;
      assert (a + x)[0] == a[0] && (b + y)[0] == b[0];
      LessConcat(a[1..], x, b[1..], y);
      assert a == b <==> a[0] == b[0] && a[1..] == b[1..];
    }
  }

  lemma {:induction false} DigitsOrder(n: nat, m: nat, width: nat)
    requires n < Pow10(width) && m < Pow10(width)
    ensures Less(Digits(n, width), Digits(m, width)) <==> n < m
    ensures Digits(n, width) == Digits(m, width) <==> n == m
  {
    if width > 0 {
      var a, b := Digits(n / 10, width - 1), Digits(m / 10, width - 1);
      var x, y := [Digit(n % 10)], [Digit(m % 10)];
      DigitsOrder(n / 10, m / 10, width - 1);
      LessConcat(a, x, b, y);
      assert Less(x, y) <==> n % 10 < m % 10;
      assert a + x == b + y <==> a == b && x == y by {
        assert (a + x)[..width - 1] == a && (b + y)[..width - 1] == b;
        assert (a + x)[width - 1] == x[0] && (b + y)[width - 1] == y[0];
      }
    }
  }

  /** One field of the text, the separator after it included in the rest. */
  lemma FieldOrder(n: nat, x: string, m: nat, y: string, width: nat)
    requires n < Pow10(width) && m < Pow10(width)
    ensures Less(Digits(n, width) + x, Digits(m, width) + y) <==> n < m || (n == m && Less(x, y))
  {
    LessConcat(Digits(n, width), x, Digits(m, width), y);
    DigitsOrder(n, m, width);
  }

  lemma SeparatorOrder(sep: string, x: string, y: string)
    requires |sep| == 1
    ensures Less(sep + x, sep + y) <==> Less(x, y)
  {
    LessConcat(sep, x, sep, y);
    LessIsIrreflexive(sep);
  }

  /** The fraction that is left out sorts first, because '+' sorts before '.'. */
  lemma TailOrder(a: nat, b: nat)
    requires a < 1000000 && b < 1000000
    ensures Less(Tail(a), Tail(b)) <==> a < b
  {
    assert Pow10(6) == 1000000 by { assert Pow10(3) == 1000; }
    if a == 0 && b == 0 {
      assert Tail(a) == "+00:00" && Tail(b) == "+00:00";
      LessIsIrreflexive("+00:00");
    } else if a > 0 && b > 0 {
      var x, y := Digits(a, 6) + "+00:00", Digits(b, 6) + "+00:00";
      assert Tail(a) == "." + x && Tail(b) == "." + y;
      SeparatorOrder(".", x, y);
      FieldOrder(a, "+00:00", b, "+00:00", 6);
      LessIsIrreflexive("+00:00");
    } else if a == 0 {
      assert Tail(a)[0] == '+' && Tail(b)[0] == '.';
    } else {
      assert Tail(a)[0] == '.' && Tail(b)[0] == '+';
    }
  }

  lemma TimeOrder(a: Instant, b: Instant)
    requires Valid(a) && Valid(b)
    ensures Less(IsoTime(a), IsoTime(b)) <==> EarlierTime(a, b)
  {
    assert Pow10(2) == 100;
    var atSec, btSec := Digits(a.second, 2) + Tail(a.micro), Digits(b.second, 2) + Tail(b.micro);
    TailOrder(a.micro, b.micro);
    FieldOrder(a.second, Tail(a.micro), b.second, Tail(b.micro), 2);
    SeparatorOrder(":", atSec, btSec);
    var am, bm := Digits(a.minute, 2) + (":" + atSec), Digits(b.minute, 2) + (":" + btSec);
    FieldOrder(a.minute, ":" + atSec, b.minute, ":" + btSec, 2);
    SeparatorOrder(":", am, bm);
    FieldOrder(a.hour, ":" + am, b.hour, ":" + bm, 2);
  }

  lemma TextOrder(a: Instant, b: Instant)
    requires Valid(a) && Valid(b)
    ensures Less(Iso(a), Iso(b)) <==> EarlierFields(a, b)
  {
    assert Pow10(2) == 100;
    assert Pow10(4) == 10000 by { assert Pow10(3) == 1000; }
    TimeOrder(a, b);
    SeparatorOrder("T", IsoTime(a), IsoTime(b));
    var ad, bd := Digits(a.day, 2) + ("T" + IsoTime(a)), Digits(b.day, 2) + ("T" + IsoTime(b));
    FieldOrder(a.day, "T" + IsoTime(a), b.day, "T" + IsoTime(b), 2);
    SeparatorOrder("-", ad, bd);
    var am, bm := Digits(a.month, 2) + ("-" + ad), Digits(b.month, 2) + ("-" + bd);
    FieldOrder(a.month, "-" + ad, b.month, "-" + bd, 2);
    SeparatorOrder("-", am, bm);
    FieldOrder(a.year, "-" + am, b.year, "-" + bm, 4);
  }

  /** The stored texts sort exactly as the instants do, and two instants share a text only if they are one. */
  lemma TextOrderIsTimeOrder(a: Instant, b: Instant)
    requires Valid(a) && Valid(b)
    ensures Less(Iso(a), Iso(b)) <==> Micros(a) < Micros(b)
    ensures Iso(a) == Iso(b) <==> Micros(a) == Micros(b)
    ensures Micros(a) == Micros(b) <==> a == b
  {
    TextOrder(a, b);
    TextOrder(b, a);
    FieldsAreTime(a, b);
    FieldsAreTime(b, a);
    LessIsIrreflexive(Iso(a));
    assert EarlierFields(a, b) || EarlierFields(b, a) || a == b;
  }

  // ---- every stamp has a text ----------------------------------------------------------------------

  const MICROS_A_DAY := 86400000000

  function DateOf(year: nat, month: nat, day: nat): Instant { Instant(year, month, day, 0, 0, 0, 0) }

  /** Day after day from the first of January of year 1, no day number is left out. */
  lemma {:induction false} EveryDayHasDate(d: nat) returns (i: Instant)
    requires 1 <= d <= DaysBeforeYear(10000)
    ensures Valid(i) && Days(i) == d && i == DateOf(i.year, i.month, i.day)
  {
    if d == 1 {
      i := DateOf(1, 1, 1);
    } else {
      var p := EveryDayHasDate(d - 1);
      if p.day < DaysIn(p.year, p.month) {
        i := DateOf(p.year, p.month, p.day + 1);
      } else if p.month < 12 {
        i := DateOf(p.year, p.month + 1, 1);
      } else {
        YearLength(p.year);
        LastYear(p.year, d);
        i := DateOf(p.year + 1, 1, 1);
      }
    }
  }

  lemma LastYear(year: nat, d: nat)
    requires 1 <= year <= 9999 && d <= DaysBeforeYear(10000)
    requires d == DaysBeforeYear(year + 1) + 1
    ensures year < 9999
  {
  }

  lemma TimeOfDay(date: Instant, rest: nat) returns (i: Instant)
    requires Valid(date) && date == DateOf(date.year, date.month, date.day) && rest < MICROS_A_DAY
    ensures Valid(i) && Micros(i) == Days(date) * MICROS_A_DAY + rest
  {
    var s, m := rest / 1000000, rest / 60000000;
    i := Instant(date.year, date.month, date.day, m / 60, m % 60, s % 60, rest % 1000000);
    assert m == s / 60;
    assert Days(i) == Days(date);
  }

  /** Every stamp of the years 1 to 9999 is the time of one instant, and so has one text; in the order of
      these texts the database compares stamps as the daemon's steps do. */
  lemma EveryStampHasText(stamp: Stamp) returns (i: Instant)
    requires MICROS_A_DAY <= stamp < (DaysBeforeYear(10000) + 1) * MICROS_A_DAY
    ensures Valid(i) && Micros(i) == stamp
    ensures forall j :: Valid(j) && Micros(j) == stamp ==> j == i
  {
    var d, rest := stamp / MICROS_A_DAY, stamp % MICROS_A_DAY;
    var date := EveryDayHasDate(d);
    i := TimeOfDay(date, rest);
    forall j | Valid(j) && Micros(j) == stamp ensures j == i { TextOrderIsTimeOrder(j, i); }
  }
}
