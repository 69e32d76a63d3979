/** The "YYYY-MM-DD HH:MM:SS" text in which the database keeps instants, and in which
    SQLite compares them as strings. Instants are nanoseconds, UTC, from the start of the
    year 0000 of the Gregorian calendar. */
module TimeText {
  import opened Wrappers

  const NANOS := 1_000_000_000

  /** Whole seconds of an instant. */
  function Seconds(t: int): int { t / NANOS }

  /** An instant with its fraction of a second cut off. */
  function Trunc(t: int): int { Seconds(t) * NANOS }

  // ---------------------------------------------------------------- decimal digits

  function DigitChar(d: nat): char
    requires d < 10
  {
    '0' + d as char
  }

  predicate IsDigit(c: char) { '0' <= c <= '9' }

  function Pow10(w: nat): nat { if w == 0 then 1 else 10 * Pow10(w - 1) }

  /** The last `w` decimal digits of `n`. */
  function Digits(n: nat, w: nat): (s: string)
    ensures |s| == w && forall i :: 0 <= i < w ==> IsDigit(s[i])
  {
    if w == 0 then "" else Digits(n / 10, w - 1) + [DigitChar(n % 10)]
  }

  predicate AllDigits(s: string) { forall i :: 0 <= i < |s| ==> IsDigit(s[i]) }

  function NumberOf(s: string): nat
    requires AllDigits(s)
  {
    if s == "" then 0 else 10 * NumberOf(s[..|s| - 1]) + (s[|s| - 1] - '0') as nat
  }

  lemma {:induction false} NumberOfDigits(n: nat, w: nat)
    requires n < Pow10(w)
    ensures NumberOf(Digits(n, w)) == n
  {
    if w > 0 {
      NumberOfDigits(n / 10, w - 1);
      assert Digits(n, w)[..w - 1] == Digits(n / 10, w - 1);
    }
  }

  lemma {:induction false} DigitsOfNumber(s: string)
    requires AllDigits(s)
    ensures NumberOf(s) < Pow10(|s|) && Digits(NumberOf(s), |s|) == s
  {
    if s != "" {
      DigitsOfNumber(s[..|s| - 1]);
      assert s == s[..|s| - 1] + [s[|s| - 1]];
    }
  }

  // ---------------------------------------------------------------- string order

  /** The byte order SQLite compares text in. */
  predicate Less(a: string, b: string) {
    if b == "" then false
    else if a == "" then true
    else a[0] < b[0] || (a[0] == b[0] && Less(a[1..], b[1..]))
  }

  lemma {:induction false} LessConcat(a: string, b: string, c: string, d: string)
    requires |a| == |b|
    ensures Less(a + c, b + d) <==> Less(a, b) || (a == b && Less(c, d))
  {
    if a == "" {
      assert a + c == c && b + d == d;
    } else {
      LessConcat(a[1..], b[1..], c, d);
      assert (a + c)[1..] == a[1..] + c && (b + d)[1..] == b[1..] + d;
      assert a == [a[0]] + a[1..] && b == [b[0]] + b[1..];
    }
  }

  lemma {:induction false} DigitsInjective(n: nat, m: nat, w: nat)
    requires n < Pow10(w) && m < Pow10(w)
    ensures Digits(n, w) == Digits(m, w) <==> n == m
  {
    NumberOfDigits(n, w);
    NumberOfDigits(m, w);
  }

  lemma {:induction false} DigitsOrder(n: nat, m: nat, w: nat)
    requires n < Pow10(w) && m < Pow10(w)
    ensures Less(Digits(n, w), Digits(m, w)) <==> n < m
  {
    if w > 0 {
      DigitsOrder(n / 10, m / 10, w - 1);
      DigitsInjective(n / 10, m / 10, w - 1);
      LessConcat(Digits(n / 10, w - 1), Digits(m / 10, w - 1), [DigitChar(n % 10)], [DigitChar(m % 10)]);
    }
  }

  // ---------------------------------------------------------------- the calendar

  datatype Civil = Civil(year: nat, month: nat, day: nat, hour: nat, minute: nat, second: nat)

  predicate Leap(y: nat) { y % 4 == 0 && (y % 100 != 0 || y % 400 == 0) }

  function MonthLen(y: nat, m: nat): nat {
    if m == 2 then (if Leap(y) then 29 else 28)
    else if m == 4 || m == 6 || m == 9 || m == 11 then 30
    else 31
  }

  /** Days of year `y` before its month `m`. */
  function MonthStart(y: nat, m: nat): nat
    requires 1 <= m
  {
    if m == 1 then 0 else MonthStart(y, m - 1) + MonthLen(y, m - 1)
  }

  function YearLen(y: nat): nat { if Leap(y) then 366 else 365 }

  /** Days before year `y`. */
  function YearStart(y: nat): nat { if y == 0 then 0 else YearStart(y - 1) + YearLen(y - 1) }

  predicate ValidCivil(c: Civil) {
    && c.year < 10000 && 1 <= c.month <= 12 && 1 <= c.day <= MonthLen(c.year, c.month)
    && c.hour < 24 && c.minute < 60 && c.second < 60
  }

  function DayNumber(c: Civil): nat
    requires ValidCivil(c)
  {
    YearStart(c.year) + MonthStart(c.year, c.month) + c.day - 1
  }

  function ToSeconds(c: Civil): nat
    requires ValidCivil(c)
  {
    DayNumber(c) * 86400 + c.hour * 3600 + c.minute * 60 + c.second
  }

  /** The days of the years 0000 to 9999: see TenThousandYears. */
  const DAYS: nat := 3_652_425

  /** Instants of the years 0000 to 9999. */
  predicate InRange(t: int) { 0 <= t < DAYS * 86400 * NANOS }

  ghost predicate Earlier(c: Civil, d: Civil) {
    || c.year < d.year
    || (c.year == d.year &&
        (|| c.month < d.month
         || (c.month == d.month &&
             (|| c.day < d.day
              || (c.day == d.day &&
                  (|| c.hour < d.hour
                   || (c.hour == d.hour &&
                       (|| c.minute < d.minute
                        || (c.minute == d.minute && c.second < d.second)))))))))
  }

  lemma YearLenIsMonths(y: nat)
    ensures MonthStart(y, 13) == YearLen(y)
  {
    assert MonthStart(y, 2) == MonthLen(y, 1);
    assert MonthStart(y, 3) == MonthLen(y, 1) + MonthLen(y, 2);
    assert MonthStart(y, 5) == MonthStart(y, 3) + MonthLen(y, 3) + MonthLen(y, 4);
    assert MonthStart(y, 7) == MonthStart(y, 5) + MonthLen(y, 5) + MonthLen(y, 6);
    assert MonthStart(y, 9) == MonthStart(y, 7) + MonthLen(y, 7) + MonthLen(y, 8);
    assert MonthStart(y, 11) == MonthStart(y, 9) + MonthLen(y, 9) + MonthLen(y, 10);
    assert MonthStart(y, 13) == MonthStart(y, 11) + MonthLen(y, 11) + MonthLen(y, 12);
  }

  lemma {:induction false} MonthStartMono(y: nat, m: nat, n: nat)
    requires 1 <= m < n
    ensures MonthStart(y, m) + MonthLen(y, m) <= MonthStart(y, n)
  {
    if m + 1 < n { MonthStartMono(y, m, n - 1); }
  }

  lemma {:induction false} YearStartMono(y: nat, z: nat)
    requires y < z
    ensures YearStart(y) + YearLen(y) <= YearStart(z)
  {
    if y + 1 < z { YearStartMono(y, z - 1); }
  }

  /** How many numbers below `y` are multiples of `k`. */
  function Multiples(y: nat, k: nat): nat
    requires k > 0
  {
    (y + k - 1) / k
  }

  /** 1 if `y` is a multiple of `k`. */
  function Hit(y: nat, k: nat): nat
    requires k > 0
  {
    if y % k == 0 then 1 else 0
  }

  /** Passing year `y` counts it among the multiples of `k` if it is one. */
  lemma CountMultiples(y: nat, k: nat)
    requires k == 4 || k == 100 || k == 400
    ensures Multiples(y + 1, k) == Multiples(y, k) + Hit(y, k)
  {
    if k == 4 {
      CountFours(y);
    } else if k == 100 {
      CountHundreds(y);
    } else {
      CountFourHundreds(y);
    }
    hide Multiples, Hit;
  }

  lemma NoMultiples()
    ensures Multiples(0, 4) == Multiples(0, 100) == Multiples(0, 400) == 0
  {}

  lemma CountFours(y: nat)
    ensures Multiples(y + 1, 4) == Multiples(y, 4) + Hit(y, 4)
  {
    assert y == y / 4 * 4 + y % 4;
  }

  lemma CountHundreds(y: nat)
    ensures Multiples(y + 1, 100) == Multiples(y, 100) + Hit(y, 100)
  {
    assert y == y / 100 * 100 + y % 100;
  }

  lemma CountFourHundreds(y: nat)
    ensures Multiples(y + 1, 400) == Multiples(y, 400) + Hit(y, 400)
  {
    assert y == y / 400 * 400 + y % 400;
  }

  lemma LeapByMultiples(y: nat)
    ensures YearLen(y) == 365 + Hit(y, 4) - Hit(y, 100) + Hit(y, 400)
  {
    DivisibleToo(y, 400, 100);
    DivisibleToo(y, 100, 4);
  }

  lemma DivisibleToo(y: nat, k: nat, d: nat)
    requires (k == 400 && d == 100) || (k == 100 && d == 4)
    ensures y % k == 0 ==> y % d == 0
  {
    var q := y / k;
    if y % k == 0 {
      if k == 400 { assert y == 100 * (4 * q); } else { assert y == 4 * (25 * q); }
    }
  }

  /** The leap years before `y`, counted at once. */
  lemma {:induction false} YearStartClosed(y: nat)
    ensures YearStart(y) == 365 * y + Multiples(y, 4) - Multiples(y, 100) + Multiples(y, 400)
  {
    hide Multiples, YearLen, Hit;
    if y == 0 {
      NoMultiples();
    } else {
      YearStartClosed(y - 1);
      CountMultiples(y - 1, 4);
      CountMultiples(y - 1, 100);
      CountMultiples(y - 1, 400);
      LeapByMultiples(y - 1);
    }
  }

  /** The days before each month of a common year. */
  const BEFORE_MONTH: seq<nat> := [0, 31, 59, 90, 120, 151, 181, 212, 243, 273, 304, 334]

  /** The days before a month: one more after the February of a leap year. */
  lemma MonthStartClosed(y: nat, m: nat)
    requires 1 <= m <= 12
    ensures MonthStart(y, m)
         == BEFORE_MONTH[m - 1] + (if m > 2 && y % 4 == 0 && (y % 100 != 0 || y % 400 == 0) then 1 else 0)
  {
    assert MonthStart(y, 1) == 0;
    assert MonthStart(y, 2) == 31;
    assert MonthStart(y, 3) == 31 + MonthLen(y, 2);
    assert MonthStart(y, 4) == 62 + MonthLen(y, 2);
    assert MonthStart(y, 5) == 92 + MonthLen(y, 2);
    assert MonthStart(y, 6) == 123 + MonthLen(y, 2);
    assert MonthStart(y, 7) == 153 + MonthLen(y, 2);
    assert MonthStart(y, 8) == 184 + MonthLen(y, 2);
    assert MonthStart(y, 9) == 215 + MonthLen(y, 2);
    assert MonthStart(y, 10) == 245 + MonthLen(y, 2);
    assert MonthStart(y, 11) == 276 + MonthLen(y, 2);
    assert MonthStart(y, 12) == 306 + MonthLen(y, 2);
    hide MonthStart;
  }

  /** Which second a calendar name stands for, in closed form. */
  lemma SecondsClosed(c: Civil)
    requires ValidCivil(c)
    ensures var leap := c.year % 4 == 0 && (c.year % 100 != 0 || c.year % 400 == 0);
            var days := 365 * c.year + (c.year + 3) / 4 - (c.year + 99) / 100 + (c.year + 399) / 400
                        + BEFORE_MONTH[c.month - 1] + (if c.month > 2 && leap then 1 else 0) + c.day - 1;
            ToSeconds(c) == ((days * 24 + c.hour) * 60 + c.minute) * 60 + c.second
  {
    YearStartClosed(c.year);
    MonthStartClosed(c.year, c.month);
    hide YearStart, MonthStart;
  }

  lemma TenThousandYears(y: nat)
    ensures y >= 10000 ==> DAYS <= YearStart(y)
    ensures y < 10000 ==> YearStart(y) + YearLen(y) <= DAYS
  {
    hide YearStart;
    YearStartClosed(10000);
    if y < 10000 {
      YearStartMono(y, 10000);
    } else if y > 10000 {
      YearStartMono(10000, y);
    }
  }

  /** A day lies within its month and its year. */
  lemma DayWithin(c: Civil)
    requires ValidCivil(c)
    ensures YearStart(c.year) <= DayNumber(c) < YearStart(c.year) + YearLen(c.year)
  {
    YearLenIsMonths(c.year);
    MonthStartMono(c.year, c.month, 13);
  }

  lemma DayOrder(c: Civil, d: Civil)
    requires ValidCivil(c) && ValidCivil(d)
    requires c.year < d.year || (c.year == d.year && (c.month < d.month || (c.month == d.month && c.day < d.day)))
    ensures DayNumber(c) < DayNumber(d)
  {
    DayWithin(c);
    DayWithin(d);
    if c.year < d.year {
      YearStartMono(c.year, d.year);
    } else if c.month < d.month {
      MonthStartMono(c.year, c.month, d.month);
    }
  }

  lemma EarlierIsSooner(c: Civil, d: Civil)
    requires ValidCivil(c) && ValidCivil(d) && Earlier(c, d)
    ensures ToSeconds(c) < ToSeconds(d)
  {
    if c.year == d.year && c.month == d.month && c.day == d.day {
      assert DayNumber(c) == DayNumber(d);
    } else {
      DayOrder(c, d);
    }
  }

  /** Calendar order is the order of seconds, and no second has two calendar names. */
  lemma CivilOrder(c: Civil, d: Civil)
    requires ValidCivil(c) && ValidCivil(d)
    ensures Earlier(c, d) <==> ToSeconds(c) < ToSeconds(d)
    ensures c == d <==> ToSeconds(c) == ToSeconds(d)
  {
    if Earlier(c, d) {
      EarlierIsSooner(c, d);
    } else if Earlier(d, c) {
      EarlierIsSooner(d, c);
    } else {
      assert c == d;
    }
  }

  // ---------------------------------------------------------------- naming a second

  /** The year, not before `y`, that holds the day. */
  function YearFrom(y: nat, day: nat): (r: nat)
    requires YearStart(y) <= day
    ensures YearStart(r) <= day < YearStart(r) + YearLen(r)
    decreases day - YearStart(y)
  {
    if day < YearStart(y + 1) then y else YearFrom(y + 1, day)
  }

  function MonthFrom(y: nat, m: nat, day: nat): (r: nat)
    requires 1 <= m <= 12 && MonthStart(y, m) <= day < MonthStart(y, 13)
    ensures 1 <= r <= 12 && MonthStart(y, r) <= day < MonthStart(y, r) + MonthLen(y, r)
    decreases 12 - m
  {
    if m == 12 || day < MonthStart(y, m + 1) then m else MonthFrom(y, m + 1, day)
  }

  function FromSeconds(n: nat): Civil {
    var day, rest := n / 86400, n % 86400;
    var y := YearFrom(0, day);
    var inYear := day - YearStart(y);
    YearLenIsMonths(y);
    var m := MonthFrom(y, 1, inYear);
    Civil(y, m, inYear - MonthStart(y, m) + 1, rest / 3600, rest / 60 % 60, rest % 60)
  }

  lemma FromSecondsNames(n: nat)
    requires n < DAYS * 86400
    ensures ValidCivil(FromSeconds(n)) && ToSeconds(FromSeconds(n)) == n
  {
    var day, rest := n / 86400, n % 86400;
    var c := FromSeconds(n);
    YearLenIsMonths(c.year);
    if c.year >= 10000 {
      TenThousandYears(c.year);
      assert false;
    }
    ClockNames(rest);
    assert DayNumber(c) == day;
    hide YearFrom, MonthFrom, YearStart, MonthStart, DayNumber;
    assert n == day * 86400 + rest;
  }

  /** Hour, minute and second name the second of the day. */
  lemma ClockNames(rest: nat)
    requires rest < 86400
    ensures rest / 3600 < 24 && rest / 60 % 60 < 60 && rest % 60 < 60
    ensures rest == rest / 3600 * 3600 + rest / 60 % 60 * 60 + rest % 60
  {
    var minutes := rest / 60;
    assert rest == minutes * 60 + rest % 60;
    assert minutes == minutes / 60 * 60 + minutes % 60;
    assert minutes / 60 == rest / 3600;
  }

  // ---------------------------------------------------------------- text

  function Text(c: Civil): string {
    Digits(c.year, 4) + ("-" + (Digits(c.month, 2) + ("-" + (Digits(c.day, 2) + (" " +
    (Digits(c.hour, 2) + (":" + (Digits(c.minute, 2) + (":" + Digits(c.second, 2))))))))))
  }

  function Format(t: int): string
    requires 0 <= t
  {
    Text(FromSeconds(Seconds(t)))
  }

  predicate Separated(s: string) {
    && |s| == 19 && s[4] == '-' && s[7] == '-' && s[10] == ' ' && s[13] == ':' && s[16] == ':'
    && AllDigits(s[..4]) && AllDigits(s[5..7]) && AllDigits(s[8..10])
    && AllDigits(s[11..13]) && AllDigits(s[14..16]) && AllDigits(s[17..])
  }

  function Fields(s: string): Civil
    requires Separated(s)
  {
    Civil(NumberOf(s[..4]), NumberOf(s[5..7]), NumberOf(s[8..10]),
          NumberOf(s[11..13]), NumberOf(s[14..16]), NumberOf(s[17..]))
  }

  lemma TextOrder(c: Civil, d: Civil)
    requires ValidCivil(c) && ValidCivil(d)
    ensures Less(Text(c), Text(d)) <==> Earlier(c, d)
  {
    hide Digits, Less;
    assert Pow10(4) == 10000 && Pow10(2) == 100;
    var c5, d5 := Digits(c.second, 2), Digits(d.second, 2);
    var c4, d4 := Digits(c.minute, 2) + (":" + c5), Digits(d.minute, 2) + (":" + d5);
    var c3, d3 := Digits(c.hour, 2) + (":" + c4), Digits(d.hour, 2) + (":" + d4);
    var c2, d2 := Digits(c.day, 2) + (" " + c3), Digits(d.day, 2) + (" " + d3);
    var c1, d1 := Digits(c.month, 2) + ("-" + c2), Digits(d.month, 2) + ("-" + d2);
    FieldOrder(c.year, d.year, 4, "-", c1, d1);
    FieldOrder(c.month, d.month, 2, "-", c2, d2);
    FieldOrder(c.day, d.day, 2, " ", c3, d3);
    FieldOrder(c.hour, d.hour, 2, ":", c4, d4);
    FieldOrder(c.minute, d.minute, 2, ":", c5, d5);
    DigitsOrder(c.second, d.second, 2);
  }

  lemma FieldOrder(n: nat, m: nat, w: nat, sep: string, c: string, d: string)
    requires n < Pow10(w) && m < Pow10(w)
    ensures Less(Digits(n, w) + (sep + c), Digits(m, w) + (sep + d)) <==> n < m || (n == m && Less(c, d))
  {
    DigitsOrder(n, m, w);
    DigitsInjective(n, m, w);
    LessConcat(Digits(n, w), Digits(m, w), sep + c, sep + d);
    LessConcat(sep, sep, c, d);
    LessIrreflexive(sep);
  }

  lemma {:induction false} LessIrreflexive(a: string)
    ensures !Less(a, a)
  {
    if a != "" { LessIrreflexive(a[1..]); }
  }

  lemma SliceText(c: Civil)
    ensures var s := Text(c);
            && |s| == 19 && s[4] == '-' && s[7] == '-' && s[10] == ' ' && s[13] == ':' && s[16] == ':'
            && s[..4] == Digits(c.year, 4) && s[5..7] == Digits(c.month, 2) && s[8..10] == Digits(c.day, 2)
            && s[11..13] == Digits(c.hour, 2) && s[14..16] == Digits(c.minute, 2) && s[17..] == Digits(c.second, 2)
  {
    hide Digits;
  }

  lemma FieldsOfText(c: Civil)
    requires ValidCivil(c)
    ensures Separated(Text(c)) && Fields(Text(c)) == c
  {
    hide Text, Digits, NumberOf;
    assert Pow10(4) == 10000 && Pow10(2) == 100;
    SliceText(c);
    NumberOfDigits(c.year, 4);
    NumberOfDigits(c.month, 2);
    NumberOfDigits(c.day, 2);
    NumberOfDigits(c.hour, 2);
    NumberOfDigits(c.minute, 2);
    NumberOfDigits(c.second, 2);
  }

  /** The place and the value of every character of a printed instant. */
  lemma TextLayout(c: Civil)
    requires ValidCivil(c)
    ensures var s := Text(c);
            && |s| == 19 && s[4] == '-' && s[7] == '-' && s[10] == ' ' && s[13] == ':' && s[16] == ':'
            && (forall i :: 0 <= i < 19 && i !in {4, 7, 10, 13, 16} ==> '0' <= s[i] <= '9')
            && (s[0] - '0') as int * 1000 + (s[1] - '0') as int * 100 + (s[2] - '0') as int * 10 + (s[3] - '0') as int
               == c.year
            && (s[5] - '0') as int * 10 + (s[6] - '0') as int == c.month
            && (s[8] - '0') as int * 10 + (s[9] - '0') as int == c.day
            && (s[11] - '0') as int * 10 + (s[12] - '0') as int == c.hour
            && (s[14] - '0') as int * 10 + (s[15] - '0') as int == c.minute
            && (s[17] - '0') as int * 10 + (s[18] - '0') as int == c.second
  {
    hide Text;
    SliceText(c);
    var s := Text(c);
    FourDigits(c.year);
    TwoDigits(c.month);
    TwoDigits(c.day);
    TwoDigits(c.hour);
    TwoDigits(c.minute);
    TwoDigits(c.second);
    hide Digits;
    assert s[..4] == [s[0], s[1], s[2], s[3]] && s[5..7] == [s[5], s[6]] && s[8..10] == [s[8], s[9]];
    assert s[11..13] == [s[11], s[12]] && s[14..16] == [s[14], s[15]] && s[17..] == [s[17], s[18]];
  }

  lemma LastDigit(n: nat, w: nat)
    requires w > 0
    ensures Digits(n, w) == Digits(n / 10, w - 1) + [DigitChar(n % 10)]
    ensures '0' <= DigitChar(n % 10) <= '9' && (DigitChar(n % 10) - '0') as int == n % 10
  {}

  lemma TwoDigits(n: nat)
    requires n < 100
    ensures var d := Digits(n, 2);
            '0' <= d[0] <= '9' && '0' <= d[1] <= '9' && (d[0] - '0') as int * 10 + (d[1] - '0') as int == n
  {
    hide Digits, DigitChar;
    LastDigit(n, 2);
    LastDigit(n / 10, 1);
  }

  lemma FourDigits(n: nat)
    requires n < 10000
    ensures var d := Digits(n, 4);
            && (forall i :: 0 <= i < 4 ==> '0' <= d[i] <= '9')
            && (d[0] - '0') as int * 1000 + (d[1] - '0') as int * 100 + (d[2] - '0') as int * 10 + (d[3] - '0') as int
               == n
  {
    hide Digits, DigitChar;
    LastDigit(n, 4);
    LastDigit(n / 10, 3);
    TwoDigits(n / 10 / 10);
  }

  // ---------------------------------------------------------------- time.Parse

  // What package time takes for the layout 2006-01-02 15:04:05, field by field: the value of
  // the field and what is left of the text.

  function YearField(s: string): Option<(nat, string)> {
    if |s| >= 4 && AllDigits(s[..4]) then Some((NumberOf(s[..4]), s[4..])) else None
  }

  /** Two digits; one is enough where the width is not fixed and no second follows. */
  function Field(s: string, fixed: bool): Option<(nat, string)> {
    if |s| >= 2 && AllDigits(s[..2]) then Some((NumberOf(s[..2]), s[2..]))
    else if !fixed && |s| >= 1 && AllDigits(s[..1]) then Some((NumberOf(s[..1]), s[1..]))
    else None
  }

  function Literal(s: string, c: char): Option<string> {
    if s != "" && s[0] == c then Some(s[1..]) else None
  }

  function CutBlanks(s: string): string { if s != "" && s[0] == ' ' then CutBlanks(s[1..]) else s }

  /** The blank of the layout: any number of blanks, none only at the end of the text. */
  function Blanks(s: string): Option<string> {
    if s != "" && s[0] != ' ' then None else Some(CutBlanks(s))
  }

  /** Fractional seconds, which are taken although the layout has none. */
  predicate IsFraction(s: string) {
    s == "" || (|s| >= 2 && (s[0] == '.' || s[0] == ',') && AllDigits(s[1..]))
  }

  /** The first nine digits of a fraction as nanoseconds. */
  function Nanoseconds(s: string): nat
    requires IsFraction(s)
  {
    if s == "" then 0
    else
      var digits := if |s| > 10 then s[1..10] else s[1..];
      NumberOf(digits) * Pow10(9 - |digits|)
  }

  function ParseDate(s: string): Option<(nat, nat, nat, string)> {
    var y := YearField(s);
    if y.None? then None else
    var s1 := Literal(y.value.1, '-');
    if s1.None? then None else
    var m := Field(s1.value, true);
    if m.None? then None else
    var s2 := Literal(m.value.1, '-');
    if s2.None? then None else
    var d := Field(s2.value, true);
    if d.None? then None else Some((y.value.0, m.value.0, d.value.0, d.value.1))
  }

  function ParseClock(s: string): Option<(nat, nat, nat, string)> {
    var h := Field(s, false);
    if h.None? then None else
    var s1 := Literal(h.value.1, ':');
    if s1.None? then None else
    var m := Field(s1.value, true);
    if m.None? then None else
    var s2 := Literal(m.value.1, ':');
    if s2.None? then None else
    var sec := Field(s2.value, true);
    if sec.None? then None else Some((h.value.0, m.value.0, sec.value.0, sec.value.1))
  }

  function Parse(s: string): Option<int> {
    var date := ParseDate(s);
    if date.None? then None else
    var s1 := Blanks(date.value.3);
    if s1.None? then None else
    var clock := ParseClock(s1.value);
    if clock.None? then None else
    var c := Civil(date.value.0, date.value.1, date.value.2, clock.value.0, clock.value.1, clock.value.2);
    if ValidCivil(c) && IsFraction(clock.value.3) then
      Some(ToSeconds(c) * NANOS + Nanoseconds(clock.value.3))
    else None
  }

  function DateText(c: Civil): string {
    Digits(c.year, 4) + ("-" + (Digits(c.month, 2) + ("-" + Digits(c.day, 2))))
  }

  /** A clock written with this hour text and this fraction. */
  function ClockText(c: Civil, hour: string, fraction: string): string {
    hour + (":" + (Digits(c.minute, 2) + (":" + (Digits(c.second, 2) + fraction))))
  }

  predicate IsHour(hour: string, n: nat) { hour == Digits(n, 2) || (n < 10 && hour == Digits(n, 1)) }

  predicate AllBlank(s: string) { forall i :: 0 <= i < |s| ==> s[i] == ' ' }

  lemma FieldOf(n: nat, w: nat, rest: string, fixed: bool)
    requires n < Pow10(w) && (w == 2 || (w == 1 && !fixed && (rest == "" || !IsDigit(rest[0]))))
    ensures Field(Digits(n, w) + rest, fixed) == Some((n, rest))
  {
    NumberOfDigits(n, w);
    TakesField(Digits(n, w), rest, fixed);
  }

  lemma TakesField(d: string, rest: string, fixed: bool)
    requires AllDigits(d) && (|d| == 2 || (|d| == 1 && !fixed && (rest == "" || !IsDigit(rest[0]))))
    ensures Field(d + rest, fixed) == Some((NumberOf(d), rest))
  {
    hide NumberOf;
    assert (d + rest)[..|d|] == d && (d + rest)[|d|..] == rest;
    if |d| == 1 && rest != "" {
      assert (d + rest)[..2][1] == rest[0];
    }
  }

  lemma FieldShape(s: string, fixed: bool)
    requires Field(s, fixed).Some?
    ensures var (n, rest) := Field(s, fixed).value;
            (n < 100 && s == Digits(n, 2) + rest) || (!fixed && n < 10 && s == Digits(n, 1) + rest)
  {
    assert Pow10(2) == 100 && Pow10(1) == 10;
    var w := if |s| >= 2 && AllDigits(s[..2]) then 2 else 1;
    DigitsOfNumber(s[..w]);
    assert s == s[..w] + s[w..];
  }

  lemma YearFieldOf(n: nat, rest: string)
    requires n < 10000
    ensures YearField(Digits(n, 4) + rest) == Some((n, rest))
  {
    assert Pow10(4) == 10000;
    NumberOfDigits(n, 4);
    assert (Digits(n, 4) + rest)[..4] == Digits(n, 4) && (Digits(n, 4) + rest)[4..] == rest;
  }

  lemma YearFieldShape(s: string)
    requires YearField(s).Some?
    ensures var (n, rest) := YearField(s).value; s == Digits(n, 4) + rest
  {
    DigitsOfNumber(s[..4]);
    assert s == s[..4] + s[4..];
  }

  lemma LiteralOf(sep: string, rest: string)
    requires |sep| == 1
    ensures Literal(sep + rest, sep[0]) == Some(rest)
  {}

  lemma LiteralShape(s: string, c: char)
    requires Literal(s, c).Some?
    ensures s == [c] + Literal(s, c).value
  {}

  lemma {:induction false} BlanksOf(blanks: string, rest: string)
    requires AllBlank(blanks) && (rest == "" || rest[0] != ' ')
    ensures CutBlanks(blanks + rest) == rest
  {
    if blanks == "" {
      assert blanks + rest == rest;
    } else {
      assert (blanks + rest)[1..] == blanks[1..] + rest;
      BlanksOf(blanks[1..], rest);
    }
  }

  lemma {:induction false} BlanksShape(s: string) returns (blanks: string)
    ensures AllBlank(blanks) && s == blanks + CutBlanks(s)
    ensures blanks != "" <==> s != "" && s[0] == ' '
  {
    if s != "" && s[0] == ' ' {
      var more := BlanksShape(s[1..]);
      blanks := " " + more;
      assert s == " " + s[1..];
    } else {
      blanks := "";
    }
  }

  lemma ParseDateOf(c: Civil, rest: string)
    requires ValidCivil(c)
    ensures ParseDate(DateText(c) + rest) == Some((c.year, c.month, c.day, rest))
  {
    hide Digits, YearField, Field, Literal;
    assert Pow10(2) == 100;
    var s4 := Digits(c.day, 2) + rest;
    var s3 := "-" + s4;
    var s2 := Digits(c.month, 2) + s3;
    var s1 := "-" + s2;
    assert DateText(c) + rest == Digits(c.year, 4) + s1;
    YearFieldOf(c.year, s1);
    LiteralOf("-", s2);
    FieldOf(c.month, 2, s3, true);
    LiteralOf("-", s4);
    FieldOf(c.day, 2, rest, true);
  }

  lemma ParseDateShape(s: string)
    requires ParseDate(s).Some?
    ensures var (y, m, d, rest) := ParseDate(s).value;
            s == Digits(y, 4) + ("-" + (Digits(m, 2) + ("-" + Digits(d, 2)))) + rest
  {
    hide Digits, YearField, Field, Literal;
    var y := YearField(s).value;
    YearFieldShape(s);
    LiteralShape(y.1, '-');
    var s1 := Literal(y.1, '-').value;
    FieldShape(s1, true);
    var m := Field(s1, true).value;
    LiteralShape(m.1, '-');
    var s2 := Literal(m.1, '-').value;
    FieldShape(s2, true);
  }

  lemma ParseClockOf(c: Civil, hour: string, fraction: string)
    requires ValidCivil(c) && IsHour(hour, c.hour)
    ensures ParseClock(ClockText(c, hour, fraction)) == Some((c.hour, c.minute, c.second, fraction))
  {
    hide Digits, Field, Literal;
    assert Pow10(2) == 100 && Pow10(1) == 10;
    var s4 := Digits(c.second, 2) + fraction;
    var s3 := ":" + s4;
    var s2 := Digits(c.minute, 2) + s3;
    var s1 := ":" + s2;
    FieldOf(c.hour, if hour == Digits(c.hour, 2) then 2 else 1, s1, false);
    LiteralOf(":", s2);
    FieldOf(c.minute, 2, s3, true);
    LiteralOf(":", s4);
    FieldOf(c.second, 2, fraction, true);
  }

  lemma ParseClockShape(s: string) returns (hour: string)
    requires ParseClock(s).Some?
    ensures var (h, m, sec, rest) := ParseClock(s).value;
            IsHour(hour, h) && s == hour + (":" + (Digits(m, 2) + (":" + (Digits(sec, 2) + rest))))
  {
    hide Digits, Field, Literal;
    FieldShape(s, false);
    var h := Field(s, false).value;
    hour := if s == Digits(h.0, 2) + h.1 then Digits(h.0, 2) else Digits(h.0, 1);
    LiteralShape(h.1, ':');
    var s1 := Literal(h.1, ':').value;
    FieldShape(s1, true);
    var m := Field(s1, true).value;
    LiteralShape(m.1, ':');
    var s2 := Literal(m.1, ':').value;
    FieldShape(s2, true);
  }

  // ---------------------------------------------------------------- which texts parse

  /** A text of the grammar: some blanks, an hour of one or two digits, perhaps a fraction. */
  ghost predicate Written(s: string, c: Civil, blanks: string, hour: string, fraction: string) {
    && ValidCivil(c) && blanks != "" && AllBlank(blanks) && IsHour(hour, c.hour) && IsFraction(fraction)
    && s == DateText(c) + (blanks + ClockText(c, hour, fraction))
  }

  lemma HourStarts(hour: string, n: nat)
    requires IsHour(hour, n)
    ensures hour != "" && IsDigit(hour[0]) && |hour| <= 2
  {}

  /** Every text of the grammar parses, to the second it names and the nanoseconds of its
      fraction. */
  lemma ParseWritten(s: string, c: Civil, blanks: string, hour: string, fraction: string)
    requires Written(s, c, blanks, hour, fraction)
    ensures Parse(s) == Some(ToSeconds(c) * NANOS + Nanoseconds(fraction))
  {
    hide ParseDate, ParseClock, DateText, CutBlanks, ToSeconds, Nanoseconds, ValidCivil, IsHour, IsFraction, Digits;
    var clock := ClockText(c, hour, fraction);
    ParseDateOf(c, blanks + clock);
    ParseClockOf(c, hour, fraction);
    HourStarts(hour, c.hour);
    assert clock[0] == hour[0];
    BlanksOf(blanks, clock);
    assert (blanks + clock)[0] == ' ';
  }

  /** And no other text does. */
  lemma ParseShape(s: string) returns (c: Civil, blanks: string, hour: string, fraction: string)
    requires Parse(s).Some?
    ensures Written(s, c, blanks, hour, fraction)
    ensures Parse(s) == Some(ToSeconds(c) * NANOS + Nanoseconds(fraction))
  {
    hide ParseDate, ParseClock, CutBlanks, Digits, ToSeconds, Nanoseconds, IsFraction, ValidCivil, IsHour;
    var date := ParseDate(s).value;
    ParseDateShape(s);
    blanks := BlanksShape(date.3);
    var rest := Blanks(date.3).value;
    var clock := ParseClock(rest).value;
    hour := ParseClockShape(rest);
    HourStarts(hour, clock.0);
    c := Civil(date.0, date.1, date.2, clock.0, clock.1, clock.2);
    fraction := clock.3;
    assert rest == ClockText(c, hour, fraction);
  }

  // ---------------------------------------------------------------- the three promises

  /** Text order is time order: comparing two formatted instants as strings is comparing
      them in whole seconds. */
  lemma TextOrderIsTimeOrder(t: int, u: int)
    requires InRange(t) && InRange(u)
    ensures Less(Format(t), Format(u)) <==> Seconds(t) < Seconds(u)
    ensures Format(t) == Format(u) <==> Seconds(t) == Seconds(u)
  {
    FromSecondsNames(Seconds(t));
    FromSecondsNames(Seconds(u));
    var c, d := FromSeconds(Seconds(t)), FromSeconds(Seconds(u));
    TextOrder(c, d);
    CivilOrder(c, d);
    FieldsOfText(c);
    FieldsOfText(d);
  }

  lemma TextIsWritten(c: Civil)
    requires ValidCivil(c)
    ensures Written(Text(c), c, " ", Digits(c.hour, 2), "")
  {
    hide Digits;
  }

  /** Parsing a formatted instant gives it back cut to the second. */
  lemma ParseFormat(t: int)
    requires InRange(t)
    ensures Parse(Format(t)) == Some(Trunc(t))
  {
    hide Parse, Text, Written, FromSeconds, ToSeconds, ValidCivil;
    FromSecondsNames(Seconds(t));
    var c := FromSeconds(Seconds(t));
    TextIsWritten(c);
    ParseWritten(Text(c), c, " ", Digits(c.hour, 2), "");
  }

  lemma {:induction false} PowersAdd(a: nat, b: nat)
    ensures Pow10(a) * Pow10(b) == Pow10(a + b)
  {
    if a > 0 {
      PowersAdd(a - 1, b);
      assert Pow10(a) * Pow10(b) == 10 * (Pow10(a - 1) * Pow10(b));
    }
  }

  lemma LessTimes(n: nat, m: nat, k: nat)
    requires n < m && 0 < k
    ensures n * k < m * k
  {}

  lemma PowerPositive(w: nat)
    ensures Pow10(w) > 0
  {}

  lemma BelowOneSecond(s: string)
    requires IsFraction(s)
    ensures Nanoseconds(s) < NANOS
  {
    if s != "" {
      var digits := if |s| > 10 then s[1..10] else s[1..];
      DigitsOfNumber(digits);
      PowerPositive(9 - |digits|);
      LessTimes(NumberOf(digits), Pow10(|digits|), Pow10(9 - |digits|));
      PowersAdd(|digits|, 9 - |digits|);
      NinePlaces();
      hide Pow10, NumberOf;
    }
  }

  lemma NinePlaces()
    ensures Pow10(9) == NANOS
  {
    assert Pow10(3) == 1000;
    PowersAdd(3, 3);
    PowersAdd(6, 3);
  }

  /** Of the texts that parse, exactly those of nineteen characters with one blank are what
      is printed for their instant; a second blank, an hour of one digit or a fraction
      parses as well. */
  lemma FormatParse(s: string)
    requires Parse(s).Some?
    ensures InRange(Parse(s).value)
    ensures Format(Parse(s).value) == s <==> |s| == 19 && s[11] != ' '
  {
    hide Parse, Text, ToSeconds, Written, Nanoseconds, InRange, Format;
    var c, blanks, hour, fraction := ParseShape(s);
    NamesItsSecond(c, blanks, hour, fraction, s);
    PrintedShape(c);
    if |s| == 19 && s[11] != ' ' {
      PlainShape(s, c, blanks, hour, fraction);
    }
  }

  lemma NamesItsSecond(c: Civil, blanks: string, hour: string, fraction: string, s: string)
    requires Written(s, c, blanks, hour, fraction)
    ensures var t := ToSeconds(c) * NANOS + Nanoseconds(fraction); InRange(t) && Format(t) == Text(c)
  {
    hide Text, FromSeconds, ToSeconds, Nanoseconds;
    var n := ToSeconds(c);
    BelowOneSecond(fraction);
    SecondsInRange(c);
    FromSecondsNames(n);
    CivilOrder(c, FromSeconds(n));
    assert Seconds(n * NANOS + Nanoseconds(fraction)) == n;
  }

  lemma PrintedShape(c: Civil)
    ensures |Text(c)| == 19 && Text(c)[11] != ' '
  {
    SliceText(c);
    hide Text;
    assert Text(c)[11] == Text(c)[11..13][0];
  }

  lemma OneBlank(s: string, date: string, blanks: string, clock: string)
    requires s == date + (blanks + clock) && |date| == 10 && 11 < |s| && s[11] != ' '
    requires blanks != "" && AllBlank(blanks)
    ensures |blanks| == 1
  {
    assert s[11] == (blanks + clock)[1];
  }

  lemma PlainShape(s: string, c: Civil, blanks: string, hour: string, fraction: string)
    requires Written(s, c, blanks, hour, fraction) && |s| == 19 && s[11] != ' '
    ensures s == Text(c)
  {
    HourStarts(hour, c.hour);
    var clock := ClockText(c, hour, fraction);
    assert |DateText(c)| == 10 && |clock| == |hour| + 6 + |fraction|;
    assert |blanks| == 1 by { OneBlank(s, DateText(c), blanks, clock); }
    assert blanks == " ";
    assert |hour| + |fraction| == 2;
    assert fraction == "" && hour == Digits(c.hour, 2);
    assert clock == ClockText(c, Digits(c.hour, 2), "");
    hide Digits;
  }

  lemma SecondsInRange(c: Civil)
    requires ValidCivil(c)
    ensures ToSeconds(c) < DAYS * 86400
  {
    DayWithin(c);
    TenThousandYears(c.year);
  }
}
