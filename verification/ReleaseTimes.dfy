// Release timestamps: the fixed-width layout 2006.01.02T15-04-05Z, the order of its texts and the order of time.
module ReleaseTimes {
  // ------------------------------------------------------------------ texts in order

  /** Lexicographic order. */
  predicate Before(a: string, b: string)
    decreases |a|
  {
    b != [] && (a == [] || a[0] < b[0] || (a[0] == b[0] && Before(a[1..], b[1..])))
  }

  lemma {:induction false} BeforeIsAsymmetric(a: string, b: string)
    requires Before(a, b)
    ensures !Before(b, a) && a != b
    decreases |a|
  {
    if a != [] && a[0] == b[0] {
      BeforeIsAsymmetric(a[1..], b[1..]);
    }
  }

  /** Texts whose first parts have the same length compare part by part. */
  lemma {:induction false} BeforeByParts(a: string, x: string, b: string, y: string)
    requires |a| == |b|
    ensures Before(a + x, b + y) <==> Before(a, b) || (a == b && Before(x, y))
    decreases |a|
  {
    if a == [] {
      assert a + x == x && b + y == y;
    } else {
      assert (a + x)[1..] == a[1..] + x && (b + y)[1..] == b[1..] + y;
      BeforeByParts(a[1..], x, b[1..], y);
      assert a == b <==> a[0] == b[0] && a[1..] == b[1..];
    }
  }

  // ------------------------------------------------------------------ numbers of fixed width

  function Power(w: nat): (p: nat)
    ensures p > 0
  {
    if w == 0 then 1 else 10 * Power(w - 1)
  }

  function Digit(d: nat): char
    requires d < 10
  {
    '0' + d as char
  }

  /** A number in `w` decimal digits. */
  function Pad(n: nat, w: nat): (s: string)
    requires n < Power(w)
    ensures |s| == w
    decreases w
  {
    if w == 0 then "" else Pad(n / 10, w - 1) + [Digit(n % 10)]
  }

  predicate Digits(s: string) {
    forall i :: 0 <= i < |s| ==> '0' <= s[i] <= '9'
  }

  function Number(s: string): (n: nat)
    requires Digits(s)
    ensures n < Power(|s|)
    decreases |s|
  {
    if s == [] then 0 else 10 * Number(s[..|s| - 1]) + (s[|s| - 1] - '0') as nat
  }

  lemma {:induction false} NumberOfPad(n: nat, w: nat)
    requires n < Power(w)
    ensures Digits(Pad(n, w)) && Number(Pad(n, w)) == n
    decreases w
  {
    if w > 0 {
      NumberOfPad(n / 10, w - 1);
      assert Pad(n, w)[..w - 1] == Pad(n / 10, w - 1);
    }
  }

  lemma {:induction false} PadOfNumber(s: string)
    requires Digits(s)
    ensures Pad(Number(s), |s|) == s
    decreases |s|
  {
    if s != [] {
      PadOfNumber(s[..|s| - 1]);
      assert s == s[..|s| - 1] + [s[|s| - 1]];
    }
  }

  /** Fixed-width numbers are ordered like their texts. */
  lemma {:induction false} PadOrder(m: nat, n: nat, w: nat)
    requires m < Power(w) && n < Power(w)
    ensures Before(Pad(m, w), Pad(n, w)) <==> m < n
    ensures Pad(m, w) == Pad(n, w) <==> m == n
    decreases w
  {
    NumberOfPad(m, w);
    NumberOfPad(n, w);
    if w > 0 {
      PadOrder(m / 10, n / 10, w - 1);
      BeforeByParts(Pad(m / 10, w - 1), [Digit(m % 10)], Pad(n / 10, w - 1), [Digit(n % 10)]);
    }
  }

  // ------------------------------------------------------------------ civil time

  datatype Time = Time(year: nat, month: nat, day: nat, hour: nat, minute: nat, second: nat)

  predicate Leap(year: nat) {
    year % 4 == 0 && (year % 100 != 0 || year % 400 == 0)
  }

  function DaysIn(year: nat, month: nat): nat {
    if month == 2 then (if Leap(year) then 29 else 28)
    else if month == 4 || month == 6 || month == 9 || month == 11 then 30
    else 31
  }

  predicate Valid(t: Time) {
    && t.year < 10000 && 1 <= t.month <= 12 && 1 <= t.day <= DaysIn(t.year, t.month)
    && t.hour < 24 && t.minute < 60 && t.second < 60
  }

  /** Days before a year, and days of a year before a month. */
  function DaysBeforeYear(year: nat): nat {
    if year == 0 then 0 else DaysBeforeYear(year - 1) + if Leap(year - 1) then 366 else 365
  }

  function DaysBeforeMonth(year: nat, month: nat): nat {
    if month <= 1 then 0 else DaysBeforeMonth(year, month - 1) + DaysIn(year, month - 1)
  }

  /** Seconds since the beginning of year zero. */
  function Instant(t: Time): nat {
    (((DaysBeforeYear(t.year) + DaysBeforeMonth(t.year, t.month) + t.day) * 24 + t.hour) * 60 + t.minute) * 60
      + t.second
  }

  /** Field by field, from the year down. */
  predicate Earlier(a: Time, b: Time) {
    || a.year < b.year
    || (a.year == b.year && (
          || a.month < b.month
          || (a.month == b.month && (
                || a.day < b.day
                || (a.day == b.day && (
                      || a.hour < b.hour
                      || (a.hour == b.hour && (a.minute < b.minute
                        || (a.minute == b.minute && a.second < b.second)))))))))
  }

  lemma {:induction false} MonthsAddUp(year: nat, m: nat, n: nat)
    requires 1 <= m < n
    ensures DaysBeforeMonth(year, m) + DaysIn(year, m) <= DaysBeforeMonth(year, n)
    decreases n
  {
    if m < n - 1 {
      MonthsAddUp(year, m, n - 1);
    }
  }

  lemma MonthsFitYear(year: nat, month: nat, day: nat)
    requires 1 <= month <= 12 && 1 <= day <= DaysIn(year, month)
    ensures DaysBeforeMonth(year, month) + day <= if Leap(year) then 366 else 365
  {
    YearLength(year);
    if month < 12 {
      MonthsAddUp(year, month, 12);
    }
  }

  lemma YearLength(year: nat)
    ensures DaysBeforeMonth(year, 12) + 31 == if Leap(year) then 366 else 365
  {
    assert DaysBeforeMonth(year, 2) == 31;
    assert DaysBeforeMonth(year, 3) == 31 + DaysIn(year, 2);
    assert DaysBeforeMonth(year, 5) == 92 + DaysIn(year, 2) by {
      assert DaysBeforeMonth(year, 4) == 62 + DaysIn(year, 2);
    }
    assert DaysBeforeMonth(year, 7) == 153 + DaysIn(year, 2) by {
      assert DaysBeforeMonth(year, 6) == 123 + DaysIn(year, 2);
    }
    assert DaysBeforeMonth(year, 9) == 215 + DaysIn(year, 2) by {
      assert DaysBeforeMonth(year, 8) == 184 + DaysIn(year, 2);
    }
    assert DaysBeforeMonth(year, 11) == 276 + DaysIn(year, 2) by {
      assert DaysBeforeMonth(year, 10) == 245 + DaysIn(year, 2);
    }
  }

  lemma {:induction false} YearsAddUp(m: nat, n: nat)
    requires m < n
    ensures DaysBeforeYear(m) + (if Leap(m) then 366 else 365) <= DaysBeforeYear(n)
    decreases n
  {
    if m < n - 1 {
      YearsAddUp(m, n - 1);
    }
  }

  function Day(t: Time): nat {
    DaysBeforeYear(t.year) + DaysBeforeMonth(t.year, t.month) + t.day
  }

  lemma EarlierDay(a: Time, b: Time)
    requires Valid(a) && Valid(b)
    requires a.year < b.year || (a.year == b.year && (a.month < b.month || (a.month == b.month && a.day < b.day)))
    ensures Day(a) < Day(b)
  {
    if a.year < b.year {
      YearsAddUp(a.year, b.year);
      MonthsFitYear(a.year, a.month, a.day);
    } else if a.month < b.month {
      MonthsAddUp(a.year, a.month, b.month);
    }
  }

  /** Rounding a quotient up counts the multiples below the number. */
  lemma OneMoreMultiple(y: nat)
    ensures (y + 4) / 4 == (y + 3) / 4 + if y % 4 == 0 then 1 else 0
    ensures (y + 100) / 100 == (y + 99) / 100 + if y % 100 == 0 then 1 else 0
    ensures (y + 400) / 400 == (y + 399) / 400 + if y % 400 == 0 then 1 else 0
  {
  }

  /** The leap days before a year. */
  function LeapDays(year: nat): int {
    (year + 3) / 4 - (year + 99) / 100 + (year + 399) / 400
  }

  lemma OneMoreLeapDay(year: nat)
    ensures LeapDays(year + 1) == LeapDays(year) + if Leap(year) then 1 else 0
  {
    LeapInFour(year);
    OneMoreMultiple(year);
  }

  lemma LeapInFour(year: nat)
    ensures year % 100 == 0 ==> year % 4 == 0
    ensures year % 400 == 0 ==> year % 100 == 0
  {
    if year % 100 == 0 {
      assert year == 4 * (25 * (year / 100));
    }
    if year % 400 == 0 {
      assert year == 100 * (4 * (year / 400));
    }
  }

  /** The Gregorian calendar: a leap day every fourth year, none every hundredth, one again every four-hundredth. */
  lemma {:induction false} YearsAreGregorian(year: nat)
    ensures DaysBeforeYear(year) == 365 * year + (year + 3) / 4 - (year + 99) / 100 + (year + 399) / 400
  {
    if year > 0 {
      YearsAreGregorian(year - 1);
      hide Leap;
      OneMoreLeapDay(year - 1);
    }
  }

  /** The lengths of the months of a year, January first. */
  function MonthLengths(february: nat): seq<nat> {
    [31, february, 31, 30, 31, 30, 31, 31, 30, 31, 30, 31]
  }

  /** The day after another one, at the same time of day. */
  predicate DayAfter(a: Time, b: Time) {
    && (a.hour, a.minute, a.second) == (b.hour, b.minute, b.second)
    && (|| (b.year == a.year && b.month == a.month && b.day == a.day + 1)
        || (b.year == a.year && b.month == a.month + 1 && b.day == 1)
        || (b.year == a.year + 1 && a.month == 12 && b.month == 1 && b.day == 1))
  }

  /** The days of a month, and the days that follow each other are one day apart across months and years. */
  lemma DaysFollow(a: Time, february: nat)
    requires a.hour < 24 && a.minute < 60 && a.second < 60 && a.year < 10000 && 1 <= a.month <= 12
    requires february == if a.year % 400 == 0 || (a.year % 4 == 0 && a.year % 100 != 0) then 29 else 28
    ensures Valid(a) <==> 1 <= a.day <= MonthLengths(february)[a.month - 1]
    ensures forall b | DayAfter(a, b) && (b.month == a.month || a.day == MonthLengths(february)[a.month - 1]) ::
      Instant(b) == Instant(a) + 86400
  {
    hide DaysBeforeYear, DaysBeforeMonth;
    MonthsByTable(a.year, a.month, february);
    forall b | DayAfter(a, b) && (b.month == a.month || a.day == MonthLengths(february)[a.month - 1])
      ensures Instant(b) == Instant(a) + 86400
    {
      assert Day(b) == Day(a) + 1 by { DayFollows(a, b, february); }
      assert Instant(a) == Day(a) * 86400 + a.hour * 3600 + a.minute * 60 + a.second;
      assert Instant(b) == Day(b) * 86400 + b.hour * 3600 + b.minute * 60 + b.second;
    }
  }

  lemma MonthsByTable(year: nat, month: nat, february: nat)
    requires 1 <= month <= 12
    requires february == if year % 400 == 0 || (year % 4 == 0 && year % 100 != 0) then 29 else 28
    ensures DaysIn(year, month) == MonthLengths(february)[month - 1]
  {
    LeapInFour(year);
    assert february == if Leap(year) then 29 else 28;
    hide Leap;
  }

  lemma DayFollows(a: Time, b: Time, february: nat)
    requires 1 <= a.month <= 12 && DayAfter(a, b)
    requires february == if a.year % 400 == 0 || (a.year % 4 == 0 && a.year % 100 != 0) then 29 else 28
    requires b.month == a.month || a.day == MonthLengths(february)[a.month - 1]
    ensures Day(b) == Day(a) + 1
  {
    MonthsByTable(a.year, a.month, february);
    if b.year > a.year {
      YearLength(a.year);
    }
  }

  /** The order of the fields is the order of time. */
  lemma EarlierIsEarlier(a: Time, b: Time)
    requires Valid(a) && Valid(b)
    ensures Instant(a) < Instant(b) <==> Earlier(a, b)
    ensures Instant(a) == Instant(b) <==> a == b
  {
    if Earlier(a, b) {
      EarlierInstant(a, b);
    } else if Earlier(b, a) {
      EarlierInstant(b, a);
    }
  }

  lemma EarlierInstant(a: Time, b: Time)
    requires Valid(a) && Valid(b) && Earlier(a, b)
    ensures Instant(a) < Instant(b)
  {
    hide DaysBeforeYear, DaysBeforeMonth, DaysIn, Leap;
    if a.year < b.year || (a.year == b.year && (a.month < b.month || (a.month == b.month && a.day < b.day))) {
      EarlierDay(a, b);
    }
    assert Instant(a) == Day(a) * 86400 + a.hour * 3600 + a.minute * 60 + a.second;
    assert Instant(b) == Day(b) * 86400 + b.hour * 3600 + b.minute * 60 + b.second;
  }

  // ------------------------------------------------------------------ the layout

  /** One field of the layout and what follows it. */
  function Field(n: nat, w: nat, rest: string): string
    requires n < Power(w)
  {
    Pad(n, w) + rest
  }

  lemma FieldOrder(m: nat, n: nat, w: nat, x: string, y: string)
    requires m < Power(w) && n < Power(w)
    ensures Before(Field(m, w, x), Field(n, w, y)) <==> m < n || (m == n && Before(x, y))
  {
    PadOrder(m, n, w);
    BeforeByParts(Pad(m, w), x, Pad(n, w), y);
  }

  lemma SeparatorOrder(c: string, x: string, y: string)
    requires |c| == 1
    ensures Before(c + x, c + y) <==> Before(x, y)
  {
    BeforeByParts(c, x, c, y);
    if Before(c, c) {
      BeforeIsAsymmetric(c, c);
    }
  }

  /** Hour, minute and second. */
  function FormatClock(t: Time): string
    requires Valid(t)
  {
    assert Power(2) == 100;
    Field(t.hour, 2, "-" + Field(t.minute, 2, "-" + Field(t.second, 2, "Z")))
  }

  function Format(t: Time): (s: string)
    requires Valid(t)
  {
    assert Power(2) == 100;
    assert Power(4) == 10000 by { assert Power(3) == 1000; }
    Field(t.year, 4, "." + Field(t.month, 2, "." + Field(t.day, 2, "T" + FormatClock(t))))
  }

  lemma ClockOrder(a: Time, b: Time)
    requires Valid(a) && Valid(b)
    ensures Before(FormatClock(a), FormatClock(b)) <==>
      a.hour < b.hour || (a.hour == b.hour && (a.minute < b.minute || (a.minute == b.minute && a.second < b.second)))
  {
    hide Field, Before, Power;
    assert Power(2) == 100 by { Powers(); }
    var x2, y2 := Field(a.second, 2, "Z"), Field(b.second, 2, "Z");
    var x1, y1 := Field(a.minute, 2, "-" + x2), Field(b.minute, 2, "-" + y2);
    assert !Before("Z", "Z") by { NotBeforeItself("Z"); }
    FieldOrder(a.second, b.second, 2, "Z", "Z");
    SeparatorOrder("-", x2, y2);
    FieldOrder(a.minute, b.minute, 2, "-" + x2, "-" + y2);
    SeparatorOrder("-", x1, y1);
    FieldOrder(a.hour, b.hour, 2, "-" + x1, "-" + y1);
  }

  lemma Powers()
    ensures Power(2) == 100 && Power(4) == 10000
  {
    assert Power(3) == 1000;
  }

  lemma NotBeforeItself(s: string)
    ensures !Before(s, s)
  {
    if Before(s, s) {
      BeforeIsAsymmetric(s, s);
    }
  }

  /** Formatted times are ordered like the times. */
  lemma FormatOrder(a: Time, b: Time)
    requires Valid(a) && Valid(b)
    ensures Before(Format(a), Format(b)) <==> Instant(a) < Instant(b)
  {
    hide Field, Before, Power, FormatClock, Instant, DaysIn, Leap;
    Powers();
    DaysAreFew(a);
    DaysAreFew(b);
    EarlierIsEarlier(a, b);
    ClockOrder(a, b);
    var x0, y0 := FormatClock(a), FormatClock(b);
    var x2, y2 := Field(a.day, 2, "T" + x0), Field(b.day, 2, "T" + y0);
    var x1, y1 := Field(a.month, 2, "." + x2), Field(b.month, 2, "." + y2);
    SeparatorOrder("T", x0, y0);
    FieldOrder(a.day, b.day, 2, "T" + x0, "T" + y0);
    SeparatorOrder(".", x2, y2);
    FieldOrder(a.month, b.month, 2, "." + x2, "." + y2);
    SeparatorOrder(".", x1, y1);
    FieldOrder(a.year, b.year, 4, "." + x1, "." + y1);
  }

  lemma DaysAreFew(t: Time)
    requires Valid(t)
    ensures t.day < 100
  {
  }

  // ------------------------------------------------------------------ reading it back

  predicate LayoutOf(s: string) {
    && |s| == 20 && s[4] == '.' && s[7] == '.' && s[10] == 'T' && s[13] == '-' && s[16] == '-' && s[19] == 'Z'
    && Digits(s[..4]) && Digits(s[5..7]) && Digits(s[8..10]) && Digits(s[11..13]) && Digits(s[14..16])
    && Digits(s[17..19])
  }

  function Read(s: string): Time
    requires LayoutOf(s)
  {
    Time(Number(s[..4]), Number(s[5..7]), Number(s[8..10]), Number(s[11..13]), Number(s[14..16]), Number(s[17..19]))
  }

  /** A timestamp written exactly as the layout says, and an existing day and time. */
  predicate Canonical(s: string) {
    LayoutOf(s) && Valid(Read(s))
  }

  lemma ClockParts(t: Time)
    requires Valid(t)
    ensures
      var c := FormatClock(t);
      && |c| == 9 && c[2] == '-' && c[5] == '-' && c[8] == 'Z'
      && t.hour < Power(2) && t.minute < Power(2) && t.second < Power(2)
      && c[..2] == Pad(t.hour, 2) && c[3..5] == Pad(t.minute, 2) && c[6..8] == Pad(t.second, 2)
  {
    hide Power, Pad;
    Powers();
    var h, m, x := Pad(t.hour, 2), Pad(t.minute, 2), Pad(t.second, 2);
    assert FormatClock(t) == h + "-" + m + "-" + x + "Z";
  }

  lemma FormatParts(t: Time)
    requires Valid(t)
    ensures
      var s := Format(t);
      && |s| == 20 && s[4] == '.' && s[7] == '.' && s[10] == 'T' && s[13] == '-' && s[16] == '-' && s[19] == 'Z'
      && t.day < Power(2) && t.month < Power(2) && t.year < Power(4) && t.hour < Power(2) && t.minute < Power(2)
      && t.second < Power(2)
      && s[..4] == Pad(t.year, 4) && s[5..7] == Pad(t.month, 2) && s[8..10] == Pad(t.day, 2)
      && s[11..13] == Pad(t.hour, 2) && s[14..16] == Pad(t.minute, 2) && s[17..19] == Pad(t.second, 2)
  {
    hide Power, Pad, FormatClock;
    Powers();
    DaysAreFew(t);
    ClockParts(t);
    var y, m, d, c := Pad(t.year, 4), Pad(t.month, 2), Pad(t.day, 2), FormatClock(t);
    var date := y + "." + m + "." + d + "T";
    assert Format(t) == date + c;
    assert date[..4] == y && date[5..7] == m && date[8..10] == d && date[10] == 'T';
    var s := date + c;
    assert s[..4] == date[..4] && s[5..7] == date[5..7] && s[8..10] == date[8..10];
    assert s[11..13] == c[..2] && s[14..16] == c[3..5] && s[17..19] == c[6..8];
    assert s[13] == c[2] && s[16] == c[5] && s[19] == c[8];
  }

  /** The digit at a place of a text. */
  function DigitAt(s: string, i: nat): int
    requires i < |s|
  {
    s[i] as int - '0' as int
  }

  lemma PadTwo(n: nat)
    requires n < Power(2)
    ensures DigitAt(Pad(n, 2), 0) == n / 10 && DigitAt(Pad(n, 2), 1) == n % 10
  {
    assert Pad(n, 2) == Pad(n / 10, 1) + [Digit(n % 10)];
    assert Pad(n / 10, 1) == Pad(n / 100, 0) + [Digit(n / 10 % 10)];
  }

  lemma PadFour(n: nat)
    requires n < Power(4)
    ensures DigitAt(Pad(n, 4), 0) == n / 1000 && DigitAt(Pad(n, 4), 1) == n / 100 % 10
    ensures DigitAt(Pad(n, 4), 2) == n / 10 % 10 && DigitAt(Pad(n, 4), 3) == n % 10
  {
    Powers();
    assert Pad(n, 4) == Pad(n / 10, 3) + [Digit(n % 10)];
    assert Pad(n / 10, 3) == Pad(n / 100, 2) + [Digit(n / 10 % 10)];
    PadTwo(n / 100);
  }

  lemma TwoDigits(s: string, i: nat, n: nat)
    requires n < Power(2) && i + 2 <= |s| && s[i..i + 2] == Pad(n, 2)
    ensures DigitAt(s, i) * 10 + DigitAt(s, i + 1) == n
  {
    PadTwo(n);
    assert s[i] == s[i..i + 2][0] && s[i + 1] == s[i..i + 2][1];
  }

  lemma FourDigits(s: string, n: nat)
    requires n < Power(4) && 4 <= |s| && s[..4] == Pad(n, 4)
    ensures DigitAt(s, 0) * 1000 + DigitAt(s, 1) * 100 + DigitAt(s, 2) * 10 + DigitAt(s, 3) == n
  {
    PadFour(n);
    assert s[0] == s[..4][0] && s[1] == s[..4][1] && s[2] == s[..4][2] && s[3] == s[..4][3];
  }

  /** The layout digit by digit: year, month and day between dots, hour, minute and second between dashes. */
  lemma FormatDigits(t: Time)
    requires Valid(t)
    ensures
      var s := Format(t);
      && |s| == 20 && [s[4], s[7], s[10], s[13], s[16], s[19]] == "..T--Z"
      && DigitAt(s, 0) * 1000 + DigitAt(s, 1) * 100 + DigitAt(s, 2) * 10 + DigitAt(s, 3) == t.year
      && DigitAt(s, 5) * 10 + DigitAt(s, 6) == t.month && DigitAt(s, 8) * 10 + DigitAt(s, 9) == t.day
      && DigitAt(s, 11) * 10 + DigitAt(s, 12) == t.hour && DigitAt(s, 14) * 10 + DigitAt(s, 15) == t.minute
      && DigitAt(s, 17) * 10 + DigitAt(s, 18) == t.second
      && forall i :: 0 <= i < 20 && i !in {4, 7, 10, 13, 16, 19} ==> 0 <= DigitAt(s, i) <= 9
  {
    hide Pad, Number, Format, Power, DigitAt, Valid, Digits;
    var s := Format(t);
    FormatParts(t);
    FourDigits(s, t.year);
    TwoDigits(s, 5, t.month);
    TwoDigits(s, 8, t.day);
    TwoDigits(s, 11, t.hour);
    TwoDigits(s, 14, t.minute);
    TwoDigits(s, 17, t.second);
    ReadOfFormat(t);
    DigitsByPart(s);
  }

  lemma DigitsByPart(s: string)
    requires LayoutOf(s)
    ensures forall i :: 0 <= i < 20 && i !in {4, 7, 10, 13, 16, 19} ==> 0 <= DigitAt(s, i) <= 9
  {
    forall i | 0 <= i < 20 && i !in {4, 7, 10, 13, 16, 19}
      ensures 0 <= DigitAt(s, i) <= 9
    {
      if i < 4 {
        assert s[i] == s[..4][i];
      } else if i < 7 {
        assert s[i] == s[5..7][i - 5];
      } else if i < 10 {
        assert s[i] == s[8..10][i - 8];
      } else if i < 13 {
        assert s[i] == s[11..13][i - 11];
      } else if i < 16 {
        assert s[i] == s[14..16][i - 14];
      } else {
        assert s[i] == s[17..19][i - 17];
      }
    }
  }

  /** Reading what was formatted gives the time back. */
  lemma ReadOfFormat(t: Time)
    requires Valid(t)
    ensures Canonical(Format(t)) && Read(Format(t)) == t
  {
    hide Pad, Number, Format, Digits, Power;
    FormatParts(t);
    NumberOfPad(t.year, 4);
    NumberOfPad(t.month, 2);
    NumberOfPad(t.day, 2);
    NumberOfPad(t.hour, 2);
    NumberOfPad(t.minute, 2);
    NumberOfPad(t.second, 2);
  }

  /** Formatting what was read gives the text back. */
  lemma FormatOfRead(s: string)
    requires Canonical(s)
    ensures Format(Read(s)) == s
  {
    hide Pad, Number, Format, Digits, Power;
    var t := Read(s);
    FormatParts(t);
    PadOfNumber(s[..4]);
    PadOfNumber(s[5..7]);
    PadOfNumber(s[8..10]);
    PadOfNumber(s[11..13]);
    PadOfNumber(s[14..16]);
    PadOfNumber(s[17..19]);
    TwentyCharacters(s, Format(t));
  }

  lemma TwentyCharacters(a: string, b: string)
    requires |a| == |b| == 20
    requires
      && a[..4] == b[..4] && a[4] == b[4] && a[5..7] == b[5..7] && a[7] == b[7] && a[8..10] == b[8..10]
      && a[10] == b[10]
    requires
      && a[11..13] == b[11..13] && a[13] == b[13] && a[14..16] == b[14..16] && a[16] == b[16] && a[17..19] == b[17..19]
      && a[19] == b[19]
    ensures a == b
  {
    assert a == a[..4] + [a[4]] + a[5..7] + [a[7]] + a[8..10] + [a[10]] + a[11..13] + [a[13]] + a[14..16] + [a[16]]
      + a[17..19] + [a[19]];
    assert b == b[..4] + [b[4]] + b[5..7] + [b[7]] + b[8..10] + [b[10]] + b[11..13] + [b[13]] + b[14..16] + [b[16]]
      + b[17..19] + [b[19]];
  }
}
