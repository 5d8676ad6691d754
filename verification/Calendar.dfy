/** RFC 3339 text in UTC, and why comparing it as text is comparing instants.

    Instants are nanoseconds since 0001-01-01T00:00:00Z, the zero time. */
module Calendar {
  import opened Prelude

  const DAY_SECONDS: int := 86_400

  /** Days from 0000-01-01 to 0001-01-01. */
  const YEAR_ZERO: int := 366

  const FOUR_DIGIT_DAYS: int := 3_652_425

  /** The calendar repeats every 400 years. */
  const CYCLE_DAYS: int := 146_097

  // ----- Dates -----

  predicate Leap(y: nat) {
    y % 4 == 0 && (y % 100 != 0 || y % 400 == 0)
  }

  function MonthLen(y: nat, m: nat): nat
    requires 1 <= m <= 12
  {
    if m == 2 then if Leap(y) then 29 else 28
    else if m == 4 || m == 6 || m == 9 || m == 11 then 30
    else 31
  }

  /** Days of year `y` before month `m`; month 13 is the year's end. */
  function MonthStart(y: nat, m: nat): nat
    requires 1 <= m <= 13
  {
    if m == 1 then 0 else MonthStart(y, m - 1) + MonthLen(y, m - 1)
  }

  function YearLen(y: nat): nat {
    MonthStart(y, 13)
  }

  /** Days from 0000-01-01 to the first of year `y`. */
  function YearStart(y: nat): nat {
    if y == 0 then 0 else YearStart(y - 1) + YearLen(y - 1)
  }

  datatype Date = Date(y: nat, m: nat, d: nat)

  predicate ValidDate(a: Date) {
    1 <= a.m <= 12 && 1 <= a.d <= MonthLen(a.y, a.m)
  }

  function DayOf(a: Date): nat
    requires ValidDate(a)
  {
    YearStart(a.y) + MonthStart(a.y, a.m) + a.d - 1
  }

  predicate DateLess(a: Date, b: Date) {
    a.y < b.y || (a.y == b.y && (a.m < b.m || (a.m == b.m && a.d < b.d)))
  }

  lemma {:induction false} MonthsGrow(y: nat, m: nat, n: nat)
    requires 1 <= m < n <= 13
    ensures MonthStart(y, m) + MonthLen(y, m) <= MonthStart(y, n)
    decreases n
  {
    if m + 1 < n {
      MonthsGrow(y, m, n - 1);
    }
  }

  lemma {:induction false} YearsGrow(x: nat, y: nat)
    requires x < y
    ensures YearStart(x) + YearLen(x) <= YearStart(y)
    decreases y
  {
    if x + 1 < y {
      YearsGrow(x, y - 1);
    }
  }

  /** The day count of a date stays inside its year. */
  lemma DayInYear(a: Date)
    requires ValidDate(a)
    ensures YearStart(a.y) <= DayOf(a) < YearStart(a.y) + YearLen(a.y)
  {
    MonthsGrow(a.y, a.m, 13);
  }

  /** Calendar order is day order. */
  lemma DatesInOrder(a: Date, b: Date)
    requires ValidDate(a) && ValidDate(b) && DateLess(a, b)
    ensures DayOf(a) < DayOf(b)
  {
    DayInYear(a);
    DayInYear(b);
    if a.y < b.y {
      YearsGrow(a.y, b.y);
    } else if a.m < b.m {
      MonthsGrow(a.y, a.m, b.m);
    }
  }

  /** The year that day `n` falls in, searching from `y`. */
  function YearAt(n: nat, y: nat): (r: nat)
    requires YearStart(y) <= n
    ensures YearStart(r) <= n < YearStart(r) + YearLen(r)
    decreases n - YearStart(y)
  {
    if n < YearStart(y) + YearLen(y) then y
    else
      assert YearLen(y) > 0 by { MonthsGrow(y, 1, 13); }
      YearAt(n, y + 1)
  }

  /** The month that day `n` of year `y` falls in, searching from `m`. */
  function MonthAt(y: nat, n: nat, m: nat): (r: nat)
    requires 1 <= m <= 12 && MonthStart(y, m) <= n < YearLen(y)
    ensures 1 <= r <= 12 && MonthStart(y, r) <= n < MonthStart(y, r) + MonthLen(y, r)
    decreases 12 - m
  {
    if n < MonthStart(y, m) + MonthLen(y, m) then m else MonthAt(y, n, m + 1)
  }

  function DateOf(n: nat): (r: Date)
    ensures ValidDate(r) && DayOf(r) == n
  {
    var y := YearAt(n, 0);
    var m := MonthAt(y, n - YearStart(y), 1);
    Date(y, m, n - YearStart(y) - MonthStart(y, m) + 1)
  }

  lemma DateOfDay(a: Date)
    requires ValidDate(a)
    ensures DateOf(DayOf(a)) == a
  {
    var b := DateOf(DayOf(a));
    if DateLess(a, b) {
      DatesInOrder(a, b);
    } else if DateLess(b, a) {
      DatesInOrder(b, a);
    }
  }

  /** Every fourth year has a day more, but not every hundredth, except every fourth hundredth. */
  lemma YearLenIs(y: nat)
    ensures YearLen(y) == if Leap(y) then 366 else 365
  {
    assert MonthStart(y, 2) == 31;
    assert MonthStart(y, 3) == 31 + MonthLen(y, 2);
    assert MonthStart(y, 5) == MonthStart(y, 3) + 61;
    assert MonthStart(y, 7) == MonthStart(y, 5) + 61;
    assert MonthStart(y, 9) == MonthStart(y, 7) + 62;
    assert MonthStart(y, 11) == MonthStart(y, 9) + 61;
    assert MonthStart(y, 13) == MonthStart(y, 11) + 61;
  }

  /** The days of the first `y` years, counted at once. */
  function DaysBefore(y: nat): int {
    365 * y + (y + 3) / 4 - (y + 99) / 100 + (y + 399) / 400
  }

  lemma FoursNext(y: nat)
    ensures (y + 4) / 4 == (y + 3) / 4 + if y % 4 == 0 then 1 else 0
  {
  }

  lemma HundredsNext(y: nat)
    ensures (y + 100) / 100 == (y + 99) / 100 + if y % 100 == 0 then 1 else 0
    ensures y % 100 == 0 ==> y % 4 == 0
  {
    var q, r := y / 100, y % 100;
    assert y == 100 * q + r;
    assert (y + 99) / 100 == if r == 0 then q else q + 1;
    assert r == 0 ==> y == 4 * (25 * q);
  }

  lemma FourHundredsNext(y: nat)
    ensures (y + 400) / 400 == (y + 399) / 400 + if y % 400 == 0 then 1 else 0
    ensures y % 400 == 0 ==> y % 100 == 0
  {
    var q, r := y / 400, y % 400;
    assert y == 400 * q + r;
    assert (y + 399) / 400 == if r == 0 then q else q + 1;
    assert r == 0 ==> y == 100 * (4 * q);
  }

  lemma DaysBeforeNext(y: nat)
    ensures DaysBefore(y + 1) == DaysBefore(y) + if Leap(y) then 366 else 365
  {
    FoursNext(y);
    HundredsNext(y);
    FourHundredsNext(y);
  }

  lemma {:induction false} YearStartIs(y: nat)
    ensures YearStart(y) == DaysBefore(y)
  {
    if y > 0 {
      YearStartIs(y - 1);
      YearLenIs(y - 1);
      DaysBeforeNext(y - 1);
    }
  }

  lemma NotLater(x: nat, y: nat)
    requires x <= y
    ensures YearStart(x) <= YearStart(y)
  {
    if x < y {
      YearsGrow(x, y);
    }
  }

  /** A date lies in a year before `last` exactly when its day count does. */
  lemma YearsBelow(a: Date, last: nat)
    requires ValidDate(a)
    ensures a.y < last <==> DayOf(a) < DaysBefore(last)
  {
    YearStartIs(last);
    DayInYear(a);
    assert YearStart(a.y + 1) == YearStart(a.y) + YearLen(a.y);
    if a.y < last {
      NotLater(a.y + 1, last);
    } else {
      NotLater(last, a.y);
    }
  }

  // ----- Text -----

  /** Bytewise order, as SQLite compares TEXT. */
  predicate Less(a: string, b: string)
    decreases |a|
  {
    b != [] && (a == [] || a[0] < b[0] || (a[0] == b[0] && Less(a[1..], b[1..])))
  }

  predicate LessEq(a: string, b: string) {
    a == b || Less(a, b)
  }

  lemma {:induction false} LessConcat(a: string, b: string, x: string, y: string)
    requires |a| == |b|
    ensures Less(a + x, b + y) <==> Less(a, b) || (a == b && Less(x, y))
    decreases |a|
  {
    if a == [] {
      assert a + x == x && b + y == y;
    } else {
      assert (a + x)[1..] == a[1..] + x && (b + y)[1..] == b[1..] + y;
      LessConcat(a[1..], b[1..], x, y);
      assert a == [a[0]] + a[1..] && b == [b[0]] + b[1..];
    }
  }

  function Pow10(w: nat): nat {
    if w == 0 then 1 else 10 * Pow10(w - 1)
  }

  function Digit(n: nat): char
    requires n < 10
  {
    '0' + n as char
  }

  /** `n` in decimal, zero-padded to `w` places. */
  function Digits(n: nat, w: nat): (s: string)
    ensures |s| == w
  {
    if w == 0 then [] else Digits(n / 10, w - 1) + [Digit(n % 10)]
  }

  lemma {:induction false} DigitsOrder(n: nat, m: nat, w: nat)
    requires n < Pow10(w) && m < Pow10(w)
    ensures Less(Digits(n, w), Digits(m, w)) <==> n < m
    ensures Digits(n, w) == Digits(m, w) <==> n == m
  {
    if w > 0 {
      DigitsOrder(n / 10, m / 10, w - 1);
      LessConcat(Digits(n / 10, w - 1), Digits(m / 10, w - 1), [Digit(n % 10)], [Digit(m % 10)]);
      assert Digits(n, w)[..w - 1] == Digits(n / 10, w - 1) && Digits(m, w)[..w - 1] == Digits(m / 10, w - 1);
      assert Digits(n, w)[w - 1] == Digit(n % 10) && Digits(m, w)[w - 1] == Digit(m % 10);
      assert Less([Digit(n % 10)], [Digit(m % 10)]) <==> n % 10 < m % 10;
    }
  }

  /** One zero-padded field and its separator in front of the rest. */
  function Field(n: nat, w: nat, sep: char, rest: string): string {
    Digits(n, w) + ([sep] + rest)
  }

  lemma FieldOrder(n: nat, m: nat, w: nat, sep: char, x: string, y: string)
    requires n < Pow10(w) && m < Pow10(w)
    ensures Less(Field(n, w, sep, x), Field(m, w, sep, y)) <==> n < m || (n == m && Less(x, y))
    ensures Field(n, w, sep, x) == Field(m, w, sep, y) <==> n == m && x == y
  {
    DigitsOrder(n, m, w);
    LessConcat(Digits(n, w), Digits(m, w), [sep] + x, [sep] + y);
    LessConcat([sep], [sep], x, y);
    var a, b := Field(n, w, sep, x), Field(m, w, sep, y);
    if a == b {
      assert a[..w] == Digits(n, w) && b[..w] == Digits(m, w);
      assert a[w + 1..] == x && b[w + 1..] == y;
    }
  }

  // ----- Instants as text -----

  /** Whole seconds from 0000-01-01T00:00:00Z to `t`; what is past the second is dropped. */
  function Seconds(t: int): int {
    t / SECOND + YEAR_ZERO * DAY_SECONDS
  }

  /** The instant at the start of second `n`. */
  function InstantOf(n: int): int {
    (n - YEAR_ZERO * DAY_SECONDS) * SECOND
  }

  /** `t` without its fraction of a second. */
  function Trunc(t: int): int {
    t / SECOND * SECOND
  }

  /** The instants of the years 0 to 9999, which the layout's four digits can show. */
  predicate InRange(t: int) {
    0 <= Seconds(t) < FOUR_DIGIT_DAYS * DAY_SECONDS
  }

  lemma InRangeMeans(t: int)
    ensures InRange(t) <==> 0 <= Seconds(t) && DateOf(Seconds(t) / DAY_SECONDS).y <= 9999
  {
    if 0 <= Seconds(t) {
      var day := Seconds(t) / DAY_SECONDS;
      WholeDays(Seconds(t), FOUR_DIGIT_DAYS);
      YearsBelow(DateOf(day), 10_000);
    }
  }

  lemma WholeDays(n: nat, days: nat)
    ensures n < days * DAY_SECONDS <==> n / DAY_SECONDS < days
  {
  }

  function TextOf(n: nat): string {
    var a, r := DateOf(n / DAY_SECONDS), n % DAY_SECONDS;
    Field(a.y, 4, '-', Field(a.m, 2, '-', Field(a.d, 2, 'T',
      Field(r / 3600, 2, ':', Field(r / 60 % 60, 2, ':', Field(r % 60, 2, 'Z', ""))))))
  }

  /** How many places a year is printed with: four, or as many as it needs. */
  function Places(y: nat): (w: nat)
    ensures w >= 4 && (y >= 10_000 ==> w >= 5)
  {
    if y < 10_000 then 4 else 1 + Places(y / 10)
  }

  /** The date of any day, before year 0 too, and its year. */
  function FarDate(day: int): (Date, int) {
    var a := DateOf(day % CYCLE_DAYS);
    (a, a.y + 400 * (day / CYCLE_DAYS))
  }

  function YearText(y: int): string {
    if y < 0 then "-" + Digits(-y, Places(-y)) else Digits(y, Places(y))
  }

  /** The text of a second outside the four-digit years. */
  function FarText(n: int): string {
    var (a, y) := FarDate(n / DAY_SECONDS);
    var r := n % DAY_SECONDS;
    YearText(y) + (['-'] + Field(a.m, 2, '-', Field(a.d, 2, 'T',
      Field(r / 3600, 2, ':', Field(r / 60 % 60, 2, ':', Field(r % 60, 2, 'Z', ""))))))
  }

  /** How an instant is stored. */
  function Stamp(t: int): string {
    if InRange(t) then TextOf(Seconds(t)) else FarText(Seconds(t))
  }

  lemma Pow10s()
    ensures Pow10(2) == 100 && Pow10(4) == 10_000
  {
    assert Pow10(3) == 10 * Pow10(2);
  }

  lemma TimesInOrder(r: nat, q: nat)
    requires r < DAY_SECONDS && q < DAY_SECONDS
    ensures var a := Field(r / 3600, 2, ':', Field(r / 60 % 60, 2, ':', Field(r % 60, 2, 'Z', "")));
            var b := Field(q / 3600, 2, ':', Field(q / 60 % 60, 2, ':', Field(q % 60, 2, 'Z', "")));
            (Less(a, b) <==> r < q) && (a == b <==> r == q)
  {
    Pow10s();
    var a3, b3 := Field(r % 60, 2, 'Z', ""), Field(q % 60, 2, 'Z', "");
    var a2, b2 := Field(r / 60 % 60, 2, ':', a3), Field(q / 60 % 60, 2, ':', b3);
    FieldOrder(r % 60, q % 60, 2, 'Z', "", "");
    FieldOrder(r / 60 % 60, q / 60 % 60, 2, ':', a3, b3);
    FieldOrder(r / 3600, q / 3600, 2, ':', a2, b2);
    HourMinuteSecond(r);
    HourMinuteSecond(q);
  }

  lemma HourMinuteSecond(r: nat)
    ensures r == r / 3600 * 3600 + r / 60 % 60 * 60 + r % 60
  {
  }

  lemma DatesTextInOrder(a: Date, b: Date, x: string, y: string)
    requires ValidDate(a) && ValidDate(b) && a.y <= 9999 && b.y <= 9999
    ensures var s := Field(a.y, 4, '-', Field(a.m, 2, '-', Field(a.d, 2, 'T', x)));
            var t := Field(b.y, 4, '-', Field(b.m, 2, '-', Field(b.d, 2, 'T', y)));
            (Less(s, t) <==> DateLess(a, b) || (a == b && Less(x, y))) && (s == t <==> a == b && x == y)
  {
    Pow10s();
    FieldOrder(a.d, b.d, 2, 'T', x, y);
    FieldOrder(a.m, b.m, 2, '-', Field(a.d, 2, 'T', x), Field(b.d, 2, 'T', y));
    FieldOrder(a.y, b.y, 4, '-', Field(a.m, 2, '-', Field(a.d, 2, 'T', x)), Field(b.m, 2, '-', Field(b.d, 2, 'T', y)));
  }

  /** Comparing stored instants as text is comparing them as instants, to the second. */
  lemma StampsInOrder(t: int, u: int)
    requires InRange(t) && InRange(u)
    ensures Less(Stamp(t), Stamp(u)) <==> Trunc(t) < Trunc(u)
    ensures Stamp(t) == Stamp(u) <==> Trunc(t) == Trunc(u)
  {
    var n, m := Seconds(t), Seconds(u);
    InRangeMeans(t);
    InRangeMeans(u);
    var a, b := DateOf(n / DAY_SECONDS), DateOf(m / DAY_SECONDS);
    var r, q := n % DAY_SECONDS, m % DAY_SECONDS;
    TimesInOrder(r, q);
    DatesTextInOrder(a, b,
      Field(r / 3600, 2, ':', Field(r / 60 % 60, 2, ':', Field(r % 60, 2, 'Z', ""))),
      Field(q / 3600, 2, ':', Field(q / 60 % 60, 2, ':', Field(q % 60, 2, 'Z', ""))));
    if DateLess(a, b) {
      DatesInOrder(a, b);
    } else if DateLess(b, a) {
      DatesInOrder(b, a);
    }
  }

  // ----- Reading it back -----

  predicate AllDigits(s: string) {
    forall i :: 0 <= i < |s| ==> '0' <= s[i] <= '9'
  }

  function Num(s: string): nat
    requires AllDigits(s)
  {
    if s == [] then 0 else Num(s[..|s| - 1]) * 10 + (s[|s| - 1] as int - '0' as int)
  }

  lemma {:induction false} NumDigits(n: nat, w: nat)
    requires n < Pow10(w)
    ensures AllDigits(Digits(n, w)) && Num(Digits(n, w)) == n
  {
    if w > 0 {
      NumDigits(n / 10, w - 1);
      assert Digits(n, w)[..w - 1] == Digits(n / 10, w - 1);
    }
  }

  /** The instant a stored text names, or none if it is not in the stored form. */
  function Parse(s: string): Option<int> {
    if |s| == 20 && s[4] == '-' && s[7] == '-' && s[10] == 'T' && s[13] == ':' && s[16] == ':' && s[19] == 'Z'
    then ParseParts(s[..4], s[5..7], s[8..10], s[11..13], s[14..16], s[17..19])
    else None
  }

  function ParseParts(y: string, mo: string, d: string, h: string, mi: string, c: string): Option<int> {
    if AllDigits(y) && AllDigits(mo) && AllDigits(d) && AllDigits(h) && AllDigits(mi) && AllDigits(c)
    then Assemble(Date(Num(y), Num(mo), Num(d)), Num(h), Num(mi), Num(c))
    else None
  }

  function Assemble(a: Date, h: nat, mi: nat, c: nat): Option<int> {
    if ValidDate(a) && h < 24 && mi < 60 && c < 60
    then Some(InstantOf(DayOf(a) * DAY_SECONDS + h * 3600 + mi * 60 + c))
    else None
  }

  /** Two digits of a number below a hundred read back as that number. */
  lemma TwoDigits(n: nat)
    requires n < 100
    ensures AllDigits(Digits(n, 2)) && Num(Digits(n, 2)) == n
  {
    Pow10s();
    NumDigits(n, 2);
  }

  lemma FourDigits(n: nat)
    requires n < 10_000
    ensures AllDigits(Digits(n, 4)) && Num(Digits(n, 4)) == n
  {
    Pow10s();
    NumDigits(n, 4);
  }

  lemma PartsParse(y: string, mo: string, d: string, h: string, mi: string, c: string)
    requires AllDigits(y) && AllDigits(mo) && AllDigits(d) && AllDigits(h) && AllDigits(mi) && AllDigits(c)
    ensures ParseParts(y, mo, d, h, mi, c) == Assemble(Date(Num(y), Num(mo), Num(d)), Num(h), Num(mi), Num(c))
  {
  }

  /** Six fields and their separators, as one text. */
  function Layout(y: string, mo: string, d: string, h: string, mi: string, c: string): string {
    y + (['-'] + (mo + (['-'] + (d + (['T'] + (h + ([':'] + (mi + ([':'] + (c + (['Z'] + "")))))))))))
  }

  /** From place `i` on, the text is a field, a separator and the rest. */
  lemma Cut(s: string, i: nat, x: string, sep: char, rest: string)
    requires i <= |s| && s[i..] == x + ([sep] + rest)
    ensures i + |x| < |s| && s[i..i + |x|] == x && s[i + |x|] == sep && s[i + |x| + 1..] == rest
  {
    assert s[i..i + |x|] == s[i..][..|x|];
    assert s[i + |x|] == s[i..][|x|];
    assert s[i + |x| + 1..] == s[i..][|x| + 1..];
  }

  lemma LayoutParts(y: string, mo: string, d: string, h: string, mi: string, c: string)
    requires |y| == 4 && |mo| == |d| == |h| == |mi| == |c| == 2
    ensures var s := Layout(y, mo, d, h, mi, c);
      && |s| == 20 && s[4] == '-' && s[7] == '-' && s[10] == 'T' && s[13] == ':' && s[16] == ':' && s[19] == 'Z'
      && s[..4] == y && s[5..7] == mo && s[8..10] == d && s[11..13] == h && s[14..16] == mi && s[17..19] == c
  {
    var s := Layout(y, mo, d, h, mi, c);
    var r5 := c + (['Z'] + "");
    var r4 := mi + ([':'] + r5);
    var r3 := h + ([':'] + r4);
    var r2 := d + (['T'] + r3);
    var r1 := mo + (['-'] + r2);
    assert s[0..] == y + (['-'] + r1);
    Cut(s, 0, y, '-', r1);
    Cut(s, 5, mo, '-', r2);
    Cut(s, 8, d, 'T', r3);
    Cut(s, 11, h, ':', r4);
    Cut(s, 14, mi, ':', r5);
    Cut(s, 17, c, 'Z', "");
  }

  lemma ParseLayout(y: string, mo: string, d: string, h: string, mi: string, c: string)
    requires |y| == 4 && |mo| == |d| == |h| == |mi| == |c| == 2
    ensures Parse(Layout(y, mo, d, h, mi, c)) == ParseParts(y, mo, d, h, mi, c)
  {
    LayoutParts(y, mo, d, h, mi, c);
  }

  lemma AssembleDay(n: nat)
    ensures var a, r := DateOf(n / DAY_SECONDS), n % DAY_SECONDS;
      Assemble(a, r / 3600, r / 60 % 60, r % 60) == Some(InstantOf(n))
  {
    var day, r := n / DAY_SECONDS, n % DAY_SECONDS;
    var h, mi, c := r / 3600, r / 60 % 60, r % 60;
    ClockFits(r);
    assert n == day * DAY_SECONDS + (h * 3600 + mi * 60 + c);
    AssembleParts(DateOf(day), day, h, mi, c);
  }

  lemma ClockFits(r: nat)
    requires r < DAY_SECONDS
    ensures r / 3600 < 24 && r / 60 % 60 < 60 && r % 60 < 60
    ensures r / 3600 * 3600 + r / 60 % 60 * 60 + r % 60 == r
  {
    HourMinuteSecond(r);
  }

  lemma AssembleParts(a: Date, day: nat, h: nat, mi: nat, c: nat)
    requires ValidDate(a) && DayOf(a) == day && h < 24 && mi < 60 && c < 60
    ensures Assemble(a, h, mi, c) == Some(InstantOf(day * DAY_SECONDS + (h * 3600 + mi * 60 + c)))
  {
  }

  lemma ParseFields(a: Date, h: nat, mi: nat, c: nat)
    requires a.y < 10_000 && a.m < 100 && a.d < 100 && h < 100 && mi < 100 && c < 100
    ensures Parse(Layout(Digits(a.y, 4), Digits(a.m, 2), Digits(a.d, 2), Digits(h, 2), Digits(mi, 2), Digits(c, 2)))
         == Assemble(a, h, mi, c)
  {
    FourDigits(a.y);
    TwoDigits(a.m);
    TwoDigits(a.d);
    TwoDigits(h);
    TwoDigits(mi);
    TwoDigits(c);
    ParseLayout(Digits(a.y, 4), Digits(a.m, 2), Digits(a.d, 2), Digits(h, 2), Digits(mi, 2), Digits(c, 2));
    PartsParse(Digits(a.y, 4), Digits(a.m, 2), Digits(a.d, 2), Digits(h, 2), Digits(mi, 2), Digits(c, 2));
  }

  lemma TextIsLayout(n: nat)
    ensures var a, r := DateOf(n / DAY_SECONDS), n % DAY_SECONDS;
      TextOf(n) == Layout(Digits(a.y, 4), Digits(a.m, 2), Digits(a.d, 2),
                          Digits(r / 3600, 2), Digits(r / 60 % 60, 2), Digits(r % 60, 2))
  {
  }

  lemma TextParses(n: nat)
    requires DateOf(n / DAY_SECONDS).y <= 9999
    ensures Parse(TextOf(n)) == Some(InstantOf(n))
  {
    var a, r := DateOf(n / DAY_SECONDS), n % DAY_SECONDS;
    TextIsLayout(n);
    assert a.m < 100 && a.d < 100;
    assert r / 3600 < 100 && r / 60 % 60 < 100 && r % 60 < 100;
    ParseFields(a, r / 3600, r / 60 % 60, r % 60);
    AssembleDay(n);
  }

  lemma InstantOfSeconds(t: int)
    ensures InstantOf(Seconds(t)) == Trunc(t)
  {
  }

  /** Outside the four-digit years the year needs a sign or a fifth place. */
  lemma FarYear(day: int)
    requires day < 0 || FOUR_DIGIT_DAYS <= day
    ensures FarDate(day).1 < 0 || 10_000 <= FarDate(day).1
    ensures |YearText(FarDate(day).1)| >= 5
  {
    YearsBelow(FarDate(day).0, 400);
    if day < 0 {
      assert day / CYCLE_DAYS <= -1;
    } else {
      assert day / CYCLE_DAYS >= 25;
    }
  }

  lemma FarIsLonger(t: int)
    requires !InRange(t)
    ensures |Stamp(t)| >= 21
  {
    FarYear(Seconds(t) / DAY_SECONDS);
  }

  /** Reading a stored instant back yields it to the second, exactly in the four-digit years;
      any other instant is stored as a text that nothing can be read from. */
  lemma ParseStamp(t: int)
    ensures Parse(Stamp(t)) == if InRange(t) then Some(Trunc(t)) else None
  {
    if InRange(t) {
      InRangeMeans(t);
      TextParses(Seconds(t));
      InstantOfSeconds(t);
    } else {
      FarIsLonger(t);
    }
  }

  lemma LayoutNumbers(y: string, mo: string, d: string, h: string, mi: string, c: string, s: string)
    requires |y| == 4 && |mo| == |d| == |h| == |mi| == |c| == 2 && s == Layout(y, mo, d, h, mi, c)
    requires AllDigits(y) && AllDigits(mo) && AllDigits(d) && AllDigits(h) && AllDigits(mi) && AllDigits(c)
    ensures |s| == 20 && s[4] == s[7] == '-' && s[10] == 'T' && s[13] == s[16] == ':' && s[19] == 'Z'
    ensures AllDigits(s[..4]) && AllDigits(s[5..7]) && AllDigits(s[8..10])
    ensures AllDigits(s[11..13]) && AllDigits(s[14..16]) && AllDigits(s[17..19])
    ensures Num(s[..4]) == Num(y) && Num(s[5..7]) == Num(mo) && Num(s[8..10]) == Num(d)
    ensures Num(s[11..13]) == Num(h) && Num(s[14..16]) == Num(mi) && Num(s[17..19]) == Num(c)
  {
    LayoutParts(y, mo, d, h, mi, c);
  }

  /** The layout of RFC 3339: in the four-digit years an instant is stored as its date, a 'T',
      its time of day and a 'Z', each number in decimal. */
  lemma StampLayout(t: int)
    requires InRange(t)
    ensures var s, a, r := Stamp(t), DateOf(Seconds(t) / DAY_SECONDS), Seconds(t) % DAY_SECONDS;
      && |s| == 20 && s[4] == s[7] == '-' && s[10] == 'T' && s[13] == s[16] == ':' && s[19] == 'Z'
      && AllDigits(s[..4]) && AllDigits(s[5..7]) && AllDigits(s[8..10])
      && AllDigits(s[11..13]) && AllDigits(s[14..16]) && AllDigits(s[17..19])
      && Num(s[..4]) == a.y && Num(s[5..7]) == a.m && Num(s[8..10]) == a.d
      && Num(s[11..13]) == r / 3600 && Num(s[14..16]) == r / 60 % 60 && Num(s[17..19]) == r % 60
  {
    InRangeMeans(t);
    var n := Seconds(t);
    var a, r := DateOf(n / DAY_SECONDS), n % DAY_SECONDS;
    TextIsLayout(n);
    FourDigits(a.y);
    TwoDigits(a.m);
    TwoDigits(a.d);
    TwoDigits(r / 3600);
    TwoDigits(r / 60 % 60);
    TwoDigits(r % 60);
    LayoutNumbers(Digits(a.y, 4), Digits(a.m, 2), Digits(a.d, 2), Digits(r / 3600, 2), Digits(r / 60 % 60, 2),
                  Digits(r % 60, 2), Stamp(t));
  }

  /** The first of `w` digits. */
  function Leading(n: nat, w: nat): nat {
    if w <= 1 then n % 10 else Leading(n / 10, w - 1)
  }

  lemma {:induction false} FirstDigit(n: nat, w: nat)
    requires 1 <= w
    ensures Leading(n, w) < 10 && Digits(n, w)[0] == Digit(Leading(n, w))
  {
    if w > 1 {
      FirstDigit(n / 10, w - 1);
    }
  }

  lemma LeadingOfFour(y: nat)
    requires 2000 <= y < 10_000
    ensures Leading(y, 4) >= 2
  {
    assert Leading(y, 4) == Leading(y / 10 / 10, 2);
    assert Leading(y / 10 / 10, 2) == Leading(y / 10 / 10 / 10, 1);
  }

  lemma LeadingOfFive(y: nat)
    requires 10_000 <= y < 20_000
    ensures Leading(y, 5) == 1 && Places(y) == 5
  {
    assert Leading(y, 5) == Leading(y / 10 / 10, 3);
    assert Leading(y / 10 / 10, 3) == Leading(y / 10 / 10 / 10 / 10, 1);
    assert Places(y / 10) == 4;
  }

  lemma TextHead(t: int)
    requires InRange(t)
    ensures |Stamp(t)| > 0 && Stamp(t)[0] == Digits(DateOf(Seconds(t) / DAY_SECONDS).y, 4)[0]
  {
  }

  lemma FarHead(u: int)
    requires !InRange(u) && FarDate(Seconds(u) / DAY_SECONDS).1 >= 0
    ensures var y := FarDate(Seconds(u) / DAY_SECONDS).1;
      |Stamp(u)| > 0 && Stamp(u)[0] == Digits(y, Places(y))[0]
  {
  }

  lemma HeadsDiffer(y: nat, z: nat)
    requires 2000 <= y < 10_000 <= z < 20_000
    ensures Digits(z, Places(z))[0] < Digits(y, 4)[0]
  {
    FirstDigit(y, 4);
    FirstDigit(z, 5);
    LeadingOfFour(y);
    LeadingOfFive(z);
  }

  lemma HeadsDecide(a: string, b: string)
    requires |a| > 0 && |b| > 0 && a[0] < b[0]
    ensures Less(a, b)
  {
  }

  /** The order of the text ends with year 9999: the instants of the ten thousand years after
      it are stored as texts that come before all of this millennium and the next seven. */
  lemma OrderEndsWithYear9999(t: int, u: int, y: nat, z: nat)
    requires InRange(t) && 2000 <= y < 10_000 && DateOf(Seconds(t) / DAY_SECONDS).y == y
    requires !InRange(u) && 10_000 <= z < 20_000 && FarDate(Seconds(u) / DAY_SECONDS).1 == z
    ensures Less(Stamp(u), Stamp(t))
  {
    TextHead(t);
    FarHead(u);
    HeadsDiffer(y, z);
    HeadsDecide(Stamp(u), Stamp(t));
  }
}
