/** The stored timestamp strings (the section 5.6 form of RFC 3339 at second precision,
    always in UTC) and why comparing them as strings compares the instants they name. */
module Timestamps {
  import opened Wrappers

  /** A calendar reading in UTC. */
  datatype Civil = Civil(year: nat, month: nat, day: nat, hour: nat, minute: nat, second: nat)

  predicate Leap(y: int) {
    y % 4 == 0 && (y % 100 != 0 || y % 400 == 0)
  }

  function DaysInMonth(y: int, m: nat): nat {
    if m == 2 then (if Leap(y) then 29 else 28)
    else if m in {4, 6, 9, 11} then 30 else 31
  }

  predicate Valid(c: Civil) {
    && 1 <= c.year <= 9999 && 1 <= c.month <= 12
    && 1 <= c.day <= DaysInMonth(c.year, c.month)
    && c.hour < 24 && c.minute < 60 && c.second < 60
  }

  // ----- instants -----

  function DaysBeforeYear(y: int): int {
    365 * (y - 1) + (y - 1) / 4 - (y - 1) / 100 + (y - 1) / 400
  }

  function DaysBeforeMonth(y: int, m: nat): nat {
    if m <= 1 then 0 else DaysBeforeMonth(y, m - 1) + DaysInMonth(y, m - 1)
  }

  function DayNumber(c: Civil): int {
    DaysBeforeYear(c.year) + DaysBeforeMonth(c.year, c.month) + c.day - 1
  }

  /** Seconds since 0001-01-01T00:00:00+00:00. */
  function Instant(c: Civil): int {
    86400 * DayNumber(c) + 3600 * c.hour + 60 * c.minute + c.second
  }

  // ----- text -----

  function Digit(n: nat): char
    requires n < 10
  {
    "0123456789"[n]
  }

  /** `n` in exactly `w` decimal digits. */
  function Pad(n: nat, w: nat): (s: string)
    ensures |s| == w
  {
    if w == 0 then "" else Pad(n / 10, w - 1) + [Digit(n % 10)]
  }

  function Render(c: Civil): string {
    Pad(c.year, 4) + ("-" + (Pad(c.month, 2) + ("-" + (Pad(c.day, 2) + ("T" +
    (Pad(c.hour, 2) + (":" + (Pad(c.minute, 2) + (":" + (Pad(c.second, 2) + "+00:00"))))))))))
  }

  /** String order by code point, as the `<` of Python's str. */
  predicate LexLess(a: string, b: string) {
    if |b| == 0 then false
    else if |a| == 0 then true
    else a[0] < b[0] || (a[0] == b[0] && LexLess(a[1..], b[1..]))
  }

  lemma {:induction false} LexPrefix(x: string, y: string, s: string, t: string)
    requires |x| == |y|
    ensures LexLess(x + s, y + t) <==> LexLess(x, y) || (x == y && LexLess(s, t))
  {
    if |x| == 0 {
      assert x + s == s && y + t == t;
    } else {
      assert (x + s)[1..] == x[1..] + s && (y + t)[1..] == y[1..] + t;
      LexPrefix(x[1..], y[1..], s, t);
      assert x == [x[0]] + x[1..] && y == [y[0]] + y[1..];
    }
  }

  function Pow10(w: nat): nat {
    if w == 0 then 1 else 10 * Pow10(w - 1)
  }

  lemma {:induction false} PadOrder(a: nat, b: nat, w: nat)
    requires a < Pow10(w) && b < Pow10(w)
    ensures LexLess(Pad(a, w), Pad(b, w)) <==> a < b
    ensures Pad(a, w) == Pad(b, w) <==> a == b
  {
    if w > 0 {
      var x, y := Pad(a / 10, w - 1), Pad(b / 10, w - 1);
      var d, e := [Digit(a % 10)], [Digit(b % 10)];
      PadOrder(a / 10, b / 10, w - 1);
      LexPrefix(x, y, d, e);
      assert LexLess(d, e) <==> a % 10 < b % 10;
      assert x + d == y + e <==> x == y && d == e by {
        if x + d == y + e {
          assert x == (x + d)[..w - 1] && y == (y + e)[..w - 1];
          assert (x + d)[w - 1] == d[0] && (y + e)[w - 1] == e[0];
        }
      }
    }
  }

  /** One padded field decides the order unless it ties. */
  lemma FieldOrder(a: nat, b: nat, w: nat, s: string, t: string)
    requires a < Pow10(w) && b < Pow10(w)
    ensures LexLess(Pad(a, w) + s, Pad(b, w) + t) <==> a < b || (a == b && LexLess(s, t))
  {
    PadOrder(a, b, w);
    LexPrefix(Pad(a, w), Pad(b, w), s, t);
  }

  lemma SeparatorOrder(c: string, s: string, t: string)
    ensures LexLess(c + s, c + t) <==> LexLess(s, t)
  {
    LexPrefix(c, c, s, t);
    Irreflexive(c);
  }

  lemma Irreflexive(c: string)
    ensures !LexLess(c, c)
  {}

  predicate TimeBefore(a: Civil, b: Civil) {
    a.hour < b.hour || (a.hour == b.hour && (a.minute < b.minute || (a.minute == b.minute && a.second < b.second)))
  }

  predicate DateBefore(a: Civil, b: Civil) {
    a.year < b.year || (a.year == b.year && (a.month < b.month || (a.month == b.month && a.day < b.day)))
  }

  predicate SameDate(a: Civil, b: Civil) {
    a.year == b.year && a.month == b.month && a.day == b.day
  }

  function RenderTime(c: Civil): string {
    Pad(c.hour, 2) + (":" + (Pad(c.minute, 2) + (":" + (Pad(c.second, 2) + "+00:00"))))
  }

  lemma TimeTextOrder(a: Civil, b: Civil)
    requires Valid(a) && Valid(b)
    ensures LexLess(RenderTime(a), RenderTime(b)) <==> TimeBefore(a, b)
  {
    var z := "+00:00";
    var sa, sb := Pad(a.second, 2) + z, Pad(b.second, 2) + z;
    var ma, mb := Pad(a.minute, 2) + (":" + sa), Pad(b.minute, 2) + (":" + sb);
    assert Pow10(2) == 100 by { assert Pow10(1) == 10; }
    FieldOrder(a.hour, b.hour, 2, ":" + ma, ":" + mb);
    SeparatorOrder(":", ma, mb);
    FieldOrder(a.minute, b.minute, 2, ":" + sa, ":" + sb);
    SeparatorOrder(":", sa, sb);
    FieldOrder(a.second, b.second, 2, z, z);
    Irreflexive(z);
  }

  lemma TextOrder(a: Civil, b: Civil)
    requires Valid(a) && Valid(b)
    ensures LexLess(Render(a), Render(b)) <==> DateBefore(a, b) || (SameDate(a, b) && TimeBefore(a, b))
  {
    var ta, tb := RenderTime(a), RenderTime(b);
    var da, db := Pad(a.day, 2) + ("T" + ta), Pad(b.day, 2) + ("T" + tb);
    var ma, mb := Pad(a.month, 2) + ("-" + da), Pad(b.month, 2) + ("-" + db);
    assert Render(a) == Pad(a.year, 4) + ("-" + ma) && Render(b) == Pad(b.year, 4) + ("-" + mb);
    assert Pow10(2) == 100 && Pow10(4) == 10000 by { assert Pow10(1) == 10 && Pow10(3) == 1000; }
    assert a.day < 100 && b.day < 100;
    FieldOrder(a.year, b.year, 4, "-" + ma, "-" + mb);
    SeparatorOrder("-", ma, mb);
    FieldOrder(a.month, b.month, 2, "-" + da, "-" + db);
    SeparatorOrder("-", da, db);
    FieldOrder(a.day, b.day, 2, "T" + ta, "T" + tb);
    SeparatorOrder("T", ta, tb);
    TimeTextOrder(a, b);
  }

  // ----- the calendar -----

  function DaysInYear(y: int): nat { if Leap(y) then 366 else 365 }

  lemma LeapDaySteps(y: int)
    ensures y / 4 - (y - 1) / 4 == if y % 4 == 0 then 1 else 0
    ensures y / 100 - (y - 1) / 100 == if y % 100 == 0 then 1 else 0
    ensures y / 400 - (y - 1) / 400 == if y % 400 == 0 then 1 else 0
  {
    DivisionStep(y, 4);
    DivisionStep(y, 100);
    DivisionStep(y, 400);
  }

  lemma DivisionStep(y: int, k: int)
    requires k > 1
    ensures y / k - (y - 1) / k == if y % k == 0 then 1 else 0
  {
    var q, r := (y - 1) / k, (y - 1) % k;
    assert y - 1 == q * k + r;
    if r + 1 == k {
      QuotientIs(y, k, q + 1, 0);
    } else {
      QuotientIs(y, k, q, r + 1);
    }
  }

  lemma QuotientIs(y: int, k: int, q: int, r: int)
    requires k > 0 && 0 <= r < k && y == q * k + r
    ensures y / k == q && y % k == r
  {
    var d := q - y / k;
    assert d * k == y % k - r by { assert y == (y / k) * k + y % k; }
    assert d >= 1 ==> d * k >= k;
    assert d <= -1 ==> d * k <= -k;
  }

  lemma YearLength(y: int)
    ensures DaysBeforeYear(y + 1) == DaysBeforeYear(y) + DaysInYear(y)
  {
    LeapDaySteps(y);
    if y % 400 == 0 { assert y % 100 == 0 by { Multiples(y, 4, 100); } }
    if y % 100 == 0 { assert y % 4 == 0 by { Multiples(y, 25, 4); } }
  }

  lemma Multiples(y: int, j: int, k: int)
    requires j > 0 && k > 0 && y % (j * k) == 0
    ensures y % k == 0
  {
    var q := y / (j * k);
    assert y == q * (j * k) == (q * j) * k;
    QuotientIs(y, k, q * j, 0);
  }

  lemma {:induction false} YearsApart(y: int, z: int)
    requires y < z
    ensures DaysBeforeYear(y) + DaysInYear(y) <= DaysBeforeYear(z)
    decreases z - y
  {
    YearLength(y);
    if y + 1 < z { YearsApart(y + 1, z); }
  }

  lemma {:induction false} MonthsApart(y: int, m: nat, n: nat)
    requires 1 <= m < n
    ensures DaysBeforeMonth(y, m) + DaysInMonth(y, m) <= DaysBeforeMonth(y, n)
  {
    if m + 1 < n { MonthsApart(y, m, n - 1); }
  }

  lemma YearIsTwelveMonths(y: int)
    ensures DaysBeforeMonth(y, 12) + DaysInMonth(y, 12) == DaysInYear(y)
  {
    assert DaysBeforeMonth(y, 2) == 31 by { assert DaysBeforeMonth(y, 1) == 0; }
    assert DaysBeforeMonth(y, 4) == 62 + DaysInMonth(y, 2) by { assert DaysBeforeMonth(y, 3) == 31 + DaysInMonth(y, 2); }
    assert DaysBeforeMonth(y, 6) == 123 + DaysInMonth(y, 2) by { assert DaysBeforeMonth(y, 5) == 92 + DaysInMonth(y, 2); }
    assert DaysBeforeMonth(y, 8) == 184 + DaysInMonth(y, 2) by { assert DaysBeforeMonth(y, 7) == 153 + DaysInMonth(y, 2); }
    assert DaysBeforeMonth(y, 10) == 245 + DaysInMonth(y, 2) by { assert DaysBeforeMonth(y, 9) == 215 + DaysInMonth(y, 2); }
    assert DaysBeforeMonth(y, 11) == 276 + DaysInMonth(y, 2);
  }

  lemma InsideYear(c: Civil)
    requires Valid(c)
    ensures DaysBeforeMonth(c.year, c.month) + c.day <= DaysInYear(c.year)
  {
    YearIsTwelveMonths(c.year);
    if c.month < 12 { MonthsApart(c.year, c.month, 12); }
  }

  lemma LaterDate(a: Civil, b: Civil)
    requires Valid(a) && Valid(b) && DateBefore(a, b)
    ensures DayNumber(a) < DayNumber(b)
  {
    InsideYear(a);
    if a.year < b.year {
      YearsApart(a.year, b.year);
    } else if a.month < b.month {
      MonthsApart(a.year, a.month, b.month);
    }
  }

  /** Comparing two stored timestamps as strings compares the instants they name. */
  lemma StringOrderIsTimeOrder(a: Civil, b: Civil)
    requires Valid(a) && Valid(b)
    ensures LexLess(Render(a), Render(b)) <==> Instant(a) < Instant(b)
    ensures Render(a) == Render(b) <==> Instant(a) == Instant(b)
    ensures Render(a) == Render(b) <==> a == b
  {
    TextOrder(a, b);
    TextOrder(b, a);
    Irreflexive(Render(a));
    if DateBefore(a, b) { LaterDate(a, b); }
    else if DateBefore(b, a) { LaterDate(b, a); }
    else if a != b { assert TimeBefore(a, b) || TimeBefore(b, a); }
  }

  // ----- acceptance of stored text -----

  predicate IsDigit(c: char) { '0' <= c <= '9' }

  predicate Digits(s: string) { forall i :: 0 <= i < |s| ==> IsDigit(s[i]) }

  function Number(s: string): nat
    requires Digits(s)
  {
    if |s| == 0 then 0 else 10 * Number(s[..|s| - 1]) + (s[|s| - 1] - '0') as nat
  }

  lemma {:induction false} NumberPad(s: string)
    requires Digits(s)
    ensures Number(s) < Pow10(|s|) && Pad(Number(s), |s|) == s
  {
    if |s| > 0 {
      NumberPad(s[..|s| - 1]);
      var d := (s[|s| - 1] - '0') as nat;
      assert Number(s) / 10 == Number(s[..|s| - 1]) && Number(s) % 10 == d;
      assert s == s[..|s| - 1] + [s[|s| - 1]];
    }
  }

  lemma DigitValue(d: nat)
    requires d < 10
    ensures IsDigit(Digit(d)) && (Digit(d) - '0') as nat == d
  {}

  lemma {:induction false} PadNumber(n: nat, w: nat)
    requires n < Pow10(w)
    ensures Digits(Pad(n, w)) && Number(Pad(n, w)) == n
  {
    if w > 0 {
      var s, p := Pad(n, w), Pad(n / 10, w - 1);
      PadNumber(n / 10, w - 1);
      DigitValue(n % 10);
      assert s == p + [Digit(n % 10)] && s[..w - 1] == p && s[w - 1] == Digit(n % 10);
      assert Digits(s) by {
        forall i | 0 <= i < w ensures IsDigit(s[i]) { if i < w - 1 { assert s[i] == p[i]; } }
      }
      assert Number(s) == 10 * Number(p) + n % 10;
    }
  }

  /** What the receipt store accepts as a timestamp: a text that reads as a UTC
      calendar time and that printing reproduces. */
  function Read(s: string): Option<Civil> {
    if |s| == 25
       && s[4] == '-' && s[7] == '-' && s[10] == 'T' && s[13] == ':' && s[16] == ':' && s[19..] == "+00:00"
       && Digits(s[..4]) && Digits(s[5..7]) && Digits(s[8..10])
       && Digits(s[11..13]) && Digits(s[14..16]) && Digits(s[17..19])
    then
      var c := Civil(Number(s[..4]), Number(s[5..7]), Number(s[8..10]),
                     Number(s[11..13]), Number(s[14..16]), Number(s[17..19]));
      if Valid(c) then Some(c) else None
    else None
  }

  lemma Peel(s: string, k: nat, x: string, y: string)
    requires k <= |s| && s[k..] == x + y
    ensures k + |x| <= |s| && s[k..k + |x|] == x && s[k + |x|..] == y
  {
    assert s[k..][..|x|] == x && s[k..][|x|..] == y;
    assert s[k..k + |x|] == s[k..][..|x|];
    assert s[k + |x|..] == s[k..][|x|..];
  }

  lemma PeelChar(s: string, k: nat, c: char, y: string)
    requires k <= |s| && s[k..] == [c] + y
    ensures k < |s| && s[k] == c && s[k + 1..] == y
  {
    assert s[k..][0] == c;
    Peel(s, k, [c], y);
  }

  lemma TimeLayout(s: string, c: Civil)
    requires |s| >= 11 && s[11..] == RenderTime(c)
    ensures |s| == 25 && s[13] == ':' && s[16] == ':'
    ensures s[11..13] == Pad(c.hour, 2) && s[14..16] == Pad(c.minute, 2) && s[17..19] == Pad(c.second, 2)
    ensures s[19..] == "+00:00"
  {
    var r5 := Pad(c.second, 2) + "+00:00";
    var r4 := Pad(c.minute, 2) + (":" + r5);
    Peel(s, 11, Pad(c.hour, 2), ":" + r4);
    PeelChar(s, 13, ':', r4);
    Peel(s, 14, Pad(c.minute, 2), ":" + r5);
    PeelChar(s, 16, ':', r5);
    Peel(s, 17, Pad(c.second, 2), "+00:00");
  }

  lemma DateLayout(s: string, c: Civil)
    requires s == Render(c)
    ensures |s| >= 11 && s[4] == '-' && s[7] == '-' && s[10] == 'T'
    ensures s[..4] == Pad(c.year, 4) && s[5..7] == Pad(c.month, 2) && s[8..10] == Pad(c.day, 2)
    ensures s[11..] == RenderTime(c)
  {
    var r3 := RenderTime(c);
    var r2 := Pad(c.day, 2) + ("T" + r3);
    var r1 := Pad(c.month, 2) + ("-" + r2);
    assert s == Pad(c.year, 4) + ("-" + r1);
    assert s[0..] == s;
    Peel(s, 0, Pad(c.year, 4), "-" + r1);
    PeelChar(s, 4, '-', r1);
    Peel(s, 5, Pad(c.month, 2), "-" + r2);
    PeelChar(s, 7, '-', r2);
    Peel(s, 8, Pad(c.day, 2), "T" + r3);
    PeelChar(s, 10, 'T', r3);
  }

  lemma RenderLayout(c: Civil)
    ensures var s := Render(c);
      && |s| == 25 && s[4] == '-' && s[7] == '-' && s[10] == 'T' && s[13] == ':' && s[16] == ':'
      && s[..4] == Pad(c.year, 4) && s[5..7] == Pad(c.month, 2) && s[8..10] == Pad(c.day, 2)
      && s[11..13] == Pad(c.hour, 2) && s[14..16] == Pad(c.minute, 2) && s[17..19] == Pad(c.second, 2)
      && s[19..] == "+00:00"
  {
    var s := Render(c);
    DateLayout(s, c);
    TimeLayout(s, c);
  }

  lemma Widths()
    ensures Pow10(2) == 100 && Pow10(4) == 10000
  {
    assert Pow10(1) == 10 && Pow10(3) == 1000;
  }

  /** Every calendar time survives printing and reading. */
  lemma ReadAfterRender(c: Civil)
    requires Valid(c)
    ensures Read(Render(c)) == Some(c)
  {
    Widths();
    RenderLayout(c);
    assert c.day < 100;
    PadNumber(c.year, 4);
    PadNumber(c.month, 2);
    PadNumber(c.day, 2);
    PadNumber(c.hour, 2);
    PadNumber(c.minute, 2);
    PadNumber(c.second, 2);
  }

  lemma SameFields(s: string, t: string)
    requires |s| == |t| == 25
    requires s[4] == t[4] && s[7] == t[7] && s[10] == t[10] && s[13] == t[13] && s[16] == t[16]
    requires s[..4] == t[..4] && s[5..7] == t[5..7] && s[8..10] == t[8..10]
    requires s[11..13] == t[11..13] && s[14..16] == t[14..16] && s[17..19] == t[17..19] && s[19..] == t[19..]
    ensures s == t
  {
    forall i | 0 <= i < 25 ensures s[i] == t[i] {
      if i < 4 { assert s[..4][i] == t[..4][i]; }
      else if 5 <= i < 7 { assert s[5..7][i - 5] == t[5..7][i - 5]; }
      else if 8 <= i < 10 { assert s[8..10][i - 8] == t[8..10][i - 8]; }
      else if 11 <= i < 13 { assert s[11..13][i - 11] == t[11..13][i - 11]; }
      else if 14 <= i < 16 { assert s[14..16][i - 14] == t[14..16][i - 14]; }
      else if 17 <= i < 19 { assert s[17..19][i - 17] == t[17..19][i - 17]; }
      else if 19 <= i { assert s[19..][i - 19] == t[19..][i - 19]; }
    }
  }

  /** Only printed calendar times are read. */
  lemma RenderAfterRead(s: string)
    requires Read(s).Some?
    ensures Valid(Read(s).value) && Render(Read(s).value) == s
  {
    NumberPad(s[..4]);
    NumberPad(s[5..7]);
    NumberPad(s[8..10]);
    NumberPad(s[11..13]);
    NumberPad(s[14..16]);
    NumberPad(s[17..19]);
    RenderLayout(Read(s).value);
    SameFields(Render(Read(s).value), s);
  }
}
