/** The text in which the store keeps an instant, and what comparing such texts in SQL means.

    Instants are counted in nanoseconds from the start of year 0; a civil time is the UTC calendar
    reading of an instant, which Go's time package computes and this model takes as given. */
module Timestamps {
  import opened ByteOrder
  import opened Decimal
  import opened Domain

  const SECOND: int := 1_000_000_000

  // time.Duration(n) * time.Minute
  function Minutes(n: int): int {
    60_000_000_000 * n
  }

  datatype Civil = Civil(year: nat, month: nat, day: nat, hour: nat, minute: nat, second: nat, nanos: nat)

  predicate Leap(y: nat) {
    y % 4 == 0 && (y % 100 != 0 || y % 400 == 0)
  }

  function DaysIn(y: nat, m: nat): nat {
    if m == 2 then if Leap(y) then 29 else 28
    else if m == 4 || m == 6 || m == 9 || m == 11 then 30
    else 31
  }

  predicate Valid(c: Civil) {
    && c.year <= 9999 && 1 <= c.month <= 12 && 1 <= c.day <= DaysIn(c.year, c.month)
    && c.hour < 24 && c.minute < 60 && c.second < 60 && c.nanos < SECOND
  }

  // Days before the first day of a year, and before the first day of a month within its year.
  function YearStart(y: nat): nat {
    if y == 0 then 0 else YearStart(y - 1) + if Leap(y - 1) then 366 else 365
  }

  function MonthStart(y: nat, m: nat): nat {
    if m <= 1 then 0 else MonthStart(y, m - 1) + DaysIn(y, m - 1)
  }

  function Seconds(c: Civil): int {
    (((YearStart(c.year) + MonthStart(c.year, c.month) + c.day - 1) * 24 + c.hour) * 60 + c.minute) * 60 + c.second
  }

  function Instant(c: Civil): int {
    Seconds(c) * SECOND + c.nanos
  }

  /** Year 0 is a leap year, so Go's zero time comes 366 days after its start. */
  lemma ZeroTime()
    ensures Instant(Civil(1, 1, 1, 0, 0, 0, 0)) == ZERO_TIME
  {
    assert YearStart(1) == 366 && MonthStart(1, 1) == 0;
  }

  // ----- the stored text: RFC 3339 in UTC, the fraction written without trailing zeros -----

  function TrimZeros(s: string): (t: string)
    ensures |t| <= |s|
  {
    if s != "" && s[|s| - 1] == '0' then TrimZeros(s[..|s| - 1]) else s
  }

  // The significant digits of a fraction of a second; none when it is zero.
  function FractionDigits(nanos: nat): string {
    TrimZeros(Digits(nanos, 9))
  }

  function FractionText(nanos: nat): (t: string)
    ensures t != ""
  {
    var digits := FractionDigits(nanos);
    (if digits == "" then "" else "." + digits) + "Z"
  }

  function ClockText(c: Civil): string {
    Digits(c.year, 4) + ("-" + (Digits(c.month, 2) + ("-" + (Digits(c.day, 2) + ("T" +
    (Digits(c.hour, 2) + (":" + (Digits(c.minute, 2) + (":" + Digits(c.second, 2))))))))))
  }

  function Timestamp(c: Civil): string {
    ClockText(c) + FractionText(c.nanos)
  }

  // ----- what the byte order of two stored texts says about the instants -----

  /** Byte order of two stored texts, told from the instants alone (StoredOrder below). */
  predicate TextBefore(t: int, u: int) {
    t / SECOND < u / SECOND ||
    (t / SECOND == u / SECOND && Below(FractionText(t % SECOND), FractionText(u % SECOND)))
  }

  lemma {:induction false} DigitsOrder(n: nat, m: nat, width: nat)
    requires n < Pow10(width) && m < Pow10(width)
    ensures Below(Digits(n, width), Digits(m, width)) <==> n < m
    ensures Digits(n, width) == Digits(m, width) <==> n == m
  {
    if width > 0 {
      DigitsOrder(n / 10, m / 10, width - 1);
      var x, y := [DigitChar(n % 10)], [DigitChar(m % 10)];
      BelowBlock(Digits(n / 10, width - 1), Digits(m / 10, width - 1), x, y);
      assert Below(x, y) <==> n % 10 < m % 10;
      if Digits(n, width) == Digits(m, width) {
        assert Digits(n, width)[..width - 1] == Digits(n / 10, width - 1);
        assert Digits(m, width)[..width - 1] == Digits(m / 10, width - 1);
        assert Digits(n, width)[width - 1] == x[0] && Digits(m, width)[width - 1] == y[0];
      }
    }
  }

  lemma TenPowers()
    ensures Pow10(2) == 100 && Pow10(4) == 10_000 && Pow10(9) == SECOND
  {
    assert Pow10(3) == 1000 && Pow10(6) == 1_000_000;
  }

  // One field of the clock text decides, or the rest does.
  lemma FieldOrder(n: nat, m: nat, width: nat, sep: string, a: string, b: string)
    requires n < Pow10(width) && m < Pow10(width)
    ensures Below(Digits(n, width) + (sep + a), Digits(m, width) + (sep + b)) <==> n < m || (n == m && Below(a, b))
  {
    DigitsOrder(n, m, width);
    BelowBlock(Digits(n, width), Digits(m, width), sep + a, sep + b);
    BelowPrefix(sep, a, b);
  }

  predicate ClockBefore(c: Civil, d: Civil) {
    c.year < d.year || (c.year == d.year && (
    c.month < d.month || (c.month == d.month && (
    c.day < d.day || (c.day == d.day && (
    c.hour < d.hour || (c.hour == d.hour && (
    c.minute < d.minute || (c.minute == d.minute &&
    c.second < d.second)))))))))
  }

  lemma ClockTextOrder(c: Civil, d: Civil)
    requires Valid(c) && Valid(d)
    ensures Below(ClockText(c), ClockText(d)) <==> ClockBefore(c, d)
  {
    TenPowers();
    DigitsOrder(c.second, d.second, 2);
    var c1, d1 := Digits(c.second, 2), Digits(d.second, 2);
    FieldOrder(c.minute, d.minute, 2, ":", c1, d1);
    var c2, d2 := Digits(c.minute, 2) + (":" + c1), Digits(d.minute, 2) + (":" + d1);
    FieldOrder(c.hour, d.hour, 2, ":", c2, d2);
    var c3, d3 := Digits(c.hour, 2) + (":" + c2), Digits(d.hour, 2) + (":" + d2);
    FieldOrder(c.day, d.day, 2, "T", c3, d3);
    var c4, d4 := Digits(c.day, 2) + ("T" + c3), Digits(d.day, 2) + ("T" + d3);
    FieldOrder(c.month, d.month, 2, "-", c4, d4);
    var c5, d5 := Digits(c.month, 2) + ("-" + c4), Digits(d.month, 2) + ("-" + d4);
    FieldOrder(c.year, d.year, 4, "-", c5, d5);
  }

  lemma {:induction false} YearStartMonotone(y: nat, z: nat)
    requires y < z
    ensures YearStart(y) + (if Leap(y) then 366 else 365) <= YearStart(z)
    decreases z
  {
    if y + 1 < z {
      YearStartMonotone(y, z - 1);
    }
  }

  lemma {:induction false} MonthStartMonotone(y: nat, m: nat, n: nat)
    requires 1 <= m < n
    ensures MonthStart(y, m) + DaysIn(y, m) <= MonthStart(y, n)
    decreases n
  {
    if m + 1 < n {
      MonthStartMonotone(y, m, n - 1);
    }
  }

  lemma YearLength(y: nat)
    ensures MonthStart(y, 13) == if Leap(y) then 366 else 365
  {
    var february := DaysIn(y, 2);
    assert MonthStart(y, 2) == 31 && MonthStart(y, 3) == 31 + february;
    assert MonthStart(y, 4) == 62 + february && MonthStart(y, 5) == 92 + february;
    assert MonthStart(y, 6) == 123 + february && MonthStart(y, 7) == 153 + february;
    assert MonthStart(y, 8) == 184 + february && MonthStart(y, 9) == 215 + february;
    assert MonthStart(y, 10) == 245 + february && MonthStart(y, 11) == 276 + february;
    assert MonthStart(y, 12) == 306 + february;
  }

  // An earlier calendar reading is an earlier second.
  lemma ClockBeforeIsEarlier(c: Civil, d: Civil)
    requires Valid(c) && Valid(d) && ClockBefore(c, d)
    ensures Seconds(c) < Seconds(d)
  {
    var cDay := YearStart(c.year) + MonthStart(c.year, c.month) + c.day;
    var dDay := YearStart(d.year) + MonthStart(d.year, d.month) + d.day;
    if c.year < d.year {
      YearStartMonotone(c.year, d.year);
      YearLength(c.year);
      MonthStartMonotone(c.year, c.month, 13);
      assert cDay < dDay;
    } else if c.month < d.month {
      MonthStartMonotone(c.year, c.month, d.month);
      assert cDay < dDay;
    }
  }

  lemma ClockOrder(c: Civil, d: Civil)
    requires Valid(c) && Valid(d)
    ensures ClockBefore(c, d) <==> Seconds(c) < Seconds(d)
    ensures ClockText(c) == ClockText(d) <==> Seconds(c) == Seconds(d)
  {
    if ClockBefore(c, d) {
      ClockBeforeIsEarlier(c, d);
    } else if ClockBefore(d, c) {
      ClockBeforeIsEarlier(d, c);
    }
    ClockTextOrder(c, d);
    ClockTextOrder(d, c);
    BelowTrichotomy(ClockText(c), ClockText(d));
    BelowIrreflexive(ClockText(c));
  }

  /** Comparing two stored texts byte by byte is exactly TextBefore on the instants they denote. */
  lemma StoredOrder(c: Civil, d: Civil)
    requires Valid(c) && Valid(d)
    ensures Below(Timestamp(c), Timestamp(d)) <==> TextBefore(Instant(c), Instant(d))
  {
    BelowBlock(ClockText(c), ClockText(d), FractionText(c.nanos), FractionText(d.nanos));
    ClockTextOrder(c, d);
    ClockOrder(c, d);
    assert Instant(c) / SECOND == Seconds(c) && Instant(c) % SECOND == c.nanos;
    assert Instant(d) / SECOND == Seconds(d) && Instant(d) % SECOND == d.nanos;
  }

  // ----- within one second -----

  lemma {:induction false} TrimZerosShape(s: string)
    ensures |TrimZeros(s)| <= |s| && TrimZeros(s) == s[..|TrimZeros(s)|]
    ensures forall i :: |TrimZeros(s)| <= i < |s| ==> s[i] == '0'
    ensures TrimZeros(s) != "" ==> s[|TrimZeros(s)| - 1] != '0'
  {
    if s != "" && s[|s| - 1] == '0' {
      TrimZerosShape(s[..|s| - 1]);
    }
  }

  lemma FractionTextIsDigits(n: nat)
    ensures FractionText(n) == (if FractionDigits(n) == "" then "Z" else "." + (FractionDigits(n) + "Z"))
  {
    assert "." + FractionDigits(n) + "Z" == "." + (FractionDigits(n) + "Z");
  }

  // Trimmed digit strings, each closed by Z: a proper prefix sorts after the longer one.
  lemma TrimmedOrder(a: string, b: string)
    requires |a| == |b| && Below(a, b)
    requires forall i :: 0 <= i < |a| ==> '0' <= a[i] <= '9' && '0' <= b[i] <= '9'
    ensures TrimZeros(b) != ""
    ensures Below(TrimZeros(a) + "Z", TrimZeros(b) + "Z") <==> !(TrimZeros(a) <= TrimZeros(b))
    ensures Below(TrimZeros(b) + "Z", TrimZeros(a) + "Z") <==> TrimZeros(a) <= TrimZeros(b)
  {
    var i := BelowWitness(a, b);
    TrimZerosShape(a);
    TrimZerosShape(b);
    var x, y := TrimZeros(a), TrimZeros(b);
    assert |y| > i;
    if |x| <= i {
      assert x == a[..i][..|x|] == b[..i][..|x|] == y[..|x|];
      assert (y + "Z")[..|x|] == (x + "Z")[..|x|];
      assert (y + "Z")[|x|] == b[|x|];
      BelowAt(y + "Z", x + "Z", |x|);
    } else {
      assert x[i] == a[i] && y[i] == b[i];
      assert (x + "Z")[..i] == a[..i] && (y + "Z")[..i] == b[..i];
      BelowAt(x + "Z", y + "Z", i);
    }
  }

  // The same with the leading point, which an empty fraction does not have.
  lemma FractionOrder(n: nat, m: nat)
    requires n < m < SECOND
    ensures Below(FractionText(n), FractionText(m)) <==> !(FractionDigits(n) <= FractionDigits(m))
    ensures Below(FractionText(m), FractionText(n)) <==> FractionDigits(n) <= FractionDigits(m)
  {
    TenPowers();
    DigitsOrder(n, m, 9);
    TrimmedOrder(Digits(n, 9), Digits(m, 9));
    var x, y := FractionDigits(n), FractionDigits(m);
    FractionTextIsDigits(n);
    FractionTextIsDigits(m);
    if x == "" {
      BelowAt("." + (y + "Z"), "Z", 0);
    } else {
      BelowPrefix(".", x + "Z", y + "Z");
      BelowPrefix(".", y + "Z", x + "Z");
    }
  }

  /** Within one UTC second stored texts agree with time exactly when the earlier fraction, written
      without its trailing zeros, is not a prefix of the later one. */
  lemma OrderWithinSecond(t: int, u: int)
    requires t / SECOND == u / SECOND && t < u
    ensures TextBefore(t, u) <==> !(FractionDigits(t % SECOND) <= FractionDigits(u % SECOND))
    ensures TextBefore(u, t) <==> FractionDigits(t % SECOND) <= FractionDigits(u % SECOND)
  {
    FractionOrder(t % SECOND, u % SECOND);
  }

  /** Five seconds past is stored after five and a half seconds past: the order is not time's. */
  lemma OrderWithinSecondCanFail()
    ensures TextBefore(5 * SECOND + SECOND / 2, 5 * SECOND)
  {
    TrimZerosShape(Digits(0, 9));
    TenPowers();
    assert FractionDigits(0) == "" by {
      ZeroDigits(9);
    }
    OrderWithinSecond(5 * SECOND, 5 * SECOND + SECOND / 2);
  }

  lemma {:induction false} ZeroDigits(width: nat)
    ensures forall i :: 0 <= i < width ==> Digits(0, width)[i] == '0'
  {
    if width > 0 {
      ZeroDigits(width - 1);
    }
  }

  // ----- TextBefore orders instants -----

  lemma TextBeforeIrreflexive(t: int)
    ensures !TextBefore(t, t)
  {
    BelowIrreflexive(FractionText(t % SECOND));
  }

  lemma TextBeforeTransitive(t: int, u: int, v: int)
    requires TextBefore(t, u) && TextBefore(u, v)
    ensures TextBefore(t, v)
  {
    if t / SECOND == u / SECOND == v / SECOND {
      BelowTransitive(FractionText(t % SECOND), FractionText(u % SECOND), FractionText(v % SECOND));
    }
  }

  lemma TextBeforeTrichotomy(t: int, u: int)
    ensures t != u ==> (TextBefore(t, u) <==> !TextBefore(u, t))
  {
    if t / SECOND == u / SECOND {
      if t < u {
        OrderWithinSecond(t, u);
      } else if u < t {
        OrderWithinSecond(u, t);
      }
    }
  }

  // ----- reading a stored text back -----

  // The fraction, if any, and the closing Z.
  function ParseFraction(s: string): Option<nat> {
    if s == "Z" then Some(0)
    else if |s| < 3 || |s| > 11 || s[0] != '.' || s[|s| - 1] != 'Z' then None
    else
      var digits := s[1..|s| - 1];
      var value := DigitsValue(digits);
      if value.None? then None else Some(value.value * Pow10(9 - |digits|))
  }

  // A number of the given width and its separator; what follows is left for the next field.
  function ParseField(s: string, width: nat, sep: char): Option<(nat, string)> {
    if |s| <= width || s[width] != sep then None
    else
      var value := DigitsValue(s[..width]);
      if value.None? then None else Some((value.value, s[width + 1..]))
  }

  function ParseTimestamp(s: string): Option<Civil> {
    var year := ParseField(s, 4, '-');
    if year.None? then None else
    var month := ParseField(year.value.1, 2, '-');
    if month.None? then None else
    var day := ParseField(month.value.1, 2, 'T');
    if day.None? then None else
    var hour := ParseField(day.value.1, 2, ':');
    if hour.None? then None else
    var minute := ParseField(hour.value.1, 2, ':');
    if minute.None? || |minute.value.1| < 2 then None else
    var second, nanos := DigitsValue(minute.value.1[..2]), ParseFraction(minute.value.1[2..]);
    if second.None? || nanos.None? then None else
    var c := Civil(year.value.0, month.value.0, day.value.0, hour.value.0, minute.value.0, second.value, nanos.value);
    if Valid(c) then Some(c) else None
  }

  lemma MoveTen(v: nat, p: nat)
    ensures 10 * (v * p) == v * (10 * p)
  {
  }

  // Trailing zeros only shift the value.
  lemma {:induction false} DigitsValueOfTrimmed(s: string)
    requires DigitsValue(s).Some?
    ensures DigitsValue(TrimZeros(s)).Some?
    ensures DigitsValue(s).value == DigitsValue(TrimZeros(s)).value * Pow10(|s| - |TrimZeros(s)|)
  {
    if s != "" && s[|s| - 1] == '0' {
      var front := s[..|s| - 1];
      DigitsValueOfTrimmed(front);
      var v, k := DigitsValue(TrimZeros(front)).value, |front| - |TrimZeros(front)|;
      assert DigitsValue(s).value == 10 * (v * Pow10(k));
      assert Pow10(k + 1) == 10 * Pow10(k);
      MoveTen(v, Pow10(k));
    }
  }

  lemma ParseFractionOfText(n: nat)
    requires n < SECOND
    ensures ParseFraction(FractionText(n)) == Some(n)
  {
    TenPowers();
    var digits := FractionDigits(n);
    DigitsValueOfDigits(n, 9);
    DigitsValueOfTrimmed(Digits(n, 9));
    TrimZerosShape(Digits(n, 9));
    if digits != "" {
      assert FractionText(n)[1..|FractionText(n)| - 1] == digits;
    }
  }

  lemma ParseFieldOf(n: nat, width: nat, sep: char, rest: string, f: string)
    requires n < Pow10(width)
    ensures ParseField(Digits(n, width) + ([sep] + rest) + f, width, sep) == Some((n, rest + f))
  {
    DigitsValueOfDigits(n, width);
    var x := Digits(n, width);
    hide Digits, DigitsValue, Pow10;
    var s := x + ([sep] + rest) + f;
    assert s == x + ([sep] + (rest + f));
    assert s[..width] == x && s[width + 1..] == rest + f;
  }

  /** Every instant of the years 0 to 9999 reads back from its stored text unchanged. */
  lemma ParseOfTimestamp(c: Civil)
    requires Valid(c)
    ensures ParseTimestamp(Timestamp(c)) == Some(c)
  {
    TenPowers();
    hide Digits, DigitsValue, ParseFraction, ParseField, FractionText, Pow10;
    var f := FractionText(c.nanos);
    var s1 := Digits(c.second, 2);
    var s2 := Digits(c.minute, 2) + (":" + s1);
    var s3 := Digits(c.hour, 2) + (":" + s2);
    var s4 := Digits(c.day, 2) + ("T" + s3);
    var s5 := Digits(c.month, 2) + ("-" + s4);
    ParseFieldOf(c.year, 4, '-', s5, f);
    ParseFieldOf(c.month, 2, '-', s4, f);
    ParseFieldOf(c.day, 2, 'T', s3, f);
    ParseFieldOf(c.hour, 2, ':', s2, f);
    ParseFieldOf(c.minute, 2, ':', s1, f);
    DigitsValueOfDigits(c.second, 2);
    ParseFractionOfText(c.nanos);
    assert (s1 + f)[..2] == s1 && (s1 + f)[2..] == f;
  }
}
