/** Numbers and dates as decimal text, and the order of such texts. */
module Decimal {
  import opened Names

  predicate IsDigit(c: char) { '0' <= c <= '9' }

  predicate AllDigits(s: string) { s != "" && forall i :: 0 <= i < |s| ==> IsDigit(s[i]) }

  function Digit(c: char): nat
    requires IsDigit(c)
  {
    c as int - '0' as int
  }

  function DigitChar(n: nat): char
    requires n < 10
  {
    ('0' as int + n) as char
  }

  /** The number a digit string denotes. */
  function Value(s: string): nat
    requires forall i :: 0 <= i < |s| ==> IsDigit(s[i])
  {
    if s == "" then 0 else 10 * Value(s[..|s| - 1]) + Digit(s[|s| - 1])
  }

  /** The last k decimal digits of n, zero-padded: `f"{n:0kd}"` where n has at most k digits. */
  function Padded(n: nat, k: nat): (r: string)
    ensures |r| == k && forall i :: 0 <= i < k ==> IsDigit(r[i])
  {
    if k == 0 then "" else Padded(n / 10, k - 1) + [DigitChar(n % 10)]
  }

  function Power10(k: nat): nat { if k == 0 then 1 else 10 * Power10(k - 1) }

  lemma {:induction false} PaddedValue(n: nat, k: nat)
    requires n < Power10(k)
    ensures Value(Padded(n, k)) == n
  {
    if k > 0 {
      PaddedValue(n / 10, k - 1);
      var r := Padded(n, k);
      assert r[..k - 1] == Padded(n / 10, k - 1);
    }
  }

  /** `str(n)`. */
  function Show(n: nat): (r: string)
    ensures AllDigits(r)
  {
    if n < 10 then [DigitChar(n)] else Show(n / 10) + [DigitChar(n % 10)]
  }

  lemma {:induction false} ShowValue(n: nat)
    ensures Value(Show(n)) == n
  {
    var r := Show(n);
    if n < 10 {
      assert r[..0] == "";
    } else {
      ShowValue(n / 10);
      assert r[..|r| - 1] == Show(n / 10);
    }
  }

  lemma {:induction false} SixDigits()
    ensures Power10(6) == 1000000
  {
    assert Power10(1) == 10 && Power10(2) == 100 && Power10(3) == 1000;
    assert Power10(4) == 10 * Power10(3) && Power10(5) == 10 * Power10(4);
  }

  // ---------------------------------------------------------------- the order of digit texts

  lemma {:induction false} ValueFromLeft(s: string)
    requires AllDigits(s)
    ensures Value(s) < Power10(|s|)
    ensures Value(s) == Digit(s[0]) * Power10(|s| - 1) + Value(s[1..])
  {
    var n := |s| - 1;
    if n == 0 {
      assert s[..0] == "" && s[1..] == "";
    } else {
      ValueFromLeft(s[..n]);
      assert s[..n][1..] == s[1..][..n - 1];
      TenTimes(Digit(s[0]), Power10(n - 1), Value(s[1..][..n - 1]));
    }
  }

  /** Digit texts of one length are ordered as the numbers they denote. */
  lemma {:induction false} DigitOrder(a: string, b: string)
    requires AllDigits(a) && AllDigits(b) && |a| == |b|
    ensures Le(a, b) <==> Value(a) <= Value(b)
    ensures a == b <==> Value(a) == Value(b)
  {
    ValueFromLeft(a);
    ValueFromLeft(b);
    if |a| == 1 {
      assert a[1..] == "" && b[1..] == "";
    } else {
      ValueFromLeft(a[1..]);
      ValueFromLeft(b[1..]);
      DigitOrder(a[1..], b[1..]);
      var d, e := Digit(a[0]), Digit(b[0]);
      if d < e { HighDigit(d, e, Power10(|a| - 1), Value(a[1..]), Value(b[1..])); }
      if e < d { HighDigit(e, d, Power10(|a| - 1), Value(b[1..]), Value(a[1..])); }
      assert a == [a[0]] + a[1..] && b == [b[0]] + b[1..];
    }
  }

  lemma {:induction false} HighDigit(d: nat, e: nat, unit: nat, low: nat, other: nat)
    requires d < e && low < unit
    ensures d * unit + low < e * unit + other
  {
    var more: nat := e - d - 1;
    assert more * unit >= 0;
    assert e * unit == d * unit + unit + more * unit by { Spread(d, more, unit); }
  }

  lemma {:induction false} Spread(d: nat, more: nat, unit: nat)
    ensures (d + 1 + more) * unit == d * unit + unit + more * unit
  {
  }

  lemma {:induction false} TenTimes(d: nat, unit: nat, low: nat)
    ensures 10 * (d * unit + low) == d * (10 * unit) + 10 * low
  {
  }

  // ---------------------------------------------------------------- dates

  /** `strftime("%Y-%m-%d")`. */
  function DateText(year: nat, month: nat, day: nat): string {
    Padded(year, 4) + ("-" + (Padded(month, 2) + ("-" + Padded(day, 2))))
  }

  lemma {:induction false} PaddedOrder(n: nat, m: nat, k: nat)
    requires k > 0 && n < Power10(k) && m < Power10(k)
    ensures Le(Padded(n, k), Padded(m, k)) <==> n <= m
    ensures Padded(n, k) == Padded(m, k) <==> n == m
  {
    PaddedValue(n, k);
    PaddedValue(m, k);
    DigitOrder(Padded(n, k), Padded(m, k));
  }

  /** Dates as text are ordered as in the calendar. */
  lemma {:induction false} CalendarOrder(y: nat, m: nat, d: nat, y': nat, m': nat, d': nat)
    requires y <= 9999 && y' <= 9999 && m <= 99 && m' <= 99 && d <= 99 && d' <= 99
    ensures Lt(DateText(y, m, d), DateText(y', m', d')) <==>
            y < y' || (y == y' && (m < m' || (m == m' && d < d')))
  {
    hide Padded;
    assert Power10(2) == 100 && Power10(4) == 10000 by { SixDigits(); }
    PaddedOrder(y, y', 4);
    PaddedOrder(m, m', 2);
    PaddedOrder(d, d', 2);
    var months, months' := Padded(m, 2) + ("-" + Padded(d, 2)), Padded(m', 2) + ("-" + Padded(d', 2));
    LeByParts(Padded(y, 4), Padded(y', 4), "-" + months, "-" + months');
    LeByParts("-", "-", months, months');
    LeByParts(Padded(m, 2), Padded(m', 2), "-" + Padded(d, 2), "-" + Padded(d', 2));
    LeByParts("-", "-", Padded(d, 2), Padded(d', 2));
    SameDates(y, m, d, y', m', d');
  }

  lemma {:induction false} SameDates(y: nat, m: nat, d: nat, y': nat, m': nat, d': nat)
    ensures DateText(y, m, d) == DateText(y', m', d') <==>
            Padded(y, 4) == Padded(y', 4) && Padded(m, 2) == Padded(m', 2) && Padded(d, 2) == Padded(d', 2)
  {
    hide Padded;
    var a, b := DateText(y, m, d), DateText(y', m', d');
    assert a[..4] == Padded(y, 4) && a[5..7] == Padded(m, 2) && a[8..] == Padded(d, 2);
    assert b[..4] == Padded(y', 4) && b[5..7] == Padded(m', 2) && b[8..] == Padded(d', 2);
  }
}
