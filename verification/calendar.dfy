/**
 * Calendar months as the trend chart sees them: a (year, month) pair where
 * the month is the zero-based index that `Date.prototype.getMonth` returns,
 * the month arithmetic of `new Date(year, month - i, 1)`, and the bucket key
 * `${year}-${month + 1}` built by a template literal.
 */
module Calendar {

  /** Zero-based month index, January = 0, as `getMonth()` returns it. */
  type Month = m: int | 0 <= m < 12

  datatype YearMonth = YearMonth(year: int, month: Month)

  /** Months elapsed since January of year 0: a total order on months. */
  function MonthIndex(ym: YearMonth): int {
    ym.year * 12 + ym.month
  }

  /**
   * The first of the month `i` months before `now`: `new Date(y, m - i, 1)`
   * normalises a negative month index into an earlier year.
   */
  function MonthsBefore(now: YearMonth, i: nat): (r: YearMonth)
    ensures MonthIndex(r) == MonthIndex(now) - i
    ensures i <= now.month ==> r == YearMonth(now.year, now.month - i)
    ensures now.month < i <= now.month + 12 ==> r == YearMonth(now.year - 1, now.month - i + 12)
  {
    var index := MonthIndex(now) - i;
    YearMonth(index / 12, index % 12)
  }

  /** Distinct months have distinct indices. */
  lemma MonthIndexInjective(a: YearMonth, b: YearMonth)
    requires MonthIndex(a) == MonthIndex(b)
    ensures a == b
  {
  }

  /** `ym` is one of the six months ending with `now`: the current month and the five before it. */
  predicate InWindow(now: YearMonth, ym: YearMonth) {
    0 <= MonthIndex(now) - MonthIndex(ym) < 6
  }

  /** The window is exactly the months `MonthsBefore(now, i)` for `i` from 0 to 5. */
  lemma InWindowIffMonthsBefore(now: YearMonth, ym: YearMonth)
    ensures InWindow(now, ym) <==> exists i :: 0 <= i < 6 && MonthsBefore(now, i) == ym
  {
    if InWindow(now, ym) {
      var i := MonthIndex(now) - MonthIndex(ym);
      MonthIndexInjective(MonthsBefore(now, i), ym);
    }
  }

  // ---------------------------------------------------------------------
  // Decimal rendering of integers, as a template literal writes them.

  predicate IsDigit(c: char) {
    '0' <= c <= '9'
  }

  predicate AllDigits(s: string) {
    forall k :: 0 <= k < |s| ==> IsDigit(s[k])
  }

  function DigitChar(d: int): (c: char)
    requires 0 <= d < 10
    ensures IsDigit(c)
  {
    (('0' as int) + d) as char
  }

  /** The decimal digits of `n`, most significant first, without leading zeros. */
  function NatToString(n: nat): (s: string)
    ensures s != [] && AllDigits(s)
  {
    if n < 10 then [DigitChar(n)] else NatToString(n / 10) + [DigitChar(n % 10)]
  }

  /** The number a string of decimal digits denotes. */
  function DigitsValue(s: string): nat
    requires AllDigits(s)
  {
    if s == [] then 0 else DigitsValue(s[..|s| - 1]) * 10 + (s[|s| - 1] as int - '0' as int)
  }

  lemma {:induction false} NatToStringRoundTrip(n: nat)
    ensures DigitsValue(NatToString(n)) == n
  {
    if n >= 10 {
      NatToStringRoundTrip(n / 10);
      var s := NatToString(n);
      assert s[..|s| - 1] == NatToString(n / 10);
    }
  }

  /** `${n}` for an integer `n`: a minus sign before the digits of a negative number. */
  function IntToString(n: int): (s: string)
    ensures s != []
    ensures n < 0 ==> s[0] == '-' && s[1..] == NatToString(-n)
    ensures n >= 0 ==> s == NatToString(n)
  {
    if n < 0 then "-" + NatToString(-n) else NatToString(n)
  }

  /** The bucket key `${date.getFullYear()}-${date.getMonth() + 1}`. */
  function MonthKey(ym: YearMonth): string {
    IntToString(ym.year) + "-" + NatToString(ym.month + 1)
  }

  /** The key an invalid date produces: `getFullYear()` and `getMonth()` are both NaN. */
  const InvalidDateKey: string := "NaN-NaN"

  /** In `a + "-" + b` with no '-' in `a`, the first '-' is the one after `a`. */
  lemma FirstDash(a: string, b: string)
    requires '-' !in a
    ensures (a + "-" + b)[|a|] == '-'
    ensures forall k :: 0 <= k < |a| ==> (a + "-" + b)[k] != '-'
  {
    forall k | 0 <= k < |a| ensures (a + "-" + b)[k] != '-' {
      assert (a + "-" + b)[k] == a[k];
    }
  }

  /** Two strings without a '-' joined by '-' can be split back apart. */
  lemma {:induction false} SplitAtDash(a1: string, b1: string, a2: string, b2: string)
    requires '-' !in a1 && '-' !in a2
    requires a1 + "-" + b1 == a2 + "-" + b2
    ensures a1 == a2 && b1 == b2
  {
    var s := a1 + "-" + b1;
    FirstDash(a1, b1);
    FirstDash(a2, b2);
    assert |a1| == |a2|;
    assert a1 == s[..|a1|] == a2;
    assert b1 == s[|a1| + 1..] == b2;
  }

  lemma NatToStringInjective(m: nat, n: nat)
    requires NatToString(m) == NatToString(n)
    ensures m == n
  {
    NatToStringRoundTrip(m);
    NatToStringRoundTrip(n);
  }

  lemma NoDashInDigits(s: string)
    requires AllDigits(s)
    ensures '-' !in s
  {
  }

  /** A key starts with '-' exactly when its year is negative. */
  lemma KeySignChar(ym: YearMonth)
    ensures MonthKey(ym)[0] == '-' <==> ym.year < 0
  {
    var y := IntToString(ym.year);
    assert MonthKey(ym)[0] == y[0];
    assert ym.year >= 0 ==> IsDigit(y[0]);
  }

  /** Distinct months never share a bucket key: the key `${year}-${month + 1}` is injective. */
  lemma {:induction false} MonthKeyInjective(a: YearMonth, b: YearMonth)
    requires MonthKey(a) == MonthKey(b)
    ensures a == b
  {
    var ya, yb := IntToString(a.year), IntToString(b.year);
    var ma, mb := NatToString(a.month + 1), NatToString(b.month + 1);
    NoDashInDigits(ma);
    NoDashInDigits(mb);
    KeySignChar(a);
    KeySignChar(b);
    if a.year < 0 {
      NoDashInDigits(ya[1..]);
      NoDashInDigits(yb[1..]);
      assert ya[1..] + "-" + ma == (ya + "-" + ma)[1..];
      assert yb[1..] + "-" + mb == (yb + "-" + mb)[1..];
      SplitAtDash(ya[1..], ma, yb[1..], mb);
      NatToStringInjective(-a.year, -b.year);
    } else {
      NoDashInDigits(ya);
      NoDashInDigits(yb);
      SplitAtDash(ya, ma, yb, mb);
      NatToStringInjective(a.year, b.year);
    }
    NatToStringInjective(a.month + 1, b.month + 1);
  }

  /** No valid month's key is the key of an invalid date. */
  lemma MonthKeyIsNotInvalidDateKey(ym: YearMonth)
    ensures MonthKey(ym) != InvalidDateKey
  {
    KeySignChar(ym);
    if ym.year >= 0 {
      assert IsDigit(MonthKey(ym)[0]);
    }
  }
}
