/** Counters that stay decimal strings: their order and their numeric order agree. */
module Decimal {

  predicate Digit(c: char) {
    '0' <= c <= '9'
  }

  predicate AllDigits(s: string) {
    forall k | 0 <= k < |s| :: Digit(s[k])
  }

  function Worth(c: char): nat
    requires Digit(c)
  {
    c as int - '0' as int
  }

  /** What the constructor admits: digits without a leading zero. */
  predicate Canonical(s: string) {
    && s != ""
    && (|s| > 1 ==> s[0] != '0')
    && AllDigits(s)
  }

  function Number(s: string): nat
    requires AllDigits(s)
  {
    if s == "" then 0 else Number(s[..|s| - 1]) * 10 + Worth(s[|s| - 1])
  }

  function Digits(n: nat): (s: string)
    ensures Canonical(s) && Number(s) == n
  {
    if n < 10 then
      SingleDigit(n);
      [('0' as int + n) as char]
    else
      var init, last := Digits(n / 10), ('0' as int + n % 10) as char;
      assert (init + [last])[..|init|] == init;
      CanonicalExtends(init, last, n / 10);
      init + [last]
  }

  lemma SingleDigit(n: nat)
    requires n < 10
    ensures var s := [('0' as int + n) as char]; Canonical(s) && Number(s) == n
  {
    var s := [('0' as int + n) as char];
    assert s[..0] == "";
  }

  lemma CanonicalExtends(init: string, last: char, n: nat)
    requires Canonical(init) && Number(init) == n >= 1 && Digit(last)
    ensures Canonical(init + [last])
  {
    var empty := init[..|init| - 1];
  }

  /** Shorter first, then byte by byte. */
  predicate Before(a: string, b: string) {
    |a| < |b| || (|a| == |b| && LexBefore(a, b))
  }

  predicate LexBefore(a: string, b: string)
    requires |a| == |b|
  {
    a != "" && (a[0] < b[0] || (a[0] == b[0] && LexBefore(a[1..], b[1..])))
  }

  function Pow10(n: nat): (p: nat)
    ensures p >= 1
  {
    if n == 0 then 1 else 10 * Pow10(n - 1)
  }

  /** The leading digit counts for the power of ten of what follows. */
  lemma {:induction false} NumberHead(s: string)
    requires s != "" && AllDigits(s)
    ensures Number(s) == Worth(s[0]) * Pow10(|s| - 1) + Number(s[1..])
  {
    if |s| > 1 {
      var init, last := s[..|s| - 1], s[|s| - 1];
      NumberHead(init);
      assert init[1..] == s[1..][..|s| - 2];
      assert s[1..][|s| - 2] == last;
      var head, power := Worth(s[0]), Pow10(|s| - 2);
      assert Pow10(|s| - 1) == 10 * power;
      assert head * (10 * power) == (head * power) * 10;
    } else {
      assert s[..0] == "" && s[1..] == "";
    }
  }

  lemma {:induction false} NumberBound(s: string)
    requires AllDigits(s)
    ensures Number(s) < Pow10(|s|)
  {
    if s != "" {
      NumberBound(s[..|s| - 1]);
    }
  }

  lemma {:induction false} Step(x: nat, y: nat, p: nat)
    requires x < y
    ensures x * p + p <= y * p
    decreases y
  {
    assert (y - 1) * p + p == y * p;
    if x + 1 < y { Step(x, y - 1, p); }
  }

  lemma {:induction false} SameLength(a: string, b: string)
    requires |a| == |b| && AllDigits(a) && AllDigits(b)
    ensures LexBefore(a, b) <==> Number(a) < Number(b)
    ensures Number(a) == Number(b) ==> a == b
    decreases |a|
  {
    if a != "" {
      SameLength(a[1..], b[1..]);
      NumberHead(a);
      NumberHead(b);
      NumberBound(a[1..]);
      NumberBound(b[1..]);
      var p := Pow10(|a| - 1);
      var x, y := Worth(a[0]), Worth(b[0]);
      if x < y {
        Step(x, y, p);
      } else if y < x {
        Step(y, x, p);
      } else {
        assert a == [a[0]] + a[1..] && b == [b[0]] + b[1..];
      }
    }
  }

  lemma PowMonotone(m: nat, n: nat)
    requires m <= n
    ensures Pow10(m) <= Pow10(n)
    decreases n
  {
    if m < n { PowMonotone(m, n - 1); }
  }

  lemma Longer(a: string, b: string)
    requires Canonical(a) && Canonical(b) && |a| < |b|
    ensures Number(a) < Number(b)
  {
    NumberBound(a);
    NumberHead(b);
    PowMonotone(|a|, |b| - 1);
    var first := Worth(b[0]);
    Step(0, first, Pow10(|b| - 1));
  }

  /** The comparison of counters is the comparison of the numbers they write, at any size, and
      two counters are the same string exactly when they are the same number. */
  lemma OrderIsNumeric(a: string, b: string)
    requires Canonical(a) && Canonical(b)
    ensures Before(a, b) <==> Number(a) < Number(b)
    ensures a == b <==> Number(a) == Number(b)
  {
    if |a| < |b| {
      Longer(a, b);
    } else if |b| < |a| {
      Longer(b, a);
    } else {
      SameLength(a, b);
    }
  }

  lemma DigitsInjective(m: nat, n: nat)
    requires Digits(m) == Digits(n)
    ensures m == n
  {
    assert Number(Digits(m)) == m && Number(Digits(n)) == n;
  }
}
