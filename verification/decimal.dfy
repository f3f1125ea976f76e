/** Decimal text of natural numbers, as JavaScript writes a non-negative
    integer below 10^21 when it is concatenated with a string (`n + ''`;
    from 10^21 on it switches to exponent notation, which millisecond
    timestamps never reach), and the value of a string of decimal digits. */
module Decimal {
  import opened Options

  predicate IsDigit(c: char) {
    '0' <= c <= '9'
  }

  predicate AllDigits(s: string) {
    forall i :: 0 <= i < |s| ==> IsDigit(s[i])
  }

  function DigitChar(d: nat): (c: char)
    requires d < 10
    ensures IsDigit(c) && DigitValue(c) == d
  {
    ('0' as int + d) as char
  }

  function DigitValue(c: char): (d: nat)
    requires IsDigit(c)
    ensures d < 10
  {
    c as int - '0' as int
  }

  function Pow10(k: nat): (p: nat)
    ensures p >= 1
  {
    if k == 0 then 1 else 10 * Pow10(k - 1)
  }

  /** The decimal text of `n` (for n < 10^21, what `n + ''` gives): no
      sign, no leading zero, "0" for zero. */
  function Digits(n: nat): (s: string)
    ensures |s| >= 1 && AllDigits(s)
    decreases n
  {
    if n < 10 then [DigitChar(n)] else Digits(n / 10) + [DigitChar(n % 10)]
  }

  /** The number a string of decimal digits denotes (leading zeros allowed). */
  function Value(s: string): (v: nat)
    requires AllDigits(s)
  {
    if s == [] then 0 else Value(s[..|s| - 1]) * 10 + DigitValue(s[|s| - 1])
  }

  /** Reads a decimal number back: a non-empty run of digits. */
  function ParseNat(s: string): (r: Option<nat>)
    ensures r.Some? <==> |s| > 0 && AllDigits(s)
  {
    if |s| > 0 && AllDigits(s) then Some(Value(s)) else None
  }

  lemma {:induction false} ValueOfDigits(n: nat)
    ensures Value(Digits(n)) == n
    decreases n
  {
    var s := Digits(n);
    if n >= 10 {
      ValueOfDigits(n / 10);
      assert s[..|s| - 1] == Digits(n / 10);
    }
  }

  lemma ParseDigits(n: nat)
    ensures ParseNat(Digits(n)) == Some(n)
  {
    ValueOfDigits(n);
  }

  lemma {:induction false} DigitsLength(n: nat)
    ensures n < Pow10(|Digits(n)|)
    ensures n > 0 ==> Pow10(|Digits(n)| - 1) <= n
    decreases n
  {
    if n >= 10 {
      DigitsLength(n / 10);
    }
  }

  lemma {:induction false} Pow10Monotone(j: nat, k: nat)
    requires j <= k
    ensures Pow10(j) <= Pow10(k)
    decreases k
  {
    if j < k {
      Pow10Monotone(j, k - 1);
    }
  }

  /** A positive multiple of a positive number is at least that number. */
  lemma MultipleAtLeast(k: int, m: int)
    requires k >= 1 && m > 0
    ensures k * m >= m
  {
    assert k * m == (k - 1) * m + m;
  }

  /** If `x == q * m + r` with `0 <= r < m`, then `r` is the remainder. */
  lemma ModUnique(x: int, m: int, q: int, r: int)
    requires m > 0 && 0 <= r < m && x == q * m + r
    ensures x % m == r && x / m == q
  {
    var q', r' := x / m, x % m;
    assert x == q' * m + r';
    assert (q - q') * m == r' - r by {
      assert (q - q') * m == q * m - q' * m;
    }
    if q > q' {
      MultipleAtLeast(q - q', m);
    } else if q < q' {
      MultipleAtLeast(q' - q, m);
    }
  }

  /** Two different numbers less than `p` apart leave different remainders. */
  lemma RemaindersDiffer(a: nat, b: nat, p: nat)
    requires a < b < a + p
    ensures a % p != b % p
  {
    var qa, qb, ra, rb := a / p, b / p, a % p, b % p;
    assert a == qa * p + ra && b == qb * p + rb;
    var k := qb - qa;
    assert b - a == k * p + (rb - ra) by {
      assert k * p == qb * p - qa * p;
    }
    if k >= 1 {
      MultipleAtLeast(k, p);
    } else if k <= -1 {
      MultipleAtLeast(-k, p);
      assert (-k) * p == -(k * p);
    } else {
      assert k * p == 0;
    }
  }

  /** Appending a digit to a remainder modulo `p` gives the remainder of the
      extended number modulo `10 * p`. */
  lemma ModAppendDigit(a: nat, d: nat, p: nat)
    requires d < 10 && p > 0
    ensures (a * 10 + d) % (10 * p) == (a % p) * 10 + d
  {
    var q, r := a / p, a % p;
    assert a == q * p + r;
    assert a * 10 + d == q * (10 * p) + (r * 10 + d);
    assert r * 10 + d < 10 * p;
    ModUnique(a * 10 + d, 10 * p, q, r * 10 + d);
  }

  /** The last `|s| - k` digits of a string denote its value modulo
      `10^(|s| - k)`; this is what slicing a number's text from the end does. */
  lemma {:induction false} ValueOfSuffix(s: string, k: nat)
    requires AllDigits(s) && k <= |s|
    ensures Value(s[k..]) == Value(s) % Pow10(|s| - k)
    decreases |s|
  {
    if k < |s| {
      var init := s[..|s| - 1];
      ValueOfSuffix(init, k);
      var t := s[k..];
      assert t[..|t| - 1] == init[k..];
      assert t[|t| - 1] == s[|s| - 1];
      ModAppendDigit(Value(init), DigitValue(s[|s| - 1]), Pow10(|init| - k));
    }
  }
}
