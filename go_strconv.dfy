/**
 * Go's machine integer `int` (64 bits wide) and the decimal conversions the
 * plugin relies on: `strconv.Atoi`, and `strconv.Itoa` / the `%d` verb of
 * `fmt`, which print the same text.
 */
module GoStrconv {
  import opened Wrappers

  const MinInt: int := -0x8000_0000_0000_0000
  const MaxInt: int := 0x7fff_ffff_ffff_ffff
  /** Number of distinct 64-bit `int` values. */
  const IntModulus: int := 0x1_0000_0000_0000_0000

  predicate InIntRange(x: int) {
    MinInt <= x <= MaxInt
  }

  /** Two's-complement wrap-around of an exact integer into the range of `int`. */
  function Wrap(x: int): (r: int)
    ensures InIntRange(r)
    ensures (x - r) % IntModulus == 0
    ensures InIntRange(x) ==> r == x
  {
    (x - MinInt) % IntModulus + MinInt
  }

  /** Go's `a * b` on `int`: the exact product, wrapped. */
  function Mul(a: int, b: int): (r: int)
    ensures InIntRange(r)
    ensures InIntRange(a * b) ==> r == a * b
  {
    Wrap(a * b)
  }

  /** The remainder modulo 2^64 is the one value in [0, 2^64) that differs from `x` by a multiple of 2^64. */
  lemma ModUnique(x: int, q: int, r: int)
    requires x == q * IntModulus + r && 0 <= r < IntModulus
    ensures x % IntModulus == r
  {
    var q', r' := x / IntModulus, x % IntModulus;
    assert x == q' * IntModulus + r' && 0 <= r' < IntModulus;
  }

  /** Adding a multiple of 2^64 does not change the wrapped `int`. */
  lemma WrapShift(y: int, k: int)
    ensures Wrap(y + k * IntModulus) == Wrap(y)
  {
    var q, r := (y - MinInt) / IntModulus, (y - MinInt) % IntModulus;
    assert y - MinInt == q * IntModulus + r;
    ModUnique(y + k * IntModulus - MinInt, q + k, r);
  }

  /** Wrapping an intermediate product does not change the final wrapped result. */
  lemma {:induction false} WrapMul(a: int, b: int)
    ensures Wrap(Wrap(a) * b) == Wrap(a * b)
  {
    var w := Wrap(a);
    var k := (a - w) / IntModulus;
    assert a == w + k * IntModulus;
    assert a * b == w * b + (k * b) * IntModulus by {
      assert a * b == (w + k * IntModulus) * b;
    }
    WrapShift(w * b, k * b);
  }

  predicate IsDigit(c: char) {
    '0' <= c <= '9'
  }

  predicate AllDigits(s: string) {
    forall i :: 0 <= i < |s| ==> IsDigit(s[i])
  }

  function DigitValue(c: char): (d: nat)
    requires IsDigit(c)
    ensures d < 10
  {
    c as int - '0' as int
  }

  function DigitChar(d: nat): (c: char)
    requires d < 10
    ensures IsDigit(c) && DigitValue(c) == d
  {
    ('0' as int + d) as char
  }

  /** The number a string of decimal digits denotes (leading zeros allowed). */
  function DigitsValue(s: string): nat
    requires AllDigits(s)
  {
    if s == [] then 0 else DigitsValue(s[..|s| - 1]) * 10 + DigitValue(s[|s| - 1])
  }

  /** Leading zeros do not change the value of a digit string. */
  lemma {:induction false} DigitsValueLeadingZero(s: string)
    requires AllDigits(s)
    ensures AllDigits("0" + s) && DigitsValue("0" + s) == DigitsValue(s)
  {
    if s != [] {
      assert ("0" + s)[..|"0" + s| - 1] == "0" + s[..|s| - 1];
      DigitsValueLeadingZero(s[..|s| - 1]);
    }
  }

  /** The shortest decimal representation of a natural number. */
  function Decimal(n: nat): (r: string)
    ensures 1 <= |r| && AllDigits(r)
    ensures DigitsValue(r) == n
    ensures |r| > 1 ==> r[0] != '0'
    ensures n > 0 ==> r[0] != '0'
    decreases n
  {
    if n < 10 then [DigitChar(n)] else Decimal(n / 10) + [DigitChar(n % 10)]
  }

  /** A number below 10^width has at most `width` decimal digits. */
  lemma {:induction false} DecimalWidth(n: nat, width: nat)
    requires 1 <= width && n < Pow10(width)
    ensures |Decimal(n)| <= width
    decreases width
  {
    if n >= 10 {
      DecimalWidth(n / 10, width - 1);
    }
  }

  function Pow10(k: nat): (p: nat)
    ensures p >= 1
  {
    if k == 0 then 1 else 10 * Pow10(k - 1)
  }

  /** `strconv.Itoa(n)` and `fmt.Sprintf("%d", n)`. */
  function Itoa(n: int): (r: string)
    ensures 1 <= |r| && IsDigit(r[|r| - 1])
    ensures AllDigits(r[1..])
    ensures IsDigit(r[0]) || (r[0] == '-' && n < 0)
    ensures n < 0 ==> r[0] == '-' && r[1] != '0'
    ensures n >= 0 && |r| > 1 ==> r[0] != '0'
  {
    if n < 0 then "-" + Decimal(-n) else Decimal(n)
  }

  /**
   * `strconv.Atoi` on a 64-bit platform: an optional `+` or `-`, then one or
   * more decimal digits, denoting a value in the range of `int`. Anything else
   * (the empty string, a lone sign, any other character, an out-of-range value)
   * is an error, here `None`.
   */
  function Atoi(s: string): (r: Option<int>)
    ensures r.Some? ==> InIntRange(r.value)
    ensures r.Some? ==> |s| >= 1 && IsDigit(s[|s| - 1]) && AllDigits(s[1..])
    ensures r.Some? ==> IsDigit(s[0]) || s[0] == '+' || s[0] == '-'
    ensures (forall i :: 0 <= i < |s| ==> !IsDigit(s[i])) ==> r.None?
  {
    var negative := |s| > 0 && s[0] == '-';
    var digits := if |s| > 0 && (s[0] == '+' || s[0] == '-') then s[1..] else s;
    if |digits| == 0 || !AllDigits(digits) then None
    else
      var v: int := if negative then -(DigitsValue(digits) as int) else DigitsValue(digits);
      if InIntRange(v) then Some(v) else None
  }

  /** The optional sign `strconv.Atoi` accepts before the digits. */
  predicate IsSign(sign: string) {
    sign == "" || sign == "+" || sign == "-"
  }

  /** The number an optional sign followed by decimal digits denotes. */
  function SignedValue(sign: string, digits: string): int
    requires AllDigits(digits)
  {
    if sign == "-" then -(DigitsValue(digits) as int) else DigitsValue(digits)
  }

  /**
   * Every string of the accepted shape, an optional sign and at least one
   * digit, parses to the number it denotes exactly when that number is in
   * range; `Atoi`'s own contract says no string of any other shape parses.
   */
  lemma AtoiSignedDigits(sign: string, digits: string)
    requires IsSign(sign) && |digits| >= 1 && AllDigits(digits)
    ensures InIntRange(SignedValue(sign, digits)) ==> Atoi(sign + digits) == Some(SignedValue(sign, digits))
    ensures !InIntRange(SignedValue(sign, digits)) ==> Atoi(sign + digits) == None
  {
    if sign == "" {
      assert sign + digits == digits;
      assert IsDigit(digits[0]);
    } else {
      assert (sign + digits)[1..] == digits;
    }
  }

  /** `k` zero digits. */
  function Zeros(k: nat): (z: string)
    ensures |z| == k && AllDigits(z)
  {
    if k == 0 then "" else "0" + Zeros(k - 1)
  }

  /** Any number of leading zeros leaves the value of a digit string unchanged. */
  lemma {:induction false} DigitsValueZeros(k: nat, s: string)
    requires AllDigits(s)
    ensures AllDigits(Zeros(k) + s) && DigitsValue(Zeros(k) + s) == DigitsValue(s)
  {
    if k == 0 {
      assert Zeros(k) + s == s;
    } else {
      DigitsValueZeros(k - 1, s);
      assert Zeros(k) + s == "0" + (Zeros(k - 1) + s);
      DigitsValueLeadingZero(Zeros(k - 1) + s);
    }
  }

  /**
   * A number written with an optional `+` or `-` and any number of leading
   * zeros, such as `+42`, `042` or `-0`, parses to its value when that is in range.
   */
  lemma AtoiPadded(sign: string, k: nat, n: nat)
    requires IsSign(sign) && InIntRange(if sign == "-" then -(n as int) else n)
    ensures Atoi(sign + (Zeros(k) + Decimal(n))) == Some(if sign == "-" then -(n as int) else n)
  {
    DigitsValueZeros(k, Decimal(n));
    AtoiOfValue(sign, Zeros(k) + Decimal(n), n);
  }

  /** `AtoiSignedDigits` for digits of a known value. */
  lemma AtoiOfValue(sign: string, digits: string, n: nat)
    requires IsSign(sign) && |digits| >= 1 && AllDigits(digits) && DigitsValue(digits) == n
    requires InIntRange(if sign == "-" then -(n as int) else n)
    ensures Atoi(sign + digits) == Some(if sign == "-" then -(n as int) else n)
  {
    AtoiSignedDigits(sign, digits);
  }

  /** Printing an `int` in decimal and parsing it back gives the same `int`. */
  lemma AtoiItoa(n: int)
    requires InIntRange(n)
    ensures Atoi(Itoa(n)) == Some(n)
  {
    if n < 0 {
      assert Itoa(n)[1..] == Decimal(-n);
    }
  }
}
