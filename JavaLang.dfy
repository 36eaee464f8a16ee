/**
 * The few java.lang facilities the modelled classes rely on, stated as
 * Dafny functions: references that may be null, the widths of `int` and
 * `long` with their wrap-around, decimal text as `Integer.toString`,
 * `Long.toString` and `%d` write it, `Integer.valueOf`/`Integer.parseInt`,
 * `String.equalsIgnoreCase` and the null-or-empty test used by
 * `StringUtils.isEmpty` and `Const.isEmpty` (taken to be null-or-empty).
 */
module JavaLang {

  /** A Java reference that may be null: `None` is null. */
  datatype Option<+T> = None | Some(value: T)

  const INT_MIN: int := -0x8000_0000
  const INT_MAX: int := 0x7fff_ffff
  const LONG_MIN: int := -0x8000_0000_0000_0000
  const LONG_MAX: int := 0x7fff_ffff_ffff_ffff
  const LONG_MODULUS: int := 0x1_0000_0000_0000_0000

  /** `x` fits a Java `int`. */
  predicate IsInt(x: int) { INT_MIN <= x <= INT_MAX }

  /** `x` fits a Java `long`. */
  predicate IsLong(x: int) { LONG_MIN <= x <= LONG_MAX }

  /**
   * The `long` that two's-complement arithmetic leaves for the exact value
   * `x`: `x` moved by whole multiples of 2^64 into the `long` range.
   */
  function WrapLong(x: int): (r: int)
    ensures IsLong(r)
    ensures IsLong(x) ==> r == x
    decreases if x > LONG_MAX then x - LONG_MAX else if x < LONG_MIN then LONG_MIN - x else 0
  {
    if x > LONG_MAX then WrapLong(x - LONG_MODULUS)
    else if x < LONG_MIN then WrapLong(x + LONG_MODULUS)
    else x
  }

  /** `a + b` on Java `long`s (silent wrap-around on overflow). */
  function LongAdd(a: int, b: int): int
  {
    WrapLong(a + b)
  }

  /** Wrapping moves a value by a whole number of 2^64 steps. */
  lemma {:induction false} WrapLongOffset(x: int) returns (k: int)
    ensures x == WrapLong(x) + k * LONG_MODULUS
    decreases if x > LONG_MAX then x - LONG_MAX else if x < LONG_MIN then LONG_MIN - x else 0
  {
    if x > LONG_MAX {
      var k' := WrapLongOffset(x - LONG_MODULUS);
      k := k' + 1;
    } else if x < LONG_MIN {
      var k' := WrapLongOffset(x + LONG_MODULUS);
      k := k' - 1;
    } else {
      k := 0;
    }
  }

  /** The only `long` that differs from `x` by whole 2^64 steps is `WrapLong(x)`. */
  lemma {:induction false} WrapLongUnique(x: int, r: int, k: int)
    requires IsLong(r) && x == r + k * LONG_MODULUS
    ensures WrapLong(x) == r
    decreases if x > LONG_MAX then x - LONG_MAX else if x < LONG_MIN then LONG_MIN - x else 0
  {
    if x > LONG_MAX {
      WrapLongUnique(x - LONG_MODULUS, r, k - 1);
    } else if x < LONG_MIN {
      WrapLongUnique(x + LONG_MODULUS, r, k + 1);
    } else {
      MultipleBound(k, LONG_MODULUS);
    }
  }

  /** A non-zero multiple of `m` is at least `m` away from zero. */
  lemma MultipleBound(k: int, m: int)
    requires m >= 0
    ensures k >= 1 ==> k * m >= m
    ensures k <= -1 ==> k * m <= -m
  {
    if k >= 1 {
      assert k * m == m + (k - 1) * m;
    } else if k <= -1 {
      assert k * m == -m + (k + 1) * m;
    }
  }

  /** Wrapping an intermediate sum does not change the final wrapped value. */
  lemma WrapLongAbsorbs(x: int, y: int)
    ensures WrapLong(WrapLong(x) + y) == WrapLong(x + y)
  {
    var w := WrapLong(x);
    var k1 := WrapLongOffset(x);
    var k2 := WrapLongOffset(w + y);
    WrapLongUnique(x + y, WrapLong(w + y), k1 + k2);
  }

  /** Java `long / int` for a non-negative dividend: truncation toward zero. */
  function JavaDiv(a: nat, b: int): int
    requires b != 0
  {
    if b > 0 then a / b else -(a / -b)
  }

  // ---------------------------------------------------------------------
  // Decimal text

  predicate IsDigit(c: char) { '0' <= c <= '9' }

  predicate AllDigits(s: string)
  {
    forall i :: 0 <= i < |s| ==> IsDigit(s[i])
  }

  function DigitValue(c: char): nat
    requires IsDigit(c)
  {
    (c as int) - ('0' as int)
  }

  function DigitChar(d: nat): (c: char)
    requires d < 10
    ensures IsDigit(c) && DigitValue(c) == d
  {
    (('0' as int) + d) as char
  }

  /** The value of a run of decimal digits, most significant first. */
  function DigitsValue(s: string): nat
    requires AllDigits(s)
  {
    if s == [] then 0 else 10 * DigitsValue(s[..|s| - 1]) + DigitValue(s[|s| - 1])
  }

  /** The shortest decimal digits of `n` (no leading zeros). */
  function NatToDigits(n: nat): (s: string)
    ensures |s| >= 1 && AllDigits(s)
    ensures DigitsValue(s) == n
    ensures |s| > 1 ==> s[0] != '0'
    decreases n
  {
    if n < 10 then [DigitChar(n)]
    else
      var s := NatToDigits(n / 10) + [DigitChar(n % 10)];
      assert s[..|s| - 1] == NatToDigits(n / 10);
      s
  }

  /** `Integer.toString(n)`, `Long.toString(n)` and `String.format("%d", n)`. */
  function DecimalString(n: int): string
  {
    if n < 0 then "-" + NatToDigits(-n) else NatToDigits(n)
  }

  // ---------------------------------------------------------------------
  // Integer.valueOf(String) == Integer.parseInt(s, 10)

  /**
   * `Integer.valueOf(s)` as Java 7 and later define it (Java 6 rejects a
   * leading `+`): an optional leading `-` or `+`, then at least one
   * decimal digit, and a value that fits an `int`. Any other input, null
   * included, makes Java throw `NumberFormatException`, which is `None` here.
   */
  function ParseInt(s: Option<string>): (r: Option<int>)
    ensures s.None? || s == Some("") ==> r.None?
    ensures r.Some? ==> IsInt(r.value)
    ensures r.Some? ==> |s.value| > 0 && (IsDigit(s.value[0]) || s.value[0] == '-' || s.value[0] == '+')
    ensures r.Some? ==> forall i :: 0 < i < |s.value| ==> IsDigit(s.value[i])
    ensures r.Some? ==> var digits := if IsDigit(s.value[0]) then s.value else s.value[1..];
      && |digits| > 0 && AllDigits(digits)
      && r.value == (if s.value[0] == '-' then -(DigitsValue(digits) as int) else DigitsValue(digits) as int)
  {
    match s
    case None => None
    case Some(t) =>
      if |t| == 0 then None
      else
        var signed := t[0] == '-' || t[0] == '+';
        var digits := if signed then t[1..] else t;
        if |digits| == 0 || !AllDigits(digits) then None
        else
          var v: int := if t[0] == '-' then -(DigitsValue(digits) as int) else DigitsValue(digits);
          if IsInt(v) then Some(v) else None
  }

  /**
   * The converse: an optional `-` or `+` followed by at least one digit,
   * whose value fits an `int`, parses to that value.
   */
  lemma ParseIntAccepts(sign: string, digits: string)
    requires sign == "" || sign == "-" || sign == "+"
    requires |digits| > 0 && AllDigits(digits)
    requires IsInt(if sign == "-" then -(DigitsValue(digits) as int) else DigitsValue(digits) as int)
    ensures ParseInt(Some(sign + digits))
         == Some(if sign == "-" then -(DigitsValue(digits) as int) else DigitsValue(digits) as int)
  {
    var t := sign + digits;
    if sign == "" {
      assert t == digits;
      assert IsDigit(t[0]);
    } else {
      assert t[0] == sign[0] && t[1..] == digits;
    }
  }

  /** Decimal text written by `Integer.toString` parses back to the same `int`. */
  lemma {:induction false} ParseDecimalString(n: int)
    requires IsInt(n)
    ensures ParseInt(Some(DecimalString(n))) == Some(n)
  {
    var t := DecimalString(n);
    if n < 0 {
      assert t[0] == '-' && t[1..] == NatToDigits(-n);
    } else {
      var d := NatToDigits(n);
      assert IsDigit(d[0]);
    }
  }

  // ---------------------------------------------------------------------
  // Strings

  /** `StringUtils.isEmpty(s)` / `Const.isEmpty(s)`, assumed to mean null or of length zero. */
  predicate IsEmpty(s: Option<string>)
  {
    s.None? || |s.value| == 0
  }

  function AsciiUpper(c: char): char
  {
    if 'a' <= c <= 'z' then ((c as int) - 32) as char else c
  }

  function AsciiLower(c: char): char
  {
    if 'A' <= c <= 'Z' then ((c as int) + 32) as char else c
  }

  /** The per-character test of `String.regionMatches(true, …)`. */
  predicate CharsEqualIgnoreCase(a: char, b: char)
  {
    a == b || AsciiUpper(a) == AsciiUpper(b) || AsciiLower(AsciiUpper(a)) == AsciiLower(AsciiUpper(b))
  }

  /** `s.equalsIgnoreCase(other)`: false when `other` is null. */
  predicate EqualsIgnoreCase(s: string, other: Option<string>)
  {
    && other.Some?
    && |s| == |other.value|
    && forall i :: 0 <= i < |s| ==> CharsEqualIgnoreCase(s[i], other.value[i])
  }

  /** `"Y".equalsIgnoreCase(t)` holds exactly for "Y" and "y". */
  lemma YesIgnoringCase(t: Option<string>)
    ensures EqualsIgnoreCase("Y", t) <==> t == Some("Y") || t == Some("y")
  {
    if EqualsIgnoreCase("Y", t) {
      var c := t.value[0];
      assert t.value == [c];
      assert CharsEqualIgnoreCase('Y', c);
    }
  }
}
