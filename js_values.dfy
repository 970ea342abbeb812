/**
 * The few pieces of JavaScript value semantics that the two crowdfunding
 * components depend on: the `null`-or-value state slot, numbers that may be
 * NaN, strict and loose equality between a string and a number, truthiness,
 * and the decimal rendering of an integer (what a template literal shows).
 *
 * Numbers are exact: a finite JavaScript number is modelled as a `real`
 * (no binary rounding, no infinities), and NaN is a value of its own.
 */
module JsValues {

  datatype Option<+T> = None | Some(value: T)

  /** A JavaScript number: NaN or an exact finite value. */
  datatype Number = NaN | Finite(r: real)

  /** `a + b` on numbers: NaN as soon as either operand is NaN. */
  function Add(a: Number, b: Number): Number
  {
    if a.Finite? && b.Finite? then Finite(a.r + b.r) else NaN
  }

  /**
   * The contents of an `<input type="number">`: the text the user typed and
   * the number JavaScript reads from it with `Number(text)`, which is also
   * what `isNaN` and the relational operators see.
   */
  datatype AmountField = AmountField(text: string, number: Number)

  /** The empty field `""`, which `Number` reads as the number 0. */
  const Blank := AmountField("", Finite(0.0))

  /**
   * `parseFloat(text)`: it agrees with `Number(text)` on the non-empty texts a
   * number input holds, but reads the empty text as NaN rather than 0.
   */
  function ParseFloat(a: AmountField): Number
  {
    if a.text == "" then NaN else a.number
  }

  /** The JavaScript values that meet in the OTP comparison. */
  datatype Value = Null | Num(n: Number) | Str(s: string)

  /** ToBoolean: null, 0, NaN and "" are falsy. */
  predicate Truthy(v: Value)
  {
    match v
    case Null => false
    case Num(n) => n.Finite? && n.r != 0.0
    case Str(s) => s != ""
  }

  /** `a === b`: values of different types are never strictly equal, and NaN equals nothing. */
  predicate StrictEquals(a: Value, b: Value)
  {
    match (a, b)
    case (Null, Null) => true
    case (Num(x), Num(y)) => x.Finite? && y.Finite? && x.r == y.r
    case (Str(x), Str(y)) => x == y
    case _ => false
  }

  /** `s.includes(t)`: t occurs in s as a contiguous piece. */
  predicate Contains(s: string, t: string)
  {
    exists i :: 0 <= i <= |s| && OccursAt(s, t, i)
  }

  predicate OccursAt(s: string, t: string, i: nat)
  {
    i + |t| <= |s| && s[i..i + |t|] == t
  }

  /** A message built as prefix + text + suffix, as the template literals do. */
  function Framed(prefix: string, text: string, suffix: string): (m: string)
    ensures Contains(m, text)
    ensures |m| == |prefix| + |text| + |suffix|
  {
    var m := prefix + text + suffix;
    assert OccursAt(m, text, |prefix|);
    m
  }

  lemma StrictEqualsNeverCrossesTypes(s: string, n: Number)
    ensures !StrictEquals(Str(s), Num(n)) && !StrictEquals(Num(n), Str(s))
  {
  }

  // ---------------------------------------------------------------------------
  // Decimal digit strings

  predicate IsDigit(c: char)
  {
    '0' <= c <= '9'
  }

  predicate AllDigits(s: string)
  {
    forall i :: 0 <= i < |s| ==> IsDigit(s[i])
  }

  function DigitChar(d: nat): (c: char)
    requires d < 10
    ensures IsDigit(c)
  {
    ('0' as int + d) as char
  }

  function DigitValue(c: char): (d: nat)
    requires IsDigit(c)
    ensures d < 10 && DigitChar(d) == c
  {
    c as int - '0' as int
  }

  /** The value of a string of decimal digits, read left to right (leading zeros allowed). */
  function DigitsValue(s: string): nat
    requires AllDigits(s)
  {
    if s == [] then 0 else DigitsValue(s[..|s| - 1]) * 10 + DigitValue(s[|s| - 1])
  }

  /**
   * How `String(n)` (or `${n}`) renders a non-negative integer below 10^21
   * (larger ones switch to exponent notation, which no OTP reaches): its
   * decimal digits, most significant first, with no leading zero.
   */
  function DecimalString(n: nat): (s: string)
    ensures |s| > 0 && AllDigits(s)
    ensures s[0] != '0' || n == 0
  {
    if n < 10 then [DigitChar(n)] else DecimalString(n / 10) + [DigitChar(n % 10)]
  }

  /**
   * The number a string denotes when JavaScript coerces it, restricted to
   * non-empty strings of decimal digits; every other string is read as NaN.
   */
  function ParseDecimal(s: string): (r: Option<nat>)
    ensures r.Some? <==> |s| > 0 && AllDigits(s)
    ensures r.Some? && (s[0] != '0' || |s| == 1) ==> DecimalString(r.value) == s
  {
    if |s| > 0 && AllDigits(s) then
      if s[0] != '0' || |s| == 1 then CanonicalDigitsRender(s); Some(DigitsValue(s))
      else Some(DigitsValue(s))
    else None
  }

  /** A digit string is worth at least its leading digit. */
  lemma {:induction false} LeadingDigitBound(s: string)
    requires |s| > 0 && AllDigits(s)
    ensures DigitsValue(s) >= DigitValue(s[0])
    decreases |s|
  {
    if |s| > 1 {
      var p := s[..|s| - 1];
      assert p[0] == s[0];
      LeadingDigitBound(p);
    }
  }

  /** A digit string without a leading zero is the rendering of the number it denotes. */
  lemma {:induction false} CanonicalDigitsRender(s: string)
    requires |s| > 0 && AllDigits(s) && (s[0] != '0' || |s| == 1)
    ensures DecimalString(DigitsValue(s)) == s
    decreases |s|
  {
    var d := DigitValue(s[|s| - 1]);
    if |s| == 1 {
      assert s[..0] == [];
      assert DigitsValue(s) == d;
    } else {
      var p := s[..|s| - 1];
      assert p[0] == s[0];
      CanonicalDigitsRender(p);
      LeadingDigitBound(p);
      var n := DigitsValue(s);
      assert n == DigitsValue(p) * 10 + d;
      assert n / 10 == DigitsValue(p) && n % 10 == d;
      assert s == p + [s[|s| - 1]];
    }
  }

  lemma {:induction false} DecimalRoundTrip(n: nat)
    ensures ParseDecimal(DecimalString(n)) == Some(n)
  {
    var s := DecimalString(n);
    if n < 10 {
      assert s[..|s| - 1] == [];
    } else {
      DecimalRoundTrip(n / 10);
      assert s[..|s| - 1] == DecimalString(n / 10);
      assert s[|s| - 1] == DigitChar(n % 10);
    }
    assert DigitValue(s[|s| - 1]) == n % 10;
    assert DigitsValue(s[..|s| - 1]) == n / 10;
    assert DigitsValue(s) == (n / 10) * 10 + n % 10;
  }

  function Pow10(k: nat): (p: nat)
    ensures p >= 1
  {
    if k == 0 then 1 else 10 * Pow10(k - 1)
  }

  /** A number with k digits (10^(k-1) <= n < 10^k) renders as exactly k characters. */
  lemma {:induction false} DecimalLength(n: nat, k: nat)
    requires k >= 1 && Pow10(k - 1) <= n < Pow10(k)
    ensures |DecimalString(n)| == k
  {
    if k == 1 {
      assert Pow10(1) == 10;
    } else {
      assert Pow10(k - 1) == 10 * Pow10(k - 2);
      DecimalLength(n / 10, k - 1);
    }
  }

  /**
   * `s == n` for a string and a number: the string is coerced to a number
   * and compared numerically (digit strings only, see ParseDecimal).
   */
  predicate LooseEqualsStringNumber(s: string, n: Number)
  {
    var p := ParseDecimal(s);
    p.Some? && n.Finite? && n.r == p.value as real
  }
}
