/** The arithmetic the rules do on numbers read from the text: the
    `greatestCommonDivisor` helper (checkST2110.js:728) used by the frame
    rate and aspect ratio rules, and the `+s` conversion of a format
    parameter value (checkST2110.js:1291 and 1318), read here as a plain
    decimal literal of digits with an optional sign and point. */
module Numbers {
  import opened Text
  import opened Regex

  // ---------------------------------------------------------------------
  // Divisibility and the greatest common divisor

  /** `d` divides `n`. */
  ghost predicate Divides(d: nat, n: nat)
  {
    exists q: nat :: d * q == n
  }

  /** checkST2110.js:728 `greatestCommonDivisor`: `!b ? a : gcd(b, a % b)`. */
  function Gcd(a: nat, b: nat): (g: nat)
    decreases b
  {
    if b == 0 then a else Gcd(b, a % b)
  }

  /** A common divisor of `a` and `b` divides `a % b`. */
  lemma DividesMod(a: nat, b: nat, d: nat)
    requires b > 0 && Divides(d, a) && Divides(d, b)
    ensures Divides(d, a % b)
  {
    var x: nat :| d * x == a;
    var y: nat :| d * y == b;
    var q := a / b;
    var r := a % b;
    assert a == b * q + r;
    assert d * x == d * (y * q) + r by {
      assert b * q == d * y * q;
    }
    assert r == d * (x - y * q);
    assert d > 0;
    assert x - y * q < 0 ==> d * (x - y * q) < 0;
    var z: nat := x - y * q;
    assert d * z == r;
  }

  /** A divisor of `b` and of `a % b` divides `a`. */
  lemma DividesFromMod(a: nat, b: nat, d: nat)
    requires b > 0 && Divides(d, b) && Divides(d, a % b)
    ensures Divides(d, a)
  {
    var y: nat :| d * y == b;
    var z: nat :| d * z == a % b;
    var q := a / b;
    assert a == b * q + a % b;
    assert a == d * (y * q) + d * z by {
      assert b * q == d * y * q;
    }
    assert d * (y * q + z) == a;
  }

  lemma DividesZero(d: nat)
    ensures Divides(d, 0)
  {
    assert d * 0 == 0;
  }

  lemma DividesSelf(d: nat)
    ensures Divides(d, d)
  {
    assert d * 1 == d;
  }

  /** For a positive `d`, divisibility is a zero remainder. */
  lemma DividesIffMod(d: nat, n: nat)
    requires d > 0
    ensures Divides(d, n) <==> n % d == 0
  {
    if n % d == 0 {
      assert d * (n / d) == n;
    }
    if Divides(d, n) {
      var q: nat :| d * q == n;
      MultipleMod(d, n, q);
    }
  }

  lemma MultipleMod(d: nat, n: nat, q: nat)
    requires d > 0 && d * q == n
    ensures n % d == 0
  {
    var k: int := q - n / d;
    assert n == d * (n / d) + n % d;
    assert d * k == n % d by {
      assert d * k == d * q - d * (n / d);
    }
  }

  /** The helper's result for a positive argument is positive. */
  lemma GcdPositive(a: nat, b: nat)
    requires a > 0
    ensures Gcd(a, b) > 0
  {
    GcdDivides(a, b);
    if Gcd(a, b) == 0 {
      var q: nat :| Gcd(a, b) * q == a;
    }
  }

  /** The helper computes a common divisor of its arguments that every
      common divisor divides: the greatest one. */
  lemma {:induction false} GcdDivides(a: nat, b: nat)
    ensures Divides(Gcd(a, b), a) && Divides(Gcd(a, b), b)
    ensures forall d: nat | Divides(d, a) && Divides(d, b) :: Divides(d, Gcd(a, b))
    decreases b
  {
    if b == 0 {
      DividesSelf(a);
      DividesZero(a);
    } else {
      GcdDivides(b, a % b);
      DividesFromMod(a, b, Gcd(a, b));
      forall d: nat | Divides(d, a) && Divides(d, b) ensures Divides(d, Gcd(a, b)) {
        DividesMod(a, b, d);
      }
    }
  }

  /** Two positive numbers share no divisor but 1 exactly when the helper
      returns 1: the test both rational rules use for "expressed with the
      smallest possible values". */
  lemma GcdOneIff(a: nat, b: nat)
    requires a > 0 && b > 0
    ensures Gcd(a, b) == 1 <==> forall d: nat | Divides(d, a) && Divides(d, b) :: d == 1
  {
    GcdDivides(a, b);
    var g := Gcd(a, b);
    if Gcd(a, b) == 1 {
      forall d: nat | Divides(d, a) && Divides(d, b) ensures d == 1 {
        var q: nat :| d * q == g;
      }
    }
  }

  // ---------------------------------------------------------------------
  // `+s` on a format parameter value

  /** A plain decimal literal: a sign, the digits before the point and the
      digits after it, kept exactly. */
  datatype Decimal = Decimal(negative: bool, whole: string, fraction: string)

  /** The text read as `[+-]?\d*(\.\d*)?` with at least one digit, or the
      empty text (which converts to 0); anything else is `None`, taken as
      `NaN`. This is narrower than JavaScript's conversion: an exponent
      ("1e1"), a `0x`, `0o` or `0b` literal ("0x10") and "Infinity" are
      refused here although JavaScript reads them as numbers, and the
      digits are kept exactly where JavaScript rounds to a double
      ("1.00000000000000000001" is not an integer here). Format parameter
      values hold no white space, so the conversion's trimming has nothing
      to remove. */
  function DecimalOf(s: string): (r: Option<Decimal>)
    ensures r.Some? ==> AllDigits(r.value.whole) && AllDigits(r.value.fraction)
  {
    if |s| == 0 then Some(Decimal(false, "", ""))
    else
      var i := if s[0] == '-' || s[0] == '+' then 1 else 0;
      match UnsignedOf(s, i)
      case None => None
      case Some(parts) => Some(Decimal(s[0] == '-', parts.0, parts.1))
  }

  /** `\d*(\.\d*)?` from `i` to the end, with at least one digit: the
      digits before and after the point. */
  function UnsignedOf(s: string, i: nat): (r: Option<(string, string)>)
    requires i <= |s|
    ensures r.Some? ==> AllDigits(r.value.0) && AllDigits(r.value.1)
  {
    var j := i + Span(s, i, IsDigit);
    SpanSlice(s, i, IsDigit);
    if j == |s| then
      if j == i then None else Some((s[i..j], ""))
    else if s[j] != '.' then None
    else
      var e := j + 1 + Span(s, j + 1, IsDigit);
      SpanSlice(s, j + 1, IsDigit);
      if e != |s| || e == i + 1 then None else Some((s[i..j], s[j + 1..e]))
  }

  /** The literal a writer produces for a decimal. */
  function DecimalText(d: Decimal): string
  {
    (if d.negative then "-" else "") + UnsignedText(d.whole, d.fraction)
  }

  function UnsignedText(whole: string, fraction: string): string
  {
    whole + (if |fraction| > 0 then "." + fraction else "")
  }

  /** Every written decimal with at least one digit is read back. */
  lemma DecimalRoundTrip(d: Decimal)
    requires AllDigits(d.whole) && AllDigits(d.fraction) && |d.whole| + |d.fraction| > 0
    ensures DecimalOf(DecimalText(d)) == Some(d)
  {
    var u := UnsignedText(d.whole, d.fraction);
    var s := DecimalText(d);
    if d.negative {
      assert s == "-" + u;
      assert s[1..] == u;
      UnsignedRoundTrip(s, 1, d.whole, d.fraction);
    } else {
      assert s == u;
      if |d.whole| > 0 {
        assert s[0] == d.whole[0];
      } else {
        assert s[0] == '.';
      }
      UnsignedRoundTrip(s, 0, d.whole, d.fraction);
    }
  }

  lemma UnsignedRoundTrip(s: string, i: nat, whole: string, fraction: string)
    requires AllDigits(whole) && AllDigits(fraction) && |whole| + |fraction| > 0
    requires i <= |s| && s[i..] == UnsignedText(whole, fraction)
    ensures UnsignedOf(s, i) == Some((whole, fraction))
  {
    var j := i + |whole|;
    assert s[i..j] == whole;
    if |fraction| > 0 {
      assert s[j] == '.';
      TakesRun(s, i, IsDigit, whole);
      assert s[j + 1..] == fraction;
      TakesRun(s, j + 1, IsDigit, fraction);
    } else {
      TakesRun(s, i, IsDigit, whole);
    }
  }

  /** The value of the digits after the point: `0.f1f2...`. */
  function FractionValue(f: string): (x: real)
  {
    if |f| == 0 then 0.0 else (DigitValue(f[0]) as real + FractionValue(f[1..])) / 10.0
  }

  /** The number a decimal denotes. */
  function DecimalValue(d: Decimal): real
  {
    var v := Value(d.whole) as real + FractionValue(d.fraction);
    if d.negative then -v else v
  }

  predicate AllZeros(s: string)
  {
    forall k | 0 <= k < |s| :: s[k] == '0'
  }

  /** `x < 0` on the converted value: negative and not zero. */
  predicate IsNegative(d: Decimal)
  {
    d.negative && !(AllZeros(d.whole) && AllZeros(d.fraction))
  }

  /** `Number.isInteger(x)`: nothing but zeros after the point. */
  predicate IsWhole(d: Decimal)
  {
    AllZeros(d.fraction)
  }

  /** `x < 1`: negative (zero included), or no units before the point. */
  predicate BelowOne(d: Decimal)
  {
    d.negative || Value(d.whole) == 0
  }

  /** The fraction digits add a part in [0, 1), and nothing exactly when
      they are all zero. */
  lemma {:induction false} FractionPart(f: string)
    requires AllDigits(f)
    ensures 0.0 <= FractionValue(f) < 1.0
    ensures FractionValue(f) == 0.0 <==> AllZeros(f)
    decreases |f|
  {
    if |f| > 0 {
      var t := f[1..];
      assert AllDigits(t) by {
        forall k | 0 <= k < |t| ensures IsDigit(t[k]) { assert t[k] == f[k + 1]; }
      }
      FractionPart(t);
      assert AllZeros(f) <==> f[0] == '0' && AllZeros(t) by {
        if f[0] == '0' && AllZeros(t) {
          forall k | 0 <= k < |f| ensures f[k] == '0' { if k > 0 { assert f[k] == t[k - 1]; } }
        }
      }
    }
  }

  /** The three tests on a parsed decimal say what they say about the
      number it denotes. */
  lemma DecimalTests(d: Decimal)
    requires AllDigits(d.whole) && AllDigits(d.fraction)
    ensures IsNegative(d) <==> DecimalValue(d) < 0.0
    ensures BelowOne(d) <==> DecimalValue(d) < 1.0
    ensures IsWhole(d) <==> DecimalValue(d) == DecimalValue(d).Floor as real
  {
    FractionPart(d.fraction);
    ValueZero(d.whole);
    var n := Value(d.whole);
    var v := n as real + FractionValue(d.fraction);
    assert DecimalValue(d) == if d.negative then -v else v;
    if !AllZeros(d.fraction) {
      if d.negative {
        assert (-v).Floor == -(n as int) - 1;
      } else {
        assert v.Floor == n;
      }
    }
  }
}
