/**
 * Token classification: which whitespace-free tokens are numbers, which are
 * operators, and the numeric value a number token denotes.
 */
module Classify {
  import opened Errors

  predicate IsDigit(c: char) {
    '0' <= c <= '9'
  }

  /** The part of a number token after its optional leading minus sign. */
  function Unsigned(s: string): (body: string)
    ensures |body| <= |s|
  {
    if |s| > 0 && s[0] == '-' then s[1..] else s
  }

  predicate DigitsAndDots(s: string) {
    forall i :: 0 <= i < |s| ==> IsDigit(s[i]) || s[i] == '.'
  }

  predicate AtMostOneDot(s: string) {
    forall i, j :: 0 <= i < j < |s| && s[i] == '.' ==> s[j] != '.'
  }

  /**
   * The shape a number token must have: non-empty, not a lone `-`, and after
   * an optional leading `-` only digits and dots, with at most one dot.
   * A lone `.` and `-.` have this shape.
   */
  predicate NumberShape(s: string) {
    s != [] && s != "-" && DigitsAndDots(Unsigned(s)) && AtMostOneDot(Unsigned(s))
  }

  /** The scan of the calculator: one pass with a flag recording whether a dot was seen. */
  method IsNumber(str: string) returns (b: bool)
    ensures b == NumberShape(str)
  {
    if |str| == 0 {
      return false;
    }
    var start := 0;
    if str[0] == '-' {
      if |str| == 1 {
        return false;
      }
      start := 1;
    }
    ghost var body := Unsigned(str);
    assert body == str[start..];
    var hasDecimal := false;
    var i := start;
    while i < |str|
      invariant start <= i <= |str|
      invariant forall k :: start <= k < i ==> IsDigit(str[k]) || str[k] == '.'
      invariant forall k, l :: start <= k < l < i && str[k] == '.' ==> str[l] != '.'
      invariant hasDecimal ==> exists k :: start <= k < i && str[k] == '.'
      invariant !hasDecimal ==> forall k :: start <= k < i ==> str[k] != '.'
    {
      if str[i] == '.' {
        if hasDecimal {
          var k :| start <= k < i && str[k] == '.';
          assert body[k - start] == '.' && body[i - start] == '.';
          return false;
        }
        hasDecimal := true;
      } else if !IsDigit(str[i]) {
        assert !IsDigit(body[i - start]) && body[i - start] != '.';
        return false;
      }
      i := i + 1;
    }
    assert forall k :: 0 <= k < |body| ==> body[k] == str[k + start];
    return true;
  }

  /**
   * The operator names, matched exactly and case-sensitively. No operator,
   * `-` included, has the shape of a number, so a token is never both.
   */
  predicate IsOperator(s: string): (b: bool)
    ensures b ==> !NumberShape(s)
  {
    s == "+" || s == "-" || s == "*" || s == "/" ||
    s == "sqrt" || s == "^" || s == "sin" || s == "cos" ||
    s == "tan" || s == "fib" || s == "pascal"
  }

  /** The boundary cases of the number shape. */
  lemma NumberShapeExamples()
    ensures !NumberShape("") && !NumberShape("-")
    ensures !NumberShape("1.2.3") && !NumberShape("1a") && !NumberShape("..")
    ensures NumberShape(".") && NumberShape("-.")
    ensures NumberShape("12.5") && NumberShape("-3") && NumberShape("5.")
  {
    assert Unsigned("1.2.3") == "1.2.3" && "1.2.3"[1] == '.' && "1.2.3"[3] == '.';
    assert Unsigned("1a") == "1a" && "1a"[1] == 'a';
    assert Unsigned("..") == ".." && ".."[0] == '.' && ".."[1] == '.';
    assert Unsigned("-.") == ".";
    assert Unsigned("-3") == "3";
  }

  // ---------------------------------------------------------------------
  // Numeric conversion of a number token (the standard string-to-double
  // conversion, with exact decimal arithmetic instead of rounding).
  // ---------------------------------------------------------------------

  function DigitValue(c: char): nat
    requires IsDigit(c)
  {
    c as int - '0' as int
  }

  predicate HasDigit(s: string) {
    exists i :: 0 <= i < |s| && IsDigit(s[i])
  }

  /** The value of the digits of `s` read as one integer, ignoring the dot. */
  function Mantissa(s: string): nat
    requires DigitsAndDots(s)
  {
    if s == [] then 0
    else if s[|s| - 1] == '.' then Mantissa(s[..|s| - 1])
    else 10 * Mantissa(s[..|s| - 1]) + DigitValue(s[|s| - 1])
  }

  /** The number of characters after the dot, or 0 when there is no dot. */
  function FractionLength(s: string): nat
    ensures FractionLength(s) <= |s|
  {
    if s == [] || s[|s| - 1] == '.' then 0
    else if '.' in s[..|s| - 1] then 1 + FractionLength(s[..|s| - 1])
    else 0
  }

  function Pow10(n: nat): (p: nat)
    ensures p >= 1
  {
    if n == 0 then 1 else 10 * Pow10(n - 1)
  }

  /**
   * The value of a number token. The conversion needs at least one digit: a
   * token without one (`.` or `-.`) has the number shape but is refused.
   */
  function ParseNumber(s: string): (v: Option<real>)
    requires NumberShape(s)
    ensures v.Some? && s[0] == '-' ==> v.value <= 0.0
    ensures v.Some? && s[0] != '-' ==> v.value >= 0.0
  {
    var body := Unsigned(s);
    if !HasDigit(body) then None
    else
      var magnitude := Mantissa(body) as real / Pow10(FractionLength(body)) as real;
      Some(if s[0] == '-' then -magnitude else magnitude)
  }

  /** Digits and dots without a digit and with at most one dot: nothing, or one dot. */
  lemma DotsOnly(body: string)
    ensures DigitsAndDots(body) && AtMostOneDot(body) && !HasDigit(body) ==> body == [] || body == "."
  {
    if |body| >= 2 {
      assert DigitsAndDots(body) && !HasDigit(body) ==> body[0] == '.' && body[1] == '.';
    } else if |body| == 1 {
      assert body == [body[0]];
    }
  }

  /** Exactly the two number-shaped tokens without a digit fail to convert. */
  lemma ParseNumberFails(s: string)
    requires NumberShape(s)
    ensures ParseNumber(s).None? <==> s == "." || s == "-."
  {
    var body := Unsigned(s);
    if !HasDigit(body) {
      DotsOnly(body);
      if s[0] == '-' {
        assert s == [s[0]] + body;
      }
    } else {
      var i :| 0 <= i < |body| && IsDigit(body[i]);
      assert body[i] != '.';
    }
  }

  /** A decimal fraction converts exactly. */
  lemma ParseFractionExample()
    ensures NumberShape("12.5") && ParseNumber("12.5") == Some(12.5)
  {
    NumberShapeExamples();
    assert Unsigned("12.5") == "12.5" && IsDigit("12.5"[0]);
    assert "12.5"[..3] == "12." && "12."[..2] == "12" && "12"[..1] == "1" && "1"[..0] == "";
    assert '.' !in "12."[..2];
    assert Mantissa("12.5") == 125;
    assert FractionLength("12.5") == 1;
  }

  /** A leading minus sign negates the value. */
  lemma ParseNegativeExample()
    ensures NumberShape("-3") && ParseNumber("-3") == Some(-3.0)
  {
    assert Unsigned("-3") == "3" && IsDigit("3"[0]);
    assert "3"[..0] == "";
    assert Mantissa("3") == 3 && FractionLength("3") == 0;
  }
}
