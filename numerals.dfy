/**
 * Decimal digit strings: the value of a digit run (what `strconv.ParseFloat`
 * yields for the lexemes the lexer produces) and the decimal rendering of a
 * natural number (what `fmt` prints for `%d`).
 */
module Numerals {
  import opened Results

  /** `unicode.IsDigit` on a single byte holds exactly for `0`..`9`. */
  predicate IsDigit(c: char) {
    '0' <= c <= '9'
  }

  predicate AllDigits(s: string) {
    forall k :: 0 <= k < |s| ==> IsDigit(s[k])
  }

  /** A digit run without superfluous leading zeros. */
  predicate Canonical(s: string) {
    |s| >= 1 && AllDigits(s) && (|s| == 1 || s[0] != '0')
  }

  function DigitValue(c: char): (d: nat)
    requires IsDigit(c)
    ensures d < 10
  {
    c as int - '0' as int
  }

  function DigitChar(d: nat): (c: char)
    requires d < 10
    ensures IsDigit(c) && DigitValue(c) == d
  {
    ('0' as int + d) as char
  }

  /** The exact value of a run of decimal digits, read left to right. */
  function Value(s: string): nat
    requires AllDigits(s)
  {
    if |s| == 0 then 0 else Value(s[..|s| - 1]) * 10 + DigitValue(s[|s| - 1])
  }

  /** The shortest decimal rendering of `n`. */
  function Decimal(n: nat): (s: string)
    ensures Canonical(s)
  {
    if n < 10 then [DigitChar(n)] else Decimal(n / 10) + [DigitChar(n % 10)]
  }

  /**
   * The conversion the parser applies to a NumericLiteral lexeme. The model
   * accepts exactly the non-empty digit runs; anything else is a conversion
   * error.
   */
  function ParseNumber(lexeme: string): (r: Option<nat>)
    ensures r.Some? <==> |lexeme| >= 1 && AllDigits(lexeme)
  {
    if |lexeme| >= 1 && AllDigits(lexeme) then Some(Value(lexeme)) else None
  }

  /** Reading back a rendered number gives the number. */
  lemma {:induction false} ValueOfDecimal(n: nat)
    ensures Value(Decimal(n)) == n
  {
    var s := Decimal(n);
    if n >= 10 {
      ValueOfDecimal(n / 10);
      assert s[..|s| - 1] == Decimal(n / 10);
    }
  }

  lemma ParseNumberOfDecimal(n: nat)
    ensures ParseNumber(Decimal(n)) == Some(n)
  {
    ValueOfDecimal(n);
  }

  /** A canonical digit run with at least two digits is worth at least 10. */
  lemma {:induction false} ValueOfLongCanonical(s: string)
    requires Canonical(s) && |s| >= 2
    ensures Value(s) >= 10
  {
    var p := s[..|s| - 1];
    assert Canonical(p) && p[0] == s[0];
    if |p| >= 2 {
      ValueOfLongCanonical(p);
    } else {
      assert Value(p) == Value([]) * 10 + DigitValue(p[0]);
    }
  }

  /** Rendering the value of a canonical digit run gives the run back. */
  lemma {:induction false} DecimalOfValue(s: string)
    requires Canonical(s)
    ensures Decimal(Value(s)) == s
  {
    if |s| >= 2 {
      var p := s[..|s| - 1];
      assert Canonical(p);
      ValueOfLongCanonical(s);
      DecimalOfValue(p);
      assert Value(s) / 10 == Value(p) && Value(s) % 10 == DigitValue(s[|s| - 1]);
      assert s == p + [s[|s| - 1]];
    } else {
      assert Value(s) == Value([]) * 10 + DigitValue(s[0]);
      assert s == [s[0]];
    }
  }
}
