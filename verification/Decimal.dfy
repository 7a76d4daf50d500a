/** Zero-padded decimal numerals, as used in tool call ids and artifact directory names. */
module Decimal {

  predicate IsDigit(c: char) {
    '0' <= c <= '9'
  }

  predicate AllDigits(s: string) {
    forall i :: 0 <= i < |s| ==> IsDigit(s[i])
  }

  function Digit(d: nat): (c: char)
    requires d < 10
    ensures IsDigit(c) && (c as int) - ('0' as int) == d
  {
    ('0' as int + d) as char
  }

  function Render(n: nat): (s: string)
    ensures |s| > 0 && AllDigits(s)
  {
    if n < 10 then [Digit(n)] else Render(n / 10) + [Digit(n % 10)]
  }

  function Zeros(n: nat): (s: string)
    ensures |s| == n && AllDigits(s)
  {
    seq(n, _ => '0')
  }

  /** The format specification `0<width>d`. */
  function Padded(n: nat, width: nat): (s: string)
    ensures |s| >= width && AllDigits(s)
  {
    var digits := Render(n);
    if |digits| >= width then digits else Zeros(width - |digits|) + digits
  }

  /** Reads a numeral back, ignoring leading zeros. */
  function Value(s: string): nat
    requires AllDigits(s)
  {
    if |s| == 0 then 0 else 10 * Value(s[..|s| - 1]) + (s[|s| - 1] as int - '0' as int)
  }

  lemma {:induction false} ValueOfRender(n: nat)
    ensures Value(Render(n)) == n
  {
    if n < 10 {
      assert Render(n)[..0] == "";
    } else {
      var rest := Render(n / 10);
      assert Render(n)[..|Render(n)| - 1] == rest;
      ValueOfRender(n / 10);
    }
  }

  lemma {:induction false} LeadingZeros(k: nat, s: string)
    requires AllDigits(s)
    ensures Value(Zeros(k) + s) == Value(s)
  {
    var z := Zeros(k) + s;
    if |s| == 0 {
      assert z == Zeros(k);
      if k > 0 {
        assert z[..|z| - 1] == Zeros(k - 1) + "";
        LeadingZeros(k - 1, "");
      }
    } else {
      assert z[..|z| - 1] == Zeros(k) + s[..|s| - 1];
      LeadingZeros(k, s[..|s| - 1]);
    }
  }

  lemma ValueOfPadded(n: nat, width: nat)
    ensures Value(Padded(n, width)) == n
  {
    ValueOfRender(n);
    if |Render(n)| < width {
      LeadingZeros(width - |Render(n)|, Render(n));
    }
  }

  /** Padding never makes two numbers look alike, not even past the padded width. */
  lemma PaddedIsInjective(m: nat, n: nat, width: nat)
    requires Padded(m, width) == Padded(n, width)
    ensures m == n
  {
    ValueOfPadded(m, width);
    ValueOfPadded(n, width);
  }

  /** A numeral behind an underscore can be cut off in one way only. */
  lemma NumeralSuffixIsUnique(a: string, x: string, b: string, y: string)
    requires AllDigits(x) && AllDigits(y)
    requires a + "_" + x == b + "_" + y
    ensures a == b && x == y
  {
    var s, t := a + "_" + x, b + "_" + y;
    assert s[|a|] == '_' && t[|b|] == '_';
    assert forall i :: |a| < i < |s| ==> IsDigit(s[i]) by {
      assert forall i :: |a| < i < |s| ==> s[i] == x[i - |a| - 1];
    }
    assert forall i :: |b| < i < |t| ==> IsDigit(t[i]) by {
      assert forall i :: |b| < i < |t| ==> t[i] == y[i - |b| - 1];
    }
    assert |a| == |b|;
    assert a == s[..|a|] && b == t[..|b|];
    assert x == s[|a| + 1..] && y == t[|b| + 1..];
  }
}
