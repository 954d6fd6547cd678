/** Decimal numerals: printing, padding and reading them back. */
module Decimal {

  predicate IsDigit(c: char) { '0' <= c <= '9' }

  predicate AllDigits(s: string) {
    forall i :: 0 <= i < |s| ==> IsDigit(s[i])
  }

  function Digit(d: nat): (c: char)
    requires d < 10
    ensures IsDigit(c) && (c - '0') as nat == d
  {
    '0' + d as char
  }

  function Text(n: nat): (s: string)
    ensures s != [] && AllDigits(s)
  {
    if n < 10 then [Digit(n)] else Text(n / 10) + [Digit(n % 10)]
  }

  function Value(s: string): nat
    requires AllDigits(s)
  {
    if s == [] then 0 else 10 * Value(s[..|s| - 1]) + (s[|s| - 1] - '0') as nat
  }

  function Pow10(w: nat): (p: nat)
    ensures p > 0
  {
    if w == 0 then 1 else 10 * Pow10(w - 1)
  }

  /** `padStart(width, "0")` */
  function Pad(n: nat, width: nat): (s: string)
    ensures AllDigits(s) && |s| >= width && s != []
  {
    var s := Text(n);
    if |s| >= width then s else Zeros(width - |s|) + s
  }

  function Zeros(k: nat): (z: string)
    ensures |z| == k && forall i :: 0 <= i < k ==> z[i] == '0'
  {
    seq(k, _ => '0')
  }

  lemma {:induction false} TextRoundTrip(n: nat)
    ensures Value(Text(n)) == n
  {
    if n >= 10 {
      TextRoundTrip(n / 10);
      assert Text(n)[..|Text(n)| - 1] == Text(n / 10);
    }
  }

  lemma {:induction false} LeadingZeros(k: nat, s: string)
    requires AllDigits(s)
    ensures Value(Zeros(k) + s) == Value(s)
  {
    if s == [] {
      if k > 0 {
        LeadingZeros(k - 1, []);
        assert (Zeros(k) + s)[..k - 1] == Zeros(k - 1) + [];
      }
    } else {
      LeadingZeros(k, s[..|s| - 1]);
      assert (Zeros(k) + s)[..k + |s| - 1] == Zeros(k) + s[..|s| - 1];
    }
  }

  lemma {:induction false} PadRoundTrip(n: nat, width: nat)
    ensures Value(Pad(n, width)) == n
  {
    var text := Text(n);
    assert Value(text) == n by { TextRoundTrip(n); }
    if |text| < width {
      assert Pad(n, width) == Zeros(width - |text|) + text;
      LeadingZeros(width - |text|, text);
    } else {
      assert Pad(n, width) == text;
    }
  }

  lemma {:induction false} TextFits(n: nat, width: nat)
    requires n < Pow10(width) && width > 0
    ensures |Text(n)| <= width
  {
    if n >= 10 {
      TextFits(n / 10, width - 1);
    }
  }

  lemma {:induction false} ValueFits(s: string)
    requires AllDigits(s)
    ensures Value(s) < Pow10(|s|)
  {
    if s != [] { ValueFits(s[..|s| - 1]); }
  }

  lemma {:induction false} NonzeroValue(s: string)
    requires AllDigits(s) && s != [] && s[0] != '0'
    ensures Value(s) > 0
  {
    if |s| > 1 { NonzeroValue(s[..|s| - 1]); }
  }

  /** A numeral without superfluous zeros is the text of its value. */
  lemma {:induction false} ValueRoundTrip(s: string)
    requires AllDigits(s) && s != [] && (s[0] != '0' || |s| == 1)
    ensures Text(Value(s)) == s
  {
    var n := |s| - 1;
    if n > 0 {
      ValueRoundTrip(s[..n]);
      NonzeroValue(s[..n]);
      assert Value(s) / 10 == Value(s[..n]) && Value(s) % 10 == (s[n] - '0') as nat;
      assert s == s[..n] + [s[n]];
    }
  }

  /** Digits of the padded width, or more without a leading zero, are their value's padded text. */
  lemma {:induction false} PadOfValue(s: string, width: nat)
    requires AllDigits(s) && width > 0
    requires |s| == width || (|s| > width && s[0] != '0')
    ensures Pad(Value(s), width) == s
  {
    if s[0] != '0' || |s| == 1 {
      ValueRoundTrip(s);
    } else {
      var k := CountZeros(s);
      assert s == Zeros(k) + s[k..];
      LeadingZeros(k, s[k..]);
      ValueRoundTrip(s[k..]);
    }
  }

  /** Leading zeros, the last digit apart. */
  function CountZeros(s: string): (k: nat)
    requires s != []
    ensures k < |s| && (forall i :: 0 <= i < k ==> s[i] == '0') && (k == |s| - 1 || s[k] != '0')
  {
    if |s| == 1 || s[0] != '0' then 0 else 1 + CountZeros(s[1..])
  }

  // ----- order -----

  /** Strictly before in lexicographic order. */
  predicate Before(a: string, b: string) {
    if b == [] then false
    else if a == [] then true
    else if a[0] != b[0] then a[0] < b[0]
    else Before(a[1..], b[1..])
  }

  lemma {:induction false} BeforeByParts(a: string, a': string, b: string, b': string)
    requires |a| == |a'|
    ensures Before(a + b, a' + b') <==> Before(a, a') || (a == a' && Before(b, b'))
  {
    if a == [] {
      assert a + b == b && a' + b' == b';
    } else {
      assert (a + b)[1..] == a[1..] + b && (a' + b')[1..] == a'[1..] + b';
      BeforeByParts(a[1..], a'[1..], b, b');
      assert a == a' <==> a[0] == a'[0] && a[1..] == a'[1..];
    }
  }

  lemma {:induction false} LastDigitDecides(u: nat, v: nat, d: nat, e: nat)
    requires d < 10 && e < 10
    ensures 10 * u + d < 10 * v + e <==> u < v || (u == v && d < e)
    ensures 10 * u + d == 10 * v + e <==> u == v && d == e
  {
  }

  lemma {:induction false} BeforeOfLast(a: string, b: string)
    requires |a| == |b| > 0
    ensures var n := |a| - 1;
            && (Before(a, b) <==> Before(a[..n], b[..n]) || (a[..n] == b[..n] && a[n] < b[n]))
            && (a == b <==> a[..n] == b[..n] && a[n] == b[n])
  {
    var n := |a| - 1;
    assert a == a[..n] + [a[n]] && b == b[..n] + [b[n]];
    BeforeByParts(a[..n], b[..n], [a[n]], [b[n]]);
    assert Before([a[n]], [b[n]]) <==> a[n] < b[n];
  }

  /** On digits of equal length, lexicographic order is numeric order. */
  lemma {:induction false} DigitsInOrder(a: string, b: string)
    requires AllDigits(a) && AllDigits(b) && |a| == |b|
    ensures Before(a, b) <==> Value(a) < Value(b)
    ensures a == b <==> Value(a) == Value(b)
  {
    if a != [] {
      var n := |a| - 1;
      DigitsInOrder(a[..n], b[..n]);
      BeforeOfLast(a, b);
      var d, e := (a[n] - '0') as nat, (b[n] - '0') as nat;
      assert (a[n] < b[n] <==> d < e) && (a[n] == b[n] <==> d == e);
      LastDigitDecides(Value(a[..n]), Value(b[..n]), d, e);
    }
  }
}
