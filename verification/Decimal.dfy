/** Decimal text of natural numbers. */
module Decimal {
  predicate IsDigit(c: char) { '0' <= c <= '9' }

  predicate AllDigits(s: string) { forall i :: 0 <= i < |s| ==> IsDigit(s[i]) }

  function DigitValue(c: char): nat
    requires IsDigit(c)
  {
    c as int - '0' as int
  }

  function DigitChar(d: nat): (c: char)
    requires d < 10
    ensures IsDigit(c) && DigitValue(c) == d
  {
    '0' + d as char
  }

  function Value(s: string): nat
    requires AllDigits(s)
  {
    if s == "" then 0 else Value(s[..|s| - 1]) * 10 + DigitValue(s[|s| - 1])
  }

  lemma ValueOne(c: char)
    requires IsDigit(c)
    ensures Value([c]) == DigitValue(c)
  {
    assert [c][..0] == "";
  }

  /** A number moved k decimal places to the left. */
  function Shift(v: int, k: nat): int { if k == 0 then v else Shift(v, k - 1) * 10 }

  lemma {:induction false} ShiftLinear(a: int, b: int, k: nat)
    ensures Shift(a, k) - Shift(b, k) == Shift(a - b, k) && Shift(0, k) == 0
  {
    if k > 0 { ShiftLinear(a, b, k - 1); }
  }

  lemma {:induction false} ValueConcat(s: string, t: string)
    requires AllDigits(s) && AllDigits(t)
    ensures AllDigits(s + t) && Value(s + t) == Shift(Value(s), |t|) + Value(t)
    decreases |t|
  {
    if t == "" {
      assert s + t == s;
    } else {
      var n := |t| - 1;
      assert (s + t)[..|s + t| - 1] == s + t[..n] && (s + t)[|s + t| - 1] == t[n];
      ValueConcat(s, t[..n]);
    }
  }

  /** Two numbers with the same last digits, and two numbers with the same first digits. */
  lemma CommonTail(s: string, s': string, t: string, k: nat)
    requires AllDigits(s) && AllDigits(s') && AllDigits(t) && k == |t|
    ensures AllDigits(s + t) && AllDigits(s' + t)
    ensures Value(s + t) - Value(s' + t) == Shift(Value(s) - Value(s'), k)
  {
    ValueConcat(s, t);
    ValueConcat(s', t);
    ShiftLinear(Value(s), Value(s'), k);
  }

  lemma CommonHead(s: string, t: string, t': string)
    requires AllDigits(s) && AllDigits(t) && AllDigits(t') && |t| == |t'|
    ensures AllDigits(s + t) && AllDigits(s + t')
    ensures Value(s + t) - Value(s + t') == Value(t) - Value(t')
  {
    ValueConcat(s, t);
    ValueConcat(s, t');
  }

  /** The shortest decimal text of n ("%d"). */
  function Text(n: nat): (s: string)
    ensures s != "" && AllDigits(s) && Value(s) == n
  {
    if n < 10 then
      assert [DigitChar(n)][..0] == "";
      [DigitChar(n)]
    else
      var front := Text(n / 10);
      assert (front + [DigitChar(n % 10)])[..|front|] == front;
      front + [DigitChar(n % 10)]
  }

  /** A number below the k-th power of ten has at most k digits. */
  lemma {:induction false} TextFits(n: nat, k: nat)
    requires k >= 1 && n < Shift(1, k)
    ensures |Text(n)| <= k
  {
    if n >= 10 {
      assert Shift(1, 1) == 10;
      TextFits(n / 10, k - 1);
    }
  }

  function Zeros(k: nat): (s: string)
    ensures |s| == k && AllDigits(s)
  {
    seq(k, _ => '0')
  }

  lemma {:induction false} ZerosAreWorthless(k: nat)
    ensures Value(Zeros(k)) == 0
  {
    if k > 0 {
      assert Zeros(k)[..k - 1] == Zeros(k - 1);
      ZerosAreWorthless(k - 1);
    }
  }

  /** Zero-padded to at least the given width ("%0wd"). */
  function Padded(n: nat, width: nat): (s: string)
    ensures AllDigits(s) && |s| >= width && s != ""
  {
    var t := Text(n);
    if |t| >= width then t else Zeros(width - |t|) + t
  }

  /** Padding does not change the number, so the number can be read back. */
  lemma PaddedValue(n: nat, width: nat)
    ensures Value(Padded(n, width)) == n
  {
    var t := Text(n);
    if |t| < width {
      ZerosAreWorthless(width - |t|);
      ShiftLinear(0, 0, |t|);
      ValueConcat(Zeros(width - |t|), t);
    }
  }
}
