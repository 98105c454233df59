/** Decimal text of numbers, as produced by Rust's `to_string` and `format!("{}")`,
    and the digit strings read back by the lexer. */
module Decimal {
  import opened Wrappers

  predicate IsDigit(c: char) { '0' <= c <= '9' }

  predicate AllDigits(s: string) { forall i :: 0 <= i < |s| ==> IsDigit(s[i]) }

  function DigitValue(c: char): nat
    requires IsDigit(c)
  {
    c as int - '0' as int
  }

  function DigitChar(d: nat): (c: char)
    requires d < 10
    ensures IsDigit(c) && DigitValue(c) == d
  {
    (d + '0' as int) as char
  }

  /** The value of a digit string, most significant digit first. */
  function Value(s: string): nat
    requires AllDigits(s)
    decreases |s|
  {
    if s == [] then 0 else 10 * Value(s[..|s| - 1]) + DigitValue(s[|s| - 1])
  }

  /** A digit string without superfluous leading zeros: the form `to_string` produces. */
  predicate Canonical(s: string) {
    |s| > 0 && AllDigits(s) && (s[0] == '0' ==> |s| == 1)
  }

  function NatToString(n: nat): (r: string)
    ensures Canonical(r) && Value(r) == n
    decreases n
  {
    if n < 10 then [DigitChar(n)]
    else
      var front := NatToString(n / 10);
      var r := front + [DigitChar(n % 10)];
      assert r[..|r| - 1] == front;
      assert Value(front) >= 1;
      r
  }

  /** Every canonical digit string is the text of its own value, so `NatToString`
      is a bijection between naturals and canonical strings. */
  lemma {:induction false} CanonicalIsNatText(s: string)
    requires Canonical(s)
    ensures NatToString(Value(s)) == s
    decreases |s|
  {
    if |s| > 1 {
      var front := s[..|s| - 1];
      assert front[0] == s[0];
      CanonicalIsNatText(front);
      NonZeroLead(front);
      var n := Value(s);
      assert n / 10 == Value(front) && n % 10 == DigitValue(s[|s| - 1]);
      assert s == front + [s[|s| - 1]];
    }
  }

  lemma {:induction false} ZeroValueIsZeros(s: string)
    requires AllDigits(s) && Value(s) == 0
    ensures forall i :: 0 <= i < |s| ==> s[i] == '0'
    decreases |s|
  {
    if s != [] {
      ZeroValueIsZeros(s[..|s| - 1]);
      assert forall i :: 0 <= i < |s| - 1 ==> s[..|s| - 1][i] == s[i];
    }
  }

  lemma NonZeroLead(s: string)
    requires AllDigits(s) && |s| > 0 && s[0] != '0'
    ensures Value(s) > 0
  {
    if Value(s) == 0 { ZeroValueIsZeros(s); }
  }

  function ParseNat(s: string): Option<nat> {
    if Canonical(s) then Some(Value(s)) else None
  }

  lemma ParseNatRoundTrip(n: nat, s: string)
    ensures ParseNat(NatToString(n)) == Some(n)
    ensures ParseNat(s) == Some(n) ==> s == NatToString(n)
  {
    if ParseNat(s) == Some(n) { CanonicalIsNatText(s); }
  }

  /** Rust's `i64::to_string`: a leading minus sign for negative values. */
  function IntToString(n: int): (r: string)
    ensures |r| > 0
  {
    if n < 0 then "-" + NatToString(-n) else NatToString(n)
  }

  function ParseInt(s: string): Option<int> {
    if |s| > 0 && s[0] == '-' then
      var magnitude: int := if Canonical(s[1..]) then Value(s[1..]) else 0;
      if magnitude > 0 then Some(-magnitude) else None
    else if Canonical(s) then Some(Value(s))
    else None
  }

  lemma IntToStringRoundTrip(n: int)
    ensures ParseInt(IntToString(n)) == Some(n)
  {
    if n < 0 {
      assert IntToString(n)[1..] == NatToString(-n);
    } else {
      assert IsDigit(IntToString(n)[0]);
    }
  }

  lemma IntToStringInjective(a: int, b: int)
    ensures IntToString(a) == IntToString(b) <==> a == b
  {
    IntToStringRoundTrip(a);
    IntToStringRoundTrip(b);
  }

  /** The value of a concatenation of digit strings. */
  function Pow10(k: nat): (r: nat)
    ensures r >= 1
  {
    if k == 0 then 1 else 10 * Pow10(k - 1)
  }

  lemma AllDigitsAppend(a: string, b: string)
    requires AllDigits(a) && AllDigits(b)
    ensures AllDigits(a + b)
  {
    forall i | 0 <= i < |a + b| ensures IsDigit((a + b)[i]) {
      if i < |a| { assert (a + b)[i] == a[i]; } else { assert (a + b)[i] == b[i - |a|]; }
    }
  }

  lemma {:induction false} ValueAppend(a: string, b: string)
    requires AllDigits(a) && AllDigits(b)
    ensures AllDigits(a + b)
    ensures Value(a + b) == Value(a) * Pow10(|b|) + Value(b)
    decreases |b|
  {
    AllDigitsAppend(a, b);
    if b == [] {
      assert a + b == a;
    } else {
      var b' := b[..|b| - 1];
      var d := DigitValue(b[|b| - 1]);
      assert (a + b)[..|a + b| - 1] == a + b';
      AllDigitsAppend(a, b');
      ValueAppend(a, b');
      var va, vb, p := Value(a), Value(b'), Pow10(|b'|);
      assert Value(a + b) == 10 * Value(a + b') + d;
      assert Value(a + b') == va * p + vb;
      assert Value(b) == 10 * vb + d;
      assert Pow10(|b|) == 10 * p;
      MulAssoc10(va, p);
    }
  }

  lemma MulAtLeast(x: nat, p: nat)
    requires p >= 1
    ensures x * p >= x
  {
  }

  lemma MulAssoc10(x: nat, y: nat)
    ensures 10 * (x * y) == x * (10 * y)
  {
  }

  lemma AllDigitsSlice(s: string, i: nat, j: nat)
    requires AllDigits(s) && i <= j <= |s|
    ensures AllDigits(s[i..j])
  {
    forall k | 0 <= k < j - i ensures IsDigit(s[i..j][k]) { assert s[i..j][k] == s[i + k]; }
  }

  lemma PrefixValueBounded(s: string, j: nat)
    requires AllDigits(s) && j <= |s|
    ensures AllDigits(s[..j]) && Value(s[..j]) <= Value(s)
  {
    var x, z := s[..j], s[j..];
    AllDigitsSlice(s, 0, j);
    AllDigitsSlice(s, j, |s|);
    var vx: int, vz: int, p: int := Value(x), Value(z), Pow10(|z|);
    assert Value(s) == vx * p + vz by {
      assert s == x + z;
      ValueAppend(x, z);
    }
    MulAtLeast(Value(x), Pow10(|z|));
  }

  lemma SuffixValueBounded(s: string, i: nat)
    requires AllDigits(s) && i <= |s|
    ensures AllDigits(s[i..]) && Value(s[i..]) <= Value(s)
  {
    var x, z := s[..i], s[i..];
    AllDigitsSlice(s, 0, i);
    AllDigitsSlice(s, i, |s|);
    var vx: int, vz: int, p: int := Value(x), Value(z), Pow10(|z|);
    assert Value(s) == vx * p + vz by {
      assert s == x + z;
      ValueAppend(x, z);
    }
    MulNonNegative(Value(x), Pow10(|z|));
  }

  lemma MulNonNegative(x: nat, y: nat)
    ensures x * y >= 0
  {
  }

  /** A digit string embedded in a longer one never denotes a larger value. */
  lemma SliceValueBounded(s: string, i: nat, j: nat)
    requires AllDigits(s) && i <= j <= |s|
    ensures AllDigits(s[i..j]) && Value(s[i..j]) <= Value(s)
  {
    PrefixValueBounded(s, j);
    var t := s[..j];
    SuffixValueBounded(t, i);
    assert t[i..] == s[i..j];
  }
}
