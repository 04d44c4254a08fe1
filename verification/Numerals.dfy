/** Numbers as the C library writes and reads them: digits, numerals and their values. */
module Numerals {
  import opened Bits
  import opened Types

  predicate IsBase(b: nat) { b == 2 || b == 8 || b == 10 || b == 16 }

  lemma DivBase(n: nat, b: nat)
    requires IsBase(b)
    ensures n / b * b + n % b == n && n % b < b && n / b <= n / 2 && (n < b <==> n / b == 0)
  {
    if b == 2 { } else if b == 8 { } else if b == 10 { } else { }
  }

  // ----- writing -----

  const DIGITS_LC: string := "0123456789abcdef"
  const DIGITS_UC: string := "0123456789ABCDEF"

  function DigitChar(d: nat, upper: bool): char
    requires d < 16
  {
    if upper then DIGITS_UC[d] else DIGITS_LC[d]
  }

  /** The shortest numeral of n, most significant digit first. */
  function Numeral(n: nat, b: nat, upper: bool): (s: string)
    requires IsBase(b)
    ensures |s| >= 1
  {
    DivBase(n, b);
    (if n < b then "" else Numeral(n / b, b, upper)) + [DigitChar(n % b, upper)]
  }

  /** The sixteen digits: those from ten on are small letters, or capitals if upper is asked for. */
  lemma DigitCharIs(d: nat, upper: bool)
    requires d < 16
    ensures DigitChar(d, upper) as int == if d < 10 then 48 + d else if upper then 55 + d else 87 + d
  {
    if d < 4 { } else if d < 8 { } else if d < 12 { } else { }
  }

  function Power(b: nat, i: nat): nat {
    if i == 0 then 1 else b * Power(b, i - 1)
  }

  lemma {:induction false} PowerPositive(b: nat, i: nat)
    requires b > 0
    ensures Power(b, i) > 0
  {
    if i > 0 { PowerPositive(b, i - 1); }
  }

  lemma DivDiv(n: nat, b: nat, p: nat)
    requires b > 0 && p > 0
    ensures b * p > 0 && n / b / p == n / (b * p)
  {
    Below(0, p, b, 0);
    Rejoin(n, b);
    Rejoin(n / b, p);
    DivDivFrom(n, b, p, b * p, n / b, n % b, n / b / p, n / b % p);
  }

  lemma Rejoin(n: nat, d: nat)
    requires d > 0
    ensures n == n / d * d + n % d && n % d < d
  {
  }

  lemma DivDivFrom(n: nat, b: nat, p: nat, bp: nat, m: nat, e: nat, q: nat, r: nat)
    requires n == m * b + e && e < b && m == q * p + r && r < p && bp == b * p > 0
    ensures n / bp == q
  {
    Nested(q, p, r, b, e);
    Below(r, p, b, e);
    DivModUnique(n, bp, q, r * b + e);
  }

  lemma Nested(q: nat, p: nat, r: nat, b: nat, e: nat)
    ensures (q * p + r) * b + e == q * (b * p) + (r * b + e)
  {
    assert q * p * b == q * (b * p);
  }

  lemma Below(r: nat, p: nat, b: nat, e: nat)
    requires r < p && e < b
    ensures r * b + e < b * p
  {
    assert (r + 1) * b <= p * b;
  }

  /** In every base a numeral is the shortest, and its digit at place i counts multiples of the i-th power. */
  lemma NumeralDigits(n: nat, b: nat, upper: bool)
    requires IsBase(b)
    ensures var s := Numeral(n, b, upper);
            && n < Power(b, |s|) && (|s| > 1 ==> Power(b, |s| - 1) <= n)
            && forall i :: 0 <= i < |s| ==> DigitAt(s, n, b, i, upper)
  {
    NumeralSize(n, b, upper);
    forall i | 0 <= i < |Numeral(n, b, upper)| ensures DigitAt(Numeral(n, b, upper), n, b, i, upper) {
      NumeralDigitAt(n, b, upper, i);
    }
  }

  lemma PowerZero(b: nat)
    ensures Power(b, 0) == 1 && Power(b, 1) == b
  {
    assert Power(b, 1) == b * Power(b, 0);
  }

  lemma {:induction false} NumeralSize(n: nat, b: nat, upper: bool)
    requires IsBase(b)
    ensures var s := Numeral(n, b, upper); n < Power(b, |s|) && (|s| > 1 ==> Power(b, |s| - 1) <= n)
    decreases n
  {
    hide DigitChar;
    hide Numeral;
    NumeralIs(n, b, upper);
    DivBase(n, b);
    PowerZero(b);
    if n >= b {
      var t := Numeral(n / b, b, upper);
      NumeralSize(n / b, b, upper);
      Scales(n, b, Power(b, |t|));
      if |t| > 1 { Scales(n, b, Power(b, |t| - 1)); }
    }
  }

  lemma {:induction false} NumeralDigitAt(n: nat, b: nat, upper: bool, i: nat)
    requires IsBase(b) && i < |Numeral(n, b, upper)|
    ensures DigitAt(Numeral(n, b, upper), n, b, i, upper)
    decreases n
  {
    hide DigitChar;
    hide Numeral;
    NumeralIs(n, b, upper);
    DivBase(n, b);
    PowerZero(b);
    if i > 0 {
      NumeralDigitAt(n / b, b, upper, i - 1);
      PowerPositive(b, i - 1);
      DivDiv(n, b, Power(b, i - 1));
    }
  }

  ghost predicate DigitAt(s: string, n: nat, b: nat, i: nat, upper: bool)
    requires i < |s| && IsBase(b)
  {
    PowerPositive(b, i);
    var d := n / Power(b, i) % b;
    d < 16 && s[|s| - 1 - i] == DigitChar(d, upper)
  }

  lemma Scales(n: nat, b: nat, p: nat)
    requires b > 0
    ensures (n / b < p ==> n < b * p) && (p <= n / b ==> b * p <= n)
  {
    var q := n / b;
    assert n == q * b + n % b;
    if q < p { assert (q + 1) * b <= p * b; }
    if p <= q { assert p * b <= q * b; }
  }

  // ----- reading -----

  function ToLower(c: char): char {
    if 'A' <= c <= 'Z' then ((c as int) - ('A' as int) + ('a' as int)) as char else c
  }

  /** The value of a character as a digit in base 8, 10 or 16, as the cases of the scanner fall through. */
  function DigitVal(c: char, b: nat): Option<nat> {
    var l := ToLower(c);
    if b == 16 && 'a' <= l <= 'f' then Some(0xA + (l as int - 'a' as int))
    else if b >= 10 && '8' <= l <= '9' then Some(l as int - '0' as int)
    else if '0' <= l <= '7' then Some(l as int - '0' as int)
    else None
  }

  predicate IsDigit(c: char, b: nat) { DigitVal(c, b).Some? }

  predicate AllDigits(s: string, b: nat) {
    forall i :: 0 <= i < |s| ==> IsDigit(s[i], b)
  }

  /** The number that a run of digits stands for. */
  function ValueOf(s: string, b: nat): nat
    requires AllDigits(s, b)
  {
    if s == [] then 0
    else
      assert IsDigit(s[|s| - 1], b);
      ValueOf(s[..|s| - 1], b) * b + DigitVal(s[|s| - 1], b).value
  }

  lemma ValueSnoc(s: string, c: char, b: nat)
    requires AllDigits(s, b) && IsDigit(c, b)
    ensures AllDigits(s + [c], b) && ValueOf(s + [c], b) == ValueOf(s, b) * b + DigitVal(c, b).value
  {
    assert (s + [c])[..|s|] == s;
  }

  /** The digits of a base that is scanned, in either case of letter, and what they are worth. */
  lemma DigitValIs(c: char, b: nat)
    requires CanScan(b)
    ensures var x := c as int;
            var v := if 48 <= x <= 57 then x - 48 else if 65 <= x <= 70 then x - 55
                     else if 97 <= x <= 102 then x - 87 else 99;
            (DigitVal(c, b).Some? <==> v < b) && (v < b ==> DigitVal(c, b).value == v)
  {
  }

  predicate CanScan(b: nat) { b == 8 || b == 10 || b == 16 }

  lemma DigitRoundTrip(d: nat, b: nat, upper: bool)
    requires CanScan(b) && d < b
    ensures DigitVal(DigitChar(d, upper), b) == Some(d)
  {
    var c := DigitChar(d, upper);
    if d < 8 {
    } else if d < 10 {
    } else {
      assert d == 10 || d == 11 || d == 12 || d == 13 || d == 14 || d == 15;
    }
  }

  /** Reading back a numeral gives the number. */
  lemma {:induction false} NumeralValue(n: nat, b: nat, upper: bool)
    requires CanScan(b)
    ensures AllDigits(Numeral(n, b, upper), b) && ValueOf(Numeral(n, b, upper), b) == n
    decreases n
  {
    hide DigitVal;
    hide DigitChar;
    hide ValueOf;
    hide Numeral;
    NumeralIs(n, b, upper);
    DivBase(n, b);
    DigitRoundTrip(n % b, b, upper);
    var c := DigitChar(n % b, upper);
    if n < b {
      ValueSnoc("", c, b);
      assert "" + [c] == Numeral(n, b, upper);
      DivSmall(n, b);
      NoDigits(b);
    } else {
      NumeralValue(n / b, b, upper);
      ValueSnoc(Numeral(n / b, b, upper), c, b);
    }
  }

  lemma NumeralIs(n: nat, b: nat, upper: bool)
    requires IsBase(b)
    ensures n % b < b
    ensures Numeral(n, b, upper) == (if n < b then "" else Numeral(n / b, b, upper)) + [DigitChar(n % b, upper)]
  {
    DivBase(n, b);
  }

  lemma NoDigits(b: nat)
    ensures ValueOf("", b) == 0
  {
  }

  lemma DivSmall(n: nat, b: nat)
    requires IsBase(b) && n < b
    ensures n % b == n
  {
  }

  function Repeat(c: char, n: nat): (s: string)
    ensures |s| == n && forall i :: 0 <= i < n ==> s[i] == c
  {
    seq(n, _ => c)
  }

  lemma RepeatSnoc(c: char, n: nat)
    ensures Repeat(c, n + 1) == Repeat(c, n) + [c] && Repeat(c, n + 1) == [c] + Repeat(c, n)
  {
  }

  lemma ZeroDigit(b: nat)
    ensures DigitVal('0', b) == Some(0)
  {
  }

  /** Leading zeros do not count. */
  lemma {:induction false} LeadingZeros(k: nat, s: string, b: nat)
    requires CanScan(b) && AllDigits(s, b)
    ensures AllDigits(Repeat('0', k) + s, b) && ValueOf(Repeat('0', k) + s, b) == ValueOf(s, b)
    decreases k + |s|
  {
    hide DigitVal;
    var z := Repeat('0', k);
    if s != [] {
      var t, c := s[..|s| - 1], s[|s| - 1];
      assert IsDigit(c, b);
      LeadingZeros(k, t, b);
      ValueSnoc(z + t, c, b);
      assert z + s == z + t + [c] && s == t + [c];
    } else if k > 0 {
      RepeatSnoc('0', k - 1);
      LeadingZeros(k - 1, [], b);
      assert Repeat('0', k - 1) + [] == Repeat('0', k - 1) && z + [] == z;
      ZeroDigit(b);
      ValueSnoc(Repeat('0', k - 1), '0', b);
    }
  }
}
