/** The integer conversions of printf: digits into a buffer, then sign, zeros and padding to the sink. */
module Printing {
  import opened Bits
  import opened Numerals

  // ----- the digits -----

  function Rev(s: string): string {
    if s == [] then [] else [s[|s| - 1]] + Rev(s[..|s| - 1])
  }

  lemma RevSnoc(s: string, c: char)
    ensures Rev(s + [c]) == [c] + Rev(s)
  {
    assert (s + [c])[..|s|] == s;
  }

  lemma {:induction false} RevCons(c: char, s: string)
    ensures Rev([c] + s) == Rev(s) + [c]
    decreases |s|
  {
    if s == [] {
      assert [c] + s == [] + [c];
    } else {
      var t, d := s[..|s| - 1], s[|s| - 1];
      RevCons(c, t);
      RevSnoc([c] + t, d);
      assert [c] + s == [c] + t + [d];
    }
  }

  function BaseToNbits(b: nat): nat {
    if b == 2 then 1 else if b == 4 then 2 else if b == 8 then 3 else if b == 16 then 4 else 0
  }

  function Mask(k: nat): nat { ShlIs(1, k); Shl(1, k) - 1 }

  /** Masking and shifting give the digits that dividing gives. */
  lemma ShiftIsDivision(num: nat, b: nat)
    requires IsBase(b) && BaseToNbits(b) != 0
    ensures var k := BaseToNbits(b);
            && And(num, Mask(k)) == num % b && Shr(num, k) == num / b
  {
    hide And;
    hide Shl;
    hide Shr;
    hide Pow2;
    var k := BaseToNbits(b);
    SmallPowers();
    ShlIs(1, k);
    AndMask(num, k);
    Split(num, k);
  }

  lemma SmallPowers()
    ensures Pow2(1) == 2 && Pow2(3) == 8 && Pow2(4) == 16
  {
  }

  /** What is left to print after each digit fits in one bit less. */
  lemma HalfFits(num: nat, b: nat, k: nat)
    requires IsBase(b) && num < Pow2(k) && k > 0
    ensures num / b < Pow2(k - 1) && (num / b != 0 ==> k > 1)
  {
    DivBase(num, b);
  }

  /** The step of either loop: one more digit in front of those already there. */
  lemma DigitStep(num: nat, b: nat, upper: bool, done: string)
    requires IsBase(b)
    ensures num % b < 16
    ensures num / b != 0 ==>
              Numeral(num, b, upper) + done == Numeral(num / b, b, upper) + ([DigitChar(num % b, upper)] + done)
    ensures num / b == 0 ==> Numeral(num, b, upper) + done == [DigitChar(num % b, upper)] + done
  {
    hide DigitChar;
    hide Numeral;
    DivBase(num, b);
    NumeralIs(num, b, upper);
    var c, rest := DigitChar(num % b, upper), if num < b then "" else Numeral(num / b, b, upper);
    assert (rest + [c]) + done == rest + ([c] + done);
    assert "" + ([c] + done) == [c] + done;
  }

  method Divide(num: nat, temp: array<char>, b: nat, upper: bool, w: nat) returns (i: nat)
    requires IsBase(b) && num < Pow2(w) && w > 0 && temp.Length == w + 1
    modifies temp
    ensures 1 <= i <= w && temp[0] == old(temp[0])
    ensures Rev(temp[1..i + 1]) == Numeral(num, b, upper)
  {
    hide Pow2;
    hide Rev;
    hide Numeral;
    hide DigitChar;
    i := 1;
    var n: nat := num;
    RevNone();
    assert temp[1..1] == [] && Numeral(num, b, upper) + [] == Numeral(num, b, upper);
    while true
      invariant 1 <= i <= w && n < Pow2(w - i + 1) && temp[0] == old(temp[0])
      invariant Numeral(num, b, upper) == Numeral(n, b, upper) + Rev(temp[1..i])
      decreases w - i
    {
      DigitStep(n, b, upper, Rev(temp[1..i]));
      HalfFits(n, b, w - i + 1);
      ghost var done := temp[1..i];
      temp[i] := DigitChar(n % b, upper);
      assert temp[1..i + 1] == done + [temp[i]];
      RevSnoc(done, temp[i]);
      n := n / b;
      if n == 0 {
        break;
      }
      i := i + 1;
    }
  }

  lemma RevNone()
    ensures Rev([]) == []
  {
  }

  method Shift(num: nat, temp: array<char>, b: nat, upper: bool, w: nat) returns (i: nat)
    requires IsBase(b) && BaseToNbits(b) != 0 && num < Pow2(w) && w > 0 && temp.Length == w + 1
    modifies temp
    ensures 1 <= i <= w && temp[0] == old(temp[0])
    ensures Rev(temp[1..i + 1]) == Numeral(num, b, upper)
  {
    hide Pow2;
    hide Rev;
    hide Numeral;
    hide DigitChar;
    hide And;
    hide Shr;
    hide Mask;
    i := 1;
    var n: nat := num;
    var shift := BaseToNbits(b);
    var mask := Mask(shift);
    RevNone();
    assert temp[1..1] == [] && Numeral(num, b, upper) + [] == Numeral(num, b, upper);
    while true
      invariant 1 <= i <= w && n < Pow2(w - i + 1) && temp[0] == old(temp[0])
      invariant Numeral(num, b, upper) == Numeral(n, b, upper) + Rev(temp[1..i])
      decreases w - i
    {
      DigitStep(n, b, upper, Rev(temp[1..i]));
      HalfFits(n, b, w - i + 1);
      ShiftIsDivision(n, b);
      ghost var done := temp[1..i];
      temp[i] := DigitChar(And(n, mask), upper);
      assert temp[1..i + 1] == done + [temp[i]];
      RevSnoc(done, temp[i]);
      n := Shr(n, shift);
      if n == 0 {
        break;
      }
      i := i + 1;
    }
  }

  /**
    The numeral of num and a terminator, at the start of str: by division or, for a power of
    two, by shifting.  It takes at most w + 1 places for numbers of w bits.
  */
  method UlongToString(w: nat, num: nat, str: array<char>, b: nat, upper: bool)
    requires IsBase(b) && num < Pow2(w) && w > 0 && str.Length >= w + 1
    modifies str
    ensures var s := Numeral(num, b, upper) + ['\0'];
            |s| <= w + 1 && str[..|s|] == s && forall x :: |s| <= x < str.Length ==> str[x] == old(str[x])
  {
    hide Pow2;
    hide Rev;
    hide Numeral;
    var temp := new char[w + 1](_ => '\0');
    temp[0] := '\0';
    var i;
    if BaseToNbits(b) == 0 {
      i := Divide(num, temp, b, upper, w);
    } else {
      i := Shift(num, temp, b, upper, w);
    }
    ghost var digits := temp[1..i + 1];
    RevLength(digits);
    assert temp[..i + 1] == ['\0'] + digits;
    RevCons('\0', digits);
    CopyReversed(temp, i, str);
  }

  /** The last loop of ulong_to_string. */
  method CopyReversed(temp: array<char>, last: nat, str: array<char>)
    requires last < temp.Length && last < str.Length && temp != str
    modifies str
    ensures str[..last + 1] == Rev(temp[..last + 1])
    ensures forall x :: last < x < str.Length ==> str[x] == old(str[x])
  {
    hide Rev;
    RevNone();
    var i, j, more := last, 0, true;
    while more
      invariant j + i == last && -1 <= i <= last && (more <==> i >= 0)
      invariant str[..j] + Rev(temp[..i + 1]) == Rev(temp[..last + 1])
      invariant forall x :: j <= x < str.Length ==> str[x] == old(str[x])
      decreases i
    {
      assert temp[..i + 1] == temp[..i] + [temp[i]];
      RevSnoc(temp[..i], temp[i]);
      ghost var before := str[..j];
      str[j] := temp[i];
      assert str[..j + 1] == before + [temp[i]];
      j, i := j + 1, i - 1;
      more := i >= 0;
    }
    assert temp[..0] == [];
  }

  lemma {:induction false} RevLength(s: string)
    ensures |Rev(s)| == |s|
    decreases |s|
  {
    if s != [] { RevLength(s[..|s| - 1]); }
  }

  // ----- the field -----

  /** Flags, minimum width and precision of a conversion; a negative precision is none. */
  datatype Field = Field(leftjust: bool, zero: bool, fmin: nat, prec: int)

  function Missing(have: nat, want: int): nat { if have < want then want - have else 0 }

  /** What a conversion writes: sign and numeral, brought up to the precision and then to the width. */
  function Formatted(f: Field, negative: bool, numeral: string): string {
    var sign := if negative then "-" else "";
    var digits := Repeat('0', Missing(|numeral|, f.prec)) + numeral;
    var pad := Missing(|sign| + |digits|, f.fmin);
    if f.leftjust then sign + digits + Repeat(' ', pad)
    else if f.zero && f.prec < 0 then sign + Repeat('0', pad) + digits
    else Repeat(' ', pad) + sign + digits
  }

  /** The string that sprntf writes to, one character at a time. */
  class Sink {
    const buf: array<char>
    var s: nat

    ghost predicate Valid()
      reads this
    {
      s <= buf.Length
    }

    constructor (buf: array<char>)
      ensures Valid() && this.buf == buf && s == 0
    {
      this.buf, s := buf, 0;
    }

    method Putc(c: char)
      requires Valid() && s < buf.Length
      modifies this, buf
      ensures Valid() && s == old(s) + 1 && buf[..s] == old(buf[..s]) + [c]
      ensures forall x :: s <= x < buf.Length ==> buf[x] == old(buf[x])
    {
      buf[s] := c;
      s := s + 1;
    }

    /** n times the same character. */
    method Pad(c: char, n: nat)
      requires Valid() && s + n <= buf.Length
      modifies this, buf
      ensures Valid() && s == old(s) + n && buf[..s] == old(buf[..s]) + Repeat(c, n)
      ensures forall x :: s <= x < buf.Length ==> buf[x] == old(buf[x])
    {
      hide Repeat;
      var i := 0;
      RepeatNone(c);
      while i < n
        invariant i <= n && Valid() && s == old(s) + i && buf[..s] == old(buf[..s]) + Repeat(c, i)
        invariant forall x :: s <= x < buf.Length ==> buf[x] == old(buf[x])
      {
        Putc(c);
        RepeatSnoc(c, i);
        i := i + 1;
      }
    }

    /** The first n characters of str. */
    method Puts(str: array<char>, n: nat)
      requires Valid() && s + n <= buf.Length && n <= str.Length && str != buf
      modifies this, buf
      ensures Valid() && s == old(s) + n && buf[..s] == old(buf[..s]) + str[..n]
      ensures forall x :: s <= x < buf.Length ==> buf[x] == old(buf[x])
    {
      var i := 0;
      while i < n
        invariant i <= n && Valid() && s == old(s) + i && buf[..s] == old(buf[..s]) + str[..i]
        invariant forall x :: s <= x < buf.Length ==> buf[x] == old(buf[x])
      {
        Putc(str[i]);
        i := i + 1;
      }
    }

    /** From the numeral in str on: the length computations and the output of one conversion. */
    method Convert(f: Field, negative: bool, str: array<char>, len: nat)
      requires Valid() && len <= str.Length && str != buf && s + |Formatted(f, negative, str[..len])| <= buf.Length
      modifies this, buf
      ensures Valid() && s == old(s) + |Formatted(f, negative, str[..len])|
      ensures buf[..s] == old(buf[..s]) + Formatted(f, negative, str[..len])
      ensures forall x :: s <= x < buf.Length ==> buf[x] == old(buf[x])
    {
      hide Formatted;
      FormattedParts(f, negative, str[..len]);
      var padZero := f.zero && !f.leftjust;
      var zeroes := 0;
      if f.prec >= 0 {
        if f.prec > len { zeroes := f.prec - len; }
        padZero := false;
      }
      var nonpadding := len + zeroes + (if negative then 1 else 0);
      var padding := 0;
      if nonpadding < f.fmin { padding := f.fmin - nonpadding; }
      if !f.leftjust && padZero {
        zeroes, padding := padding, 0;
      }
      assert Layout(f, negative, len) == if f.leftjust then (0, zeroes, padding) else (padding, zeroes, 0);
      Emit(f.leftjust, padding, negative, zeroes, str, len);
    }

    /** Padding, sign, zeros, numeral, padding. */
    method Emit(leftjust: bool, padding: nat, negative: bool, zeroes: nat, str: array<char>, len: nat)
      requires Valid() && len <= str.Length && str != buf
      requires s + padding + zeroes + len + (if negative then 1 else 0) <= buf.Length
      modifies this, buf
      ensures Valid() && s == old(s) + padding + (if negative then 1 else 0) + zeroes + len
      ensures buf[..s] == old(buf[..s])
                + (Repeat(' ', if leftjust then 0 else padding) + (if negative then "-" else "")
                   + Repeat('0', zeroes) + str[..len] + Repeat(' ', if leftjust then padding else 0))
      ensures forall x :: s <= x < buf.Length ==> buf[x] == old(buf[x])
    {
      hide Repeat;
      RepeatNone(' ');
      ghost var start := buf[..s];
      if !leftjust {
        Pad(' ', padding);
      }
      ghost var lead := Repeat(' ', if leftjust then 0 else padding);
      assert buf[..s] == start + lead;
      if negative {
        Putc('-');
      }
      ghost var sign := if negative then "-" else "";
      assert buf[..s] == start + lead + sign;
      Pad('0', zeroes);
      Puts(str, len);
      ghost var most := start + lead + sign + Repeat('0', zeroes) + str[..len];
      assert buf[..s] == most;
      if leftjust {
        Pad(' ', padding);
      }
      ghost var tail := Repeat(' ', if leftjust then padding else 0);
      assert most + [] == most;
      assert buf[..s] == most + tail;
      Regroup(start, lead, sign, Repeat('0', zeroes), str[..len], tail);
    }
  }

  lemma RepeatNone(c: char)
    ensures Repeat(c, 0) == []
  {
  }

  lemma Regroup(a: string, b: string, c: string, d: string, e: string, g: string)
    ensures a + b + c + d + e + g == a + (b + c + d + e + g)
  {
  }

  /** The number of spaces before, zeros and spaces after that a field calls for. */
  function Layout(f: Field, negative: bool, len: nat): (nat, nat, nat) {
    var core := (if negative then 1 else 0) + len + Missing(len, f.prec);
    var pad := Missing(core, f.fmin);
    if f.leftjust then (0, Missing(len, f.prec), pad)
    else if f.zero && f.prec < 0 then (0, pad, 0)
    else (pad, Missing(len, f.prec), 0)
  }

  lemma FormattedParts(f: Field, negative: bool, numeral: string)
    ensures var (lead, zeroes, tail) := Layout(f, negative, |numeral|); var sign := if negative then "-" else "";
            && Formatted(f, negative, numeral)
               == Repeat(' ', lead) + sign + Repeat('0', zeroes) + numeral + Repeat(' ', tail)
            && |Formatted(f, negative, numeral)| == lead + |sign| + zeroes + |numeral| + tail
  {
  }

  // ----- the conversions -----

  /**
    A field character by character: it is as wide as it has to be; what is not padding is the sign,
    zeros up to the precision and the numeral; padding goes behind if left-justified, in front
    otherwise, and is zeros behind the sign exactly if zeros are asked for and no precision.
  */
  lemma FieldIs(f: Field, negative: bool, numeral: string)
    ensures var s, len := Formatted(f, negative, numeral), |numeral|;
            var sign := if negative then 1 else 0;
            var body := sign + if f.prec > len then f.prec else len;
            var zeroPad := f.zero && !f.leftjust && f.prec < 0;
            var start := if f.leftjust || zeroPad || f.fmin <= body then 0 else f.fmin - body;
            var stop := if f.leftjust then body else |s|;
            && |s| == (if f.fmin > body then f.fmin else body)
            && (negative ==> s[start] == '-')
            && s[stop - len..stop] == numeral
            && (forall i :: 0 <= i < start || stop <= i < |s| ==> s[i] == ' ')
            && (forall i :: start + sign <= i < stop - len ==> s[i] == '0')
  {
    hide Repeat;
    hide Formatted;
    FormattedIs(f, negative, numeral);
    var sign := if negative then "-" else "";
    var len := |numeral|;
    var zeros := if f.prec > len then f.prec - len else 0;
    var pad := if f.fmin > |sign| + zeros + len then f.fmin - (|sign| + zeros + len) else 0;
    var (lead, mid, tail) := if f.leftjust then (0, zeros, pad)
                             else if f.zero && f.prec < 0 then (0, pad, 0) else (pad, zeros, 0);
    PiecesAt(lead, sign, mid, numeral, tail);
  }

  lemma FormattedIs(f: Field, negative: bool, numeral: string)
    ensures var sign := if negative then "-" else ""; var len := |numeral|;
            var zeros := if f.prec > len then f.prec - len else 0;
            var pad := if f.fmin > |sign| + zeros + len then f.fmin - (|sign| + zeros + len) else 0;
            var (lead, mid, tail) := if f.leftjust then (0, zeros, pad)
                                     else if f.zero && f.prec < 0 then (0, pad, 0) else (pad, zeros, 0);
            Formatted(f, negative, numeral) == Repeat(' ', lead) + sign + Repeat('0', mid) + numeral + Repeat(' ', tail)
  {
    FormattedParts(f, negative, numeral);
  }

  lemma PiecesAt(lead: nat, sign: string, mid: nat, numeral: string, tail: nat)
    ensures var s := Repeat(' ', lead) + sign + Repeat('0', mid) + numeral + Repeat(' ', tail);
            var stop := lead + |sign| + mid + |numeral|;
            && |s| == stop + tail && s[lead..lead + |sign|] == sign && s[stop - |numeral|..stop] == numeral
            && (|sign| == 1 ==> s[lead] == sign[0])
            && (forall i :: 0 <= i < lead || stop <= i < |s| ==> s[i] == ' ')
            && (forall i :: lead + |sign| <= i < stop - |numeral| ==> s[i] == '0')
  {
  }

  datatype Conversion = Signed | Unsigned(base: nat, upper: bool)

  predicate IsConversion(c: Conversion) { c.Unsigned? ==> IsBase(c.base) }

  function BaseOf(c: Conversion): nat { if c.Signed? then 10 else c.base }
  function UpperOf(c: Conversion): bool { c.Unsigned? && c.upper }

  /** Bounds of the arguments: a long, or an unsigned long, of w bits. */
  predicate IsArgument(w: nat, c: Conversion, v: int)
    requires w > 0
  {
    if c.Signed? then 0 - Pow2(w - 1) <= v < Pow2(w - 1) else 0 <= v < Pow2(w)
  }

  /** The number printed, sign apart. */
  function Magnitude(v: int): nat { if v < 0 then -v else v }

  /** What sprintf writes for a conversion. */
  function Printed(f: Field, c: Conversion, v: int): string
    requires IsConversion(c)
  {
    Formatted(f, v < 0, Numeral(Magnitude(v), BaseOf(c), UpperOf(c)))
  }

  /** -ularg on w bits, when ularg stands for a negative long, is its magnitude. */
  lemma NegatedIsMagnitude(w: nat, v: int)
    requires w > 0 && 0 - Pow2(w - 1) <= v < 0
    ensures 0 <= v + Pow2(w) && (Pow2(w) - (v + Pow2(w))) % Pow2(w) == -v
  {
    DivModUnique(-v, Pow2(w), 0, -v);
  }

  /**
    sprintf with one integer conversion: writes what Printed says and a terminator, and returns
    the number of characters before it.
  */
  method Sprintf(w: nat, str: array<char>, f: Field, c: Conversion, v: int) returns (n: nat)
    requires w > 1 && IsConversion(c) && IsArgument(w, c, v) && |Printed(f, c, v)| < str.Length
    modifies str
    ensures n == |Printed(f, c, v)| && str[..n] == Printed(f, c, v) && str[n] == '\0'
    ensures forall x :: n < x < str.Length ==> str[x] == old(str[x])
  {
    hide Formatted;
    hide Numeral;
    hide Pow2;
    var sink := new Sink(str);
    var digits := new char[w + 1](_ => '\0');
    var sign := false;
    var ularg: nat := 0;
    if c.Signed? {
      LongBits(w);
      ularg := if v < 0 then v + Pow2(w) else v;   // the argument as an unsigned long
      if v < 0 {
        sign := true;
        NegatedIsMagnitude(w, v);
        ularg := (Pow2(w) - ularg) % Pow2(w);
      }
    } else {
      ularg := v;
    }
    assert ularg == Magnitude(v) && sign == (v < 0);
    LongBits(w);
    UlongToString(w, ularg, digits, BaseOf(c), UpperOf(c));
    NumeralNoNul(ularg, BaseOf(c), UpperOf(c));
    var len := Strlen(digits, Numeral(ularg, BaseOf(c), UpperOf(c)));
    assert digits[..len] == Numeral(ularg, BaseOf(c), UpperOf(c));
    sink.Convert(f, sign, digits, len);
    str[sink.s] := '\0';
    return sink.s;
  }

  lemma {:induction false} NumeralNoNul(n: nat, b: nat, upper: bool)
    requires IsBase(b)
    ensures '\0' !in Numeral(n, b, upper)
  {
    hide Numeral;
    NumeralIs(n, b, upper);
    DivBase(n, b);
    if n >= b { NumeralNoNul(n / b, b, upper); }
  }

  lemma LongBits(w: nat)
    requires w > 0
    ensures Pow2(w) == 2 * Pow2(w - 1)
  {
  }

  method Strlen(str: array<char>, ghost s: string) returns (n: nat)
    requires |s| < str.Length && str[..|s|] == s && str[|s|] == '\0' && '\0' !in s
    ensures n == |s|
  {
    n := 0;
    assert forall i :: 0 <= i < |s| ==> s[i] in s && str[i] == s[i];
    while str[n] != '\0'
      invariant n <= |s|
      decreases |s| - n
    {
      n := n + 1;
    }
  }
}
