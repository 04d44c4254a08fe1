/** The integer conversions of scanf, and the round trip with printf. */
module Scanning {
  import opened Bits
  import opened Types
  import opened Numerals
  import opened Printing

  const EOF: int := -1
  const UNLIMITED_LENGTH: nat := 0xFFFF_FFFF

  predicate IsSpace(c: char) { 9 <= c as int <= 13 || c == ' ' }

  // ----- what a conversion reads -----

  function Spaces(s: string): (n: nat)
    ensures n <= |s|
  {
    if s == [] || !IsSpace(s[0]) then 0 else 1 + Spaces(s[1..])
  }

  function DigitRun(s: string, b: nat): (n: nat)
    ensures n <= |s| && AllDigits(s[..n], b)
  {
    if s == [] || !IsDigit(s[0], b) then 0
    else
      var n := DigitRun(s[1..], b);
      assert forall i :: 0 < i <= n ==> s[i] == s[1..][..n][i - 1];
      1 + n
  }

  /** Whether a number was there, its sign and digits, where reading stopped, and whether the input ran out. */
  datatype Reading = Reading(matched: bool, negative: bool, digits: string, stop: nat, eof: bool)

  /** Space, a sign if there is one, and as many digits as there are. */
  function Read(s: string, b: nat): Reading {
    var p := Spaces(s);
    if p == |s| then Reading(false, false, "", p, true)
    else
      var q := if s[p] == '-' || s[p] == '+' then p + 1 else p;
      var r := DigitRun(s[q..], b);
      Reading(r > 0, s[p] == '-', s[q..][..r], q + r, q + r == |s|)
  }

  lemma {:induction false} SpacesIs(s: string, k: nat)
    requires k <= |s| && (forall i :: 0 <= i < k ==> IsSpace(s[i])) && (k < |s| ==> !IsSpace(s[k]))
    ensures Spaces(s) == k
    decreases k
  {
    if k > 0 { SpacesIs(s[1..], k - 1); }
  }

  lemma {:induction false} DigitRunIs(s: string, k: nat, b: nat)
    requires k <= |s| && (forall i :: 0 <= i < k ==> IsDigit(s[i], b)) && (k < |s| ==> !IsDigit(s[k], b))
    ensures DigitRun(s, b) == k
    decreases k
  {
    if k > 0 { DigitRunIs(s[1..], k - 1, b); }
  }

  lemma ReadNothing(s: string, b: nat)
    requires Spaces(s) == |s|
    ensures Read(s, b) == Reading(false, false, "", |s|, true)
  {
  }

  lemma ReadNumber(s: string, b: nat, q: nat)
    requires var p := Spaces(s); p < |s| && q == if s[p] == '-' || s[p] == '+' then p + 1 else p
    ensures q <= |s|
    ensures var p, r := Spaces(s), DigitRun(s[q..], b);
            Read(s, b) == Reading(r > 0, s[p] == '-', s[q..][..r], q + r, q + r == |s|) && AllDigits(s[q..][..r], b)
  {
  }

  /** The six characters that count as white space. */
  predicate White(c: char) {
    c == ' ' || c == '\t' || c == '\n' || c == '\r' || c as int == 11 || c as int == 12
  }

  /**
    Any white space, a sign or none, and digits up to the first character that is none: that is a
    number, with that sign and those digits, and reading stops right behind it.
  */
  lemma ReadsNumber(space: string, sign: string, digits: string, rest: string, b: nat)
    requires CanScan(b) && (forall i :: 0 <= i < |space| ==> White(space[i]))
    requires sign == "" || sign == "-" || sign == "+"
    requires digits != [] && AllDigits(digits, b) && (rest != [] ==> !IsDigit(rest[0], b))
    ensures Read(space + sign + digits + rest, b)
            == Reading(true, sign == "-", digits, |space| + |sign| + |digits|, rest == [])
  {
    hide Spaces;
    hide DigitRun;
    hide Read;
    hide DigitVal;
    hide White;
    hide IsSpace;
    var s := space + sign + digits + rest;
    FirstDigit(digits[0], b);
    NoSigns();
    Pieces(space, sign, digits, rest);
    SpacesThen(space, sign + (digits + rest));
    DigitsThen(digits, rest, b);
    ReadNumber(s, b, |space| + |sign|);
  }

  lemma Pieces(space: string, sign: string, digits: string, rest: string)
    requires digits != [] && |sign| <= 1
    ensures var s := space + sign + digits + rest; var core := sign + (digits + rest);
            && s == space + core && s[|space| + |sign|..] == digits + rest
            && core[0] == if sign == "" then digits[0] else sign[0]
  {
  }

  lemma NoSigns()
    ensures !IsSpace('-') && !IsSpace('+')
  {
  }

  lemma SpacesThen(space: string, core: string)
    requires (forall i :: 0 <= i < |space| ==> White(space[i])) && (core != [] ==> !IsSpace(core[0]))
    ensures Spaces(space + core) == |space| && (core != [] ==> (space + core)[|space|] == core[0])
  {
    hide Spaces;
    var s := space + core;
    forall i | 0 <= i < |space| ensures IsSpace(s[i]) { assert s[i] == space[i] && White(space[i]); }
    SpacesIs(s, |space|);
  }

  lemma DigitsThen(digits: string, rest: string, b: nat)
    requires AllDigits(digits, b) && (rest != [] ==> !IsDigit(rest[0], b))
    ensures DigitRun(digits + rest, b) == |digits| && (digits + rest)[..|digits|] == digits
  {
    hide DigitVal;
    hide DigitRun;
    var s := digits + rest;
    forall i | 0 <= i < |digits| ensures IsDigit(s[i], b) { assert s[i] == digits[i]; }
    DigitRunIs(s, |digits|, b);
  }

  lemma FirstDigit(c: char, b: nat)
    requires IsDigit(c, b)
    ensures !IsSpace(c) && c != '-' && c != '+'
  {
  }

  /** Without a digit behind the white space and the sign there is no number. */
  lemma ReadsNothing(space: string, sign: string, rest: string, b: nat)
    requires CanScan(b) && (forall i :: 0 <= i < |space| ==> White(space[i]))
    requires sign == "" || sign == "-" || sign == "+"
    requires rest != [] ==> !IsDigit(rest[0], b)
    requires sign == "" && rest != [] ==> !White(rest[0]) && rest[0] != '-' && rest[0] != '+'
    ensures var r := Read(space + sign + rest, b);
            !r.matched && r.stop == |space| + |sign| && (r.eof <==> rest == [])
  {
    hide Spaces;
    hide DigitRun;
    hide Read;
    hide DigitVal;
    hide IsSpace;
    var s := space + sign + rest;
    var core := sign + rest;
    assert s == space + core;
    NoSigns();
    if sign == "" && rest != [] { NotSpace(rest[0]); }
    SpacesThen(space, core);
    if core == [] {
      ReadNothing(s, b);
    } else {
      var q := |space| + |sign|;
      ReadNumber(s, b, q);
      assert s[q..] == rest;
      DigitRunIs(rest, 0, b);
    }
  }

  lemma NotSpace(c: char)
    requires !White(c)
    ensures !IsSpace(c)
  {
  }

  // ----- words -----

  /** One more digit, on words of w bits. */
  lemma WrapStep(v: nat, b: nat, d: nat, m: nat)
    requires m > 0
    ensures (v % m * b + d) % m == (v * b + d) % m
  {
    var q, r := v / m, v % m;
    var t, u := (r * b + d) / m, (r * b + d) % m;
    Spread(q, m, r, b);
    Spread(q * b, m, t * m + u, 1);
    assert (q * b + t) * m == q * b * m + t * m;
    assert q * m * b == q * b * m;
    DivModUnique(v * b + d, m, q * b + t, u);
  }

  lemma Spread(q: nat, m: nat, r: nat, b: nat)
    ensures (q * m + r) * b == q * m * b + r * b
  {
  }

  /** -n on words of w bits. */
  function Negated(w: nat, n: nat): nat
    requires n < Pow2(w)
  {
    if n == 0 then 0 else Pow2(w) - n
  }

  /** The number scanned, as an unsigned long of w bits. */
  function Word(w: nat, r: Reading, b: nat): nat
    requires AllDigits(r.digits, b)
  {
    var n := ValueOf(r.digits, b) % Pow2(w);
    if r.negative then Negated(w, n) else n
  }

  lemma WordIs(w: nat, r: Reading, b: nat)
    requires AllDigits(r.digits, b)
    ensures var n := ValueOf(r.digits, b) % Pow2(w); Word(w, r, b) == if r.negative then Negated(w, n) else n
  {
  }

  /** What an object of sw bits holds once n has been stored in it, read as a signed number. */
  function AsSigned(sw: nat, n: nat): int
    requires sw > 0
  {
    var x := n % Pow2(sw);
    if x < Pow2(sw - 1) then x else x - Pow2(sw)
  }

  // ----- the scanner -----

  /** The array holds the characters of text and a terminator. */
  ghost predicate IsText(str: array<char>, text: string)
    reads str
  {
    |text| < str.Length && str[..|text|] == text && str[|text|] == '\0' && '\0' !in text
  }

  lemma TextAt(str: array<char>, text: string, i: nat)
    requires IsText(str, text) && i <= |text|
    ensures i < |text| ==> str[i] == text[i] && text[i] != '\0'
    ensures i == |text| ==> str[i] == '\0'
  {
    if i < |text| { assert str[..|text|][i] == text[i] && text[i] in text; }
  }

  /** The string that sgetch and sungetch move along. */
  class Source {
    const str: array<char>
    ghost const text: string
    var pos: nat

    ghost predicate Valid()
      reads this, str
    {
      IsText(str, text) && pos <= |text|
    }

    constructor (str: array<char>, ghost text: string)
      requires IsText(str, text)
      ensures Valid() && this.str == str && this.text == text && pos == 0
    {
      this.str, this.text, pos := str, text, 0;
    }

    method Getch() returns (c: Option<char>)
      requires Valid()
      modifies this
      ensures Valid() && (old(pos) == |text| ==> c == None && pos == old(pos))
      ensures old(pos) < |text| ==> c == Some(text[old(pos)]) && pos == old(pos) + 1
    {
      TextAt(str, text, pos);
      if str[pos] == '\0' {
        return None;
      }
      c := Some(str[pos]);
      pos := pos + 1;
    }

    method Ungetch()
      requires Valid() && pos > 0
      modifies this
      ensures Valid() && pos == old(pos) - 1
    {
      pos := pos - 1;
    }

    /** The first character that is no space. */
    method SkipSpaces() returns (c: Option<char>)
      requires Valid()
      modifies this
      ensures Valid()
      ensures var s := text[old(pos)..]; var p := Spaces(s);
              if p == |s| then c == None && pos == |text| else c == Some(s[p]) && pos == old(pos) + p + 1
    {
      ghost var s, start, k := text[pos..], pos, 0;
      c := Getch();
      while c.Some? && IsSpace(c.value)
        invariant Valid() && k <= |s| && forall i :: 0 <= i < k ==> IsSpace(s[i])
        invariant if k == |s| then c == None && pos == |text| else c == Some(s[k]) && pos == start + k + 1
        decreases |s| - k
      {
        c := Getch();
        k := k + 1;
      }
      SpacesIs(s, k);
    }

    /** The loop over the digits, with the first character already read; from is where that one is. */
    method ScanDigits(w: nat, b: nat, maxlen: nat, len0: nat, c0: Option<char>, ghost from: nat)
      returns (c: Option<char>, n: nat, k: nat)
      requires Valid() && CanScan(b) && from <= |text| && len0 + |text| - from < maxlen
      requires if from == |text| then c0 == None && pos == from else c0 == Some(text[from]) && pos == from + 1
      modifies this
      ensures Valid() && k == DigitRun(text[from..], b) && pos == from + k && (c == None <==> pos == |text|)
      ensures n == ValueOf(text[from..][..k], b) % Pow2(w) < Pow2(w)
    {
      hide Pow2;
      hide DigitVal;
      ghost var s := text[from..];
      c, n, k := c0, 0, 0;
      NoDigits(b);
      SmallMod(0, Pow2(w));
      assert s[..0] == "";
      while c.Some?
        invariant Valid() && k <= |s| && AllDigits(s[..k], b) && n == ValueOf(s[..k], b) % Pow2(w)
        invariant if k == |s| then c == None && pos == |text| else c == Some(s[k]) && pos == from + k + 1
        decreases |s| - k
      {
        if !IsDigit(c.value, b) {
          Ungetch();
          break;
        }
        ValueSnoc(s[..k], s[k], b);
        assert s[..k + 1] == s[..k] + [s[k]];
        WrapStep(ValueOf(s[..k], b), b, DigitVal(c.value, b).value, Pow2(w));
        n := (n * b + DigitVal(c.value, b).value) % Pow2(w);
        k := k + 1;
        if len0 + k >= maxlen {
          break;
        }
        c := Getch();
      }
      forall i | 0 <= i < k ensures IsDigit(s[i], b) { assert s[..k][i] == s[i]; }
      DigitRunIs(s, k, b);
    }

    /** The numeric part of scan_number_or_string. */
    method ScanNumber(w: nat, b: nat, maxlen: nat) returns (matched: bool, n: nat, eof: bool)
      requires Valid() && CanScan(b) && |text| - pos < maxlen
      modifies this
      ensures Valid()
      ensures var r := Read(text[old(pos)..], b);
              && matched == r.matched && eof == r.eof && pos == old(pos) + r.stop
              && (matched ==> AllDigits(r.digits, b) && n == Word(w, r, b))
    {
      hide Pow2;
      hide ValueOf;
      hide Read;
      hide Word;
      hide DigitRun;
      hide Spaces;
      hide AllDigits;
      hide Negated;
      ghost var s, start := text[pos..], pos;
      var c := SkipSpaces();
      if c == None {
        ReadNothing(s, b);
        return false, 0, true;
      }
      ghost var p := Spaces(s);
      var negative := c == Some('-');
      var hadSign, len := false, 0;
      if c == Some('-') || c == Some('+') {
        c := Getch();
        hadSign := true;
        len := 1;
      }
      ghost var q := p + len;
      var k;
      c, n, k := ScanDigits(w, b, maxlen, len, c, start + q);
      assert text[start + q..] == s[q..];
      ReadNumber(s, b, q);
      WordIs(w, Read(s, b), b);
      len := len + k;
      eof := c == None;
      if len != 0 && !(hadSign && len == 1) {
        if negative {
          n := Negated(w, n);
        }
        matched := true;
      } else {
        matched := false;
      }
    }
  }

  /** sscanf with one integer conversion: 1 if a number was there, EOF if nothing was, else 0. */
  method Sscanf(w: nat, str: array<char>, b: nat, ghost text: string) returns (ret: int, n: nat)
    requires IsText(str, text) && CanScan(b) && |text| < UNLIMITED_LENGTH
    ensures var r := Read(text, b);
            && ret == (if r.matched then 1 else if r.eof then -1 else 0)
            && (r.matched ==> AllDigits(r.digits, b) && n == Word(w, r, b))
  {
    hide Word;
    hide Read;
    var src := new Source(str, text);
    assert text[0..] == text;
    var matched, eof;
    matched, n, eof := src.ScanNumber(w, b, UNLIMITED_LENGTH);
    if matched {
      return 1, n;
    }
    return if eof then EOF else 0, 0;
  }

  // ----- the round trip -----

  lemma NumeralFirst(n: nat, b: nat, upper: bool, k: nat)
    requires CanScan(b)
    ensures var t := Repeat('0', k) + Numeral(n, b, upper);
            && |t| > 0 && AllDigits(t, b) && ValueOf(t, b) == n
            && !IsSpace(t[0]) && t[0] != '-' && t[0] != '+'
  {
    hide Numeral;
    hide ValueOf;
    NumeralValue(n, b, upper);
    LeadingZeros(k, Numeral(n, b, upper), b);
    var t := Repeat('0', k) + Numeral(n, b, upper);
    assert IsDigit(t[0], b);
  }

  /** Spaces, a sign if negative, digits, spaces: reading gets the sign and the digits. */
  lemma ReadLayout(lead: nat, negative: bool, digits: string, tail: nat, b: nat)
    requires CanScan(b) && digits != [] && AllDigits(digits, b)
    requires !IsSpace(digits[0]) && digits[0] != '-' && digits[0] != '+'
    ensures var r := Read(Repeat(' ', lead) + (if negative then "-" else "") + digits + Repeat(' ', tail), b);
            r.matched && r.negative == negative && r.digits == digits
  {
    hide Read;
    hide DigitVal;
    SpaceNoDigit(b);
    ReadsNumber(Repeat(' ', lead), if negative then "-" else "", digits, Repeat(' ', tail), b);
  }

  lemma SpaceNoDigit(b: nat)
    ensures !IsDigit(' ', b)
  {
  }

  lemma ReadPrinted(f: Field, c: Conversion, v: int)
    requires IsConversion(c) && CanScan(BaseOf(c))
    ensures var r := Read(Printed(f, c, v), BaseOf(c));
            && r.matched && r.negative == (v < 0)
            && AllDigits(r.digits, BaseOf(c)) && ValueOf(r.digits, BaseOf(c)) == Magnitude(v)
  {
    hide Read;
    hide Numeral;
    hide Formatted;
    hide ValueOf;
    hide Layout;
    hide AllDigits;
    var numeral := Numeral(Magnitude(v), BaseOf(c), UpperOf(c));
    var (lead, zeroes, tail) := Layout(f, v < 0, |numeral|);
    FormattedParts(f, v < 0, numeral);
    NumeralFirst(Magnitude(v), BaseOf(c), UpperOf(c), zeroes);
    ReadLayout(lead, v < 0, Repeat('0', zeroes) + numeral, tail, BaseOf(c));
    Gather(Repeat(' ', lead), if v < 0 then "-" else "", Repeat('0', zeroes), numeral, Repeat(' ', tail));
  }

  lemma Gather(a: string, b: string, c: string, d: string, e: string)
    ensures a + b + c + d + e == a + b + (c + d) + e
  {
  }

  lemma Pow2Split(sw: nat, w: nat)
    requires sw <= w
    ensures Pow2(w) == Pow2(w - sw) * Pow2(sw) && Pow2(sw) <= Pow2(w)
  {
    hide Pow2;
    Pow2Sum(w - sw, sw);
    AtLeast(Pow2(w - sw), Pow2(sw));
  }

  lemma AtLeast(h: nat, p: nat)
    requires h > 0
    ensures p <= h * p
  {
    assert h * p == (h - 1) * p + p;
  }

  /**
    For every value of an integer of sw bits, sw no more than the w of a long, whatever the
    flags, width and precision: what the scanner reads from what the printer wrote is that value.
  */
  lemma RoundTrip(w: nat, sw: nat, f: Field, c: Conversion, v: int)
    requires 0 < sw <= w && IsConversion(c) && CanScan(BaseOf(c)) && IsArgument(sw, c, v)
    ensures var r := Read(Printed(f, c, v), BaseOf(c));
            && r.matched && AllDigits(r.digits, BaseOf(c))
            && var n := Word(w, r, BaseOf(c));
               if c.Signed? then AsSigned(sw, n) == v else n % Pow2(sw) == v
  {
    hide Read;
    hide Printed;
    hide ValueOf;
    hide AllDigits;
    hide Word;
    hide AsSigned;
    hide Pow2;
    hide Negated;
    ReadPrinted(f, c, v);
    var r := Read(Printed(f, c, v), BaseOf(c));
    WordIs(w, r, BaseOf(c));
    Fits(w, sw, c, v);
    if v >= 0 { Positive(sw, v); } else { Negative(w, sw, -v); }
  }

  lemma Fits(w: nat, sw: nat, c: Conversion, v: int)
    requires 0 < sw <= w && IsArgument(sw, c, v)
    ensures Magnitude(v) % Pow2(w) == Magnitude(v) < Pow2(w)
    ensures c.Signed? ==> Magnitude(v) <= Pow2(sw - 1)
    ensures c.Unsigned? || v >= 0 ==> Magnitude(v) < Pow2(sw)
  {
    hide Pow2;
    LongBits(sw);
    Pow2Split(sw, w);
    DivModUnique(Magnitude(v), Pow2(w), 0, Magnitude(v));
  }

  lemma Positive(sw: nat, v: nat)
    requires sw > 0 && v < Pow2(sw)
    ensures v % Pow2(sw) == v && (v < Pow2(sw - 1) ==> AsSigned(sw, v) == v)
  {
    DivModUnique(v, Pow2(sw), 0, v);
  }

  lemma Negative(w: nat, sw: nat, m: nat)
    requires 0 < sw <= w && 0 < m <= Pow2(sw - 1) && m < Pow2(w)
    ensures AsSigned(sw, Negated(w, m)) == 0 - m
  {
    hide Pow2;
    LongBits(sw);
    TwosComplement(w, sw, m);
  }

  lemma OneLess(h: nat, p: nat)
    requires h > 0
    ensures (h - 1) * p == h * p - p
  {
  }

  lemma TwosComplement(w: nat, sw: nat, m: nat)
    requires 0 < sw <= w && 0 < m <= Pow2(sw)
    ensures m <= Pow2(w) && (Pow2(w) - m) % Pow2(sw) == Pow2(sw) - m
  {
    hide Pow2;
    Pow2Split(sw, w);
    var h, p := Pow2(w - sw), Pow2(sw);
    OneLess(h, p);
    DivModUnique(Pow2(w) - m, p, h - 1, p - m);
  }

  /** The round trip with any white space in front, and anything behind that is no digit. */
  lemma SpacedRoundTrip(w: nat, sw: nat, space: string, v: int, c: Conversion, rest: string)
    requires 0 < sw <= w && IsConversion(c) && CanScan(BaseOf(c)) && IsArgument(sw, c, v)
    requires (forall i :: 0 <= i < |space| ==> White(space[i])) && (rest != [] ==> !IsDigit(rest[0], BaseOf(c)))
    ensures var numeral := Numeral(Magnitude(v), BaseOf(c), UpperOf(c));
            var r := Read(space + (if v < 0 then "-" else "") + numeral + rest, BaseOf(c));
            && r.matched && r.digits == numeral && AllDigits(r.digits, BaseOf(c))
            && var n := Word(w, r, BaseOf(c));
               if c.Signed? then AsSigned(sw, n) == v else n % Pow2(sw) == v
  {
    hide Read;
    hide ValueOf;
    hide AllDigits;
    hide Word;
    hide AsSigned;
    hide Pow2;
    hide Negated;
    hide Numeral;
    var numeral := Numeral(Magnitude(v), BaseOf(c), UpperOf(c));
    NumeralValue(Magnitude(v), BaseOf(c), UpperOf(c));
    ReadsNumber(space, if v < 0 then "-" else "", numeral, rest, BaseOf(c));
    var r := Read(space + (if v < 0 then "-" else "") + numeral + rest, BaseOf(c));
    WordIs(w, r, BaseOf(c));
    Fits(w, sw, c, v);
    if v >= 0 { Positive(sw, v); } else { Negative(w, sw, -v); }
  }

  /** What is scanned is the number modulo the word, negated there if it has a minus. */
  lemma WordSum(w: nat, r: Reading, b: nat)
    requires AllDigits(r.digits, b)
    ensures var m, v := Pow2(w), ValueOf(r.digits, b);
            Word(w, r, b) < m && (if r.negative then (Word(w, r, b) + v) % m == 0 else Word(w, r, b) == v % m)
  {
    hide Pow2;
    hide ValueOf;
    var m, v := Pow2(w), ValueOf(r.digits, b);
    var n := v % m;
    WordIs(w, r, b);
    assert v == v / m * m + n;
    if r.negative && n > 0 { DivModUnique(m - n + v, m, v / m + 1, 0); }
    if r.negative && n == 0 { DivModUnique(v, m, v / m, 0); }
  }

  // ----- where the number goes -----

  /** The bytes of an object of len bytes, low byte first. */
  function LittleEndian(n: nat, len: nat): (s: seq<byte>)
    ensures |s| == len
  {
    if len == 0 then [] else [(n % 256) as byte] + LittleEndian(n / 256, len - 1)
  }

  function FromLittleEndian(s: seq<byte>): nat {
    if s == [] then 0 else s[0] as nat + 256 * FromLittleEndian(s[1..])
  }

  /** Memory after n has been stored as len bytes at a. */
  function Stored(mem: seq<byte>, a: nat, len: nat, n: nat): (m: seq<byte>)
    requires a + len <= |mem|
    ensures |m| == |mem|
  {
    mem[..a] + LittleEndian(n, len) + mem[a + len..]
  }

  /** How many bytes a scan stores for a target of len bytes: an upper-case conversion always stores a long. */
  function StoreLen(long: nat, len: nat, c: Conversion): nat {
    if UpperOf(c) then long else len
  }

  lemma {:induction false} LittleEndianPrefix(n: nat, len: nat, full: nat)
    requires len <= full
    ensures LittleEndian(n, full)[..len] == LittleEndian(n, len)
    decreases len
  {
    if len > 0 {
      LittleEndianPrefix(n / 256, len - 1, full - 1);
      assert LittleEndian(n, full)[..len] == [LittleEndian(n, full)[0]] + LittleEndian(n / 256, full - 1)[..len - 1];
    }
  }

  lemma Pow2Byte(len: nat)
    ensures Pow2(8 * (len + 1)) == 256 * Pow2(8 * len)
  {
    var k := 8 * len;
    assert Pow2(k + 2) == 4 * Pow2(k) && Pow2(k + 4) == 4 * Pow2(k + 2);
    assert Pow2(k + 6) == 4 * Pow2(k + 4) && Pow2(k + 8) == 4 * Pow2(k + 6);
  }

  lemma ByteStep(n: nat, p: nat)
    requires p > 0
    ensures n % (256 * p) == 256 * (n / 256 % p) + n % 256
  {
    var m := n / 256;
    var q, r := m / p, m % p;
    assert m == q * p + r;
    Regroup(q, p);
    DivModUnique(n, 256 * p, q, 256 * r + n % 256);
  }

  lemma Regroup(q: nat, p: nat)
    ensures 256 * (q * p) == q * (256 * p)
  {
  }

  lemma {:induction false} LittleEndianValue(n: nat, len: nat)
    ensures FromLittleEndian(LittleEndian(n, len)) == n % Pow2(8 * len)
    decreases len
  {
    hide Pow2;
    if len == 0 {
      assert Pow2(0) == 1 by { PowZero(); }
    } else {
      LittleEndianValue(n / 256, len - 1);
      Pow2Byte(len - 1);
      ByteStep(n, Pow2(8 * (len - 1)));
      assert LittleEndian(n, len)[1..] == LittleEndian(n / 256, len - 1);
    }
  }

  lemma PowZero()
    ensures Pow2(0) == 1
  {
  }

  /** Reading the target gives the number back, however many more bytes were stored. */
  lemma StoredValue(mem: seq<byte>, a: nat, len: nat, full: nat, n: nat)
    requires len <= full && a + full <= |mem|
    ensures FromLittleEndian(Stored(mem, a, full, n)[a..a + len]) == n % Pow2(8 * len)
  {
    LittleEndianPrefix(n, len, full);
    LittleEndianValue(n, len);
    assert Stored(mem, a, full, n)[a..a + len] == LittleEndian(n, full)[..len];
  }

  /** A number of len bytes each of which is one. */
  function Ones(len: nat): nat {
    if len == 0 then 0 else 1 + 256 * Ones(len - 1)
  }

  lemma {:induction false} UniformBytes(len: nat, i: nat)
    requires i < len
    ensures LittleEndian(0, len)[i] == 0 && LittleEndian(Ones(len), len)[i] == 1
    decreases len
  {
    DivModUnique(Ones(len), 256, Ones(len - 1), 1);
    if i > 0 { UniformBytes(len - 1, i - 1); }
  }

  /**
    A scan leaves what lies behind its target alone, whatever it reads, if and only if it is
    no upper-case conversion into something shorter than a long.
  */
  lemma BehindKeptIff(long: nat, len: nat, c: Conversion, mem: seq<byte>, a: nat)
    requires len <= long && a + long <= |mem|
    ensures (forall n: nat :: Stored(mem, a, StoreLen(long, len, c), n)[a + len..] == mem[a + len..])
       <==> !(UpperOf(c) && len < long)
  {
    var full := StoreLen(long, len, c);
    if full > len {
      UniformBytes(full, len);
      forall n: nat ensures Stored(mem, a, full, n)[a + len..][0] == LittleEndian(n, full)[len] { }
      var n0, n1 := Stored(mem, a, full, 0), Stored(mem, a, full, Ones(full));
      assert n0[a + len..][0] == 0 && n1[a + len..][0] == 1;
      assert n0[a + len..] != n1[a + len..];
    }
  }

  /** The round trip through memory: the target of len bytes holds the value that was printed. */
  lemma ScanStores(long: nat, len: nat, f: Field, c: Conversion, v: int, mem: seq<byte>, a: nat)
    requires 0 < len <= long && a + long <= |mem|
    requires IsConversion(c) && CanScan(BaseOf(c)) && IsArgument(8 * len, c, v)
    ensures var r := Read(Printed(f, c, v), BaseOf(c));
            && r.matched && AllDigits(r.digits, BaseOf(c))
            && var m := Stored(mem, a, StoreLen(long, len, c), Word(8 * long, r, BaseOf(c)));
               var x := FromLittleEndian(m[a..a + len]);
               if c.Signed? then AsSigned(8 * len, x) == v else x == v
  {
    hide Read;
    hide Printed;
    hide Word;
    hide ValueOf;
    hide AllDigits;
    hide Pow2;
    hide Stored;
    RoundTrip(8 * long, 8 * len, f, c, v);
    var r := Read(Printed(f, c, v), BaseOf(c));
    var n := Word(8 * long, r, BaseOf(c));
    StoredValue(mem, a, len, StoreLen(long, len, c), n);
    SmallMod(n % Pow2(8 * len), Pow2(8 * len));
  }

  /** The same for the calls themselves: sprintf into a buffer, then sscanf from it. */
  method PrintThenScan(w: nat, sw: nat, str: array<char>, f: Field, c: Conversion, v: int) returns (ret: int, n: nat)
    requires w > 1 && 0 < sw <= w && IsConversion(c) && CanScan(BaseOf(c)) && IsArgument(sw, c, v)
    requires |Printed(f, c, v)| < str.Length && |Printed(f, c, v)| < UNLIMITED_LENGTH
    modifies str
    ensures ret == 1 && if c.Signed? then AsSigned(sw, n) == v else n % Pow2(sw) == v
  {
    hide Read;
    hide Word;
    hide Printed;
    hide AsSigned;
    ArgumentWidens(w, sw, c, v);
    var len := Sprintf(w, str, f, c, v);
    PrintedNoNul(f, c, v);
    RoundTrip(w, sw, f, c, v);
    ret, n := Sscanf(w, str, BaseOf(c), Printed(f, c, v));
  }

  lemma ArgumentWidens(w: nat, sw: nat, c: Conversion, v: int)
    requires 0 < sw <= w && IsArgument(sw, c, v)
    ensures IsArgument(w, c, v)
  {
    Pow2Split(sw, w);
    Pow2Split(sw - 1, w - 1);
  }

  lemma PrintedNoNul(f: Field, c: Conversion, v: int)
    requires IsConversion(c)
    ensures '\0' !in Printed(f, c, v)
  {
    hide Numeral;
    hide Formatted;
    hide Layout;
    var numeral := Numeral(Magnitude(v), BaseOf(c), UpperOf(c));
    FormattedParts(f, v < 0, numeral);
    NumeralNoNul(Magnitude(v), BaseOf(c), UpperOf(c));
  }
}
