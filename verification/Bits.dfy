/**
  Bitwise operations of the C expressions on unsigned words, defined bit by bit on
  naturals, and the arithmetic they amount to on fields and masks.
*/
module Bits {

  function Pow2(k: nat): (p: nat)
    ensures p >= 1
  {
    if k == 0 then 1 else 2 * Pow2(k - 1)
  }

  function And(a: nat, b: nat): nat {
    if a == 0 || b == 0 then 0
    else 2 * And(a / 2, b / 2) + (if a % 2 == 1 && b % 2 == 1 then 1 else 0)
  }

  function Or(a: nat, b: nat): nat {
    if a == 0 then b
    else if b == 0 then a
    else 2 * Or(a / 2, b / 2) + (if a % 2 == 1 || b % 2 == 1 then 1 else 0)
  }

  function Shl(a: nat, k: nat): nat {
    if k == 0 then a else 2 * Shl(a, k - 1)
  }

  function Shr(a: nat, k: nat): nat {
    if k == 0 then a else Shr(a / 2, k - 1)
  }

  /** The k low bits of n. */
  function Low(n: nat, k: nat): nat {
    if k == 0 then 0 else 2 * Low(n / 2, k - 1) + n % 2
  }

  lemma {:induction false} Split(n: nat, k: nat)
    ensures n == Shr(n, k) * Pow2(k) + Low(n, k) && Low(n, k) < Pow2(k)
    ensures n / Pow2(k) == Shr(n, k) && n % Pow2(k) == Low(n, k)
  {
    SplitSum(n, k);
    DivModUnique(n, Pow2(k), Shr(n, k), Low(n, k));
  }

  lemma {:induction false} SplitSum(n: nat, k: nat)
    ensures n == Shr(n, k) * Pow2(k) + Low(n, k) && Low(n, k) < Pow2(k)
  {
    if k > 0 {
      SplitSum(n / 2, k - 1);
      Double(Shr(n / 2, k - 1), Pow2(k - 1));
    }
  }

  lemma {:induction false} ShlIs(a: nat, k: nat)
    ensures Shl(a, k) == a * Pow2(k)
  {
    if k > 0 {
      ShlIs(a, k - 1);
      Double(a, Pow2(k - 1));
    }
  }

  lemma Double(a: nat, p: nat)
    ensures a * (2 * p) == 2 * (a * p)
  {
  }

  lemma SmallMod(n: nat, d: nat)
    requires n < d
    ensures n % d == n
  {
  }

  lemma {:induction false} Pow2Sum(j: nat, k: nat)
    ensures Pow2(j + k) == Pow2(j) * Pow2(k)
    decreases k
  {
    if k > 0 {
      Pow2Sum(j, k - 1);
      Double(Pow2(j), Pow2(k - 1));
    }
  }

  lemma ModPow(n: nat, j: nat, k: nat)
    requires j <= k
    ensures n % Pow2(k) % Pow2(j) == n % Pow2(j)
  {
    Pow2Sum(k - j, j);
    ModOfMod(n, Pow2(k - j), Pow2(j), Pow2(k));
  }

  lemma ModOfMod(n: nat, h: nat, p: nat, hp: nat)
    requires h > 0 && p > 0 && hp > 0 && hp == h * p
    ensures n % hp % p == n % p
  {
    var q, r := n / hp, n % hp;
    var a, b := r / p, r % p;
    assert n == q * hp + r && r == a * p + b;
    Factors(q, h, p, a, b, hp);
    DivModUnique(n, p, q * h + a, b);
  }

  lemma Factors(q: nat, h: nat, p: nat, a: nat, b: nat, hp: nat)
    requires hp == h * p
    ensures q * hp + (a * p + b) == (q * h + a) * p + b
  {
    assert q * hp == q * h * p;
  }

  /** A mask below 2^k sees only the k low bits. */
  lemma {:induction false} AndBits(a: nat, b: nat, k: nat)
    requires b < Pow2(k)
    ensures And(a, b) == And(Low(a, k), b)
    decreases k
  {
    if k > 0 && b > 0 { AndBits(a / 2, b / 2, k - 1); }
  }

  lemma DivModUnique(n: nat, d: nat, q: nat, r: nat)
    requires 0 < d && r < d && n == q * d + r
    ensures n / d == q && n % d == r
  {
    var q', r' := n / d, n % d;
    assert n == q' * d + r';
    assert (q' - q) * d == r - r';
    SmallMultiple(q' - q, d);
  }

  lemma SmallMultiple(a: int, d: int)
    requires -d < a * d < d
    ensures a == 0
  {
    assert a >= 1 ==> a * d >= d;
    assert a <= -1 ==> a * d <= -d;
  }

  /** x & (2^k - 1) is the remainder by 2^k. */
  lemma {:induction false} AndMask(n: nat, k: nat)
    ensures And(n, Pow2(k) - 1) == n % Pow2(k)
  {
    Split(n, k);
    AndLow(n, k);
  }

  lemma {:induction false} AndLow(n: nat, k: nat)
    ensures And(n, Pow2(k) - 1) == Low(n, k)
  {
    if k == 0 {
    } else if n == 0 {
      AndLow(0, k - 1);
    } else {
      AndLow(n / 2, k - 1);
    }
  }

  /** x & ~(2^k - 1), in a word of w bits, rounds down to a multiple of 2^k. */
  lemma {:induction false} AndNotMask(n: nat, k: nat, w: nat)
    requires k <= w && n < Pow2(w)
    ensures Pow2(k) <= Pow2(w) && And(n, Pow2(w) - Pow2(k)) == n - n % Pow2(k)
  {
    Split(n, k);
    AndHigh(n, k, w);
  }

  lemma {:induction false} AndHigh(n: nat, k: nat, w: nat)
    requires k <= w && n < Pow2(w)
    ensures Pow2(k) <= Pow2(w) && Low(n, k) <= n && And(n, Pow2(w) - Pow2(k)) == n - Low(n, k)
  {
    if k == 0 {
      AndLow(n, w);
      LowAll(n, w);
    } else {
      AndHigh(n / 2, k - 1, w - 1);
    }
  }

  lemma {:induction false} LowAll(n: nat, w: nat)
    requires n < Pow2(w)
    ensures Low(n, w) == n
  {
    if w > 0 { LowAll(n / 2, w - 1); }
  }

  /** Or of a high field and a low field that do not overlap is their sum. */
  lemma {:induction false} OrFields(x: nat, y: nat, k: nat)
    requires y < Pow2(k)
    ensures Or(x * Pow2(k), y) == x * Pow2(k) + y
  {
    if k > 0 {
      OrFields(x, y / 2, k - 1);
      Double(x, Pow2(k - 1));
      OrDouble(x * Pow2(k - 1), y);
    }
  }

  lemma OrDouble(a: nat, y: nat)
    ensures Or(2 * a, y) == 2 * Or(a, y / 2) + y % 2
  {
  }

  lemma OrOne(w: nat)
    ensures Or(w, 1) == w + 1 - w % 2
  {
    assert Or(w / 2, 0) == w / 2;
  }

  lemma {:induction false} AndBelow(a: nat, b: nat)
    ensures And(a, b) <= b
  {
    if a != 0 && b != 0 { AndBelow(a / 2, b / 2); }
  }

  lemma Pow2Values()
    ensures Pow2(9) == 512 && Pow2(10) == 1024 && Pow2(12) == 4096
    ensures Pow2(2) == 4 && Pow2(3) == 8 && Pow2(16) == 0x1_0000 && Pow2(32) == 0x1_0000_0000
    ensures Pow2(21) == 0x20_0000 && Pow2(30) == 0x4000_0000
    ensures Pow2(64) == 0x1_0000_0000_0000_0000
  {
    assert Pow2(4) == 16;
    assert Pow2(8) == 256;
    assert Pow2(12) == 4096;
    assert Pow2(16) == 0x1_0000;
    assert Pow2(20) == 0x10_0000;
    assert Pow2(24) == 0x100_0000;
    assert Pow2(28) == 0x1000_0000;
    assert Pow2(32) == 0x1_0000_0000;
    assert Pow2(36) == 0x10_0000_0000;
    assert Pow2(40) == 0x100_0000_0000;
    assert Pow2(44) == 0x1000_0000_0000;
    assert Pow2(48) == 0x1_0000_0000_0000;
    assert Pow2(52) == 0x10_0000_0000_0000;
    assert Pow2(56) == 0x100_0000_0000_0000;
    assert Pow2(60) == 0x1000_0000_0000_0000;
  }
}
