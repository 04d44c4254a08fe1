/**
  Free lists of getmem and freemem as values: blocks in address order with a gap between
  neighbours.  Such a list is determined by the bytes it covers, which makes the order of
  frees irrelevant.
*/
module FreeLists {

  import opened Types
  import Bits

  datatype Block = Block(start: nat, len: nat) {
    function End(): nat { start + len }
    predicate Has(x: int) { start <= x < start + len }
  }

  /** Sorted, no empty block, and neighbours never touch. */
  ghost predicate Ordered(l: seq<Block>) {
    && (forall i :: 0 <= i < |l| ==> l[i].len > 0)
    && (forall i, j :: 0 <= i < j < |l| ==> l[i].End() < l[j].start)
  }

  ghost predicate Covers(l: seq<Block>, x: int) {
    exists i :: 0 <= i < |l| && l[i].Has(x)
  }

  function Total(l: seq<Block>): nat {
    if l == [] then 0 else l[0].len + Total(l[1..])
  }

  lemma CoversConcat(a: seq<Block>, b: seq<Block>, x: int)
    ensures Covers(a + b, x) <==> Covers(a, x) || Covers(b, x)
  {
    if Covers(a, x) {
      var i :| 0 <= i < |a| && a[i].Has(x);
      assert (a + b)[i].Has(x);
    }
    if Covers(b, x) {
      var i :| 0 <= i < |b| && b[i].Has(x);
      assert (a + b)[|a| + i].Has(x);
    }
  }

  lemma OrderedHalves(l: seq<Block>, k: nat)
    requires k <= |l| && Ordered(l[..k]) && Ordered(l[k..])
    requires k == 0 || k == |l| || l[k - 1].End() < l[k].start
    ensures Ordered(l)
  {
    var a, b := l[..k], l[k..];
    forall i | 0 <= i < |l| ensures l[i].len > 0 {
      assert if i < k then a[i] == l[i] else b[i - k] == l[i];
    }
    forall i, j | 0 <= i < j < |l| ensures l[i].End() < l[j].start {
      assert if i < k then a[i] == l[i] else b[i - k] == l[i];
      assert if j < k then a[j] == l[j] else b[j - k] == l[j];
      if i < k <= j {
        assert i < k - 1 ==> a[i].End() < a[k - 1].start;
        assert j > k ==> b[0].End() < b[j - k].start;
      }
    }
  }

  lemma OrderedConcat(a: seq<Block>, b: seq<Block>)
    requires Ordered(a) && Ordered(b)
    requires a == [] || b == [] || a[|a| - 1].End() < b[0].start
    ensures Ordered(a + b)
  {
    var l := a + b;
    assert l[..|a|] == a && l[|a|..] == b;
    OrderedHalves(l, |a|);
  }

  lemma OrderedParts(a: seq<Block>, b: seq<Block>)
    requires Ordered(a + b)
    ensures Ordered(a) && Ordered(b)
    ensures forall i, j :: 0 <= i < |a| && 0 <= j < |b| ==> a[i].End() < b[j].start
  {
    var l := a + b;
    assert forall i :: 0 <= i < |a| ==> a[i] == l[i];
    assert forall j :: 0 <= j < |b| ==> b[j] == l[|a| + j];
  }

  // ----- a list is determined by the bytes it covers -----

  lemma TailCovers(l: seq<Block>, x: int)
    requires Ordered(l) && l != []
    ensures Ordered(l[1..])
    ensures Covers(l[1..], x) <==> Covers(l, x) && x > l[0].End()
    ensures Covers(l, l[0].start) && !Covers(l, l[0].End())
    ensures Covers(l, x) ==> x >= l[0].start
  {
    assert l[0].Has(l[0].start);
    if Covers(l, x) && x > l[0].End() {
      var i :| 0 <= i < |l| && l[i].Has(x);
      assert l[1..][i - 1].Has(x);
    }
    if Covers(l[1..], x) {
      var i :| 0 <= i < |l[1..]| && l[1..][i].Has(x);
      assert l[i + 1].Has(x);
    }
  }

  lemma {:induction false} Canonical(a: seq<Block>, b: seq<Block>)
    requires Ordered(a) && Ordered(b)
    requires forall x :: Covers(a, x) <==> Covers(b, x)
    ensures a == b
  {
    if a == [] {
      if b != [] { TailCovers(b, 0); }
    } else if b == [] {
      TailCovers(a, 0);
    } else {
      TailCovers(a, b[0].start);
      TailCovers(b, a[0].start);
      assert a[0].start == b[0].start;
      FirstEnd(a, b);
      FirstEnd(b, a);
      forall x ensures Covers(a[1..], x) <==> Covers(b[1..], x) {
        TailCovers(a, x);
        TailCovers(b, x);
      }
      Canonical(a[1..], b[1..]);
      assert a == [a[0]] + a[1..] && b == [b[0]] + b[1..];
    }
  }

  lemma FirstEnd(a: seq<Block>, b: seq<Block>)
    requires Ordered(a) && Ordered(b) && a != [] && b != [] && a[0].start == b[0].start
    requires forall x :: Covers(a, x) <==> Covers(b, x)
    ensures a[0].len <= b[0].len
  {
    var e := b[0].End();
    assert !Covers(b, e) by {
      forall i | 0 <= i < |b| ensures !b[i].Has(e) { assert i > 0 ==> e < b[i].start; }
    }
    assert a[0].Has(e) ==> Covers(a, e);
  }

  // ----- getmem -----

  /** First fit: the address handed out and the list left behind. */
  function Take(l: seq<Block>, n: nat): Option<(nat, seq<Block>)> {
    if l == [] then None
    else if l[0].len == n then Some((l[0].start, l[1..]))
    else if l[0].len > n then Some((l[0].start, [Block(l[0].start + n, l[0].len - n)] + l[1..]))
    else match Take(l[1..], n)
         case None => None
         case Some((a, rest)) => Some((a, [l[0]] + rest))
  }

  /** What is left of block b when n bytes are cut from its front. */
  function Rest(b: Block, n: nat): seq<Block>
    requires n <= b.len
  {
    if b.len == n then [] else [Block(b.start + n, b.len - n)]
  }

  lemma {:induction false} TakeAt(l: seq<Block>, n: nat, i: nat)
    requires i < |l| && l[i].len >= n && forall j :: 0 <= j < i ==> l[j].len < n
    ensures Take(l, n) == Some((l[i].start, l[..i] + Rest(l[i], n) + l[i + 1..]))
  {
    if i == 0 {
      assert l[..0] + Rest(l[0], n) + l[1..] == Rest(l[0], n) + l[1..];
      assert [] + l[1..] == l[1..];
    } else {
      TakeAt(l[1..], n, i - 1);
      assert l[1..][i - 1] == l[i] && l[1..][i..] == l[i + 1..];
      assert [l[0]] + (l[1..][..i - 1] + Rest(l[i], n) + l[i + 1..]) == l[..i] + Rest(l[i], n) + l[i + 1..];
    }
  }

  lemma {:induction false} TakeNone(l: seq<Block>, n: nat)
    ensures Take(l, n) == None <==> forall j :: 0 <= j < |l| ==> l[j].len < n
  {
    if l != [] {
      TakeNone(l[1..], n);
      assert forall j :: 1 <= j < |l| ==> l[j] == l[1..][j - 1];
    }
  }

  /** The block first fit stops at. */
  lemma {:induction false} FirstFit(l: seq<Block>, n: nat) returns (i: nat)
    requires Take(l, n).Some?
    ensures i < |l| && l[i].len >= n && forall j :: 0 <= j < i ==> l[j].len < n
  {
    if l[0].len >= n {
      i := 0;
    } else {
      i := FirstFit(l[1..], n);
      assert forall j :: 1 <= j < |l| ==> l[j] == l[1..][j - 1];
      i := i + 1;
    }
  }

  /**
    A successful request takes the lowest block that suffices, removes exactly its first n
    bytes from the free ones and keeps the list in order.
  */
  lemma TakeSpec(l: seq<Block>, n: nat)
    requires Ordered(l) && n > 0 && Take(l, n).Some?
    ensures var (a, l') := Take(l, n).value;
            && Ordered(l')
            && (forall x :: Covers(l', x) <==> Covers(l, x) && !Block(a, n).Has(x))
            && (forall x :: Block(a, n).Has(x) ==> Covers(l, x))
            && (exists i :: 0 <= i < |l| && l[i].start == a && l[i].len >= n
                            && forall j :: 0 <= j < |l| && l[j].len >= n ==> a <= l[j].start)
  {
    var i := FirstFit(l, n);
    TakeAt(l, n, i);
    CutFront(l, n, i);
    assert l[i].start == Take(l, n).value.0;
  }

  lemma CutFront(l: seq<Block>, n: nat, i: nat)
    requires Ordered(l) && 0 < n && i < |l| && n <= l[i].len
    ensures var l' := l[..i] + Rest(l[i], n) + l[i + 1..];
            && Ordered(l')
            && (forall x :: Covers(l', x) <==> Covers(l, x) && !Block(l[i].start, n).Has(x))
    ensures forall x :: Block(l[i].start, n).Has(x) ==> Covers(l, x)
  {
    var p, b, r, q := l[..i], [l[i]], Rest(l[i], n), l[i + 1..];
    assert l == p + b + q;
    OrderedParts(p + b, q);
    OrderedParts(p, b);
    assert (p + b)[i] == l[i];
    OrderedConcat(p, r);
    assert r == [] && p != [] ==> (p + r)[|p + r| - 1] == (p + b)[i - 1];
    OrderedConcat(p + r, q);
    forall x: int
      ensures Covers(p + r + q, x) <==> Covers(l, x) && !Block(l[i].start, n).Has(x)
      ensures Block(l[i].start, n).Has(x) ==> Covers(l, x)
    {
      CutCovers(p, l[i], q, n, x);
    }
  }

  lemma CutCovers(p: seq<Block>, b: Block, q: seq<Block>, n: nat, x: int)
    requires Ordered(p + [b] + q) && n <= b.len
    ensures Covers(p + Rest(b, n) + q, x) <==> Covers(p + [b] + q, x) && !Block(b.start, n).Has(x)
    ensures Block(b.start, n).Has(x) ==> Covers(p + [b] + q, x)
  {
    OrderedParts(p + [b], q);
    OrderedParts(p, [b]);
    assert (p + [b])[|p|] == b && [b][0] == b;
    CoversConcat(p + Rest(b, n), q, x);
    CoversConcat(p, Rest(b, n), x);
    CoversConcat(p + [b], q, x);
    CoversConcat(p, [b], x);
    assert Covers([b], x) <==> b.Has(x) by { assert [b][0] == b; }
    assert Covers(Rest(b, n), x) <==> b.Has(x) && !Block(b.start, n).Has(x) by {
      if b.len > n { assert Rest(b, n)[0] == Block(b.start + n, b.len - n); }
    }
  }

  // ----- freemem -----

  /** How many blocks start below s. */
  function Below(l: seq<Block>, s: nat): (k: nat)
    ensures k <= |l|
  {
    if l == [] || l[0].start >= s then 0 else 1 + Below(l[1..], s)
  }

  lemma {:induction false} BelowIs(l: seq<Block>, s: nat, k: nat)
    requires k <= |l|
    requires (forall i :: 0 <= i < k ==> l[i].start < s) && (k < |l| ==> l[k].start >= s)
    ensures Below(l, s) == k
  {
    if k > 0 {
      assert forall i :: 1 <= i < |l| ==> l[i] == l[1..][i - 1];
      BelowIs(l[1..], s, k - 1);
    }
  }

  lemma {:induction false} BelowSplits(l: seq<Block>, s: nat)
    requires Ordered(l)
    ensures forall i :: 0 <= i < |l| ==> (l[i].start < s <==> i < Below(l, s))
  {
    if l != [] && l[0].start < s {
      assert forall i :: 1 <= i < |l| ==> l[i] == l[1..][i - 1];
      BelowSplits(l[1..], s);
    }
  }

  /** The overlap test of freemem: only the two neighbours of the block are looked at. */
  predicate Clashes(l: seq<Block>, s: nat, n: nat) {
    var k := Below(l, s);
    || (k > 0 && l[k - 1].End() > s)
    || (k < |l| && s + n > l[k].start)
  }

  /** The block that results from joining [s, s+n) with the neighbours it touches. */
  function Joined(l: seq<Block>, s: nat, n: nat): Block
    requires !Clashes(l, s, n)
  {
    var k := Below(l, s);
    var lo := if k > 0 && l[k - 1].End() == s then l[k - 1].start else s;
    var hi := if k < |l| && s + n == l[k].start then l[k].End() else s + n;
    Block(lo, hi - lo)
  }

  /** The neighbours below and above that [s, s+n) touches and swallows: none or one each. */
  function TouchBelow(l: seq<Block>, s: nat): seq<Block> {
    var k := Below(l, s);
    if k > 0 && l[k - 1].End() == s then [l[k - 1]] else []
  }

  function TouchAbove(l: seq<Block>, s: nat, n: nat): seq<Block> {
    var k := Below(l, s);
    if k < |l| && s + n == l[k].start then [l[k]] else []
  }

  function Lower(l: seq<Block>, s: nat): seq<Block> {
    l[..Below(l, s) - |TouchBelow(l, s)|]
  }

  function Upper(l: seq<Block>, s: nat, n: nat): seq<Block> {
    l[Below(l, s) + |TouchAbove(l, s, n)|..]
  }

  function Put(l: seq<Block>, s: nat, n: nat): Option<seq<Block>> {
    if Clashes(l, s, n) then None
    else Some(Lower(l, s) + [Joined(l, s, n)] + Upper(l, s, n))
  }

  lemma Parts(l: seq<Block>, s: nat, n: nat)
    ensures l == Lower(l, s) + TouchBelow(l, s) + (TouchAbove(l, s, n) + Upper(l, s, n))
  {
    var k := Below(l, s);
    assert l == l[..k] + l[k..];
    assert l[..k] == Lower(l, s) + TouchBelow(l, s);
    assert l[k..] == TouchAbove(l, s, n) + Upper(l, s, n);
  }

  ghost predicate Overlaps(l: seq<Block>, s: nat, n: nat) {
    exists x: int :: Block(s, n).Has(x) && Covers(l, x)
  }

  /** The test that freemem makes on its two neighbours, the end of the range taken modulo m. */
  predicate RefusedIn(m: nat, l: seq<Block>, s: nat, n: nat)
    requires m > 0
  {
    var k := Below(l, s);
    (k > 0 && l[k - 1].End() > s) || (k < |l| && (s + n) % m > l[k].start)
  }

  /** The range runs past the last address, is clear of the block below it, and there is a free block above. */
  predicate RunsPast(m: nat, l: seq<Block>, s: nat, n: nat) {
    var k := Below(l, s);
    s + n >= m && !(k > 0 && l[k - 1].End() > s) && k < |l|
  }

  /**
    In words below m the test refuses a range exactly when it overlaps a free block, unless the end
    of the range wraps past a block that it covers: such a range is accepted.
  */
  lemma RefusalIff(m: nat, l: seq<Block>, s: nat, n: nat)
    requires Ordered(l) && 0 < n < m && s < m && forall i :: 0 <= i < |l| ==> l[i].start < m
    ensures (RefusedIn(m, l, s, n) <==> Overlaps(l, s, n)) <==> !RunsPast(m, l, s, n)
    ensures s + n < m ==> (RefusedIn(m, l, s, n) <==> Clashes(l, s, n))
  {
    var k := Below(l, s);
    BelowSplits(l, s);
    NeighboursSuffice(l, s, n);
    if s + n < m {
      Bits.DivModUnique(s + n, m, 0, s + n);
    } else {
      Bits.DivModUnique(s + n, m, 1, s + n - m);
      if k < |l| { assert l[k].Has(l[k].start) && Block(s, n).Has(l[k].start); }
    }
  }

  /** What the test refuses does overlap. */
  lemma RefusedOverlaps(m: nat, l: seq<Block>, s: nat, n: nat)
    requires Ordered(l) && 0 < n < m && s < m && RefusedIn(m, l, s, n)
    ensures Overlaps(l, s, n)
  {
    var k := Below(l, s);
    BelowSplits(l, s);
    NeighboursSuffice(l, s, n);
    if s + n < m {
      Bits.DivModUnique(s + n, m, 0, s + n);
    } else {
      Bits.DivModUnique(s + n, m, 1, s + n - m);
    }
  }

  /** Such a range: all but a page of 32-bit memory, from below a free block on. */
  lemma WrappedRangeAccepted()
    ensures var l := [Block(0x3000, 0x1000)];
            && Ordered(l) && Overlaps(l, 0x2000, 0xFFFF_F000)
            && !RefusedIn(0x1_0000_0000, l, 0x2000, 0xFFFF_F000)
  {
    var l := [Block(0x3000, 0x1000)];
    assert l[0].Has(0x3000) && Block(0x2000, 0xFFFF_F000).Has(0x3000);
    assert Covers(l, 0x3000);
    BelowIs(l, 0x2000, 0);
  }

  /** What freemem makes of a list when it accepts a range whose end wraps below m. */
  function Wrapped(m: nat, l: seq<Block>, s: nat, n: nat): seq<Block>
    requires m > 0
  {
    var k := Below(l, s);
    if k > 0 && l[k - 1].End() == s
    then l[..k - 1] + [Block(l[k - 1].start, (l[k - 1].len + n) % m)] + l[k..]
    else l[..k] + [Block(s, n)] + l[k..]
  }

  /** On 32 bits: freeing 0xFFFFF800 bytes behind a block of 0x1000 takes 0x800 off it. */
  lemma WrappedShrinks()
    ensures var l := [Block(0x1000, 0x1000), Block(0x3000, 0x1000)];
            && Ordered(l) && !RefusedIn(0x1_0000_0000, l, 0x2000, 0xFFFF_F800)
            && Wrapped(0x1_0000_0000, l, 0x2000, 0xFFFF_F800) == [Block(0x1000, 0x800), Block(0x3000, 0x1000)]
  {
    BelowIs([Block(0x1000, 0x1000), Block(0x3000, 0x1000)], 0x2000, 1);
  }

  /** Looking at the two neighbours finds an overlap exactly when there is one anywhere. */
  lemma NeighboursSuffice(l: seq<Block>, s: nat, n: nat)
    requires Ordered(l) && n > 0
    ensures Clashes(l, s, n) <==> Overlaps(l, s, n)
  {
    var k := Below(l, s);
    BelowSplits(l, s);
    if k > 0 && l[k - 1].End() > s {
      assert l[k - 1].Has(s) && Block(s, n).Has(s);
    } else if k < |l| && s + n > l[k].start {
      assert l[k].Has(l[k].start) && Block(s, n).Has(l[k].start);
    } else {
      forall i, x: int | 0 <= i < |l| && Block(s, n).Has(x) ensures !l[i].Has(x) {
        assert i < k ==> l[i].End() <= l[k - 1].End();
        assert i >= k ==> l[k].start <= l[i].start;
      }
    }
  }

  /** A free that is accepted adds exactly its bytes and keeps the list in order. */
  lemma PutSpec(l: seq<Block>, s: nat, n: nat)
    requires Ordered(l) && n > 0 && !Clashes(l, s, n)
    ensures var l' := Put(l, s, n).value;
            && Ordered(l')
            && (forall x :: Covers(l', x) <==> Covers(l, x) || Block(s, n).Has(x))
  {
    PutOrdered(l, s, n);
    forall x: int ensures Covers(Put(l, s, n).value, x) <==> Covers(l, x) || Block(s, n).Has(x) {
      PutCovers(l, s, n, x);
    }
  }

  lemma PutOrdered(l: seq<Block>, s: nat, n: nat)
    requires Ordered(l) && n > 0 && !Clashes(l, s, n)
    ensures Ordered(Put(l, s, n).value)
  {
    hide Clashes;
    hide Lower;
    hide Upper;
    hide TouchBelow;
    hide TouchAbove;
    hide Joined;
    var lo, a, b, hi, j := Lower(l, s), TouchBelow(l, s), TouchAbove(l, s, n), Upper(l, s, n), Joined(l, s, n);
    PartsOrdered(l, s, n);
    LowerGap(l, s, n);
    OrderedConcat(lo, [j]);
    assert (lo + [j])[|lo|] == j;
    OrderedConcat(lo + [j], hi);
  }

  lemma PartsOrdered(l: seq<Block>, s: nat, n: nat)
    requires Ordered(l)
    ensures Ordered(Lower(l, s)) && Ordered(Upper(l, s, n))
  {
    Parts(l, s, n);
    OrderedParts(Lower(l, s) + TouchBelow(l, s), TouchAbove(l, s, n) + Upper(l, s, n));
    OrderedParts(Lower(l, s), TouchBelow(l, s));
    OrderedParts(TouchAbove(l, s, n), Upper(l, s, n));
  }

  lemma LowerGap(l: seq<Block>, s: nat, n: nat)
    requires Ordered(l) && n > 0 && !Clashes(l, s, n)
    ensures var lo, hi, j := Lower(l, s), Upper(l, s, n), Joined(l, s, n);
            && j.len > 0
            && (lo != [] ==> lo[|lo| - 1].End() < j.start)
            && (hi != [] ==> j.End() < hi[0].start)
  {
    BelowSplits(l, s);
  }

  lemma PutCovers(l: seq<Block>, s: nat, n: nat, x: int)
    requires Ordered(l) && n > 0 && !Clashes(l, s, n)
    ensures Covers(Put(l, s, n).value, x) <==> Covers(l, x) || Block(s, n).Has(x)
  {
    var lo, a, b, hi, j := Lower(l, s), TouchBelow(l, s), TouchAbove(l, s, n), Upper(l, s, n), Joined(l, s, n);
    Parts(l, s, n);
    CoversConcat(lo + a, b + hi, x);
    CoversConcat(lo, a, x);
    CoversConcat(b, hi, x);
    CoversConcat(lo + [j], hi, x);
    CoversConcat(lo, [j], x);
    JoinedCovers(l, s, n, x);
  }

  lemma JoinedCovers(l: seq<Block>, s: nat, n: nat, x: int)
    requires Ordered(l) && n > 0 && !Clashes(l, s, n)
    ensures Covers([Joined(l, s, n)], x)
            <==> Covers(TouchBelow(l, s), x) || Covers(TouchAbove(l, s, n), x) || Block(s, n).Has(x)
  {
    var a, b, j := TouchBelow(l, s), TouchAbove(l, s, n), Joined(l, s, n);
    assert Covers([j], x) <==> j.Has(x) by { assert [j][0] == j; }
    if a != [] {
      assert Covers(a, x) <==> a[0].Has(x);
    }
    if b != [] {
      assert Covers(b, x) <==> b[0].Has(x);
    }
  }

  // ----- sums -----

  lemma {:induction false} TotalConcat(a: seq<Block>, b: seq<Block>)
    ensures Total(a + b) == Total(a) + Total(b)
  {
    if a == [] {
      assert a + b == b;
    } else {
      assert (a + b)[1..] == a[1..] + b;
      TotalConcat(a[1..], b);
    }
  }

  lemma TakeTotal(l: seq<Block>, n: nat)
    requires Take(l, n).Some?
    ensures Total(Take(l, n).value.1) == Total(l) - n
  {
    var i := FirstFit(l, n);
    TakeAt(l, n, i);
    TotalConcat(l[..i] + Rest(l[i], n), l[i + 1..]);
    TotalConcat(l[..i], Rest(l[i], n));
    SplitTotal(l, i);
  }

  lemma TotalFirst(l: seq<Block>)
    requires l != []
    ensures Total(l) == l[0].len + Total(l[1..])
  {
  }

  lemma SplitTotal(l: seq<Block>, i: nat)
    requires i < |l|
    ensures Total(l) == Total(l[..i]) + l[i].len + Total(l[i + 1..])
  {
    hide Total;
    assert l[..i] + l[i..] == l;
    TotalConcat(l[..i], l[i..]);
    TotalFirst(l[i..]);
    assert l[i..][1..] == l[i + 1..];
  }

  lemma PutTotal(l: seq<Block>, s: nat, n: nat)
    requires Ordered(l) && n > 0 && !Clashes(l, s, n)
    ensures Total(Put(l, s, n).value) == Total(l) + n
  {
    var lo, a, b, hi, j := Lower(l, s), TouchBelow(l, s), TouchAbove(l, s, n), Upper(l, s, n), Joined(l, s, n);
    Parts(l, s, n);
    TotalConcat(lo + a, b + hi);
    TotalConcat(lo, a);
    TotalConcat(b, hi);
    TotalConcat(lo + [j], hi);
    TotalConcat(lo, [j]);
    JoinedTotal(l, s, n);
  }

  lemma JoinedTotal(l: seq<Block>, s: nat, n: nat)
    requires !Clashes(l, s, n)
    ensures Total([Joined(l, s, n)]) == Total(TouchBelow(l, s)) + n + Total(TouchAbove(l, s, n))
  {
  }

  /** An ordered list is no longer than the stretch it lies in. */
  lemma {:induction false} TotalSpan(l: seq<Block>)
    requires Ordered(l) && l != []
    ensures Total(l) <= l[|l| - 1].End() - l[0].start
  {
    if |l| > 1 {
      TotalSpan(l[1..]);
    } else {
      assert l[1..] == [];
    }
  }

  /** What is free and what is freed fit below hi together. */
  lemma RoomFor(l: seq<Block>, s: nat, n: nat, hi: nat)
    requires Ordered(l) && n > 0 && !Clashes(l, s, n) && s + n < hi
    requires forall i :: 0 <= i < |l| ==> l[i].End() < hi
    ensures Total(l) + n < hi
  {
    PutSpec(l, s, n);
    PutTotal(l, s, n);
    var p := Put(l, s, n).value;
    assert Block(s, n).Has(s);
    assert Covers(p, s);
    TotalSpan(p);
    var e := p[|p| - 1].End() - 1;
    assert p[|p| - 1].Has(e);
    assert Covers(p, e);
  }

  /** Neighbours never touch, so a stretch that is free throughout lies in one block. */
  lemma OneBlock(l: seq<Block>, a: nat, n: nat) returns (i: nat)
    requires Ordered(l) && n > 0 && forall x: int :: a <= x < a + n ==> Covers(l, x)
    ensures i < |l| && l[i].start <= a && a + n <= l[i].End()
  {
    assert Covers(l, a);
    i :| 0 <= i < |l| && l[i].Has(a);
    forall j | 0 <= j < |l| ensures !l[j].Has(l[i].End()) {
    }
    assert !Covers(l, l[i].End());
  }
}
