/**
  qsort over raw memory: elements of any size, moved byte by byte, compared by a function of
  their contents.
*/
module Sorting {
  import opened Types

  // ----- elements in memory -----

  /** The address of element i. */
  function At(base: nat, size: nat, i: nat): nat { base + i * size }

  lemma AtStep(base: nat, size: nat, i: nat)
    ensures At(base, size, 0) == base && At(base, size, i + 1) == At(base, size, i) + size
  {
    assert (i + 1) * size == i * size + size;
  }

  lemma {:induction false} AtApart(base: nat, size: nat, i: nat, j: nat)
    requires i < j
    ensures At(base, size, i) + size <= At(base, size, j)
  {
    AtStep(base, size, j - 1);
    if i < j - 1 { AtApart(base, size, i, j - 1); }
  }

  lemma AtAt(base: nat, size: nat, a: nat, i: nat)
    ensures At(At(base, size, a), size, i) == At(base, size, a + i)
  {
    assert (a + i) * size == a * size + i * size;
  }

  /** Element i of an array of n elements that lies inside m ends inside m. */
  lemma AtInside(base: nat, size: nat, n: nat, i: nat)
    requires i < n
    ensures At(base, size, i) + size <= At(base, size, n) && base <= At(base, size, i)
  {
    AtApart(base, size, i, n);
    if i > 0 { AtApart(base, size, 0, i); }
  }

  /** The n bytes at a; nothing where there are none. */
  function Slice(m: seq<byte>, a: nat, n: nat): seq<byte> {
    if a + n <= |m| then m[a..a + n] else []
  }

  function Elem(m: seq<byte>, base: nat, size: nat, i: nat): seq<byte> {
    Slice(m, At(base, size, i), size)
  }

  /** The n elements at base. */
  function Elems(m: seq<byte>, base: nat, size: nat, n: nat): (es: seq<seq<byte>>)
    ensures |es| == n
  {
    seq(n, i requires 0 <= i < n => Elem(m, base, size, i))
  }

  lemma ElemsAt(m: seq<byte>, base: nat, size: nat, n: nat, i: nat)
    requires At(base, size, n) <= |m| && i < n
    ensures base <= At(base, size, i) && At(base, size, i) + size <= At(base, size, n)
    ensures Elems(m, base, size, n)[i] == m[At(base, size, i)..At(base, size, i) + size]
    ensures |Elems(m, base, size, n)[i]| == size
  {
    AtInside(base, size, n, i);
  }

  /** The elements from a on are an array of their own. */
  lemma SubElems(m: seq<byte>, base: nat, size: nat, n: nat, a: nat, b: nat)
    requires At(base, size, n) <= |m| && a <= b <= n
    ensures At(At(base, size, a), size, b - a) <= |m|
    ensures Elems(m, At(base, size, a), size, b - a) == Elems(m, base, size, n)[a..b]
  {
    AtAt(base, size, a, b - a);
    if b < n { AtInside(base, size, n, b); }
    forall i | 0 <= i < b - a
      ensures Elems(m, At(base, size, a), size, b - a)[i] == Elems(m, base, size, n)[a..b][i]
    {
      AtAt(base, size, a, i);
      ElemsAt(m, base, size, n, a + i);
      ElemsAt(m, At(base, size, a), size, b - a, i);
    }
  }

  ghost predicate SameOutside(m: seq<byte>, m': seq<byte>, lo: nat, hi: nat) {
    |m'| == |m| && forall x :: 0 <= x < |m| && !(lo <= x < hi) ==> m'[x] == m[x]
  }

  /** Bytes outside of elements a to b as they were means elements before a and from b on as they were. */
  lemma ElemsOutside(m: seq<byte>, m': seq<byte>, base: nat, size: nat, n: nat, a: nat, b: nat)
    requires At(base, size, n) <= |m| && a <= b <= n && SameOutside(m, m', At(base, size, a), At(base, size, b))
    ensures forall i :: 0 <= i < n && !(a <= i < b) ==> Elems(m', base, size, n)[i] == Elems(m, base, size, n)[i]
    ensures SameOutside(m, m', base, At(base, size, n))
  {
    forall i | 0 <= i < n && !(a <= i < b) ensures Elems(m', base, size, n)[i] == Elems(m, base, size, n)[i] {
      ElemsAt(m, base, size, n, i);
      ElemsAt(m', base, size, n, i);
      if i < a { AtInside(base, size, a, i); } else if b < i { AtApart(base, size, b, i); }
    }
    if 0 < a { AtApart(base, size, 0, a); }
    if b < n { AtApart(base, size, b, n); }
  }

  // ----- swapping -----

  function Swapped<T>(s: seq<T>, i: nat, j: nat): seq<T>
    requires i < |s| && j < |s|
  {
    s[i := s[j]][j := s[i]]
  }

  lemma SwappedPermutes<T>(s: seq<T>, i: nat, j: nat)
    requires i < |s| && j < |s|
    ensures multiset(Swapped(s, i, j)) == multiset(s)
  {
  }

  /** Memory with the n bytes at a and at b exchanged. */
  ghost predicate Exchanged(m: seq<byte>, m': seq<byte>, a: nat, b: nat, n: nat)
    requires a + n <= |m| && b + n <= |m|
  {
    && |m'| == |m|
    && (forall x :: a <= x < a + n ==> m'[x] == m[x - a + b])
    && (forall x :: b <= x < b + n ==> m'[x] == m[x - b + a])
    && (forall x :: 0 <= x < |m| && !(a <= x < a + n) && !(b <= x < b + n) ==> m'[x] == m[x])
  }

  method SwapElements(mem: array<byte>, p1: nat, p2: nat, size: nat)
    requires p1 + size <= mem.Length && p2 + size <= mem.Length
    requires p1 == p2 || p1 + size <= p2 || p2 + size <= p1
    modifies mem
    ensures Exchanged(old(mem[..]), mem[..], p1, p2, size)
  {
    var i := 0;
    while i < size
      invariant i <= size && Exchanged(old(mem[..]), mem[..], p1, p2, i)
    {
      var tmp := mem[p1 + i];
      mem[p1 + i] := mem[p2 + i];
      mem[p2 + i] := tmp;
      i := i + 1;
    }
  }

  lemma ExchangedSlices(m: seq<byte>, m': seq<byte>, a: nat, b: nat, n: nat)
    requires a + n <= |m| && b + n <= |m| && Exchanged(m, m', a, b, n)
    ensures m'[a..a + n] == m[b..b + n] && m'[b..b + n] == m[a..a + n]
  {
    var a0, b0, a1, b1 := m[a..a + n], m[b..b + n], m'[a..a + n], m'[b..b + n];
    forall x | 0 <= x < n ensures a1[x] == b0[x] && b1[x] == a0[x] {
      assert m'[a + x] == m[a + x - a + b] && m'[b + x] == m[b + x - b + a];
    }
  }

  /** Exchanging the bytes of elements i and j exchanges the two elements and changes no other. */
  lemma SwapRefines(m: seq<byte>, m': seq<byte>, base: nat, size: nat, n: nat, i: nat, j: nat)
    requires At(base, size, n) <= |m| && |m'| == |m| && i < n && j < n
    requires At(base, size, i) + size <= |m| && At(base, size, j) + size <= |m|
    requires Exchanged(m, m', At(base, size, i), At(base, size, j), size)
    ensures Elems(m', base, size, n) == Swapped(Elems(m, base, size, n), i, j)
    ensures SameOutside(m, m', base, At(base, size, n))
  {
    hide At;
    hide Elems;
    AtInside(base, size, n, i);
    AtInside(base, size, n, j);
    ExchangedSlices(m, m', At(base, size, i), At(base, size, j), size);
    forall k | 0 <= k < n ensures Elems(m', base, size, n)[k] == Swapped(Elems(m, base, size, n), i, j)[k] {
      ElemsAt(m, base, size, n, k);
      ElemsAt(m', base, size, n, k);
      ElemsAt(m, base, size, n, i);
      ElemsAt(m, base, size, n, j);
      if k != i && k != j { ApartFrom(base, size, k, i); ApartFrom(base, size, k, j); }
    }
  }

  lemma ApartFrom(base: nat, size: nat, i: nat, j: nat)
    requires i != j
    ensures At(base, size, i) + size <= At(base, size, j) || At(base, size, j) + size <= At(base, size, i)
  {
    if i < j { AtApart(base, size, i, j); } else { AtApart(base, size, j, i); }
  }

  // ----- order -----

  type Compare = (seq<byte>, seq<byte>) -> int

  ghost predicate Leq(cmp: Compare, x: seq<byte>, y: seq<byte>) { cmp(x, y) <= 0 }

  /** On elements of the given size the comparator is total and transitive. */
  ghost predicate TotalPreorder(cmp: Compare, size: nat) {
    && (forall x, y :: |x| == size && |y| == size ==> Leq(cmp, x, y) || Leq(cmp, y, x))
    && (forall x, y, z ::
          |x| == size && |y| == size && |z| == size && Leq(cmp, x, y) && Leq(cmp, y, z) ==> Leq(cmp, x, z))
  }

  ghost predicate Sorted(cmp: Compare, es: seq<seq<byte>>) {
    forall i, j :: 0 <= i < j < |es| ==> Leq(cmp, es[i], es[j])
  }

  /** Everything before r is at most element r, and everything after at least. */
  ghost predicate Split(cmp: Compare, es: seq<seq<byte>>, r: nat)
    requires r < |es|
  {
    && (forall i :: 0 <= i < r ==> Leq(cmp, es[i], es[r]))
    && (forall i :: r < i < |es| ==> Leq(cmp, es[r], es[i]))
  }

  // ----- partition -----

  /** The parts of the array that the loop of partition has dealt with. */
  ghost predicate Scanned(cmp: Compare, es: seq<seq<byte>>, lo: nat, hi: nat)
    requires 1 <= lo && hi <= |es|
  {
    && (forall i :: 1 <= i < lo && i < |es| ==> Leq(cmp, es[i], es[0]))
    && (forall i :: hi <= i < |es| ==> Leq(cmp, es[0], es[i]))
  }

  lemma ScanLeft(cmp: Compare, es: seq<seq<byte>>, lo: nat, hi: nat)
    requires 1 <= lo < |es| && hi <= |es| && Scanned(cmp, es, lo, hi) && Leq(cmp, es[lo], es[0])
    ensures Scanned(cmp, es, lo + 1, hi)
  {
  }

  lemma ScanRight(cmp: Compare, es: seq<seq<byte>>, lo: nat, hi: nat, size: nat)
    requires 1 <= lo < hi <= |es| && Scanned(cmp, es, lo, hi) && !Leq(cmp, es[lo], es[0])
    requires TotalPreorder(cmp, size) && |es[lo]| == size && |es[0]| == size
    ensures Scanned(cmp, Swapped(es, lo, hi - 1), lo, hi - 1)
  {
  }

  /** The pivot is swapped into its place. */
  lemma Placed(cmp: Compare, es: seq<seq<byte>>, lo: nat, hi: nat, size: nat)
    requires 1 <= lo <= |es| && hi <= |es| && Scanned(cmp, es, lo, hi) && (lo == hi || size == 0)
    requires TotalPreorder(cmp, size) && forall i :: 0 <= i < |es| ==> |es[i]| == size
    ensures Split(cmp, Swapped(es, lo - 1, 0), lo - 1)
  {
    var fs := Swapped(es, lo - 1, 0);
    if size == 0 {
      assert forall i, j :: 0 <= i < |es| && 0 <= j < |es| ==> fs[i] == fs[j];
    }
  }

  /** The loop of partition: the first element is the pivot, and what is above it goes to the end. */
  method Scan(mem: array<byte>, base: nat, nmemb: nat, size: nat, cmp: Compare)
    returns (p1: nat, p1Index: nat, ghost hi: nat)
    requires nmemb > 1 && At(base, size, nmemb) <= mem.Length && TotalPreorder(cmp, size)
    modifies mem
    ensures SameOutside(old(mem[..]), mem[..], base, At(base, size, nmemb))
    ensures multiset(Elems(mem[..], base, size, nmemb)) == multiset(old(Elems(mem[..], base, size, nmemb)))
    ensures 1 <= p1Index <= nmemb && hi <= nmemb && (p1Index == hi || size == 0) && p1 == At(base, size, p1Index)
    ensures Scanned(cmp, Elems(mem[..], base, size, nmemb), p1Index, hi)
  {
    hide At;
    hide Elems;
    hide Scanned;
    hide Swapped;
    hide TotalPreorder;
    hide Exchanged;
    AtStep(base, size, 0);
    p1, p1Index, hi := base + size, 1, nmemb;
    var p2 := At(base, size, nmemb);
    Unscanned(cmp, Elems(mem[..], base, size, nmemb));
    var more := true;
    while more
      invariant SameOutside(old(mem[..]), mem[..], base, At(base, size, nmemb))
      invariant multiset(Elems(mem[..], base, size, nmemb)) == multiset(old(Elems(mem[..], base, size, nmemb)))
      invariant 1 <= p1Index <= hi <= nmemb && (more ==> p1Index < hi)
      invariant p1 == At(base, size, p1Index) && p2 == At(base, size, hi)
      invariant Scanned(cmp, Elems(mem[..], base, size, nmemb), p1Index, hi)
      invariant !more ==> p1Index == hi || size == 0
      decreases hi - p1Index, more
    {
      ghost var m, es := mem[..], Elems(mem[..], base, size, nmemb);
      ElemsAt(m, base, size, nmemb, p1Index);
      ElemsAt(m, base, size, nmemb, 0);
      assert mem[p1..p1 + size] == es[p1Index] && mem[base..base + size] == es[0];
      if cmp(mem[p1..p1 + size], mem[base..base + size]) <= 0 {
        AtStep(base, size, p1Index);
        ScanLeft(cmp, es, p1Index, hi);
        p1 := p1 + size;
        p1Index := p1Index + 1;
      } else {
        ScanRight(cmp, es, p1Index, hi, size);
        hi := hi - 1;
        AtStep(base, size, hi);
        p2 := p2 - size;
        ElemsAt(m, base, size, nmemb, hi);
        if p1Index != hi { ApartFrom(base, size, p1Index, hi); }
        SwapElements(mem, p1, p2, size);
        SwapRefines(m, mem[..], base, size, nmemb, p1Index, hi);
        SwappedPermutes(es, p1Index, hi);
      }
      more := p1 != p2;
      if p1Index < hi { AtApart(base, size, p1Index, hi); }
    }
  }

  lemma Unscanned(cmp: Compare, es: seq<seq<byte>>)
    ensures Scanned(cmp, es, 1, |es|)
  {
  }

  method Partition(mem: array<byte>, base: nat, nmemb: nat, size: nat, cmp: Compare) returns (r: nat)
    requires nmemb > 1 && At(base, size, nmemb) <= mem.Length && TotalPreorder(cmp, size)
    modifies mem
    ensures r < nmemb && SameOutside(old(mem[..]), mem[..], base, At(base, size, nmemb))
    ensures multiset(Elems(mem[..], base, size, nmemb)) == multiset(old(Elems(mem[..], base, size, nmemb)))
    ensures Split(cmp, Elems(mem[..], base, size, nmemb), r)
  {
    hide At;
    hide Elems;
    hide Scanned;
    hide Swapped;
    hide TotalPreorder;
    hide Exchanged;
    var p1, p1Index;
    ghost var hi;
    p1, p1Index, hi := Scan(mem, base, nmemb, size, cmp);
    ghost var m, es := mem[..], Elems(mem[..], base, size, nmemb);
    AtStep(base, size, p1Index - 1);
    AtStep(base, size, 0);
    p1 := p1 - size;
    p1Index := p1Index - 1;
    forall i | 0 <= i < nmemb ensures |es[i]| == size { ElemsAt(m, base, size, nmemb, i); }
    Placed(cmp, es, p1Index + 1, hi, size);
    ElemsAt(m, base, size, nmemb, p1Index);
    ElemsAt(m, base, size, nmemb, 0);
    if p1Index != 0 { ApartFrom(base, size, p1Index, 0); }
    SwapElements(mem, p1, base, size);
    SwapRefines(m, mem[..], base, size, nmemb, p1Index, 0);
    SwappedPermutes(es, p1Index, 0);
    return p1Index;
  }

  // ----- the whole sort -----

  /** Sorting both sides of a split array sorts it. */
  lemma SortedParts(cmp: Compare, es: seq<seq<byte>>, fs: seq<seq<byte>>, r: nat, size: nat)
    requires |fs| == |es| && r < |es| && Split(cmp, es, r) && fs[r] == es[r] && TotalPreorder(cmp, size)
    requires forall i :: 0 <= i < |fs| ==> |fs[i]| == size
    requires multiset(fs[..r]) == multiset(es[..r]) && multiset(fs[r + 1..]) == multiset(es[r + 1..])
    requires Sorted(cmp, fs[..r]) && Sorted(cmp, fs[r + 1..])
    ensures Sorted(cmp, fs) && multiset(fs) == multiset(es)
  {
    forall i | 0 <= i < r ensures Leq(cmp, fs[i], fs[r]) { FromBefore(cmp, es, fs, r, i); }
    forall i | r < i < |fs| ensures Leq(cmp, fs[r], fs[i]) { FromAfter(cmp, es, fs, r, i); }
    forall i, j | 0 <= i < j < |fs| ensures Leq(cmp, fs[i], fs[j]) {
      if j < r {
        assert fs[..r][i] == fs[i] && fs[..r][j] == fs[j];
      } else if r < i {
        assert fs[r + 1..][i - r - 1] == fs[i] && fs[r + 1..][j - r - 1] == fs[j];
      }
    }
    BagOfParts(es, r);
    BagOfParts(fs, r);
  }

  lemma BagOfParts(es: seq<seq<byte>>, r: nat)
    requires r < |es|
    ensures multiset(es) == multiset(es[..r]) + multiset([es[r]]) + multiset(es[r + 1..])
  {
    assert es == es[..r] + [es[r]] + es[r + 1..];
  }

  lemma FromBefore(cmp: Compare, es: seq<seq<byte>>, fs: seq<seq<byte>>, r: nat, i: nat)
    requires |fs| == |es| && i < r < |es| && Split(cmp, es, r) && fs[r] == es[r]
    requires multiset(fs[..r]) == multiset(es[..r])
    ensures Leq(cmp, fs[i], fs[r])
  {
    assert fs[..r][i] == fs[i];
    assert fs[i] in multiset(fs[..r]);
    assert fs[i] in es[..r];
  }

  lemma FromAfter(cmp: Compare, es: seq<seq<byte>>, fs: seq<seq<byte>>, r: nat, i: nat)
    requires |fs| == |es| && r < i < |es| && Split(cmp, es, r) && fs[r] == es[r]
    requires multiset(fs[r + 1..]) == multiset(es[r + 1..])
    ensures Leq(cmp, fs[r], fs[i])
  {
    assert fs[r + 1..][i - r - 1] == fs[i];
    assert fs[i] in multiset(fs[r + 1..]);
    assert fs[i] in es[r + 1..];
  }

  /** What sorting elements a to b of n leaves, from what it does to the array they form. */
  lemma PartSorted(m: seq<byte>, m': seq<byte>, base: nat, size: nat, n: nat, a: nat, b: nat)
    requires At(base, size, n) <= |m| && a <= b <= n
    requires SameOutside(m, m', At(base, size, a), At(At(base, size, a), size, b - a))
    ensures var es, fs := Elems(m, base, size, n), Elems(m', base, size, n);
            && (forall i :: 0 <= i < n && !(a <= i < b) ==> fs[i] == es[i])
            && Elems(m, At(base, size, a), size, b - a) == es[a..b]
            && Elems(m', At(base, size, a), size, b - a) == fs[a..b]
    ensures SameOutside(m, m', base, At(base, size, n))
  {
    hide At;
    hide Elems;
    AtAt(base, size, a, b - a);
    ElemsOutside(m, m', base, size, n, a, b);
    SubElems(m, base, size, n, a, b);
    SubElems(m', base, size, n, a, b);
  }

  /** Leaves the elements in order, the same elements as before, and touches nothing around them. */
  method QSort(mem: array<byte>, base: nat, nmemb: nat, size: nat, cmp: Compare)
    requires At(base, size, nmemb) <= mem.Length && TotalPreorder(cmp, size)
    modifies mem
    ensures SameOutside(old(mem[..]), mem[..], base, At(base, size, nmemb))
    ensures multiset(Elems(mem[..], base, size, nmemb)) == multiset(old(Elems(mem[..], base, size, nmemb)))
    ensures Sorted(cmp, Elems(mem[..], base, size, nmemb))
    decreases nmemb
  {
    hide At;
    hide Elems;
    hide Sorted;
    hide Split;
    hide TotalPreorder;
    if nmemb > 1 {
      var r := Partition(mem, base, nmemb, size, cmp);
      ghost var m1, es := mem[..], Elems(mem[..], base, size, nmemb);
      AtStep(base, size, 0);
      SubElems(m1, base, size, nmemb, 0, r);
      QSort(mem, base, r, size, cmp);
      ghost var m2, fs := mem[..], Elems(mem[..], base, size, nmemb);
      PartSorted(m1, m2, base, size, nmemb, 0, r);
      SubElems(m2, base, size, nmemb, r + 1, nmemb);
      assert base + (r + 1) * size == At(base, size, r + 1) by { AtIs(base, size, r + 1); }
      QSort(mem, base + (r + 1) * size, nmemb - (r + 1), size, cmp);
      ghost var gs := Elems(mem[..], base, size, nmemb);
      PartSorted(m2, mem[..], base, size, nmemb, r + 1, nmemb);
      assert fs[r + 1..] == es[r + 1..] && fs[r + 1..nmemb] == fs[r + 1..] && gs[r + 1..nmemb] == gs[r + 1..];
      assert gs[..r] == fs[..r] && fs[0..r] == fs[..r] && es[0..r] == es[..r];
      forall i | 0 <= i < nmemb ensures |gs[i]| == size { ElemsAt(mem[..], base, size, nmemb, i); }
      SortedParts(cmp, es, gs, r, size);
    } else {
      SortedOne(cmp, Elems(mem[..], base, size, nmemb));
    }
  }

  lemma AtIs(base: nat, size: nat, i: nat)
    ensures At(base, size, i) == base + i * size
  {
  }

  lemma SortedOne(cmp: Compare, es: seq<seq<byte>>)
    requires |es| <= 1
    ensures Sorted(cmp, es)
  {
  }
}
