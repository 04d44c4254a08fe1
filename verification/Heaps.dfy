/**
  The per-core heaps over whole runs of getmem and freemem: what is allocated is disjoint
  and what is free is everything else, so the free lists are a function of what is allocated.
*/
module Heaps {
  import opened Bits
  import opened Types
  import opened FreeLists

  /** roundmb on words of w bits. */
  function RoundMb(w: nat, x: nat): nat
    requires w >= 3
  {
    Pow2Mono(3, w);
    And((7 + x) % Pow2(w), Pow2(w) - Pow2(3))
  }

  lemma {:induction false} Pow2Mono(k: nat, w: nat)
    requires k <= w
    ensures Pow2(k) <= Pow2(w)
  {
    if k < w { Pow2Mono(k, w - 1); }
  }

  lemma {:induction false} Pow2Aligned(w: nat)
    requires w >= 3
    ensures Pow2(w) % 8 == 0
  {
    if w == 3 { assert Pow2(3) == 8; } else { Pow2Aligned(w - 1); }
  }

  lemma RoundMbIs(w: nat, x: nat)
    requires w >= 3 && x + 7 < Pow2(w)
    ensures RoundMb(w, x) == (x + 7) / 8 * 8
    ensures RoundMb(w, x) % 8 == 0 && x <= RoundMb(w, x) < x + 8
  {
    hide And;
    assert Pow2(3) == 8;
    DivModUnique(7 + x, Pow2(w), 0, 7 + x);
    AndNotMask(7 + x, 3, w);
    DownTo8(7 + x);
  }

  lemma DownTo8(x: nat)
    ensures x - x % 8 == x / 8 * 8 && (x / 8 * 8) % 8 == 0 && x - 8 < x / 8 * 8 <= x
  {
  }

  function TruncMb(w: nat, x: nat): nat
    requires w >= 3
  {
    Pow2Mono(3, w);
    And(x, Pow2(w) - Pow2(3))
  }

  lemma TruncMbIs(w: nat, x: nat)
    requires w >= 3 && x < Pow2(w)
    ensures TruncMb(w, x) == x / 8 * 8 && TruncMb(w, x) % 8 == 0 && x - 8 < TruncMb(w, x) <= x
  {
    hide And;
    assert Pow2(3) == 8;
    AndNotMask(x, 3, w);
    DownTo8(x);
  }

  /** A request within seven bytes of the word size wraps round to nothing. */
  lemma RoundMbWraps(w: nat, x: nat)
    requires w >= 3 && Pow2(w) <= x + 7 && x < Pow2(w)
    ensures RoundMb(w, x) == 0
  {
    hide And;
    var r := 7 + x - Pow2(w);
    Pow2Mono(3, w);
    assert Pow2(3) == 8;
    DivModUnique(7 + x, Pow2(w), 1, r);
    AndNotMask(r, 3, w);
    assert r % 8 == r;
  }

  /** What roundmb makes of a size: a positive multiple of eight, or zero where it wraps. */
  lemma Rounded(w: nat, x: nat)
    requires w >= 3 && 0 < x < Pow2(w)
    ensures RoundMb(w, x) % 8 == 0 && RoundMb(w, x) < Pow2(w) && (RoundMb(w, x) == 0 <==> x + 7 >= Pow2(w))
  {
    hide RoundMb;
    if x + 7 < Pow2(w) { RoundMbIs(w, x); } else { RoundMbWraps(w, x); }
  }

  // ----- states -----

  datatype Region = Region(base: nat, bound: nat) {
    predicate Has(x: int) { base <= x < base + bound }
  }

  datatype Heap = Heap(regions: seq<Region>, lists: seq<seq<Block>>, lens: seq<int>, alloc: set<Block>)

  predicate Aligned(b: Block) {
    b.start % 8 == 0 && b.len % 8 == 0
  }

  predicate AllAligned(l: seq<Block>) {
    forall i :: 0 <= i < |l| ==> Aligned(l[i])
  }

  ghost predicate AllocHas(alloc: set<Block>, x: int) {
    exists b :: b in alloc && b.Has(x)
  }

  ghost predicate RegionsOk(rs: seq<Region>) {
    && (forall c :: 0 <= c < |rs| ==> 0 < rs[c].base && 0 < rs[c].bound && Aligned(Block(rs[c].base, rs[c].bound)))
    && (forall c, d, x: int :: 0 <= c < |rs| && 0 <= d < |rs| && rs[c].Has(x) && rs[d].Has(x) ==> c == d)
  }

  ghost predicate InsideOne(rs: seq<Region>, b: Block) {
    exists c :: 0 <= c < |rs| && InRegion(rs[c], b)
  }

  predicate InRegion(r: Region, b: Block) {
    r.base <= b.start && b.start + b.len <= r.base + r.bound
  }

  ghost predicate AllocOk(h: Heap) {
    && (forall b :: b in h.alloc ==> b.len > 0 && Aligned(b) && InsideOne(h.regions, b))
    && (forall a, b, x: int :: a in h.alloc && b in h.alloc && a.Has(x) && b.Has(x) ==> a == b)
  }

  /** The bytes on list c are those of region c that are not allocated. */
  ghost predicate Conserved(h: Heap, c: nat)
    requires c < |h.lists| && c < |h.regions|
  {
    forall x: int :: Covers(h.lists[c], x) <==> h.regions[c].Has(x) && !AllocHas(h.alloc, x)
  }

  ghost predicate ListOk(h: Heap, c: nat)
    requires c < |h.lists| && c < |h.regions| && c < |h.lens|
  {
    Ordered(h.lists[c]) && AllAligned(h.lists[c]) && h.lens[c] == Total(h.lists[c]) && Conserved(h, c)
  }

  ghost predicate HeapInv(h: Heap) {
    && |h.lists| == |h.regions| == |h.lens|
    && RegionsOk(h.regions) && AllocOk(h)
    && forall c :: 0 <= c < |h.regions| ==> ListOk(h, c)
  }

  /** The free lists are determined by the regions and by what is allocated. */
  lemma Determined(h1: Heap, h2: Heap)
    requires HeapInv(h1) && HeapInv(h2) && h1.regions == h2.regions && h1.alloc == h2.alloc
    ensures h1 == h2
  {
    forall c | 0 <= c < |h1.regions| ensures h1.lists[c] == h2.lists[c] && h1.lens[c] == h2.lens[c] {
      assert ListOk(h1, c) && ListOk(h2, c);
      forall x: int ensures Covers(h1.lists[c], x) <==> Covers(h2.lists[c], x) {
        assert Conserved(h1, c) && Conserved(h2, c);
      }
      Canonical(h1.lists[c], h2.lists[c]);
    }
    assert h1.lists == h2.lists;
    assert h1.lens == h2.lens;
  }

  /** One region of len bytes per core, one after the other from memheap on. */
  function PerCore(memheap: nat, len: nat, ncores: nat): (rs: seq<Region>)
    ensures |rs| == ncores
    ensures forall c :: 0 <= c < ncores ==> rs[c] == Region(memheap + len * c, len)
  {
    seq(ncores, c requires 0 <= c < ncores => Region(memheap + len * c, len))
  }

  lemma SplitOk(memheap: nat, len: nat, ncores: nat)
    requires memheap > 0 && len > 0 && memheap % 8 == 0 && len % 8 == 0
    ensures RegionsOk(PerCore(memheap, len, ncores))
  {
    var rs := PerCore(memheap, len, ncores);
    forall c | 0 <= c < |rs| ensures 0 < rs[c].base && 0 < rs[c].bound && Aligned(Block(rs[c].base, rs[c].bound)) {
      AlignedMul(memheap, len, c);
    }
    forall c, d, x: int | 0 <= c < |rs| && 0 <= d < |rs| && rs[c].Has(x) && rs[d].Has(x) ensures c == d {
      if c < d { MulStep(len, c, d); }
      if d < c { MulStep(len, d, c); }
    }
  }

  lemma MulStep(len: nat, c: nat, d: nat)
    requires c < d
    ensures len * c + len <= len * d
  {
    var e := d - c - 1;
    assert len * d == len * (c + 1 + e) == len * c + len + len * e;
  }

  lemma {:induction false} AlignedMul(a: nat, len: nat, c: nat)
    requires a % 8 == 0 && len % 8 == 0
    ensures (a + len * c) % 8 == 0
  {
    if c > 0 {
      AlignedMul(a, len, c - 1);
      assert len * c == len * (c - 1) + len;
      AlignedSum(a + len * (c - 1), len);
    }
  }

  /** The state that sysinit leaves: one block per core, nothing allocated. */
  function Initial(rs: seq<Region>): Heap {
    Heap(rs, seq(|rs|, c requires 0 <= c < |rs| => [Block(rs[c].base, rs[c].bound)]),
         seq(|rs|, c requires 0 <= c < |rs| => rs[c].bound), {})
  }

  lemma InitialInv(rs: seq<Region>)
    requires RegionsOk(rs)
    ensures HeapInv(Initial(rs))
  {
    var h := Initial(rs);
    forall c | 0 <= c < |rs| ensures ListOk(h, c) {
      var b := Block(rs[c].base, rs[c].bound);
      assert h.lists[c] == [b];
      forall x: int ensures Covers([b], x) <==> rs[c].Has(x) {
        assert [b][0] == b;
      }
    }
  }

  /** Once nothing is allocated every list is again its one initial block. */
  lemma AllFreed(h: Heap)
    requires HeapInv(h) && h.alloc == {}
    ensures h == Initial(h.regions)
  {
    InitialInv(h.regions);
    Determined(h, Initial(h.regions));
  }

  // ----- getmem -----

  /** getmem on core c for n bytes, n already rounded. */
  function Get(h: Heap, c: nat, n: nat): (Option<nat>, Heap)
    requires c < |h.lists| == |h.lens|
  {
    match Take(h.lists[c], n)
    case None => (None, h)
    case Some((a, l)) =>
      (Some(a), Heap(h.regions, h.lists[c := l], h.lens[c := h.lens[c] - n],
                     if n == 0 then h.alloc else h.alloc + {Block(a, n)}))
  }

  lemma AlignedSum(a: nat, b: nat)
    requires a % 8 == 0 && b % 8 == 0
    ensures (a + b) % 8 == 0 && (a >= b ==> (a - b) % 8 == 0)
  {
  }

  lemma TakeAligned(l: seq<Block>, n: nat)
    requires AllAligned(l) && n % 8 == 0 && Take(l, n).Some?
    ensures AllAligned(Take(l, n).value.1) && Take(l, n).value.0 % 8 == 0
  {
    var i := FirstFit(l, n);
    TakeAt(l, n, i);
    assert Aligned(l[i]);
    AlignedSum(l[i].start, n);
    AlignedSum(l[i].len, n);
    var p, r, q := l[..i], Rest(l[i], n), l[i + 1..];
    assert AllAligned(p) && AllAligned(r) && AllAligned(q);
  }

  /** A block cut from list c: inside region c, and apart from everything allocated. */
  lemma TakenBlock(h: Heap, c: nat, n: nat)
    requires HeapInv(h) && c < |h.regions| && n > 0 && Take(h.lists[c], n).Some?
    ensures var b := Block(Take(h.lists[c], n).value.0, n);
            && InRegion(h.regions[c], b)
            && forall x: int :: b.Has(x) ==> !AllocHas(h.alloc, x)
  {
    var a := Take(h.lists[c], n).value.0;
    assert ListOk(h, c) && Conserved(h, c);
    TakeSpec(h.lists[c], n);
    assert Block(a, n).Has(a) && Block(a, n).Has(a + n - 1);
    assert h.regions[c].Has(a) && h.regions[c].Has(a + n - 1);
  }

  lemma AllocAdd(alloc: set<Block>, b: Block, x: int)
    ensures AllocHas(alloc + {b}, x) <==> AllocHas(alloc, x) || b.Has(x)
  {
    if AllocHas(alloc, x) {
      var a :| a in alloc && a.Has(x);
      assert a in alloc + {b};
    }
    assert b in alloc + {b};
  }

  lemma GetList(h: Heap, c: nat, n: nat, d: nat)
    requires HeapInv(h) && c < |h.regions| && d < |h.regions| && n > 0 && n % 8 == 0
    requires Get(h, c, n).0.Some?
    ensures ListOk(Get(h, c, n).1, d)
  {
    var (a, l) := Take(h.lists[c], n).value;
    var h' := Get(h, c, n).1;
    var b := Block(a, n);
    assert ListOk(h, c) && ListOk(h, d) && Conserved(h, d);
    TakenBlock(h, c, n);
    TakeSpec(h.lists[c], n);
    TakeTotal(h.lists[c], n);
    TakeAligned(h.lists[c], n);
    forall x: int ensures Covers(h'.lists[d], x) <==> h'.regions[d].Has(x) && !AllocHas(h'.alloc, x) {
      AllocAdd(h.alloc, b, x);
      assert b.Has(x) ==> h.regions[c].Has(x);
    }
  }

  /**
    getmem keeps the heap's invariant; it fails exactly when no block on the core's list
    suffices, and otherwise hands out the start of the lowest one that does.
  */
  lemma GetKeeps(h: Heap, c: nat, n: nat)
    requires HeapInv(h) && c < |h.regions| && n > 0 && n % 8 == 0
    ensures HeapInv(Get(h, c, n).1)
    ensures Get(h, c, n).0 == None ==> Get(h, c, n).1 == h
    ensures Get(h, c, n).0 == None <==> forall i :: 0 <= i < |h.lists[c]| ==> h.lists[c][i].len < n
    ensures forall a :: Get(h, c, n).0 == Some(a) ==>
              && Get(h, c, n).1.alloc == h.alloc + {Block(a, n)} && Block(a, n) !in h.alloc
              && InRegion(h.regions[c], Block(a, n))
              && (forall x: int :: Block(a, n).Has(x) ==> Covers(h.lists[c], x))
              && (forall i :: 0 <= i < |h.lists[c]| && h.lists[c][i].len >= n ==> a <= h.lists[c][i].start)
  {
    assert ListOk(h, c);
    TakeNone(h.lists[c], n);
    if Take(h.lists[c], n).Some? {
      TakeTotal(h.lists[c], n);
      var (a, l) := Take(h.lists[c], n).value;
      var h' := Get(h, c, n).1;
      TakenBlock(h, c, n);
      TakeAligned(h.lists[c], n);
      TakeSpec(h.lists[c], n);
      assert Block(a, n).Has(a);
      forall b | b in h.alloc ensures b != Block(a, n) { assert b.Has(a) ==> AllocHas(h.alloc, a); }
      GetAllocOk(h, c, n);
      forall d | 0 <= d < |h.regions| ensures ListOk(h', d) { GetList(h, c, n, d); }
    }
  }

  lemma GetAllocOk(h: Heap, c: nat, n: nat)
    requires HeapInv(h) && c < |h.regions| && n > 0 && n % 8 == 0 && Get(h, c, n).0.Some?
    ensures AllocOk(Get(h, c, n).1)
  {
    var h' := Get(h, c, n).1;
    var a := Take(h.lists[c], n).value.0;
    assert ListOk(h, c);
    TakenBlock(h, c, n);
    TakeAligned(h.lists[c], n);
    assert InRegion(h'.regions[c], Block(a, n));
    forall b, d, x: int | b in h'.alloc && d in h'.alloc && b.Has(x) && d.Has(x) ensures b == d {
      assert b in h.alloc ==> AllocHas(h.alloc, x);
      assert d in h.alloc ==> AllocHas(h.alloc, x);
    }
  }

  // ----- freemem -----

  /** The first region that holds s, or the number of regions: the search loop of freemem. */
  function RegionOf(rs: seq<Region>, s: nat): (c: nat)
    ensures c <= |rs|
    ensures c < |rs| ==> rs[c].Has(s)
    ensures c == |rs| ==> forall d :: 0 <= d < |rs| ==> !rs[d].Has(s)
  {
    if rs == [] then 0
    else if rs[0].Has(s) then 0
    else
      var c := RegionOf(rs[1..], s);
      assert forall d :: 1 <= d < |rs| ==> rs[d] == rs[1..][d - 1];
      1 + c
  }

  /** freemem of [s, s+n), n already rounded, from any core. */
  function Free(h: Heap, s: nat, n: nat): (bool, Heap)
    requires |h.lists| == |h.regions| == |h.lens| && RegionOf(h.regions, s) < |h.regions|
  {
    var c := RegionOf(h.regions, s);
    match Put(h.lists[c], s, n)
    case None => (false, h)
    case Some(l) => (true, Heap(h.regions, h.lists[c := l], h.lens[c := h.lens[c] + n], h.alloc - {Block(s, n)}))
  }

  /** Every region lies between lo and hi. */
  ghost predicate Within(rs: seq<Region>, lo: nat, hi: nat) {
    forall c :: 0 <= c < |rs| ==> lo <= rs[c].base && rs[c].base + rs[c].bound <= hi
  }

  /** A free block lies in its region. */
  lemma FreeInside(h: Heap, c: nat, i: nat)
    requires HeapInv(h) && c < |h.regions| && i < |h.lists[c]|
    ensures h.lists[c][i].len > 0 && InRegion(h.regions[c], h.lists[c][i])
  {
    assert ListOk(h, c) && Conserved(h, c);
    var b := h.lists[c][i];
    assert b.Has(b.start) && b.Has(b.End() - 1);
    assert Covers(h.lists[c], b.start) && Covers(h.lists[c], b.End() - 1);
  }

  /** What the test of freemem says of the list it looks at, on words below m that hold every address of the heap. */
  lemma RefusalInList(h: Heap, m: nat, s: nat, n: nat)
    requires HeapInv(h) && 0 < n < m && s < m && RegionOf(h.regions, s) < |h.regions| && Within(h.regions, 0, m)
    ensures var l := h.lists[RegionOf(h.regions, s)];
            && ((RefusedIn(m, l, s, n) <==> Overlaps(l, s, n)) <==> !RunsPast(m, l, s, n))
            && (s + n < m ==> (RefusedIn(m, l, s, n) <==> Clashes(l, s, n)))
  {
    var c := RegionOf(h.regions, s);
    assert ListOk(h, c);
    forall i | 0 <= i < |h.lists[c]| ensures h.lists[c][i].start < m { FreeInside(h, c, i); }
    RefusalIff(m, h.lists[c], s, n);
  }

  /** Freeing a range that lies in one region is refused exactly when some byte of it is already free. */
  lemma FreeRefuses(h: Heap, m: nat, s: nat, n: nat)
    requires HeapInv(h) && n > 0 && RegionOf(h.regions, s) < |h.regions| && m > 0 && Within(h.regions, 0, m - 1)
    requires InRegion(h.regions[RegionOf(h.regions, s)], Block(s, n))
    ensures var l := h.lists[RegionOf(h.regions, s)];
            && (RefusedIn(m, l, s, n) <==> Overlaps(l, s, n)) && (!Free(h, s, n).0 <==> Overlaps(l, s, n))
    ensures !Free(h, s, n).0 ==> Free(h, s, n).1 == h
  {
    var c := RegionOf(h.regions, s);
    assert ListOk(h, c);
    NeighboursSuffice(h.lists[c], s, n);
    RefusalInList(h, m, s, n);
  }

  /** Each region ends where the next begins, or before. */
  ghost predicate Ascending(rs: seq<Region>) {
    forall c, d :: 0 <= c < d < |rs| ==> rs[c].base + rs[c].bound <= rs[d].base
  }

  lemma PerCoreAscending(memheap: nat, len: nat, ncores: nat)
    ensures Ascending(PerCore(memheap, len, ncores))
  {
    forall c, d | 0 <= c < d < ncores ensures memheap + len * c + len <= memheap + len * d { MulStep(len, c, d); }
  }

  /** Some byte of the range is free, in whatever region. */
  ghost predicate OverlapsFree(h: Heap, s: nat, n: nat) {
    exists c :: 0 <= c < |h.lists| && Overlaps(h.lists[c], s, n)
  }

  /** A region behind the one the range starts in has a first free block below its end. */
  predicate RunsInto(h: Heap, s: nat, n: nat) {
    exists c :: RegionOf(h.regions, s) < c < |h.lists| && h.lists[c] != [] && h.lists[c][0].start < s + n
  }

  lemma OverlapElsewhere(h: Heap, s: nat, n: nat, c: nat)
    requires HeapInv(h) && Ascending(h.regions) && n > 0 && RegionOf(h.regions, s) < |h.regions|
    requires c < |h.regions| && c != RegionOf(h.regions, s)
    ensures Overlaps(h.lists[c], s, n) <==>
              c > RegionOf(h.regions, s) && h.lists[c] != [] && h.lists[c][0].start < s + n
  {
    var l, d := h.lists[c], RegionOf(h.regions, s);
    assert ListOk(h, c) && Conserved(h, c) && h.regions[d].Has(s);
    if c > d && l != [] && l[0].start < s + n {
      FreeInside(h, c, 0);
      assert l[0].Has(l[0].start) && Block(s, n).Has(l[0].start);
      assert Covers(l, l[0].start);
    }
    if x: int :| Block(s, n).Has(x) && Covers(l, x) {
      assert h.regions[c].Has(x);
      var i :| 0 <= i < |l| && l[i].Has(x);
      assert l[0].start <= l[i].start;
    }
  }

  /**
    freemem looks at one list only and adds in a word.  Its test refuses exactly the ranges that
    overlap free memory unless, clear of both neighbours as compared, the range wraps past a free
    block of its own region or runs into one of a region behind.
  */
  lemma RefusalInHeap(h: Heap, m: nat, s: nat, n: nat)
    requires HeapInv(h) && Ascending(h.regions) && Within(h.regions, 0, m)
    requires 0 < n < m && s < m && RegionOf(h.regions, s) < |h.regions|
    ensures var l := h.lists[RegionOf(h.regions, s)]; var refused := RefusedIn(m, l, s, n);
            (refused <==> OverlapsFree(h, s, n)) <==> refused || (!RunsPast(m, l, s, n) && !RunsInto(h, s, n))
  {
    hide HeapInv;
    hide Overlaps;
    hide RefusedIn;
    hide RunsPast;
    var d := RegionOf(h.regions, s);
    HeapShape(h);
    RefusalInList(h, m, s, n);
    forall c | 0 <= c < |h.lists| && c != d
      ensures Overlaps(h.lists[c], s, n) <==> c > d && h.lists[c] != [] && h.lists[c][0].start < s + n
    {
      OverlapElsewhere(h, s, n, c);
    }
    if RefusedIn(m, h.lists[d], s, n) { RefusedOverlaps(m, h.lists[d], s, n); }
  }

  lemma HeapShape(h: Heap)
    requires HeapInv(h)
    ensures |h.lists| == |h.regions| == |h.lens|
    ensures forall c :: 0 <= c < |h.regions| ==> Ordered(h.lists[c])
  {
    forall c | 0 <= c < |h.regions| ensures Ordered(h.lists[c]) { assert ListOk(h, c); }
  }

  /**
    Two cores with sixteen bytes each, those of the first allocated: freeing 24 bytes from there on
    is accepted, although the last eight are free memory of the second core, and breaks the heap.
  */
  lemma RangePastRegion()
    ensures var h := Get(Initial(PerCore(8, 16, 2)), 0, 16).1;
            && HeapInv(h) && Ascending(h.regions) && RegionOf(h.regions, 8) == 0 && |h.lists| == |h.lens| == 2
            && !RefusedIn(0x1_0000_0000, h.lists[0], 8, 24) && !RunsPast(0x1_0000_0000, h.lists[0], 8, 24)
            && OverlapsFree(h, 8, 24) && Free(h, 8, 24).0 && !HeapInv(Free(h, 8, 24).1)
  {
    var h0 := Initial(PerCore(8, 16, 2));
    SplitOk(8, 16, 2);
    InitialInv(PerCore(8, 16, 2));
    assert h0.lists[0] == [Block(8, 16)] && h0.lists[1] == [Block(24, 16)];
    var h := Get(h0, 0, 16).1;
    GetKeeps(h0, 0, 16);
    assert h.lists[0] == [] && h.lists[1] == [Block(24, 16)];
    assert h.alloc == {Block(8, 16)};
    assert h.regions[0].Has(8);
    OverlapElsewhere(h, 8, 24, 1);
    FreeKeepsIff(h, 8, 24);
  }

  /** A range that is accepted although its end wraps never leaves a sound heap behind. */
  lemma WrapKeepsNothing(h: Heap, m: nat, s: nat, n: nat, len: int)
    requires HeapInv(h) && m > 0 && Within(h.regions, 0, m - 1) && RegionOf(h.regions, s) < |h.regions|
    requires 0 < n < m && s < m <= s + n
    ensures |h.lists| == |h.regions| == |h.lens|
    ensures var c := RegionOf(h.regions, s);
            !HeapInv(h.(lists := h.lists[c := Wrapped(m, h.lists[c], s, n)], lens := h.lens[c := len]))
  {
    hide Wrapped;
    hide Covers;
    var c := RegionOf(h.regions, s);
    assert ListOk(h, c);
    var x := WrappedOff(m, h.lists[c], s, n);
    var h' := h.(lists := h.lists[c := Wrapped(m, h.lists[c], s, n)], lens := h.lens[c := len]);
    assert HeapInv(h') ==> ListOk(h', c) && Conserved(h', c);
    if Conserved(h', c) { SameCover(h, h', c); }
  }

  /** A byte that the list no longer covers, or one that no region has and it does cover. */
  lemma WrappedOff(m: nat, l: seq<Block>, s: nat, n: nat) returns (x: int)
    requires Ordered(l) && 0 < n < m && s < m <= s + n
    ensures var l' := Wrapped(m, l, s, n); (Covers(l, x) && !Covers(l', x)) || (Covers(l', x) && x == m - 1)
  {
    var k := Below(l, s);
    if k > 0 && l[k - 1].End() == s && l[k - 1].len + n >= m {
      var b := l[k - 1];
      DivModUnique(b.len + n, m, 1, b.len + n - m);
      ShrinkUncovers(l, Wrapped(m, l, s, n), k - 1, b.len + n - m);
      x := b.start + (b.len + n - m);
    } else {
      WrapRunsOut(m, l, s, n);
      x := m - 1;
    }
  }

  /** With the same regions and the same blocks allocated, sound lists cover the same bytes of their regions. */
  lemma SameCover(h: Heap, h': Heap, c: nat)
    requires c < |h.lists| == |h'.lists| == |h.regions| && h'.regions == h.regions && h'.alloc == h.alloc
    requires Conserved(h, c) && Conserved(h', c)
    ensures forall x: int :: Covers(h'.lists[c], x) <==> Covers(h.lists[c], x)
    ensures forall x: int :: Covers(h'.lists[c], x) ==> h.regions[c].Has(x)
  {
  }

  lemma WrapRunsOut(m: nat, l: seq<Block>, s: nat, n: nat)
    requires 0 < n < m && s < m <= s + n
    requires !(Below(l, s) > 0 && l[Below(l, s) - 1].End() == s && l[Below(l, s) - 1].len + n >= m)
    ensures Covers(Wrapped(m, l, s, n), m - 1)
  {
    var k, l' := Below(l, s), Wrapped(m, l, s, n);
    var i := if k > 0 && l[k - 1].End() == s then k - 1 else k;
    if i < k { SmallMod(l[i].len + n, m); }
    assert l'[i].Has(m - 1);
  }

  lemma ShrinkUncovers(l: seq<Block>, l': seq<Block>, i: nat, len: nat)
    requires Ordered(l) && i < |l| && len < l[i].len && l' == l[..i] + [Block(l[i].start, len)] + l[i + 1..]
    ensures Covers(l, l[i].start + len) && !Covers(l', l[i].start + len)
  {
    var x := l[i].start + len;
    assert l[i].Has(x);
    forall j | 0 <= j < |l'| ensures !l'[j].Has(x) {
      assert j != i ==> l'[j] == l[j];
    }
  }

  /** A free that is accepted keeps the heap sound if and only if the range is an allocated block. */
  lemma FreeKeepsIff(h: Heap, s: nat, n: nat)
    requires HeapInv(h) && n > 0 && RegionOf(h.regions, s) < |h.regions| && Free(h, s, n).0
    ensures HeapInv(Free(h, s, n).1) <==> Block(s, n) in h.alloc
  {
    var c, h' := RegionOf(h.regions, s), Free(h, s, n).1;
    assert ListOk(h, c) && Conserved(h, c);
    if Block(s, n) in h.alloc {
      FreeKeeps(h, Block(s, n));
    } else {
      NeighboursSuffice(h.lists[c], s, n);
      PutSpec(h.lists[c], s, n);
      assert Block(s, n).Has(s);
      assert Covers(h'.lists[c], s) && !Covers(h.lists[c], s);
      assert AllocHas(h'.alloc, s) by { assert h'.alloc == h.alloc && h.regions[c].Has(s); }
      assert HeapInv(h') ==> ListOk(h', c) && Conserved(h', c);
    }
  }

  lemma AllocatedRegion(h: Heap, b: Block)
    requires HeapInv(h) && b in h.alloc
    ensures var c := RegionOf(h.regions, b.start);
            c < |h.regions| && InRegion(h.regions[c], b) && !Clashes(h.lists[c], b.start, b.len)
  {
    var d :| 0 <= d < |h.regions| && InRegion(h.regions[d], b);
    assert h.regions[d].Has(b.start);
    var c := RegionOf(h.regions, b.start);
    assert c == d;
    assert ListOk(h, c) && Conserved(h, c);
    NeighboursSuffice(h.lists[c], b.start, b.len);
    forall x: int | b.Has(x) ensures !Covers(h.lists[c], x) { assert AllocHas(h.alloc, x); }
  }

  lemma AllocRemove(h: Heap, b: Block, x: int)
    requires AllocOk(h) && b in h.alloc
    ensures AllocHas(h.alloc - {b}, x) <==> AllocHas(h.alloc, x) && !b.Has(x)
  {
    if AllocHas(h.alloc, x) && !b.Has(x) {
      var a :| a in h.alloc && a.Has(x);
      assert a in h.alloc - {b};
    }
    if AllocHas(h.alloc - {b}, x) {
      var a :| a in h.alloc - {b} && a.Has(x);
      assert a in h.alloc;
    }
  }

  lemma PutAligned(l: seq<Block>, s: nat, n: nat)
    requires AllAligned(l) && s % 8 == 0 && n % 8 == 0 && !Clashes(l, s, n)
    ensures AllAligned(Put(l, s, n).value)
  {
    var k := Below(l, s);
    var lo, j, hi := Lower(l, s), Joined(l, s, n), Upper(l, s, n);
    assert AllAligned(lo) && AllAligned(hi);
    if k > 0 { assert Aligned(l[k - 1]); }
    if k < |l| {
      assert Aligned(l[k]);
      AlignedSum(l[k].start, l[k].len);
    }
    AlignedSum(s, n);
    AlignedSum(j.End(), j.start);
  }

  lemma FreeList(h: Heap, b: Block, d: nat)
    requires HeapInv(h) && b in h.alloc && d < |h.regions| && RegionOf(h.regions, b.start) < |h.regions|
    requires Free(h, b.start, b.len).0
    ensures ListOk(Free(h, b.start, b.len).1, d)
  {
    hide Put;
    hide Ordered;
    hide Covers;
    hide AllAligned;
    hide AllocHas;
    var c := RegionOf(h.regions, b.start);
    var h' := Free(h, b.start, b.len).1;
    assert ListOk(h, c) && ListOk(h, d) && Conserved(h, d);
    AllocatedRegion(h, b);
    PutSpec(h.lists[c], b.start, b.len);
    PutTotal(h.lists[c], b.start, b.len);
    PutAligned(h.lists[c], b.start, b.len);
    forall x: int ensures Covers(h'.lists[d], x) <==> h'.regions[d].Has(x) && !AllocHas(h'.alloc, x) {
      AllocRemove(h, b, x);
      assert b.Has(x) ==> h.regions[c].Has(x);
    }
  }

  /** Freeing an allocated block always succeeds and keeps the invariant. */
  lemma FreeKeeps(h: Heap, b: Block)
    requires HeapInv(h) && b in h.alloc
    ensures RegionOf(h.regions, b.start) < |h.regions|
    ensures Free(h, b.start, b.len).0 && HeapInv(Free(h, b.start, b.len).1)
    ensures Free(h, b.start, b.len).1.alloc == h.alloc - {b}
    ensures Free(h, b.start, b.len).1.regions == h.regions
  {
    AllocatedRegion(h, b);
    forall d | 0 <= d < |h.regions| ensures ListOk(Free(h, b.start, b.len).1, d) {
      FreeList(h, b, d);
    }
  }

  // ----- runs -----

  /** getmem followed by freemem of what it returned restores the heap exactly. */
  lemma GetThenFree(h: Heap, c: nat, n: nat)
    requires HeapInv(h) && c < |h.regions| && n > 0 && n % 8 == 0 && Get(h, c, n).0.Some?
    ensures var (a, h') := (Get(h, c, n).0.value, Get(h, c, n).1);
            && |h'.lists| == |h'.regions| == |h'.lens| && RegionOf(h'.regions, a) < |h'.regions|
            && Free(h', a, n) == (true, h)
  {
    var (a, h') := (Get(h, c, n).0.value, Get(h, c, n).1);
    GetKeeps(h, c, n);
    FreeKeeps(h', Block(a, n));
    assert h'.alloc - {Block(a, n)} == h.alloc;
    Determined(Free(h', a, n).1, h);
  }

  /** Freeing allocated blocks one after the other. */
  ghost function FreeAll(h: Heap, bs: seq<Block>): Heap
    requires HeapInv(h) && Distinct(bs) && forall i :: 0 <= i < |bs| ==> bs[i] in h.alloc
    decreases bs
  {
    if bs == [] then h else
    FreeKeeps(h, bs[0]);
    FreeAll(Free(h, bs[0].start, bs[0].len).1, bs[1..])
  }

  lemma {:induction false} FreeAllSpec(h: Heap, bs: seq<Block>)
    requires HeapInv(h) && Distinct(bs) && forall i :: 0 <= i < |bs| ==> bs[i] in h.alloc
    ensures HeapInv(FreeAll(h, bs)) && FreeAll(h, bs).regions == h.regions
    ensures FreeAll(h, bs).alloc == h.alloc - set b | b in bs
    decreases bs
  {
    if bs != [] {
      FreeKeeps(h, bs[0]);
      FreeAllSpec(Free(h, bs[0].start, bs[0].len).1, bs[1..]);
      SetOfTail(bs);
    }
  }

  lemma SetOfTail(bs: seq<Block>)
    requires bs != []
    ensures (set b | b in bs) == {bs[0]} + set b | b in bs[1..]
  {
    assert bs == [bs[0]] + bs[1..];
  }

  /** The same blocks freed in any order end in the same heap. */
  lemma FreeOrderIrrelevant(h: Heap, bs: seq<Block>, cs: seq<Block>)
    requires HeapInv(h) && Distinct(bs) && Distinct(cs)
    requires forall i :: 0 <= i < |bs| ==> bs[i] in h.alloc
    requires forall i :: 0 <= i < |cs| ==> cs[i] in h.alloc
    requires (set b | b in bs) == set b | b in cs
    ensures FreeAll(h, bs) == FreeAll(h, cs)
  {
    FreeAllSpec(h, bs);
    FreeAllSpec(h, cs);
    Determined(FreeAll(h, bs), FreeAll(h, cs));
  }

  datatype Call = GetCall(core: nat, n: nat) | FreeCall(block: Block)

  /** What a call needs of its caller: freemem is given blocks that getmem handed out. */
  ghost predicate Allowed(h: Heap, call: Call) {
    && |h.lists| == |h.regions| == |h.lens|
    && match call
       case GetCall(c, n) => c < |h.regions| && n > 0 && n % 8 == 0
       case FreeCall(b) => b in h.alloc && RegionOf(h.regions, b.start) < |h.regions|
  }

  ghost function After(h: Heap, call: Call): Heap
    requires Allowed(h, call)
  {
    match call
    case GetCall(c, n) => Get(h, c, n).1
    case FreeCall(b) => Free(h, b.start, b.len).1
  }

  ghost predicate IsRun(hs: seq<Heap>, calls: seq<Call>) {
    && |hs| == |calls| + 1
    && forall i :: 0 <= i < |calls| ==> Allowed(hs[i], calls[i]) && hs[i + 1] == After(hs[i], calls[i])
  }

  /** Every run of calls keeps the invariant, whichever core each call is made from. */
  lemma {:induction false} RunKeeps(hs: seq<Heap>, calls: seq<Call>, k: nat)
    requires IsRun(hs, calls) && HeapInv(hs[0]) && k < |hs|
    ensures HeapInv(hs[k]) && hs[k].regions == hs[0].regions
  {
    if k > 0 {
      RunKeeps(hs, calls, k - 1);
      assert Allowed(hs[k - 1], calls[k - 1]);
      match calls[k - 1] {
        case GetCall(c, n) => GetKeeps(hs[k - 1], c, n);
        case FreeCall(b) => FreeKeeps(hs[k - 1], b);
      }
    }
  }

  /** Two runs from one heap that end with the same blocks allocated end in the same heap. */
  lemma RunsMeet(hs: seq<Heap>, cs: seq<Call>, gs: seq<Heap>, ds: seq<Call>)
    requires IsRun(hs, cs) && IsRun(gs, ds) && hs[0] == gs[0] && HeapInv(hs[0])
    requires hs[|cs|].alloc == gs[|ds|].alloc
    ensures hs[|cs|] == gs[|ds|]
  {
    RunKeeps(hs, cs, |cs|);
    RunKeeps(gs, ds, |ds|);
    Determined(hs[|cs|], gs[|ds|]);
  }

  /** A request that wraps is handed the first free block, which stays on the free list. */
  lemma WrappedRequestStaysFree(h: Heap, c: nat, w: nat, x: nat)
    requires HeapInv(h) && c < |h.regions| && h.lists[c] != []
    requires w >= 3 && Pow2(w) <= x + 7 && x < Pow2(w)
    ensures var (a, h') := Get(h, c, RoundMb(w, x));
            a == Some(h.lists[c][0].start) && h' == h && Covers(h.lists[c], a.value)
  {
    RoundMbWraps(w, x);
    GetNothing(h, c);
    assert h.lists[c][0].Has(h.lists[c][0].start);
  }

  /** getmem of nothing hands out the first block and leaves the heap as it is. */
  lemma GetNothing(h: Heap, c: nat)
    requires HeapInv(h) && c < |h.regions|
    ensures |h.lists| == |h.regions| == |h.lens|
    ensures Get(h, c, 0) == (if h.lists[c] == [] then None else Some(h.lists[c][0].start), h)
  {
    var l := h.lists[c];
    assert ListOk(h, c);
    if l != [] {
      assert l[0].len > 0 && Take(l, 0) == Some((l[0].start, [Block(l[0].start + 0, l[0].len - 0)] + l[1..]));
      assert [l[0]] + l[1..] == l;
      assert h.lists[c := l] == h.lists && h.lens[c := h.lens[c] - 0] == h.lens;
    }
  }

  /** Freeing a block makes no free block of any list shorter. */
  lemma FreeGrows(h: Heap, b: Block, c: nat, i: nat) returns (j: nat)
    requires HeapInv(h) && b in h.alloc && c < |h.regions| && i < |h.lists[c]|
    ensures RegionOf(h.regions, b.start) < |h.regions| && |Free(h, b.start, b.len).1.lists| == |h.lists|
    ensures var l := Free(h, b.start, b.len).1.lists[c]; j < |l| && l[j].len >= h.lists[c][i].len
  {
    hide Put;
    FreeKeeps(h, b);
    var h', f := Free(h, b.start, b.len).1, h.lists[c][i];
    assert ListOk(h, c) && ListOk(h', c) && Conserved(h, c) && Conserved(h', c);
    forall x: int | f.start <= x < f.start + f.len ensures Covers(h'.lists[c], x) {
      assert f.Has(x);
      assert Covers(h.lists[c], x);
      assert !AllocHas(h'.alloc, x);
    }
    j := OneBlock(h'.lists[c], f.start, f.len);
  }
}
