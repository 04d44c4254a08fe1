/**
  getmem and freemem as the kernel runs them: a walk along headers threaded through free
  memory, then relinking in place.  Header words are kept apart from the bytes they lie in.
*/
module Allocator {
  import opened Config
  import opened Bits
  import opened Types
  import opened FreeLists
  import opened Heaps

  /** Header words by block address, and the head pointer of one list; 0 is NULL. */
  datatype Cells = Cells(head: nat, next: map<nat, nat>, length: map<nat, nat>)

  ghost function StartAt(l: seq<Block>, i: nat): nat {
    if i < |l| then l[i].start else 0
  }

  /** The cell before position i: the list head, or the block before. */
  ghost function PrevAt(l: seq<Block>, i: nat): Option<nat>
    requires i <= |l|
  {
    if i == 0 then None else Some(l[i - 1].start)
  }

  ghost predicate CellOk(m: Cells, l: seq<Block>, i: nat)
    requires i < |l|
  {
    && l[i].start in m.next && l[i].start in m.length
    && m.length[l[i].start] == l[i].len && m.next[l[i].start] == StartAt(l, i + 1)
  }

  ghost predicate Linked(m: Cells, l: seq<Block>) {
    m.head == StartAt(l, 0) && forall i :: 0 <= i < |l| ==> CellOk(m, l, i)
  }

  ghost predicate Rising(l: seq<Block>) {
    && (forall i :: 0 <= i < |l| ==> 0 < l[i].start)
    && (forall i, j :: 0 <= i < j < |l| ==> l[i].start < l[j].start)
  }

  /** prev->next = x, where prev may be the list head. */
  function SetNext(m: Cells, prev: Option<nat>, x: nat): Cells {
    match prev
    case None => m.(head := x)
    case Some(p) => m.(next := m.next[p := x])
  }

  /** Dropping the block at i. */
  lemma Unlink(m: Cells, l: seq<Block>, i: nat)
    requires Linked(m, l) && Rising(l) && i < |l|
    ensures CellOk(m, l, i)
    ensures Linked(SetNext(m, PrevAt(l, i), m.next[l[i].start]), l[..i] + l[i + 1..])
  {
    assert CellOk(m, l, i);
    var l' := l[..i] + l[i + 1..];
    var m' := SetNext(m, PrevAt(l, i), m.next[l[i].start]);
    forall k | 0 <= k < |l'| ensures CellOk(m', l', k) {
      var k' := if k < i then k else k + 1;
      assert CellOk(m, l, k') && l'[k] == l[k'];
    }
  }

  /** Putting block b in the place of the one at i; its header words are new. */
  lemma Replace(m: Cells, l: seq<Block>, i: nat, b: Block)
    requires Linked(m, l) && Rising(l) && i < |l|
    requires forall k :: 0 <= k < |l| && k != i ==> l[k].start != b.start
    ensures CellOk(m, l, i)
    ensures var m1 := SetNext(m, PrevAt(l, i), b.start);
            var m2 := m1.(next := m1.next[b.start := m.next[l[i].start]]);
            Linked(m2.(length := m2.length[b.start := b.len]), l[..i] + [b] + l[i + 1..])
  {
    assert CellOk(m, l, i);
    var l' := l[..i] + [b] + l[i + 1..];
    var m1 := SetNext(m, PrevAt(l, i), b.start);
    var m2 := m1.(next := m1.next[b.start := m.next[l[i].start]]);
    var m' := m2.(length := m2.length[b.start := b.len]);
    assert l' == l[i := b];
    forall k | 0 <= k < |l'| ensures CellOk(m', l', k) {
      assert CellOk(m, l, k);
    }
  }

  /** Inserting block b before position i. */
  lemma Insert(m: Cells, l: seq<Block>, i: nat, b: Block)
    requires Linked(m, l) && Rising(l) && i <= |l|
    requires forall k :: 0 <= k < |l| ==> l[k].start != b.start
    ensures var m1 := m.(next := m.next[b.start := StartAt(l, i)], length := m.length[b.start := b.len]);
            Linked(SetNext(m1, PrevAt(l, i), b.start), l[..i] + [b] + l[i..])
  {
    var l' := l[..i] + [b] + l[i..];
    var m1 := m.(next := m.next[b.start := StartAt(l, i)], length := m.length[b.start := b.len]);
    var m' := SetNext(m1, PrevAt(l, i), b.start);
    forall k | 0 <= k < |l'| ensures CellOk(m', l', k) {
      if k != i {
        var k' := if k < i then k else k - 1;
        assert CellOk(m, l, k') && l'[k] == l[k'];
      }
    }
  }

  /** Another length for the block at i. */
  lemma Resize(m: Cells, l: seq<Block>, i: nat, n: nat)
    requires Linked(m, l) && Rising(l) && i < |l|
    ensures Linked(m.(length := m.length[l[i].start := n]), l[..i] + [Block(l[i].start, n)] + l[i + 1..])
  {
    var b := Block(l[i].start, n);
    var l' := l[..i] + [b] + l[i + 1..];
    var m' := m.(length := m.length[l[i].start := n]);
    assert l' == l[i := b];
    forall k | 0 <= k < |l'| ensures CellOk(m', l', k) {
      assert CellOk(m, l, k);
    }
  }

  /** Swallowing the block after i. */
  lemma Swallow(m: Cells, l: seq<Block>, i: nat)
    requires Linked(m, l) && Rising(l) && i + 1 < |l|
    ensures CellOk(m, l, i + 1)
    ensures var (a, b) := (l[i], l[i + 1]);
            Linked(m.(length := m.length[a.start := a.len + b.len], next := m.next[a.start := m.next[b.start]]),
                   l[..i] + [Block(a.start, a.len + b.len)] + l[i + 2..])
  {
    assert CellOk(m, l, i + 1);
    var (a, b) := (l[i], l[i + 1]);
    var l' := l[..i] + [Block(a.start, a.len + b.len)] + l[i + 2..];
    var m' := m.(length := m.length[a.start := a.len + b.len], next := m.next[a.start := m.next[b.start]]);
    forall k | 0 <= k < |l'| ensures CellOk(m', l', k) {
      if k != i {
        var k' := if k < i then k else k + 1;
        assert CellOk(m, l, k') && l'[k] == l[k'];
      }
    }
  }

  /** Writes elsewhere leave a list as it is. */
  lemma LinkedFrame(m: Cells, m': Cells, l: seq<Block>)
    requires Linked(m, l) && m'.head == m.head
    requires forall i :: 0 <= i < |l| ==>
               && l[i].start in m.next && l[i].start in m'.next && m'.next[l[i].start] == m.next[l[i].start]
               && l[i].start in m.length && l[i].start in m'.length && m'.length[l[i].start] == m.length[l[i].start]
    ensures Linked(m', l)
  {
    forall i | 0 <= i < |l| ensures CellOk(m', l, i) {
      assert CellOk(m, l, i);
    }
  }

  lemma ListRises(h: Heap, c: nat)
    requires HeapInv(h) && c < |h.regions|
    ensures Ordered(h.lists[c]) && Rising(h.lists[c]) && 0 < h.regions[c].base
    ensures forall i :: 0 <= i < |h.lists[c]| ==> h.regions[c].Has(h.lists[c][i].start)
  {
    var l := h.lists[c];
    assert ListOk(h, c) && Conserved(h, c);
    forall i | 0 <= i < |l| ensures h.regions[c].Has(l[i].start) && 0 < l[i].start {
      assert l[i].Has(l[i].start);
      assert Covers(l, l[i].start);
    }
  }

  datatype MemHead = MemHead(head: nat, length: int, base: nat, bound: nat)

  /** The headers spell out every list of h, and each head records its region and its length. */
  ghost predicate Spells(fl: seq<MemHead>, next: map<nat, nat>, length: map<nat, nat>, h: Heap) {
    && |fl| == |h.regions| == |h.lists| == |h.lens|
    && forall c :: 0 <= c < |fl| ==> SpellsOne(fl, next, length, h, c)
  }

  ghost predicate SpellsOne(fl: seq<MemHead>, next: map<nat, nat>, length: map<nat, nat>, h: Heap, c: nat)
    requires |fl| == |h.regions| == |h.lists| == |h.lens| && c < |fl|
  {
    && fl[c].base == h.regions[c].base && fl[c].bound == h.regions[c].bound && fl[c].length == h.lens[c]
    && Linked(Cells(fl[c].head, next, length), h.lists[c])
  }

  ghost predicate SameOutside(r: Region, m: map<nat, nat>, m': map<nat, nat>) {
    forall a :: a in m && !r.Has(a) ==> a in m' && m'[a] == m[a]
  }

  /** Only header words inside region c were written, and list c is spelled out anew. */
  lemma SpellsAfter(fl: seq<MemHead>, next: map<nat, nat>, length: map<nat, nat>, h: Heap, c: nat,
                    fl': seq<MemHead>, next': map<nat, nat>, length': map<nat, nat>, h': Heap)
    requires HeapInv(h) && Spells(fl, next, length, h) && c < |fl|
    requires h'.regions == h.regions && |h'.lists| == |h.lists| && |h'.lens| == |h.lens|
    requires forall d :: 0 <= d < |fl| && d != c ==> h'.lists[d] == h.lists[d] && h'.lens[d] == h.lens[d]
    requires |fl'| == |fl| && fl' == fl[c := fl'[c]]
    requires SpellsOne(fl', next', length', h', c)
    requires SameOutside(h.regions[c], next, next') && SameOutside(h.regions[c], length, length')
    ensures Spells(fl', next', length', h')
  {
    forall d | 0 <= d < |fl| && d != c ensures SpellsOne(fl', next', length', h', d) {
      assert SpellsOne(fl, next, length, h, d);
      ListRises(h, d);
      var m, l := Cells(fl[d].head, next, length), h.lists[d];
      forall i | 0 <= i < |l| ensures !h.regions[c].Has(l[i].start) && CellOk(m, l, i) {
      }
      LinkedFrame(m, Cells(fl'[d].head, next', length'), l);
    }
  }

  /** The heads and headers that the loop of sysinit has filled in so far. */
  ghost predicate Filled(fl: seq<MemHead>, next: map<nat, nat>, length: map<nat, nat>, base: nat, len: nat) {
    && (forall c :: 0 <= c < |fl| ==> fl[c] == MemHead(base + len * c, len, base + len * c, len))
    && (forall c :: 0 <= c < |fl| ==> fl[c].head in next && next[fl[c].head] == 0)
    && (forall c :: 0 <= c < |fl| ==> fl[c].head in length && length[fl[c].head] == len)
  }

  /** The loop of sysinit that gives every core one block. */
  method FillHeads(w: nat, base: nat, len: nat) returns (fl: seq<MemHead>, next: map<nat, nat>, length: map<nat, nat>)
    requires w >= 3 && base % 8 == 0 && len % 8 == 0 && base + len * NCORES <= Pow2(w) && base + 7 < Pow2(w)
    ensures |fl| == NCORES && Filled(fl, next, length, base, len)
  {
    hide RoundMb;
    fl, next, length := [], map[], map[];
    var i := 0;
    while i < NCORES
      invariant i <= NCORES && |fl| == i && Filled(fl, next, length, base, len)
    {
      MulStep(len, i, NCORES);
      AlignedMul(base, len, i);
      EightOrNone(len);
      RoundMbIs(w, base + len * i);
      AlreadyRound(base + len * i);
      var block := RoundMb(w, base + len * i);
      fl := fl + [MemHead(block, len, block, len)];
      next, length := next[block := 0], length[block := len];
      i := i + 1;
    }
  }

  lemma EightOrNone(len: nat)
    requires len % 8 == 0
    ensures len == 0 || len >= 8
  {
  }

  lemma AlreadyRound(x: nat)
    requires x % 8 == 0
    ensures (x + 7) / 8 * 8 == x
  {
  }

  lemma FilledSpells(fl: seq<MemHead>, next: map<nat, nat>, length: map<nat, nat>, base: nat, len: nat)
    requires Filled(fl, next, length, base, len) && base > 0 && len > 0 && base % 8 == 0 && len % 8 == 0
    ensures HeapInv(Initial(PerCore(base, len, |fl|)))
    ensures Spells(fl, next, length, Initial(PerCore(base, len, |fl|)))
  {
    var h := Initial(PerCore(base, len, |fl|));
    SplitOk(base, len, |fl|);
    InitialInv(PerCore(base, len, |fl|));
    forall c | 0 <= c < |fl| ensures SpellsOne(fl, next, length, h, c) {
      assert h.lists[c] == [Block(base + len * c, len)];
      assert CellOk(Cells(fl[c].head, next, length), h.lists[c], 0);
    }
  }

  lemma SharesWithin(base: nat, len: nat, limit: nat)
    requires base + NCORES * len <= limit
    ensures Initial(PerCore(base, len, NCORES)).regions == PerCore(base, len, NCORES)
    ensures Within(PerCore(base, len, NCORES), base, limit)
  {
    forall c | 0 <= c < NCORES ensures base + len * c + len <= limit { MulStep(len, c, NCORES); }
  }

  /** The share of each core, cast to an unsigned int of 32 bits. */
  function Share(memheap: nat, maxaddr: nat): nat
    requires memheap <= maxaddr
  {
    (maxaddr - memheap) / NCORES / 8 * 8 % 0x1_0000_0000
  }

  /** The cast loses memory exactly when the share of a core is 2^32 bytes or more. */
  lemma ShareIff(memheap: nat, maxaddr: nat)
    requires memheap <= maxaddr
    ensures var s := (maxaddr - memheap) / NCORES / 8 * 8;
            && Share(memheap, maxaddr) % 8 == 0 && Share(memheap, maxaddr) <= s
            && (Share(memheap, maxaddr) == s <==> s < 0x1_0000_0000)
  {
  }

  lemma ShareFits(w: nat, base: nat, limit: nat)
    requires w >= 3 && base % 8 == 0 && base <= limit < Pow2(w)
    ensures var len := TruncMb(w, (limit - base) / NCORES) % 0x1_0000_0000;
            len == Share(base, limit) && len % 8 == 0 && base + NCORES * len <= limit && base + 7 < Pow2(w)
  {
    hide TruncMb;
    hide Pow2;
    TruncMbIs(w, (limit - base) / NCORES);
    ShareIff(base, limit);
    Pow2Aligned(w);
  }

  /** The addresses that pass the bounds check of freemem and lie in no region: what the shares leave over. */
  lemma NoRegionIff(memheap: nat, len: nat, maxaddr: nat, a: nat)
    requires memheap <= a <= maxaddr
    ensures RegionOf(PerCore(memheap, len, NCORES), a) == NCORES <==> memheap + NCORES * len <= a
  {
    var rs := PerCore(memheap, len, NCORES);
    assert rs[0] == Region(memheap, len) && rs[1] == Region(memheap + len, len);
    assert rs[2] == Region(memheap + 2 * len, len) && rs[3] == Region(memheap + 3 * len, len);
    var c := RegionOf(rs, a);
    if c < 4 { assert rs[c].Has(a); }
  }

  class Pool {
    const w: nat            // bits in a word
    const memheap: nat
    const maxaddr: nat
    var freelist: seq<MemHead>
    var next: map<nat, nat>
    var length: map<nat, nat>
    ghost var h: Heap

    ghost predicate Valid()
      reads this
    {
      && w >= 3 && HeapInv(h) && Spells(freelist, next, length, h)
      && Within(h.regions, memheap, maxaddr) && maxaddr < Pow2(w)
    }

    /** The heap part of sysinit: the memory from heapEnd to top is shared out evenly. */
    constructor (w: nat, heapEnd: nat, top: nat)
      requires w >= 3 && 0 < heapEnd && heapEnd + 7 < Pow2(w) && top < Pow2(w)
      requires RoundMb(w, heapEnd) <= TruncMb(w, top)
      ensures this.w == w && |freelist| == NCORES
      ensures memheap == RoundMb(w, heapEnd) && maxaddr == TruncMb(w, top) && memheap <= maxaddr
      ensures Filled(freelist, next, length, memheap, Share(memheap, maxaddr))
      ensures h == Initial(PerCore(memheap, Share(memheap, maxaddr), NCORES))
      ensures Share(memheap, maxaddr) > 0 ==> Valid()
    {
      hide RoundMb;
      hide TruncMb;
      hide HeapInv;
      hide Initial;
      hide PerCore;
      hide Spells;
      hide Filled;
      hide Pow2;
      hide Share;
      RoundMbIs(w, heapEnd);
      TruncMbIs(w, top);
      var base := RoundMb(w, heapEnd);
      var limit := TruncMb(w, top);
      ShareFits(w, base, limit);
      var len := TruncMb(w, (limit - base) / NCORES) % 0x1_0000_0000;
      var fl, nx, ln := FillHeads(w, base, len);
      this.w, memheap, maxaddr := w, base, limit;
      freelist, next, length := fl, nx, ln;
      h := Initial(PerCore(base, len, NCORES));
      if len > 0 {
        FilledSpells(fl, nx, ln, base, len);
        SharesWithin(base, len, limit);
      }
    }

    method SetNextCell(n: nat, prev: Option<nat>, x: nat)
      requires n < |freelist|
      modifies this
      ensures h == old(h) && length == old(length)
      ensures |freelist| == |old(freelist)|
      ensures freelist == old(freelist)[n := old(freelist)[n].(head := freelist[n].head)]
      ensures Cells(freelist[n].head, next, length) == SetNext(old(Cells(freelist[n].head, next, length)), prev, x)
    {
      match prev
      case None => freelist := freelist[n := freelist[n].(head := x)];
      case Some(p) => next := next[p := x];
    }

    /** getmem: first fit on the core's own list; a size whose rounding wraps to zero takes nothing off it. */
    method GetMem(cpuid: nat, nbytes: nat) returns (r: Option<nat>)
      requires Valid() && cpuid < |freelist| && nbytes < Pow2(w)
      modifies this
      ensures Valid()
      ensures nbytes == 0 ==> r == None && h == old(h)
      ensures nbytes > 0 ==> (r, h) == Get(old(h), cpuid, RoundMb(w, nbytes))
      ensures nbytes + 7 >= Pow2(w) ==> h == old(h)
    {
      hide RoundMb;
      hide HeapInv;
      hide Take;
      hide Ordered;
      hide Pow2;
      if nbytes == 0 {
        return None;
      }
      Rounded(w, nbytes);
      var n := RoundMb(w, nbytes);
      ghost var l := h.lists[cpuid];
      ghost var i := 0;
      ListRises(h, cpuid);
      if n > 0 { GetKeeps(h, cpuid, n); } else { GetNothing(h, cpuid); }
      assert SpellsOne(freelist, next, length, h, cpuid);
      var prev, curr := None, freelist[cpuid].head;
      while curr != 0
        invariant i <= |l| && curr == StartAt(l, i) && prev == PrevAt(l, i)
        invariant forall j :: 0 <= j < i ==> l[j].len < n
        decreases |l| - i
      {
        assert CellOk(Cells(freelist[cpuid].head, next, length), l, i);
        if length[curr] >= n {
          r := Carve(cpuid, n, prev, curr, i);
          return;
        }
        prev, curr, i := Some(curr), next[curr], i + 1;
      }
      TakeNone(l, n);
      return None;
    }

    /** The two ways out of the loop of getmem: unlink the block, or leave its tail in its place. */
    method Carve(cpuid: nat, n: nat, prev: Option<nat>, curr: nat, ghost i: nat) returns (r: Option<nat>)
      requires Valid() && cpuid < |freelist| && n % 8 == 0
      requires i < |h.lists[cpuid]| && curr == h.lists[cpuid][i].start && prev == PrevAt(h.lists[cpuid], i)
      requires h.lists[cpuid][i].len >= n && forall j :: 0 <= j < i ==> h.lists[cpuid][j].len < n
      requires curr in length && length[curr] == h.lists[cpuid][i].len && curr in next
      requires n == 0 ==> curr == freelist[cpuid].head && length[curr] > 0
      modifies this
      ensures Valid()
      ensures n > 0 ==> (r, h) == Get(old(h), cpuid, n)
      ensures n == 0 ==> r == Some(curr) && h == old(h)
    {
      hide HeapInv;
      hide Get;
      hide SpellsOne;
      ghost var h0, fl0, nx0, ln0 := h, freelist, next, length;
      ghost var m0 := Cells(freelist[cpuid].head, next, length);
      if n > 0 { CarveSpells(freelist, next, length, h, cpuid, n, i); }
      if length[curr] == n {
        SetNextCell(cpuid, prev, next[curr]);
      } else {
        var leftover := curr + n;
        var after, len := next[curr], length[curr];
        SetNextCell(cpuid, prev, leftover);
        next := next[leftover := after];
        length := length[leftover := len - n];
      }
      freelist := freelist[cpuid := freelist[cpuid].(length := freelist[cpuid].length - n)];
      ghost var m1 := Cells(freelist[cpuid].head, next, length);
      if n > 0 {
        assert m1 == CutCells(m0, prev, curr, n);
        assert freelist == fl0[cpuid := MemHead(m1.head, fl0[cpuid].length - n, fl0[cpuid].base, fl0[cpuid].bound)];
        h := Get(h0, cpuid, n).1;
      } else {
        assert i == 0;
        assert next == nx0 && length == ln0 && freelist == fl0;
      }
      return Some(curr);
    }

    /**
      freemem: a range goes back to the list of the region it starts in, unless the test on its two
      neighbours refuses it.  In words that test is not always right: a range whose end wraps may
      be accepted although it overlaps, and is then linked in as the code does it.
    */
    method FreeMem(memptr: nat, nbytes: nat) returns (ok: bool)
      requires Valid() && memptr < Pow2(w) && nbytes < Pow2(w)
      requires memptr + RoundMb(w, nbytes) == Pow2(w) ==> Below(ListOf(h, memptr), memptr) < |ListOf(h, memptr)|
      requires nbytes != 0 && memheap <= memptr <= maxaddr ==> RegionOf(h.regions, memptr) < |h.regions|
      modifies this
      ensures nbytes == 0 || memptr < memheap || memptr > maxaddr ==> !ok
      ensures nbytes != 0 && memheap <= memptr <= maxaddr ==>
                (ok <==> !RefusedIn(Pow2(w), ListOf(old(h), memptr), memptr, RoundMb(w, nbytes)))
      ensures !ok ==> Valid() && h == old(h) && freelist == old(freelist) && next == old(next) && length == old(length)
      ensures ok ==> RegionOf(old(h).regions, memptr) < |old(freelist)|
      ensures ok ==> Relinked(Pow2(w), old(freelist), old(next), old(length), RegionOf(old(h).regions, memptr),
                              ListOf(old(h), memptr), memptr, RoundMb(w, nbytes), freelist, next, length)
      ensures ok && Plain(memptr, RoundMb(w, nbytes)) ==>
                Spells(freelist, next, length, h) && (true, h) == Free(old(h), memptr, RoundMb(w, nbytes))
      ensures ok && !Plain(memptr, RoundMb(w, nbytes)) ==> h == old(h)
      ensures Block(memptr, RoundMb(w, nbytes)) in old(h).alloc && nbytes != 0 ==> ok && Valid()
    {
      hide RoundMb;
      hide HeapInv;
      hide Ordered;
      hide Rising;
      hide Pow2;
      hide Relinked;
      AllocPlace(h, Block(memptr, RoundMb(w, nbytes)), memheap, maxaddr);
      if nbytes == 0 || memptr < memheap || memptr > maxaddr {
        return false;
      }
      Rounded(w, nbytes);
      var size := RoundMb(w, nbytes);
      var n := HomeOf(memptr);
      ghost var k;
      var prev, nxt;
      prev, nxt, k := Walk(n, memptr);
      Neighbours(freelist, next, length, h, n, memptr, Pow2(w));
      FreeTest(h, memptr, size, Pow2(w));
      var top := if prev.None? then 0 else (prev.value + length[prev.value]) % Pow2(w);
      if top > memptr || (nxt != 0 && (memptr + size) % Pow2(w) > nxt) {
        return false;
      }
      Release(n, prev, nxt, memptr, size, k);
      return true;
    }

    /** The loop of freemem over the regions. */
    method HomeOf(memptr: nat) returns (n: nat)
      requires Valid()
      ensures n == RegionOf(h.regions, memptr)
    {
      hide HeapInv;
      hide Linked;
      n := 0;
      while n < |freelist| && !(memptr >= freelist[n].base && memptr < freelist[n].base + freelist[n].bound)
        invariant n <= |freelist| && forall d :: 0 <= d < n ==> !h.regions[d].Has(memptr)
      {
        assert SpellsOne(freelist, next, length, h, n);
        n := n + 1;
      }
      if n < |freelist| { assert SpellsOne(freelist, next, length, h, n); }
      RegionOfIs(h.regions, memptr, n);
    }

    /** The loop of freemem along a list, to the blocks on either side of an address. */
    method Walk(n: nat, memptr: nat) returns (prev: Option<nat>, nxt: nat, ghost k: nat)
      requires Valid() && n < |freelist|
      ensures k == Below(h.lists[n], memptr) && prev == PrevAt(h.lists[n], k) && nxt == StartAt(h.lists[n], k)
      ensures nxt == 0 <==> k == |h.lists[n]|
    {
      hide HeapInv;
      hide Ordered;
      ghost var l := h.lists[n];
      k := 0;
      ListRises(h, n);
      assert SpellsOne(freelist, next, length, h, n);
      prev, nxt := None, freelist[n].head;
      while nxt != 0 && nxt < memptr
        invariant k <= |l| && nxt == StartAt(l, k) && prev == PrevAt(l, k)
        invariant forall j :: 0 <= j < k ==> l[j].start < memptr
        decreases |l| - k
      {
        assert CellOk(Cells(freelist[n].head, next, length), l, k);
        prev, nxt, k := Some(nxt), next[nxt], k + 1;
      }
      WalkEnds(l, memptr, k, nxt);
    }

    /** The range is not empty and its end fits in a word. */
    predicate Plain(s: nat, size: nat) {
      0 < size && s + size < Pow2(w)
    }

    /** The relinking half of freemem: on a range clear of its neighbours it spells the list with the range put back. */
    method Release(n: nat, prev: Option<nat>, nxt: nat, block: nat, size: nat, ghost k: nat)
      requires Valid() && n < |freelist| && size < Pow2(w) && (block + size == Pow2(w) ==> nxt != 0)
      requires h.regions[n].Has(block) && RegionOf(h.regions, block) == n
      requires k == Below(h.lists[n], block) && prev == PrevAt(h.lists[n], k) && nxt == StartAt(h.lists[n], k)
      requires k > 0 ==> h.lists[n][k - 1].End() <= block
      requires Plain(block, size) ==> !Clashes(h.lists[n], block, size)
      modifies this
      ensures Relinked(Pow2(w), old(freelist), old(next), old(length), n, old(h).lists[n], block, size,
                       freelist, next, length)
      ensures Plain(block, size) ==> Spells(freelist, next, length, h) && (true, h) == Free(old(h), block, size)
      ensures !Plain(block, size) ==> h == old(h)
      ensures Block(block, size) in old(h).alloc && Plain(block, size) ==> Valid()
    {
      hide HeapInv;
      hide Spells;
      hide Free;
      hide Clashes;
      hide Linked;
      hide Ordered;
      hide Rising;
      hide JoinDown;
      hide JoinUp;
      hide Pow2;
      ghost var h0, fl0, nx0, ln0 := h, freelist, next, length;
      Neighbours(freelist, next, length, h, n, block, Pow2(w));
      Relink(n, prev, nxt, block, size);
      assert Relinked(Pow2(w), fl0, nx0, ln0, n, h0.lists[n], block, size, freelist, next, length);
      if Plain(block, size) {
        RelinkedSpells(fl0, nx0, ln0, h0, n, block, size, Pow2(w));
        h := Free(h0, block, size).1;
        if Block(block, size) in h0.alloc { FreeKeeps(h0, Block(block, size)); }
      }
    }

    method Relink(n: nat, prev: Option<nat>, nxt: nat, block: nat, size: nat)
      requires n < |freelist| && 0 < block < Pow2(w) && size < Pow2(w) && (block + size == Pow2(w) ==> nxt != 0)
      requires prev.Some? ==> prev.value in length && prev.value + length[prev.value] <= block && prev.value < block
      requires nxt != 0 ==> nxt in next && nxt in length
      modifies this
      ensures h == old(h) && |freelist| == |old(freelist)|
      ensures var f := old(freelist)[n];
              freelist == old(freelist)[n := MemHead(freelist[n].head, (f.length + size) % Pow2(w), f.base, f.bound)]
      ensures Cells(freelist[n].head, next, length)
              == JoinBoth(Pow2(w), old(Cells(freelist[n].head, next, length)), prev, nxt, block, size)
    {
      hide Pow2;
      hide JoinUp;
      freelist := freelist[n := freelist[n].(length := (freelist[n].length + size) % Pow2(w))];
      JoinDownEnd(Pow2(w), Cells(freelist[n].head, next, length), prev, nxt, block, size);
      var blk := LinkBelow(n, prev, nxt, block, size);
      LinkAbove(n, blk, nxt);
    }

    /** The freed range joins the block below it, or becomes a block of its own. */
    method LinkBelow(n: nat, prev: Option<nat>, nxt: nat, block: nat, size: nat) returns (blk: nat)
      requires n < |freelist| && (prev.Some? ==> prev.value in length)
      modifies this
      ensures h == old(h) && |freelist| == |old(freelist)|
      ensures freelist == old(freelist)[n := old(freelist)[n].(head := freelist[n].head)]
      ensures var m := old(Cells(freelist[n].head, next, length));
              && Cells(freelist[n].head, next, length) == JoinDown(Pow2(w), m, prev, nxt, block, size)
              && blk == if TouchesPrev(Pow2(w), m, prev, block) then prev.value else block
    {
      hide Pow2;
      if prev.Some? && (prev.value + length[prev.value]) % Pow2(w) == block {
        length := length[prev.value := (length[prev.value] + size) % Pow2(w)];
        blk := prev.value;
      } else {
        next := next[block := nxt];
        length := length[block := size];
        SetNextCell(n, prev, block);
        blk := block;
      }
    }

    /** That block swallows the one above if the two touch. */
    method LinkAbove(n: nat, blk: nat, nxt: nat)
      requires n < |freelist| && blk in length
      requires (blk + length[blk]) % Pow2(w) == nxt ==> nxt in length && nxt in next
      modifies this
      ensures h == old(h) && freelist == old(freelist)
      ensures Cells(freelist[n].head, next, length)
              == JoinUp(Pow2(w), old(Cells(freelist[n].head, next, length)), blk, nxt)
    {
      hide Pow2;
      if (blk + length[blk]) % Pow2(w) == nxt {
        length := length[blk := (length[blk] + length[nxt]) % Pow2(w)];
        next := next[blk := next[nxt]];
      }
    }
  }

  lemma {:induction false} RegionOfIs(rs: seq<Region>, s: nat, n: nat)
    requires n <= |rs| && (forall d :: 0 <= d < n ==> !rs[d].Has(s)) && (n < |rs| ==> rs[n].Has(s))
    ensures RegionOf(rs, s) == n
  {
    if n > 0 {
      assert forall d :: 1 <= d < |rs| ==> rs[d] == rs[1..][d - 1];
      RegionOfIs(rs[1..], s, n - 1);
    }
  }

  /** The walk of freemem stops at the first block that does not start below s. */
  lemma WalkEnds(l: seq<Block>, s: nat, k: nat, nxt: nat)
    requires Ordered(l) && Rising(l) && k <= |l| && nxt == StartAt(l, k)
    requires (forall j :: 0 <= j < k ==> l[j].start < s) && (nxt == 0 || nxt >= s)
    ensures Below(l, s) == k && (nxt == 0 <==> k == |l|)
  {
    BelowIs(l, s, k);
  }

  lemma PrevCell(m: Cells, l: seq<Block>, k: nat)
    requires Linked(m, l) && k <= |l|
    ensures k > 0 ==> l[k - 1].start in m.length && m.length[l[k - 1].start] == l[k - 1].len
  {
    if k > 0 { assert CellOk(m, l, k - 1); }
  }

  /** The freed block after joining with the one below it, if they touch. */
  ghost function Lengthened(l: seq<Block>, s: nat, n: nat): Block {
    if TouchBelow(l, s) != [] then Block(TouchBelow(l, s)[0].start, TouchBelow(l, s)[0].len + n) else Block(s, n)
  }

  /** The list when freemem has joined the block downwards and not yet upwards. */
  ghost function Half(l: seq<Block>, s: nat, n: nat): seq<Block> {
    Lower(l, s) + [Lengthened(l, s, n)] + l[Below(l, s)..]
  }

  function LengthOf(m: Cells, a: nat): nat {
    if a in m.length then m.length[a] else 0
  }

  function NextOf(m: Cells, a: nat): nat {
    if a in m.next then m.next[a] else 0
  }

  /** The relinking below is that of freemem on words below w. */
  predicate TouchesPrev(w: nat, m: Cells, prev: Option<nat>, block: nat)
    requires w > 0
  {
    prev.Some? && (prev.value + LengthOf(m, prev.value)) % w == block
  }

  /** The first half of the relinking: lengthen the block below, or link in a new one. */
  function JoinDown(w: nat, m: Cells, prev: Option<nat>, nxt: nat, block: nat, size: nat): Cells
    requires w > 0
  {
    if TouchesPrev(w, m, prev, block)
    then m.(length := m.length[prev.value := (LengthOf(m, prev.value) + size) % w])
    else SetNext(m.(next := m.next[block := nxt], length := m.length[block := size]), prev, block)
  }

  /** The second half: swallow the block above if it touches. */
  function JoinUp(w: nat, m: Cells, blk: nat, nxt: nat): Cells
    requires w > 0
  {
    if (blk + LengthOf(m, blk)) % w == nxt
    then m.(length := m.length[blk := (LengthOf(m, blk) + LengthOf(m, nxt)) % w], next := m.next[blk := NextOf(m, nxt)])
    else m
  }

  function JoinBoth(w: nat, m: Cells, prev: Option<nat>, nxt: nat, block: nat, size: nat): Cells
    requires w > 0
  {
    var blk := if TouchesPrev(w, m, prev, block) then prev.value else block;
    JoinUp(w, JoinDown(w, m, prev, nxt, block, size), blk, nxt)
  }

  ghost function ListOf(h: Heap, s: nat): seq<Block> {
    var n := RegionOf(h.regions, s);
    if n < |h.lists| then h.lists[n] else []
  }

  /** Heads and headers after freemem has linked the range s, size into the list l of head n. */
  ghost predicate Relinked(w: nat, fl: seq<MemHead>, next: map<nat, nat>, length: map<nat, nat>, n: nat, l: seq<Block>,
                           s: nat, size: nat, fl': seq<MemHead>, next': map<nat, nat>, length': map<nat, nat>)
    requires w > 0 && n < |fl|
  {
    var k := Below(l, s);
    var m2 := JoinBoth(w, Cells(fl[n].head, next, length), PrevAt(l, k), StartAt(l, k), s, size);
    && next' == m2.next && length' == m2.length
    && fl' == fl[n := MemHead(m2.head, (fl[n].length + size) % w, fl[n].base, fl[n].bound)]
  }

  lemma JoinsInside(w: nat, r: Region, m: Cells, prev: Option<nat>, nxt: nat, s: nat, size: nat)
    requires w > 0 && r.Has(s) && (prev.Some? ==> r.Has(prev.value))
    ensures var m2 := JoinBoth(w, m, prev, nxt, s, size);
            SameOutside(r, m.next, m2.next) && SameOutside(r, m.length, m2.length)
  {
  }

  /** Wherever the range is linked in, the block it is then part of ends where the range does. */
  lemma JoinDownEnd(w: nat, m: Cells, prev: Option<nat>, nxt: nat, block: nat, size: nat)
    requires 0 < block < w && size < w
    requires prev.Some? ==> prev.value in m.length && prev.value + m.length[prev.value] <= block && prev.value < block
    ensures var blk := if TouchesPrev(w, m, prev, block) then prev.value else block;
            var m1 := JoinDown(w, m, prev, nxt, block, size);
            && blk in m1.length && (blk + m1.length[blk]) % w == (block + size) % w
    ensures block + size != w ==> (block + size) % w != 0
  {
    if block + size < w {
      DivModUnique(block + size, w, 0, block + size);
    } else {
      DivModUnique(block + size, w, 1, block + size - w);
    }
    if prev.Some? {
      var len := m.length[prev.value];
      DivModUnique(prev.value + len, w, 0, prev.value + len);
      if len + size < w {
        DivModUnique(len + size, w, 0, len + size);
      } else {
        DivModUnique(len + size, w, 1, len + size - w);
        if TouchesPrev(w, m, prev, block) {
          DivModUnique(prev.value + len + size - w, w, 0, prev.value + len + size - w);
        }
      }
    }
  }

  /** No block of the list nor the range reaches the end of the words. */
  ghost predicate BelowWord(w: nat, l: seq<Block>, s: nat, n: nat) {
    s + n < w && forall i :: 0 <= i < |l| ==> l[i].End() < w
  }

  /** Relinking as freemem does it turns the headers of a list into those of the list it should leave. */
  lemma JoinBothLinked(w: nat, m: Cells, l: seq<Block>, s: nat, n: nat)
    requires Linked(m, l) && Ordered(l) && Rising(l) && n > 0 && s > 0 && !Clashes(l, s, n) && BelowWord(w, l, s, n)
    ensures var k := Below(l, s);
            && Put(l, s, n).Some?
            && Linked(JoinBoth(w, m, PrevAt(l, k), StartAt(l, k), s, n), Put(l, s, n).value)
  {
    hide Linked;
    hide Ordered;
    hide Rising;
    hide Clashes;
    hide Put;
    hide Half;
    hide JoinDown;
    hide JoinUp;
    hide Lengthened;
    var k := Below(l, s);
    var b, m1 := Lengthened(l, s, n), JoinDown(w, m, PrevAt(l, k), StartAt(l, k), s, n);
    JoinDownLinked(w, m, l, s, n);
    HalfJoins(m, m1, l, s, n);
    JoinUpIs(w, m1, b, StartAt(l, k));
  }

  lemma JoinUpIs(w: nat, m: Cells, b: Block, nxt: nat)
    requires b.start in m.length && m.length[b.start] == b.len && b.End() < w
    requires b.End() == nxt ==> nxt in m.length && nxt in m.next && b.len + m.length[nxt] < w
    ensures JoinUp(w, m, b.start, nxt)
            == if b.End() != nxt then m
               else m.(length := m.length[b.start := b.len + m.length[nxt]], next := m.next[b.start := m.next[nxt]])
  {
    DivModUnique(b.End(), w, 0, b.End());
    if b.End() == nxt { DivModUnique(b.len + m.length[nxt], w, 0, b.len + m.length[nxt]); }
  }

  /** The relinked headers of a range that is clear of its neighbours spell what Free leaves. */
  lemma RelinkedSpells(fl: seq<MemHead>, next: map<nat, nat>, length: map<nat, nat>, h: Heap, n: nat, s: nat, size: nat,
                       w: nat)
    requires HeapInv(h) && Spells(fl, next, length, h) && n < |fl| && 0 < size && s + size < w
    requires h.regions[n].Has(s) && RegionOf(h.regions, s) == n && !Clashes(h.lists[n], s, size)
    requires Within(h.regions, 0, w - 1)
    ensures |fl| == |h.regions| == |h.lists| == |h.lens| && Free(h, s, size).0
    ensures forall fl', next', length' :: Relinked(w, fl, next, length, n, h.lists[n], s, size, fl', next', length') ==>
              Spells(fl', next', length', Free(h, s, size).1)
  {
    hide HeapInv;
    hide Linked;
    hide Put;
    hide Ordered;
    hide Rising;
    hide Clashes;
    hide SameOutside;
    hide JoinBoth;
    assert SpellsOne(fl, next, length, h, n);
    var l, m := h.lists[n], Cells(fl[n].head, next, length);
    var k := Below(l, s);
    ListRises(h, n);
    ListFits(h, n, s, size, w);
    JoinBothLinked(w, m, l, s, size);
    JoinsInside(w, h.regions[n], m, PrevAt(l, k), StartAt(l, k), s, size);
    var m2 := JoinBoth(w, m, PrevAt(l, k), StartAt(l, k), s, size);
    var fl' := fl[n := MemHead(m2.head, fl[n].length + size, fl[n].base, fl[n].bound)];
    DivModUnique(fl[n].length + size, w, 0, fl[n].length + size);
    assert m2 == Cells(m2.head, m2.next, m2.length);
    assert SpellsOne(fl', m2.next, m2.length, Free(h, s, size).1, n);
    SpellsAfter(fl, next, length, h, n, fl', m2.next, m2.length, Free(h, s, size).1);
  }

  lemma ListFits(h: Heap, n: nat, s: nat, size: nat, w: nat)
    requires HeapInv(h) && n < |h.regions| && 0 < size && s + size < w && Within(h.regions, 0, w - 1)
    requires !Clashes(h.lists[n], s, size)
    ensures BelowWord(w, h.lists[n], s, size) && 0 <= h.lens[n] && h.lens[n] + size < w
  {
    assert ListOk(h, n);
    forall i | 0 <= i < |h.lists[n]| ensures h.lists[n][i].End() < w { FreeInside(h, n, i); }
    RoomFor(h.lists[n], s, size, w);
  }

  /** The headers of the two neighbours of an address, and that they lie below w. */
  lemma Neighbours(fl: seq<MemHead>, next: map<nat, nat>, length: map<nat, nat>, h: Heap, n: nat, s: nat, w: nat)
    requires HeapInv(h) && Spells(fl, next, length, h) && n < |fl| && w > 0 && Within(h.regions, 0, w - 1)
    ensures |fl| == |h.regions| == |h.lists| == |h.lens| && 0 < h.regions[n].base
    ensures var l, k := h.lists[n], Below(h.lists[n], s);
            && (k > 0 ==>
                  && l[k - 1].start in length && length[l[k - 1].start] == l[k - 1].len && l[k - 1].start < s
                  && (l[k - 1].start + length[l[k - 1].start]) % w == l[k - 1].End())
            && (k < |l| ==> l[k].start in next && l[k].start in length && l[k].start != 0)
  {
    var l, k := h.lists[n], Below(h.lists[n], s);
    assert SpellsOne(fl, next, length, h, n);
    ListRises(h, n);
    BelowSplits(l, s);
    if k > 0 {
      assert CellOk(Cells(fl[n].head, next, length), l, k - 1);
      FreeInside(h, n, k - 1);
      DivModUnique(l[k - 1].End(), w, 0, l[k - 1].End());
    }
    if k < |l| { assert CellOk(Cells(fl[n].head, next, length), l, k); }
  }

  lemma AllocPlace(h: Heap, b: Block, lo: nat, hi: nat)
    requires HeapInv(h) && Within(h.regions, lo, hi)
    ensures b in h.alloc ==> 0 < b.len && lo <= b.start && b.End() <= hi
  {
    if b in h.alloc { AllocatedRegion(h, b); }
  }

  /** The test of freemem never refuses an allocated block, and on a range that does not wrap it is exact. */
  lemma FreeTest(h: Heap, s: nat, n: nat, w: nat)
    requires HeapInv(h) && n < w && s < w && RegionOf(h.regions, s) < |h.regions| && Within(h.regions, 0, w - 1)
    ensures |h.lists| == |h.regions|
    ensures var l := h.lists[RegionOf(h.regions, s)];
            && (0 < n && s + n < w ==> (RefusedIn(w, l, s, n) <==> Clashes(l, s, n)))
            && (Block(s, n) in h.alloc ==> 0 < n && s + n < w && !RefusedIn(w, l, s, n))
  {
    if n > 0 { RefusalInList(h, w, s, n); }
    if Block(s, n) in h.alloc { AllocatedRegion(h, Block(s, n)); }
  }

  /** Freeing nothing at s is accepted unless s lies inside the free block below. */
  lemma NothingRefused(w: nat, l: seq<Block>, s: nat)
    requires Ordered(l) && BelowWord(w, l, s, 0)
    ensures RefusedIn(w, l, s, 0) <==> Below(l, s) > 0 && l[Below(l, s) - 1].End() > s
  {
    BelowSplits(l, s);
    SmallMod(s, w);
  }

  /** Where the walk along a list stands after i steps. */
  function Hop(m: Cells, i: nat): nat {
    if i == 0 then m.head else NextOf(m, Hop(m, i - 1))
  }

  lemma {:induction false} HopAt(m: Cells, l: seq<Block>, k: nat, s: nat, i: nat)
    requires k <= |l| && m.head == (if k > 0 then l[0].start else s) && NextOf(m, s) == s
    requires forall j :: 0 <= j < k ==> NextOf(m, l[j].start) == if j + 1 < k then l[j + 1].start else s
    ensures Hop(m, i) == if i < k then l[i].start else s
  {
    if i > 0 { HopAt(m, l, k, s, i - 1); }
  }

  /**
    A range that starts where a free block does and is empty, or wraps, is accepted and makes that
    block's header point at itself: the walk along the list comes there and never goes on.
  */
  lemma RingAtStart(w: nat, m: Cells, l: seq<Block>, s: nat, n: nat)
    requires Linked(m, l) && Ordered(l) && Rising(l) && BelowWord(w, l, s, 0) && s > 0 && n < w
    requires StartAt(l, Below(l, s)) == s && (n == 0 || s + n >= w)
    ensures var k := Below(l, s); var m' := JoinBoth(w, m, PrevAt(l, k), s, s, n);
            && !RefusedIn(w, l, s, n) && LengthOf(m', s) == n
            && (forall i :: 0 <= i < k ==> LengthOf(m', l[i].start) == l[i].len)
            && (forall i: nat :: Hop(m', i) == if i < k then l[i].start else s)
  {
    hide Rising;
    var k := Below(l, s);
    BelowSplits(l, s);
    RingCells(w, m, l, s, n);
    var m' := JoinBoth(w, m, PrevAt(l, k), s, s, n);
    forall i: nat ensures Hop(m', i) == if i < k then l[i].start else s { HopAt(m', l, k, s, i); }
    if n == 0 { SmallMod(s, w); } else { DivModUnique(s + n, w, 1, s + n - w); }
  }

  lemma RingCells(w: nat, m: Cells, l: seq<Block>, s: nat, n: nat)
    requires Linked(m, l) && Ordered(l) && BelowWord(w, l, s, 0) && s > 0 && n < w
    requires StartAt(l, Below(l, s)) == s && (n == 0 || s + n >= w)
    ensures var k := Below(l, s); var m' := JoinBoth(w, m, PrevAt(l, k), s, s, n);
            && m'.head == (if k > 0 then l[0].start else s) && NextOf(m', s) == s && LengthOf(m', s) == n
            && (forall j :: 0 <= j < k ==> LengthOf(m', l[j].start) == l[j].len)
            && (forall j :: 0 <= j < k ==> NextOf(m', l[j].start) == if j + 1 < k then l[j + 1].start else s)
  {
    hide JoinBoth;
    var k := Below(l, s);
    BelowSplits(l, s);
    PrevCell(m, l, k);
    if k > 0 { SmallMod(l[k - 1].End(), w); }
    RingIs(w, m, PrevAt(l, k), s, n);
    var m' := JoinBoth(w, m, PrevAt(l, k), s, s, n);
    forall j | 0 <= j < k
      ensures LengthOf(m', l[j].start) == l[j].len
      ensures NextOf(m', l[j].start) == if j + 1 < k then l[j + 1].start else s
    {
      assert CellOk(m, l, j);
      assert j + 1 < k ==> l[j].End() < l[k - 1].start;
    }
  }

  lemma RingIs(w: nat, m: Cells, prev: Option<nat>, s: nat, n: nat)
    requires 0 < s < w && n < w && (n == 0 || s + n >= w)
    requires prev.Some? ==> prev.value != s && !TouchesPrev(w, m, prev, s)
    ensures JoinBoth(w, m, prev, s, s, n) == SetNext(m.(next := m.next[s := s], length := m.length[s := n]), prev, s)
  {
    var m1 := SetNext(m.(next := m.next[s := s], length := m.length[s := n]), prev, s);
    assert JoinDown(w, m, prev, s, s, n) == m1;
    if n == 0 {
      SmallMod(s, w);
      SmallMod(0, w);
      assert m1.length[s := 0] == m1.length && m1.next[s := s] == m1.next;
    } else {
      DivModUnique(s + n, w, 1, s + n - w);
    }
  }

  /** At the start of a free block it makes an empty header of that block's, at which every longer search is caught. */
  lemma NothingAtStart(w: nat, m: Cells, l: seq<Block>, s: nat, size: nat, i: nat)
    requires Linked(m, l) && Ordered(l) && Rising(l) && BelowWord(w, l, s, 0) && s > 0
    requires StartAt(l, Below(l, s)) == s
    requires size > 0 && forall j :: 0 <= j < Below(l, s) ==> l[j].len < size
    ensures var k := Below(l, s); var m' := JoinBoth(w, m, PrevAt(l, k), s, s, 0);
            && NextOf(m', s) == s && LengthOf(m', s) == 0
            && Hop(m', i) != 0 && LengthOf(m', Hop(m', i)) < size
  {
    hide JoinBoth;
    var k := Below(l, s);
    RingAtStart(w, m, l, s, 0);
    RingCells(w, m, l, s, 0);
    var m' := JoinBoth(w, m, PrevAt(l, k), s, s, 0);
    assert Hop(m', i) == if i < k then l[i].start else s;
  }

  /**
    So once freemem has been called on the start of a free block with a length that rounds to
    nothing, a getmem for more than the blocks below it hold walks on for ever: after any number of
    steps it stands on a header that is too short, and never on NULL.
  */
  lemma NeverEnds(w: nat, fl: seq<MemHead>, next: map<nat, nat>, length: map<nat, nat>, h: Heap, n: nat, s: nat,
                  fl': seq<MemHead>, next': map<nat, nat>, length': map<nat, nat>, size: nat, i: nat)
    requires HeapInv(h) && Spells(fl, next, length, h) && n < |fl| && w > 0 && Within(h.regions, 0, w - 1)
    requires s > 0 && StartAt(h.lists[n], Below(h.lists[n], s)) == s
    requires Relinked(w, fl, next, length, n, h.lists[n], s, 0, fl', next', length')
    requires size > 0 && forall j :: 0 <= j < Below(h.lists[n], s) ==> h.lists[n][j].len < size
    ensures |fl'| == |fl|
    ensures var m := Cells(fl'[n].head, next', length'); Hop(m, i) != 0 && LengthOf(m, Hop(m, i)) < size
  {
    hide HeapInv;
    hide JoinBoth;
    hide Linked;
    hide Hop;
    var l := h.lists[n];
    assert SpellsOne(fl, next, length, h, n);
    ListRises(h, n);
    forall j | 0 <= j < |l| ensures l[j].End() < w { FreeInside(h, n, j); }
    BelowSplits(l, s);
    NothingAtStart(w, Cells(fl[n].head, next, length), l, s, size, i);
    var m2 := JoinBoth(w, Cells(fl[n].head, next, length), PrevAt(l, Below(l, s)), s, s, 0);
    assert m2 == Cells(fl'[n].head, next', length');
  }

  /** The headers after freemem has accepted a range whose end wraps. */
  lemma WrappedSpelled(w: nat, m: Cells, l: seq<Block>, s: nat, n: nat)
    requires Linked(m, l) && Ordered(l) && Rising(l) && BelowWord(w, l, s, 0) && 0 < n < w && w <= s + n && s > 0
    requires !RefusedIn(w, l, s, n) && StartAt(l, Below(l, s)) != s && (s + n == w ==> Below(l, s) < |l|)
    ensures var k := Below(l, s); Linked(JoinBoth(w, m, PrevAt(l, k), StartAt(l, k), s, n), Wrapped(w, l, s, n))
  {
    hide Linked;
    hide Rising;
    hide Ordered;
    hide JoinDown;
    hide JoinUp;
    hide Wrapped;
    var k := Below(l, s);
    BelowSplits(l, s);
    PrevCell(m, l, k);
    DivModUnique(s + n, w, 1, s + n - w);
    JoinDownEnd(w, m, PrevAt(l, k), StartAt(l, k), s, n);
    var blk := if TouchesPrev(w, m, PrevAt(l, k), s) then PrevAt(l, k).value else s;
    StartAbove(l, k, s);
    NoJoinUp(w, JoinDown(w, m, PrevAt(l, k), StartAt(l, k), s, n), blk, StartAt(l, k));
    WrappedDown(w, m, l, s, n);
  }

  lemma WrappedDown(w: nat, m: Cells, l: seq<Block>, s: nat, n: nat)
    requires Linked(m, l) && Ordered(l) && Rising(l) && BelowWord(w, l, s, 0) && StartAt(l, Below(l, s)) != s
    ensures var k := Below(l, s); Linked(JoinDown(w, m, PrevAt(l, k), StartAt(l, k), s, n), Wrapped(w, l, s, n))
  {
    hide Linked;
    hide Rising;
    hide Ordered;
    hide SetNext;
    var k := Below(l, s);
    PrevCell(m, l, k);
    StartAbove(l, k, s);
    if k > 0 { SmallMod(l[k - 1].End(), w); }
    if k > 0 && l[k - 1].End() == s {
      Resize(m, l, k - 1, (l[k - 1].len + n) % w);
    } else {
      Insert(m, l, k, Block(s, n));
    }
  }

  lemma StartAbove(l: seq<Block>, k: nat, s: nat)
    requires Ordered(l) && Rising(l) && k == Below(l, s) && StartAt(l, k) != s
    ensures StartAt(l, k) == 0 || StartAt(l, k) > s
    ensures forall i :: 0 <= i < |l| ==> l[i].start != s
  {
    BelowSplits(l, s);
  }

  lemma NoJoinUp(w: nat, m: Cells, blk: nat, nxt: nat)
    requires w > 0 && (blk + LengthOf(m, blk)) % w != nxt
    ensures JoinUp(w, m, blk, nxt) == m
  {
  }

  /** Right behind a free block it changes nothing. */
  lemma NothingBehind(w: nat, m: Cells, l: seq<Block>, s: nat)
    requires Linked(m, l) && Ordered(l) && BelowWord(w, l, s, 0)
    requires Below(l, s) > 0 && l[Below(l, s) - 1].End() == s && StartAt(l, Below(l, s)) != s
    ensures var k := Below(l, s); JoinBoth(w, m, PrevAt(l, k), StartAt(l, k), s, 0) == m
  {
    var k := Below(l, s);
    var b := l[k - 1];
    PrevCell(m, l, k);
    SmallMod(s, w);
    SmallMod(b.len, w);
    assert m.length[b.start := b.len] == m.length;
  }

  /**
    Anywhere else that it is accepted it links in an empty header, and the block that starts there
    can then no longer be freed.
  */
  lemma NothingElsewhere(w: nat, m: Cells, l: seq<Block>, s: nat, n: nat)
    requires Linked(m, l) && Ordered(l) && Rising(l) && BelowWord(w, l, s, n) && n > 0
    requires StartAt(l, Below(l, s)) != s && (Below(l, s) > 0 ==> l[Below(l, s) - 1].End() < s)
    ensures var k := Below(l, s); var l' := l[..k] + [Block(s, 0)] + l[k..];
            Linked(JoinBoth(w, m, PrevAt(l, k), StartAt(l, k), s, 0), l') && RefusedIn(w, l', s, n)
  {
    hide Linked;
    hide Rising;
    hide RefusedIn;
    hide SetNext;
    var k := Below(l, s);
    BelowSplits(l, s);
    PrevCell(m, l, k);
    if k > 0 { SmallMod(l[k - 1].End(), w); }
    SmallMod(s, w);
    Insert(m, l, k, Block(s, 0));
    InsertLength(m, l, k, s);
    EmptyBlocks(w, l, s, n);
  }

  lemma InsertLength(m: Cells, l: seq<Block>, k: nat, s: nat)
    requires k <= |l|
    ensures var m1 := m.(next := m.next[s := StartAt(l, k)], length := m.length[s := 0]);
            SetNext(m1, PrevAt(l, k), s).length == m1.length
  {
  }

  lemma EmptyBlocks(w: nat, l: seq<Block>, s: nat, n: nat)
    requires Ordered(l) && 0 < n && s + n < w
    ensures var k := Below(l, s); RefusedIn(w, l[..k] + [Block(s, 0)] + l[k..], s, n)
  {
    hide Below;
    hide Ordered;
    var k := Below(l, s);
    var l' := l[..k] + [Block(s, 0)] + l[k..];
    BelowSplits(l, s);
    forall i | 0 <= i < k ensures l'[i].start < s { assert l'[i] == l[i]; }
    assert l'[k] == Block(s, 0);
    BelowIs(l', s, k);
    SmallMod(s + n, w);
  }

  lemma NotAStart(l: seq<Block>, s: nat, n: nat)
    requires Ordered(l) && n > 0 && !Clashes(l, s, n)
    ensures forall i :: 0 <= i < |l| ==> l[i].start != s
  {
    BelowSplits(l, s);
  }

  lemma JoinDownLinked(w: nat, m: Cells, l: seq<Block>, s: nat, n: nat)
    requires Linked(m, l) && Ordered(l) && Rising(l) && n > 0 && !Clashes(l, s, n) && BelowWord(w, l, s, n)
    ensures var k := Below(l, s);
            && (TouchesPrev(w, m, PrevAt(l, k), s) <==> TouchBelow(l, s) != [])
            && Lengthened(l, s, n).start == (if TouchesPrev(w, m, PrevAt(l, k), s) then PrevAt(l, k).value else s)
            && Linked(JoinDown(w, m, PrevAt(l, k), StartAt(l, k), s, n), Half(l, s, n))
  {
    hide Linked;
    hide Ordered;
    hide Rising;
    hide Clashes;
    var k := Below(l, s);
    PrevCell(m, l, k);
    if k > 0 { DivModUnique(l[k - 1].End(), w, 0, l[k - 1].End()); }
    if TouchBelow(l, s) != [] {
      Resize(m, l, k - 1, l[k - 1].len + n);
      DivModUnique(l[k - 1].len + n, w, 0, l[k - 1].len + n);
    } else {
      NotAStart(l, s, n);
      Insert(m, l, k, Block(s, n));
    }
  }

  lemma HalfRises(l: seq<Block>, s: nat, n: nat)
    requires Ordered(l) && Rising(l) && n > 0 && s > 0 && !Clashes(l, s, n)
    ensures Rising(Half(l, s, n))
  {
    hide Rising;
    hide Ordered;
    hide Clashes;
    hide Lower;
    hide Lengthened;
    var lo, b, hi := Lower(l, s), Lengthened(l, s, n), l[Below(l, s)..];
    HalfGaps(l, s, n);
    RisingConcat(lo, [b]);
    assert (lo + [b])[|lo|] == b;
    RisingConcat(lo + [b], hi);
  }

  lemma HalfGaps(l: seq<Block>, s: nat, n: nat)
    requires Ordered(l) && Rising(l) && n > 0 && s > 0 && !Clashes(l, s, n)
    ensures var lo, b, hi := Lower(l, s), Lengthened(l, s, n), l[Below(l, s)..];
            && Rising(lo) && Rising([b]) && Rising(hi)
            && (lo != [] ==> lo[|lo| - 1].start < b.start)
            && (hi != [] ==> b.start < hi[0].start)
  {
    BelowSplits(l, s);
    var k := Below(l, s);
    RisingSlice(l, 0, |Lower(l, s)|);
    RisingSlice(l, k, |l|);
    assert l[0..|Lower(l, s)|] == Lower(l, s) && l[k..|l|] == l[k..];
  }

  lemma RisingSlice(l: seq<Block>, i: nat, j: nat)
    requires Rising(l) && i <= j <= |l|
    ensures Rising(l[i..j])
  {
    var p := l[i..j];
    assert forall k :: 0 <= k < |p| ==> p[k] == l[i + k];
  }

  lemma RisingConcat(a: seq<Block>, b: seq<Block>)
    requires Rising(a) && Rising(b)
    requires a == [] || b == [] || a[|a| - 1].start < b[0].start
    ensures Rising(a + b)
  {
    var l := a + b;
    assert forall i :: 0 <= i < |a| ==> l[i] == a[i];
    assert forall i :: |a| <= i < |l| ==> l[i] == b[i - |a|];
    if a != [] && b != [] {
      var x, y := a[|a| - 1].start, b[0].start;
      assert forall i :: 0 <= i < |a| ==> a[i].start <= x;
      assert forall i :: 0 <= i < |b| ==> y <= b[i].start;
      assert forall i :: 0 <= i < |a| ==> l[i].start <= x;
      assert forall i :: |a| <= i < |l| ==> y <= l[i].start;
    }
  }

  lemma JoinedIs(l: seq<Block>, s: nat, n: nat)
    requires Ordered(l) && Rising(l) && n > 0 && !Clashes(l, s, n)
    ensures var k, b := Below(l, s), Lengthened(l, s, n);
            && b.End() == s + n
            && (b.End() == StartAt(l, k) <==> TouchAbove(l, s, n) != [])
            && (TouchAbove(l, s, n) == [] ==> Joined(l, s, n) == b && Upper(l, s, n) == l[k..])
            && (TouchAbove(l, s, n) != [] ==>
                  k < |l| && Joined(l, s, n) == Block(b.start, b.len + l[k].len) && Upper(l, s, n) == l[k + 1..])
  {
  }

  /** Joining upwards is called for exactly when the block above touches, and completes freemem. */
  lemma HalfToPut(l: seq<Block>, s: nat, n: nat)
    requires Ordered(l) && Rising(l) && n > 0 && !Clashes(l, s, n)
    ensures var k, b, j, l1 := Below(l, s), Lengthened(l, s, n), |Lower(l, s)|, Half(l, s, n);
            && j < |l1| && l1[j] == b
            && (b.End() != StartAt(l, k) ==> Put(l, s, n) == Some(l1))
            && (b.End() == StartAt(l, k) ==>
                  && k < |l| && j + 1 < |l1| && l1[j + 1] == l[k]
                  && Put(l, s, n) == Some(l1[..j] + [Block(b.start, b.len + l[k].len)] + l1[j + 2..]))
  {
    hide Rising;
    hide Ordered;
    hide Clashes;
    hide Lower;
    hide Upper;
    hide Joined;
    hide Lengthened;
    JoinedIs(l, s, n);
    var k, j, l1 := Below(l, s), |Lower(l, s)|, Half(l, s, n);
    if TouchAbove(l, s, n) != [] {
      assert l1[j + 2..] == l[k + 1..] && l1[..j] == Lower(l, s);
    }
  }

  lemma HalfJoins(m: Cells, m1: Cells, l: seq<Block>, s: nat, n: nat)
    requires Linked(m, l) && Ordered(l) && Rising(l) && n > 0 && s > 0 && !Clashes(l, s, n)
    requires Linked(m1, Half(l, s, n))
    ensures var b, nxt := Lengthened(l, s, n), StartAt(l, Below(l, s));
            && b.End() == s + n && b.start in m1.length && m1.length[b.start] == b.len
            && (b.End() == nxt ==> Below(l, s) < |l| && nxt in m1.length && m1.length[nxt] == l[Below(l, s)].len)
            && (b.End() != nxt ==> Put(l, s, n).Some? && Linked(m1, Put(l, s, n).value))
            && (b.End() == nxt ==>
                  && nxt in m1.length && nxt in m1.next && Put(l, s, n).Some?
                  && Linked(m1.(length := m1.length[b.start := b.len + m1.length[nxt]],
                                next := m1.next[b.start := m1.next[nxt]]), Put(l, s, n).value))
  {
    hide Ordered;
    hide Rising;
    hide Clashes;
    hide Put;
    hide Half;
    var b, j, l1 := Lengthened(l, s, n), |Lower(l, s)|, Half(l, s, n);
    HalfRises(l, s, n);
    HalfToPut(l, s, n);
    assert CellOk(m1, l1, j);
    if b.End() == StartAt(l, Below(l, s)) {
      assert CellOk(m1, l1, j + 1);
      Swallow(m1, l1, j);
    }
  }

  /** What cutting n bytes off block i leaves, and why the new header lies in free memory. */
  lemma CarveFacts(h: Heap, c: nat, n: nat, i: nat)
    requires HeapInv(h) && c < |h.regions| && n > 0 && n % 8 == 0 && i < |h.lists[c]|
    requires h.lists[c][i].len >= n && forall j :: 0 <= j < i ==> h.lists[c][j].len < n
    ensures var l, g := h.lists[c], Get(h, c, n);
            var l' := if l[i].len == n then l[..i] + l[i + 1..]
                      else l[..i] + [Block(l[i].start + n, l[i].len - n)] + l[i + 1..];
            && g.0 == Some(l[i].start) && HeapInv(g.1)
            && g.1.lists == h.lists[c := l'] && g.1.lens == h.lens[c := h.lens[c] - n] && g.1.regions == h.regions
    ensures Rising(h.lists[c])
    ensures forall k :: 0 <= k < |h.lists[c]| ==>
              h.regions[c].Has(h.lists[c][k].start) && h.lists[c][k].start != h.lists[c][i].start + n
    ensures h.lists[c][i].len > n ==> h.regions[c].Has(h.lists[c][i].start + n)
  {
    hide HeapInv;
    hide Covers;
    hide Ordered;
    HeaderPlaces(h, c, n, i);
    TakeAt(h.lists[c], n, i);
    GetKeeps(h, c, n);
    var l := h.lists[c];
    assert l[..i] + [] == l[..i];
  }

  /** Relinking as getmem does it: unlink the block, or leave its tail in its place. */
  function CutCells(m: Cells, prev: Option<nat>, curr: nat, n: nat): Cells {
    if LengthOf(m, curr) <= n then SetNext(m, prev, NextOf(m, curr))
    else
      var m1 := SetNext(m, prev, curr + n);
      m1.(next := m1.next[curr + n := NextOf(m, curr)], length := m1.length[curr + n := LengthOf(m, curr) - n])
  }

  lemma CutInside(r: Region, m: Cells, prev: Option<nat>, curr: nat, n: nat)
    requires (prev.Some? ==> r.Has(prev.value)) && (LengthOf(m, curr) > n ==> r.Has(curr + n))
    ensures var m2 := CutCells(m, prev, curr, n);
            SameOutside(r, m.next, m2.next) && SameOutside(r, m.length, m2.length)
  {
  }

  lemma CutCellsLinked(m: Cells, l: seq<Block>, i: nat, n: nat)
    requires Linked(m, l) && Rising(l) && i < |l| && l[i].len >= n
    requires forall k :: 0 <= k < |l| ==> l[k].start != l[i].start + n
    ensures LengthOf(m, l[i].start) == l[i].len
    ensures Linked(CutCells(m, PrevAt(l, i), l[i].start, n),
                   if l[i].len == n then l[..i] + l[i + 1..]
                   else l[..i] + [Block(l[i].start + n, l[i].len - n)] + l[i + 1..])
  {
    hide Rising;
    assert CellOk(m, l, i);
    if l[i].len == n {
      Unlink(m, l, i);
    } else {
      Replace(m, l, i, Block(l[i].start + n, l[i].len - n));
    }
  }

  lemma CarveSpells(fl: seq<MemHead>, next: map<nat, nat>, length: map<nat, nat>, h: Heap, c: nat, n: nat, i: nat)
    requires HeapInv(h) && Spells(fl, next, length, h) && c < |fl| && n > 0 && n % 8 == 0
    requires |h.lists| == |fl| && i < |h.lists[c]|
    requires h.lists[c][i].len >= n && forall j :: 0 <= j < i ==> h.lists[c][j].len < n
    ensures |fl| == |h.lists| == |h.lens| && HeapInv(Get(h, c, n).1) && Get(h, c, n).0 == Some(h.lists[c][i].start)
    ensures Get(h, c, n).1.regions == h.regions
    ensures var m1 := CutCells(Cells(fl[c].head, next, length), PrevAt(h.lists[c], i), h.lists[c][i].start, n);
            Spells(fl[c := MemHead(m1.head, fl[c].length - n, fl[c].base, fl[c].bound)], m1.next, m1.length,
                   Get(h, c, n).1)
  {
    hide HeapInv;
    hide Get;
    hide Linked;
    hide Rising;
    hide SameOutside;
    hide CutCells;
    assert SpellsOne(fl, next, length, h, c);
    var l, m := h.lists[c], Cells(fl[c].head, next, length);
    CarveFacts(h, c, n, i);
    CutCellsLinked(m, l, i, n);
    CutInside(h.regions[c], m, PrevAt(l, i), l[i].start, n);
    var m1 := CutCells(m, PrevAt(l, i), l[i].start, n);
    var fl' := fl[c := MemHead(m1.head, fl[c].length - n, fl[c].base, fl[c].bound)];
    assert m1 == Cells(m1.head, m1.next, m1.length);
    assert SpellsOne(fl', m1.next, m1.length, Get(h, c, n).1, c);
    SpellsAfter(fl, next, length, h, c, fl', m1.next, m1.length, Get(h, c, n).1);
  }

  lemma HeaderPlaces(h: Heap, c: nat, n: nat, i: nat)
    requires HeapInv(h) && c < |h.regions| && n > 0 && i < |h.lists[c]| && h.lists[c][i].len >= n
    ensures |h.lists| == |h.regions| == |h.lens| && Rising(h.lists[c])
    ensures forall k :: 0 <= k < |h.lists[c]| ==>
              h.regions[c].Has(h.lists[c][k].start) && h.lists[c][k].start != h.lists[c][i].start + n
    ensures h.lists[c][i].len > n ==> h.regions[c].Has(h.lists[c][i].start + n)
  {
    var l := h.lists[c];
    ListRises(h, c);
    forall k | 0 <= k < |l| ensures l[k].start != l[i].start + n {
      assert k > i ==> l[i].End() < l[k].start;
    }
    if l[i].len > n {
      assert l[i].Has(l[i].start + n);
      assert Covers(l, l[i].start + n);
      assert ListOk(h, c) && Conserved(h, c);
    }
  }
}
