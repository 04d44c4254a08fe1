/**
  The page allocator (safeInit.c) and the functions that build Sv39 tables from its pages
  (safeKmapInit.c).  Memory is a map from page addresses to 512 words; the free list is
  threaded through the first word of each free page.
*/
module PageTables {
  import opened Bits
  import opened Sv39

  // ----- the page free list -----

  ghost function After(free: seq<nat>, i: nat): nat {
    if i + 1 < |free| then free[i + 1] else 0
  }

  ghost predicate FreeChain(m: Memory, head: nat, free: seq<nat>) {
    && head == (if free == [] then 0 else free[0])
    && (forall i :: 0 <= i < |free| ==> free[i] != 0 && free[i] in m && |m[free[i]]| == 512)
    && (forall i :: 0 <= i < |free| ==> m[free[i]][0] == After(free, i))
    && (forall i, j :: 0 <= i < j < |free| ==> free[i] != free[j])
  }

  ghost function FreeSet(free: seq<nat>): set<nat> {
    set p | p in free
  }

  ghost function Up(x: nat): nat {
    (x + 4095) / 4096 * 4096
  }

  /** How many pages from first on end strictly below end. */
  ghost function PagesBelow(first: nat, end: nat): nat {
    if first < end then (end - first - 1) / 4096 else 0
  }

  lemma Aligned(k: nat)
    ensures k * 4096 % 4096 == 0
  {
  }

  lemma RoundsUp(start: nat)
    requires start + 4095 < WORD
    ensures RoundPage(start) == Up(start)
  {
    RoundPageIs(start);
  }

  /** The pages that a range is freed by. */
  lemma RangePage(start: nat, n: nat, maxaddr: nat)
    requires Up(start) + n * 4096 + 4096 < maxaddr <= PPNS * 4096
    ensures var p := Up(start) + n * 4096; IsPage(p) && p % PAGE_SIZE == 0 && start <= p
  {
    var j := (start + 4095) / 4096 + n;
    assert Up(start) + n * 4096 == j * 4096;
    Aligned(j);
  }

  lemma NoMoreThanBelow(first: nat, n: nat, end: nat)
    ensures n > 0 && first + n * 4096 < end ==> n <= PagesBelow(first, end)
    ensures first + n * 4096 + 4096 >= end && n <= PagesBelow(first, end) ==> n == PagesBelow(first, end)
  {
  }

  /** The list after freeing n pages from first upward: the last one freed leads. */
  ghost function Freed(first: nat, n: nat): seq<nat> {
    if n == 0 then [] else [first + (n - 1) * 4096] + Freed(first, n - 1)
  }

  lemma {:induction false} FreedAre(first: nat, n: nat, p: nat)
    ensures p in Freed(first, n) <==> first <= p < first + n * 4096 && (p - first) % 4096 == 0
    ensures |Freed(first, n)| == n
  {
    if n > 0 {
      FreedAre(first, n - 1, p);
      assert p in Freed(first, n) <==> p == first + (n - 1) * 4096 || p in Freed(first, n - 1);
    }
  }

  lemma {:induction false} FreedFalls(first: nat, n: nat)
    ensures |Freed(first, n)| == n && (n > 0 ==> Freed(first, n)[0] == first + (n - 1) * 4096)
    ensures forall i :: 0 <= i < n - 1 ==> Freed(first, n)[i] == Freed(first, n)[i + 1] + 4096
  {
    if n > 0 { FreedFalls(first, n - 1); }
  }

  /** A page that starts at start or behind it and ends before end. */
  predicate PageWithin(start: nat, end: nat, p: nat) {
    p % 4096 == 0 && start <= p && p + 4096 < end
  }

  /** The pages freed for a range are all those that lie within it. */
  lemma FreedWithin(start: nat, end: nat, p: nat)
    ensures p in Freed(Up(start), PagesBelow(Up(start), end)) <==> PageWithin(start, end, p)
  {
    var first, n := Up(start), PagesBelow(Up(start), end);
    FreedAre(first, n, p);
    UpIs(start);
    if p % 4096 == 0 && first <= p { PageCount(first, end, (p - first) / 4096); }
  }

  lemma UpIs(start: nat)
    ensures Up(start) % 4096 == 0 && start <= Up(start) < start + 4096
  {
  }

  lemma PageCount(first: nat, end: nat, i: nat)
    ensures i < PagesBelow(first, end) <==> first + i * 4096 + 4096 < end
  {
  }

  lemma {:induction false} DistinctCount(s: seq<nat>)
    requires forall i, j :: 0 <= i < j < |s| ==> s[i] != s[j]
    ensures |FreeSet(s)| == |s|
  {
    if s != [] {
      DistinctCount(s[1..]);
      assert s == [s[0]] + s[1..];
      assert FreeSet(s) == {s[0]} + FreeSet(s[1..]);
    }
  }

  ghost function PagesWithin(start: nat, end: nat): set<nat> {
    set p | start <= p < end && PageWithin(start, end, p)
  }

  /** As many pages are freed as lie within the range. */
  lemma FreedCount(start: nat, end: nat, s: seq<nat>, free: seq<nat>)
    requires free == Freed(Up(start), PagesBelow(Up(start), end)) + s
    requires forall i, j :: 0 <= i < j < |free| ==> free[i] != free[j]
    ensures |free| == |s| + |PagesWithin(start, end)|
    ensures forall p :: p in free <==> p in s || PageWithin(start, end, p)
  {
    var f := Freed(Up(start), PagesBelow(Up(start), end));
    assert forall i :: 0 <= i < |f| ==> free[i] == f[i];
    DistinctCount(f);
    forall p ensures p in f <==> PageWithin(start, end, p) { FreedWithin(start, end, p); }
    assert FreeSet(f) == PagesWithin(start, end);
  }

  lemma ChainPop(m: Memory, head: nat, free: seq<nat>)
    requires FreeChain(m, head, free) && free != []
    ensures FreeChain(m[free[0] := Zeros()], m[free[0]][0], free[1..])
    ensures FreeSet(free) == FreeSet(free[1..]) + {free[0]} && free[0] !in free[1..]
  {
    var rest := free[1..];
    assert free == [free[0]] + rest;
    assert m[free[0]][0] == After(free, 0);
    forall i | 0 <= i < |rest| ensures m[rest[i]][0] == After(rest, i) {
      assert m[free[i + 1]][0] == After(free, i + 1);
    }
  }

  lemma ChainPush(m: Memory, head: nat, free: seq<nat>, p: nat)
    requires FreeChain(m, head, free) && p != 0 && p in m && p !in free
    ensures FreeChain(Store(m[p := Zeros()], p, 0, head), p, [p] + free)
  {
    var m', free' := Store(m[p := Zeros()], p, 0, head), [p] + free;
    forall i | 0 <= i < |free'|
      ensures free'[i] != 0 && free'[i] in m' && |m'[free'[i]]| == 512
      ensures m'[free'[i]][0] == After(free', i)
    {
      if i > 0 {
        assert free'[i] == free[i - 1] && free[i - 1] in free;
      }
    }
  }

  /** Memory once pgfree has put page p in front of the list. */
  function Pushed(m: Memory, p: nat, head: nat): Memory
    requires p in m
  {
    Store(m[p := Zeros()], p, 0, head)
  }

  lemma ChainAt(m: Memory, head: nat, free: seq<nat>, i: nat)
    requires FreeChain(m, head, free) && i < |free|
    ensures head == free[0] && free[i] != 0 && free[i] in m && |m[free[i]]| == 512 && m[free[i]][0] == After(free, i)
    ensures forall j :: 0 <= j < |free| && free[j] == free[i] ==> j == i
  {
  }

  lemma ChainHead(m: Memory, head: nat, free: seq<nat>)
    requires FreeChain(m, head, free) && head != 0
    ensures free != [] && head == free[0]
  {
  }

  lemma PushedWords(m: Memory, p: nat, head: nat)
    requires p in m
    ensures var m' := Pushed(m, p, head);
            && m'.Keys == m.Keys && |m'[p]| == 512 && m'[p][0] == head && (forall i :: 1 <= i < 512 ==> m'[p][i] == 0)
            && forall q :: q in m && q != p ==> m'[q] == m[q]
  {
  }

  /** A chain from a page freed a second time follows the old list back to that page. */
  lemma {:induction false} ComesBack(m: Memory, head: nat, free: seq<nat>, i: nat, f: seq<nat>, j: nat)
    requires FreeChain(m, head, free) && i < |free| && j <= i && FreeChain(Pushed(m, free[i], head), free[i], f)
    ensures j + 1 < |f| && f[j + 1] == free[j]
  {
    hide Pushed;
    hide FreeChain;
    ChainAt(m, head, free, i);
    var m' := Pushed(m, free[i], head);
    PushedWords(m, free[i], head);
    ChainHead(m', free[i], f);
    if j == 0 {
      ChainAt(m', free[i], f, 0);
      ChainAt(m, head, free, 0);
    } else {
      ComesBack(m, head, free, i, f, j - 1);
      ChainAt(m', free[i], f, j);
      ChainAt(m, head, free, j - 1);
      ChainAt(m, head, free, j);
    }
  }

  lemma NeverFreed(m: Memory, head: nat, free: seq<nat>, p: nat, f: seq<nat>)
    requires FreeChain(m, head, free) && p != 0 && p in m && FreeChain(Pushed(m, p, head), p, f)
    ensures p !in free
  {
    if i :| 0 <= i < |free| && free[i] == p { ComesBack(m, head, free, i, f, i); }
  }

  /** What pgfree leaves is a free list at all if and only if the page was not already free. */
  lemma PushIff(m: Memory, head: nat, free: seq<nat>, p: nat)
    requires FreeChain(m, head, free) && p != 0 && p in m
    ensures (exists f :: FreeChain(Pushed(m, p, head), p, f)) <==> p !in free
    ensures p !in free ==> FreeChain(Pushed(m, p, head), p, [p] + free)
  {
    if p !in free {
      ChainPush(m, head, free, p);
      assert FreeChain(Pushed(m, p, head), p, [p] + free);
    } else {
      forall f ensures !FreeChain(Pushed(m, p, head), p, f) {
        if FreeChain(Pushed(m, p, head), p, f) { NeverFreed(m, head, free, p, f); }
      }
    }
  }

  /** Writing to a page that is not free leaves the free list as it is. */
  lemma ChainFrame(m: Memory, head: nat, free: seq<nat>, p: nat, i: nat, e: nat)
    requires FreeChain(m, head, free) && p in m && i < |m[p]| && p !in free
    ensures FreeChain(Store(m, p, i, e), head, free)
  {
  }

  // ----- how many tables a range still needs -----

  ghost function MissingMids(t: Tree, lo: nat, hi: nat): set<nat> {
    set v | lo <= v < hi && Index(v, 2) !in t.mids.Values :: Index(v, 2)
  }

  ghost function MissingLows(t: Tree, lo: nat, hi: nat): set<(nat, nat)> {
    set v | lo <= v < hi && Path(v) !in t.lows.Values :: Path(v)
  }

  /** The number of table pages that must be added before [lo, hi) can be mapped. */
  ghost function Missing(t: Tree, lo: nat, hi: nat): nat {
    |MissingMids(t, lo, hi)| + |MissingLows(t, lo, hi)|
  }

  lemma MissingNext(t: Tree, lo: nat, hi: nat)
    requires lo < hi && Index(lo, 2) in t.mids.Values && Path(lo) in t.lows.Values
    ensures Missing(t, lo, hi) == Missing(t, lo + 1, hi)
  {
    assert MissingMids(t, lo, hi) == MissingMids(t, lo + 1, hi);
    assert MissingLows(t, lo, hi) == MissingLows(t, lo + 1, hi);
  }

  lemma ValuesOfUpdate<K, T>(m: map<K, T>, k: K, x: T)
    requires k !in m
    ensures m[k := x].Values == m.Values + {x}
  {
    var m' := m[k := x];
    forall y | y in m.Values + {x} ensures y in m'.Values {
      if y == x {
        assert m'[k] == y;
      } else {
        var j :| j in m && m[j] == y;
        assert m'[j] == y;
      }
    }
  }

  lemma MissingAfterMid(t: Tree, f: nat, lo: nat, hi: nat)
    requires lo < hi && f !in t.mids && Index(lo, 2) !in t.mids.Values
    ensures Missing(t.(mids := t.mids[f := Index(lo, 2)]), lo, hi) == Missing(t, lo, hi) - 1
  {
    var i := Index(lo, 2);
    var t' := t.(mids := t.mids[f := i]);
    ValuesOfUpdate(t.mids, f, i);
    assert i in MissingMids(t, lo, hi);
    assert MissingMids(t', lo, hi) == MissingMids(t, lo, hi) - {i};
    assert MissingLows(t', lo, hi) == MissingLows(t, lo, hi);
  }

  lemma MissingAfterLow(t: Tree, f: nat, lo: nat, hi: nat)
    requires lo < hi && f !in t.lows && Path(lo) !in t.lows.Values
    ensures Missing(t.(lows := t.lows[f := Path(lo)]), lo, hi) == Missing(t, lo, hi) - 1
  {
    var ij := Path(lo);
    var t' := t.(lows := t.lows[f := ij]);
    ValuesOfUpdate(t.lows, f, ij);
    assert ij in MissingLows(t, lo, hi);
    assert MissingLows(t', lo, hi) == MissingLows(t, lo, hi) - {ij};
    assert MissingMids(t', lo, hi) == MissingMids(t, lo, hi);
  }

  // ----- frames -----

  ghost predicate SameTranslations(m: Memory, m': Memory, root: nat) {
    forall v :: 0 <= v < VPNS ==> Translate(m', root, v) == Translate(m, root, v)
  }

  /** A tree and its translations depend on its table pages only. */
  lemma TreeFrame(m: Memory, m': Memory, t: Tree)
    requires TreeOk(m, t) && IsMemory(m') && t.Tables() <= m'.Keys
    requires forall p :: p in t.Tables() ==> m'[p] == m[p]
    ensures TreeOk(m', t) && SameTranslations(m, m', t.root)
  {
    forall p | p in t.mids || p in t.lows || p == t.root ensures m'[p] == m[p] {
      assert p in t.Tables();
    }
    assert TreeOk(m', t);
    forall v | 0 <= v < VPNS ensures Translate(m', t.root, v) == Translate(m, t.root, v) {
      WalkIsTreeWalk(m, t, v);
      WalkIsTreeWalk(m', t, v);
    }
  }

  /** Pages [lo, lo + n) of m' lead to physical pages from ppn on; all others are as in m. */
  ghost predicate RangeMapped(m: Memory, m': Memory, root: nat, lo: nat, n: nat, ppn: nat, attr: nat) {
    forall v :: 0 <= v < VPNS ==>
      Translate(m', root, v) ==
        if lo <= v < lo + n then Mapped(ppn + (v - lo), attr) else Translate(m, root, v)
  }

  /** The free list is sound, the tables are a tree, and no free page is a table. */
  ghost predicate StateOk(m: Memory, head: nat, free: seq<nat>, t: Tree) {
    && IsMemory(m) && FreeChain(m, head, free)
    && TreeOk(m, t) && FreeSet(free) !! t.Tables()
  }

  /** The root, the set of frames and every page that is neither free nor a table are kept. */
  ghost predicate Kept(m: Memory, free: seq<nat>, t: Tree, m': Memory, free': seq<nat>, t': Tree) {
    && t'.root == t.root
    && FreeSet(free') + t'.Tables() == FreeSet(free) + t.Tables()
    && m'.Keys == m.Keys
    && (forall p :: p in m && p !in FreeSet(free) + t.Tables() ==> m'[p] == m[p])
  }

  /** Growing the tables also keeps every translation; a page taken is one table less to add. */
  ghost predicate Grown(m: Memory, free: seq<nat>, t: Tree, m': Memory, free': seq<nat>, t': Tree, vpn: nat, hi: nat) {
    && Kept(m, free, t, m', free', t')
    && SameTranslations(m, m', t.root)
    && |free'| - Missing(t', vpn, hi) == |free| - Missing(t, vpn, hi)
  }

  lemma TreeOfState(m: Memory, head: nat, free: seq<nat>, t: Tree)
    requires StateOk(m, head, free, t)
    ensures TreeOk(m, t)
  {
  }

  lemma KeptRefl(m: Memory, free: seq<nat>, t: Tree)
    ensures Kept(m, free, t, m, free, t)
  {
  }

  lemma KeptTrans(m: Memory, free: seq<nat>, t: Tree, m1: Memory, free1: seq<nat>, t1: Tree,
                  m2: Memory, free2: seq<nat>, t2: Tree)
    requires Kept(m, free, t, m1, free1, t1) && Kept(m1, free1, t1, m2, free2, t2)
    ensures Kept(m, free, t, m2, free2, t2) && t1.root == t.root && t2.root == t.root
  {
    hide FreeSet;
  }

  lemma MissingNone(t: Tree, v: nat)
    ensures Missing(t, v, v) == 0
  {
    assert MissingMids(t, v, v) == {};
    assert MissingLows(t, v, v) == {};
  }

  lemma PageArithmetic(v: nat, pa: nat, k: nat)
    ensures v * 4096 / 4096 == v
    ensures (pa + k * 4096) / 4096 == pa / 4096 + k
  {
  }

  lemma RangeGrows(m: Memory, m1: Memory, m2: Memory, root: nat, lo: nat, n: nat, ppn: nat, attr: nat)
    requires RangeMapped(m, m1, root, lo, n, ppn, attr) && RangeMapped(m1, m2, root, lo + n, 1, ppn + n, attr)
    ensures RangeMapped(m, m2, root, lo, n + 1, ppn, attr)
  {
    hide Translate;
    hide Mapped;
  }

  /** Storing the word for one page through the last table on its path. */
  lemma WriteLeafState(m: Memory, head: nat, free: seq<nat>, t: Tree, table: nat, vpn: nat, pa: nat, attr: nat)
    requires StateOk(m, head, free, t) && AtLast(t, table, vpn) && vpn < VPNS
    requires pa / 4096 < PPNS && attr < 1024
    ensures table in m && |m[table]| == 512
    ensures var m' := Store(m, table, Index(vpn, 0), LeafPte(pa, attr));
            && StateOk(m', head, free, t) && Kept(m, free, t, m', free, t)
            && RangeMapped(m, m', t.root, vpn, 1, pa / 4096, attr)
  {
    hide FreeChain;
    hide TreeOk;
    hide Translate;
    hide LeafPte;
    hide Mapped;
    hide AtLeaf;
    TablesInMemory(m, t);
    assert table in t.Tables();
    assert table !in free by { assert table !in FreeSet(free); }
    var e := LeafPte(pa, attr);
    LeafPteIs(pa, attr);
    AtLeafOfPte(pa / 4096, attr);
    ChainFrame(m, head, free, table, Index(vpn, 0), e);
    WriteLeaf(m, t, table, vpn, e);
    TablesInMemory(Store(m, table, Index(vpn, 0), e), t);
  }

  lemma EmptyTree(m: Memory, root: nat)
    requires IsMemory(m) && root in m && m[root] == Zeros()
    ensures TreeOk(m, Tree(root, map[], map[]))
    ensures forall v :: 0 <= v < VPNS ==> Translate(m, root, v) == Fault
  {
    assert !V(0);
  }

  /**
    The pages mapAddress covers for a request hold every byte asked for exactly when the offset of
    the first byte in its page still fits into the rounding of the length.  A length within 4095 of
    the word size rounds to nothing, so that such a request succeeds and no page is mapped.
  */
  lemma CoversRequest(va: nat, length: nat)
    requires 0 < length < WORD
    ensures RoundPage(length) == 0 <==> length + 4095 >= WORD
    ensures var lo, n := va / 4096, RoundPage(length) / 4096;
            (forall a :: va <= a < va + length ==> lo <= a / 4096 < lo + n)
            <==> va % 4096 + length <= RoundPage(length)
  {
    hide RoundPage;
    RoundPageIs(length);
    var lo, k := va / 4096, (length + 4095) / 4096;
    var last := va + length - 1;
    assert va <= last < va + length;
    if length + 4095 < WORD {
      LastPage(va, length);
      forall a | va <= a < va + length ensures lo <= a / 4096 <= last / 4096 {
        DivMonotone(va, a);
        DivMonotone(a, last);
      }
    } else {
      assert !(lo <= last / 4096 < lo + 0 / 4096);
    }
  }

  lemma DivMonotone(a: nat, b: nat)
    requires a <= b
    ensures a / 4096 <= b / 4096
  {
  }

  lemma LastPage(va: nat, length: nat)
    requires 0 < length
    ensures var k := (length + 4095) / 4096;
            && k * 4096 / 4096 == k
            && ((va + length - 1) / 4096 < va / 4096 + k <==> va % 4096 + length <= k * 4096)
  {
    var k, off := (length + 4095) / 4096, va % 4096;
    PageArithmetic(k, off + length - 1, va / 4096);
    assert va + length - 1 == off + length - 1 + va / 4096 * 4096;
  }

  /** A request that starts inside a page can end on a page that is not mapped. */
  lemma UnalignedRequestIsCutShort()
    ensures 0xFFF / 4096 + RoundPage(2) / 4096 <= (0xFFF + 2 - 1) / 4096
  {
    RoundPageIs(2);
  }

  lemma TablesInMemory(m: Memory, t: Tree)
    requires TreeOk(m, t)
    ensures IsMemory(m) && t.Tables() <= m.Keys
  {
  }

  lemma GrownRefl(m: Memory, free: seq<nat>, t: Tree, vpn: nat, hi: nat)
    ensures Grown(m, free, t, m, free, t, vpn, hi)
  {
  }

  lemma GrownTrans(m: Memory, free: seq<nat>, t: Tree, m1: Memory, free1: seq<nat>, t1: Tree,
                   m2: Memory, free2: seq<nat>, t2: Tree, vpn: nat, hi: nat)
    requires Grown(m, free, t, m1, free1, t1, vpn, hi) && Grown(m1, free1, t1, m2, free2, t2, vpn, hi)
    ensures Grown(m, free, t, m2, free2, t2, vpn, hi)
  {
    hide Missing;
    hide Translate;
    hide FreeSet;
    KeptTrans(m, free, t, m1, free1, t1, m2, free2, t2);
  }

  ghost predicate OnPath(t: Tree, table: nat, level: nat, vpn: nat) {
    || (level == 2 && table == t.root)
    || (level == 1 && table in t.mids && t.mids[table] == Index(vpn, 2))
  }

  /** Both tables on the path to vpn exist, and table is the last of them. */
  ghost predicate AtLast(t: Tree, table: nat, vpn: nat) {
    table in t.lows && t.lows[table] == Path(vpn) && Index(vpn, 2) in t.mids.Values
  }

  ghost function Hang(t: Tree, f: nat, level: nat, vpn: nat): Tree {
    if level == 2 then t.(mids := t.mids[f := Index(vpn, 2)]) else t.(lows := t.lows[f := Path(vpn)])
  }

  lemma OnPathInMemory(m: Memory, head: nat, free: seq<nat>, t: Tree, table: nat, level: nat, vpn: nat)
    requires StateOk(m, head, free, t) && OnPath(t, table, level, vpn)
    ensures IsMemory(m) && FreeChain(m, head, free)
    ensures table in t.Tables() && table in m && |m[table]| == 512 && table !in free
  {
    assert table in t.Tables();
    assert table !in FreeSet(free);
  }

  lemma EmptySlotMissing(m: Memory, t: Tree, table: nat, level: nat, vpn: nat, hi: nat)
    requires TreeOk(m, t) && OnPath(t, table, level, vpn) && vpn < hi
    requires !V(m[table][Index(vpn, level)])
    ensures level == 2 ==> Index(vpn, 2) !in t.mids.Values
    ensures level == 1 ==> Path(vpn) !in t.lows.Values
    ensures Missing(t, vpn, hi) > 0
  {
    if level == 2 {
      assert Index(vpn, 2) in MissingMids(t, vpn, hi);
    } else {
      assert Path(vpn) in MissingLows(t, vpn, hi);
    }
  }

  lemma FollowLink(m: Memory, t: Tree, table: nat, level: nat, vpn: nat)
    requires TreeOk(m, t) && OnPath(t, table, level, vpn) && V(m[table][Index(vpn, level)])
    ensures var next := Pte2Pa(m[table][Index(vpn, level)]);
            && (level == 2 ==> OnPath(t, next, 1, vpn))
            && (level == 1 ==> AtLast(t, next, vpn))
  {
    hide Pte2Pa;
    hide V;
    var pte := m[table][Index(vpn, level)];
    assert IsLink(pte);
    LinkReadsBack(pte);
  }

  // Taking a page off the free list and hanging it in the empty slot on the path to vpn:
  // what becomes of the tree, of the free list, and of the count of tables still missing.

  ghost function MemAfterHang(m: Memory, f: nat, table: nat, level: nat, vpn: nat): Memory
    requires table in m && |m[table]| == 512 && table != f
  {
    Store(m[f := Zeros()], table, Index(vpn, level), Or(Pa2Pte(f), 1))
  }

  lemma HangOnPath(t: Tree, table: nat, f: nat, level: nat, vpn: nat)
    requires OnPath(t, table, level, vpn)
    ensures level == 2 ==> OnPath(Hang(t, f, level, vpn), f, 1, vpn)
    ensures level == 1 ==> AtLast(Hang(t, f, level, vpn), f, vpn)
  {
  }

  lemma HangTree(m: Memory, t: Tree, f: nat, table: nat, level: nat, vpn: nat)
    requires TreeOk(m, t) && f in m && f !in t.Tables()
    requires OnPath(t, table, level, vpn) && table in m && |m[table]| == 512 && table != f
    requires !V(m[table][Index(vpn, level)])
    ensures TreeOk(MemAfterHang(m, f, table, level, vpn), Hang(t, f, level, vpn))
    ensures SameTranslations(m, MemAfterHang(m, f, table, level, vpn), t.root)
  {
    hide Or;
    hide Pa2Pte;
    hide Pte2Pa;
    hide Translate;
    var m1, i, link := m[f := Zeros()], Index(vpn, level), Or(Pa2Pte(f), 1);
    TreeFrame(m, m1, t);
    LinkPteIs(f);
    if level == 2 {
      LinkMid(m1, t, f, i, link);
    } else {
      LinkLow(m1, t, table, f, i, link);
    }
  }

  lemma HangFree(m: Memory, head: nat, free: seq<nat>, t: Tree, table: nat, level: nat, vpn: nat)
    requires FreeChain(m, head, free) && free != [] && FreeSet(free) !! t.Tables()
    requires OnPath(t, table, level, vpn) && table in m && |m[table]| == 512
    ensures table != free[0] && free[0] !in t.Tables()
    ensures var t' := Hang(t, free[0], level, vpn);
            && FreeChain(MemAfterHang(m, free[0], table, level, vpn), m[free[0]][0], free[1..])
            && FreeSet(free[1..]) !! t'.Tables()
            && FreeSet(free[1..]) + t'.Tables() == FreeSet(free) + t.Tables()
  {
    hide Or;
    hide Pa2Pte;
    var f := free[0];
    assert f in FreeSet(free) && table in t.Tables();
    ChainPop(m, head, free);
    assert table !in free[1..] by { assert table !in FreeSet(free); }
    ChainFrame(m[f := Zeros()], m[f][0], free[1..], table, Index(vpn, level), Or(Pa2Pte(f), 1));
    assert Hang(t, f, level, vpn).Tables() == t.Tables() + {f};
  }

  lemma HangTable(m: Memory, head: nat, free: seq<nat>, t: Tree, table: nat, level: nat, vpn: nat, hi: nat)
    requires StateOk(m, head, free, t) && free != [] && table in m && |m[table]| == 512 && table != free[0]
    requires OnPath(t, table, level, vpn) && vpn < hi && !V(m[table][Index(vpn, level)])
    ensures var t' := Hang(t, free[0], level, vpn);
            var m' := MemAfterHang(m, free[0], table, level, vpn);
            && StateOk(m', m[free[0]][0], free[1..], t')
            && Grown(m, free, t, m', free[1..], t', vpn, hi)
  {
    hide TreeOk;
    hide FreeChain;
    hide SameTranslations;
    hide Missing;
    hide FreeSet;
    hide Or;
    hide Pa2Pte;
    var f := free[0];
    FreeInMemory(m, head, free);
    HangFree(m, head, free, t, table, level, vpn);
    HangTree(m, t, f, table, level, vpn);
    EmptySlotMissing(m, t, table, level, vpn, hi);
    if level == 2 {
      MissingAfterMid(t, f, vpn, hi);
    } else {
      MissingAfterLow(t, f, vpn, hi);
    }
  }

  lemma FreeDistinct(m: Memory, head: nat, free: seq<nat>)
    requires FreeChain(m, head, free)
    ensures forall i, j :: 0 <= i < j < |free| ==> free[i] != free[j]
  {
  }

  lemma FreeInMemory(m: Memory, head: nat, free: seq<nat>)
    requires FreeChain(m, head, free) && free != []
    ensures free[0] in m && |m[free[0]]| == 512 && free[0] in FreeSet(free)
  {
  }

  class Paging {
    var mem: Memory
    var pgfreelist: nat
    ghost var free: seq<nat>
    ghost var tree: Tree

    ghost predicate FreeOk()
      reads this
    {
      IsMemory(mem) && FreeChain(mem, pgfreelist, free)
    }

    ghost predicate Valid()
      reads this
    {
      StateOk(mem, pgfreelist, free, tree)
    }

    /** A page goes in front of the free list; a page already there closes the list into a ring. */
    method PgFree(addr: nat) returns (ok: bool)
      requires FreeOk()
      requires addr % PAGE_SIZE == 0 ==> addr != 0 && addr in mem
      modifies this
      ensures tree == old(tree) && ok == (addr % PAGE_SIZE == 0)
      ensures !ok ==> FreeOk() && free == old(free) && mem == old(mem) && pgfreelist == old(pgfreelist)
      ensures ok ==> mem == Pushed(old(mem), addr, old(pgfreelist)) && pgfreelist == addr
      ensures ok ==> addr in mem && mem == old(mem)[addr := mem[addr]] && |mem[addr]| == 512
      ensures ok ==> mem[addr][0] == old(pgfreelist) && forall i :: 1 <= i < 512 ==> mem[addr][i] == 0
      ensures ok && addr !in old(free) ==> FreeOk() && free == [addr] + old(free)
      ensures ok && addr in old(free) ==> forall f :: !FreeChain(mem, pgfreelist, f)
    {
      if addr % PAGE_SIZE != 0 {
        return false;
      }
      PushIff(mem, pgfreelist, free, addr);
      mem := mem[addr := Zeros()];
      mem := Store(mem, addr, 0, pgfreelist);
      pgfreelist := addr;
      free := [addr] + free;
      return true;
    }

    /** Frees the pages from roundpage(start) on that end strictly below end. */
    method PgFreeRange(start: nat, end: nat, memheap: nat, maxaddr: nat) returns (ok: bool)
      requires FreeOk() && maxaddr <= PPNS * 4096 && start + 4095 < WORD
      requires forall p :: memheap <= p < maxaddr && IsPage(p) ==> p != 0 && p in mem && p !in free
      modifies this
      ensures FreeOk() && tree == old(tree) && mem.Keys == old(mem).Keys
      ensures ok == !(end > maxaddr || start < memheap || end < start)
      ensures !ok ==> mem == old(mem) && free == old(free)
      ensures ok ==> forall p :: p in free <==> p in old(free) || (p % 4096 == 0 && start <= p && p + 4096 < end)
      ensures ok ==> |free| == |old(free)| + |PagesWithin(start, end)|
      ensures ok ==> free == Freed(Up(start), PagesBelow(Up(start), end)) + old(free)
      ensures ok ==> forall i :: 0 <= i < |free| - |old(free)| - 1 ==> free[i] == free[i + 1] + 4096
      ensures forall p :: p in mem && !PageWithin(start, end, p) ==> mem[p] == old(mem[p])
    {
      hide IsMemory;
      hide FreeChain;
      hide PagesBelow;
      hide RoundPage;
      hide Pushed;
      hide Up;
      hide IsPage;
      if end > maxaddr || start < memheap || end < start {
        return false;
      }
      RoundsUp(start);
      var pgstart := RoundPage(start);
      ghost var first, n := pgstart, 0;
      while pgstart + PAGE_SIZE < end
        invariant FreeOk() && tree == old(tree) && mem.Keys == old(mem).Keys
        invariant first == Up(start) && pgstart == first + n * 4096
        invariant n <= PagesBelow(first, end) && free == Freed(first, n) + old(free)
        invariant forall p :: p in mem && !PageWithin(start, end, p) ==> mem[p] == old(mem[p])
        decreases end - pgstart
      {
        FreedAre(first, n, pgstart);
        RangePage(start, n, maxaddr);
        PushedWords(mem, pgstart, pgfreelist);
        var freed := PgFree(pgstart);
        if !freed {
          return false;
        }
        pgstart, n := pgstart + PAGE_SIZE, n + 1;
        assert free == Freed(first, n) + old(free);
        NoMoreThanBelow(first, n, end);
      }
      NoMoreThanBelow(first, n, end);
      FreeDistinct(mem, pgfreelist, free);
      FreedCount(start, end, old(free), free);
      FreedFalls(first, n);
      return true;
    }

    method PgAlloc() returns (ok: bool, page: nat)
      requires FreeOk()
      modifies this
      ensures FreeOk() && tree == old(tree)
      ensures ok == (old(free) != [])
      ensures ok ==> page == old(free)[0] && free == old(free)[1..] && mem == old(mem)[page := Zeros()]
      ensures ok ==> page in old(mem) && |old(mem)[page]| == 512 && pgfreelist == old(mem)[page][0]
      ensures !ok ==> mem == old(mem) && free == old(free) && pgfreelist == old(pgfreelist)
    {
      if pgfreelist == 0 {
        return false, WORD - 1;
      }
      ChainPop(mem, pgfreelist, free);
      page := pgfreelist;
      pgfreelist := mem[page][0];
      mem := mem[page := Zeros()];
      free := free[1..];
      return true, page;
    }

    /** One turn of the loop in pgTraverseAndCreate: follow the entry, or hang a new table. */
    method Descend(pagetable: nat, va: nat, level: nat, ghost hi: nat) returns (ok: bool, next: nat)
      requires Valid() && va / 4096 < hi <= VPNS
      requires OnPath(tree, pagetable, level, va / 4096)
      modifies this
      ensures Valid() && Grown(old(mem), old(free), old(tree), mem, free, tree, va / 4096, hi)
      ensures ok && level == 2 ==> OnPath(tree, next, 1, va / 4096)
      ensures ok && level == 1 ==> AtLast(tree, next, va / 4096)
      ensures !ok ==> free == [] && Missing(tree, va / 4096, hi) > 0
    {
      hide StateOk;
      hide Grown;
      hide Missing;
      hide FreeChain;
      hide IsMemory;
      hide TreeOk;
      hide AtLast;
      hide Px;
      hide Or;
      hide Pa2Pte;
      hide Pte2Pa;
      ghost var vpn := va / 4096;
      PxIs(va);
      OnPathInMemory(mem, pgfreelist, free, tree, pagetable, level, vpn);
      var i := Px(level, va);
      assert i == Index(vpn, level);
      var pte := mem[pagetable][i];
      GrownRefl(mem, free, tree, vpn, hi);
      TreeOfState(mem, pgfreelist, free, tree);
      if V(pte) {
        FollowLink(mem, tree, pagetable, level, vpn);
        return true, Pte2Pa(pte);
      }
      EmptySlotMissing(mem, tree, pagetable, level, vpn, hi);
      ghost var m0, free0, head0 := mem, free, pgfreelist;
      var got;
      got, next := PgAlloc();
      if !got {
        return false, next;
      }
      HangTable(m0, head0, free0, tree, pagetable, level, vpn, hi);
      HangOnPath(tree, pagetable, next, level, vpn);
      mem := Store(mem, pagetable, i, Or(Pa2Pte(next), 1));
      tree := Hang(tree, next, level, vpn);
      return true, next;
    }

    /** The last-level word for va, as a table page and an index, making tables on the way. */
    method PgTraverseAndCreate(pagetable: nat, va: nat, ghost hi: nat)
      returns (ok: bool, table: nat, index: nat)
      requires Valid() && pagetable == tree.root && va / 4096 < hi <= VPNS
      modifies this
      ensures Valid() && Grown(old(mem), old(free), old(tree), mem, free, tree, va / 4096, hi)
      ensures ok ==> AtLast(tree, table, va / 4096) && index == Index(va / 4096, 0)
      ensures !ok ==> free == [] && Missing(tree, va / 4096, hi) > 0
    {
      hide Grown;
      hide StateOk;
      hide Missing;
      hide Px;
      GrownRefl(mem, free, tree, va / 4096, hi);
      var level := 2;
      var t := pagetable;
      while level > 0
        invariant 0 <= level <= 2 && Valid()
        invariant Grown(old(mem), old(free), old(tree), mem, free, tree, va / 4096, hi)
        invariant if level > 0 then OnPath(tree, t, level, va / 4096) else AtLast(tree, t, va / 4096)
      {
        ghost var m1, free1, t1 := mem, free, tree;
        var got, next := Descend(t, va, level, hi);
        GrownTrans(old(mem), old(free), old(tree), m1, free1, t1, mem, free, tree, va / 4096, hi);
        if !got {
          return false, WORD - 1, 0;
        }
        t := next;
        level := level - 1;
      }
      PxIs(va);
      return true, t, Px(0, va);
    }

    /** The empty table that safeKmapInit starts from: one zeroed page, under which every walk faults. */
    method NewRoot() returns (ok: bool, root: nat)
      requires FreeOk()
      modifies this
      ensures FreeOk() && ok == (old(free) != [])
      ensures ok ==> Valid() && tree == Tree(root, map[], map[]) && free == old(free)[1..] && root == old(free)[0]
      ensures ok ==> forall v :: 0 <= v < VPNS ==> Translate(mem, root, v) == Fault
      ensures !ok ==> mem == old(mem) && free == old(free)
    {
      hide Translate;
      ghost var free0 := free;
      ok, root := PgAlloc();
      if ok {
        tree := Tree(root, map[], map[]);
        assert root !in free by { assert free0 == [root] + free; }
        EmptyTree(mem, root);
      }
    }

    method MapPage(pagetable: nat, page: nat, virtualaddr: nat, attr: nat) returns (ok: bool)
      requires Valid() && pagetable == tree.root
      requires virtualaddr < VPNS * 4096 && page / 4096 < PPNS && attr < 1024
      modifies this
      ensures Valid() && Kept(old(mem), old(free), old(tree), mem, free, tree)
      ensures RangeMapped(old(mem), mem, pagetable, virtualaddr / 4096, if ok then 1 else 0, page / 4096, attr)
      ensures ok == var v := virtualaddr / 4096; Missing(old(tree), v, v + 1) <= |old(free)|
    {
      hide StateOk;
      hide Kept;
      hide Missing;
      hide And;
      TruncPageIs(virtualaddr);
      PageArithmetic(virtualaddr / 4096, 0, 0);
      MissingNone(tree, virtualaddr / 4096 + 1);
      ok := MapOne(pagetable, TruncPage(virtualaddr), page, attr, virtualaddr / 4096 + 1);
      MissingNone(tree, virtualaddr / 4096 + 1);
    }

    /** One page of mapAddress or mapPage, mapped or refused. */
    method MapOne(pagetable: nat, addr: nat, pa: nat, attr: nat, ghost hi: nat) returns (ok: bool)
      requires Valid() && pagetable == tree.root && addr / 4096 < hi <= VPNS
      requires pa / 4096 < PPNS && attr < 1024
      modifies this
      ensures Valid() && Kept(old(mem), old(free), old(tree), mem, free, tree)
      ensures tree.root == pagetable
      ensures ok ==> RangeMapped(old(mem), mem, tree.root, addr / 4096, 1, pa / 4096, attr)
      ensures ok ==> |free| - Missing(tree, addr / 4096 + 1, hi) ==
                     |old(free)| - Missing(old(tree), addr / 4096, hi)
      ensures !ok ==> SameTranslations(old(mem), mem, tree.root)
      ensures !ok ==> |old(free)| < Missing(old(tree), addr / 4096, hi)
    {
      hide StateOk;
      hide Kept;
      hide Missing;
      hide LeafPte;
      ghost var vpn := addr / 4096;
      var table, index;
      ok, table, index := PgTraverseAndCreate(pagetable, addr, hi);
      KeptRefl(mem, free, tree);
      KeptTrans(old(mem), old(free), old(tree), mem, free, tree, mem, free, tree);
      if !ok {
        return;
      }
      WriteLeafState(mem, pgfreelist, free, tree, table, vpn, pa, attr);
      MissingNext(tree, vpn, hi);
      ghost var m1 := mem;
      mem := Store(mem, table, index, LeafPte(pa, attr));
      KeptTrans(old(mem), old(free), old(tree), m1, free, tree, mem, free, tree);
    }

    /** Maps page by page; done counts the pages mapped when the page allocator gives out. */
    method MapAddress(pagetable: nat, virtualaddr: nat, physicaladdr: nat, length: nat, attr: nat)
      returns (ok: bool, ghost done: nat)
      requires Valid() && pagetable == tree.root
      requires virtualaddr < WORD && length < WORD && attr < 1024
      requires TruncPage(virtualaddr) + RoundPage(length) <= VPNS * 4096
      requires physicaladdr + RoundPage(length) <= PPNS * 4096
      modifies this
      ensures Valid() && Kept(old(mem), old(free), old(tree), mem, free, tree)
      ensures RangeMapped(old(mem), mem, tree.root, virtualaddr / 4096, done, physicaladdr / 4096, attr)
      ensures ok ==> done == RoundPage(length) / 4096
      ensures ok == (length != 0 &&
                     var lo := virtualaddr / 4096;
                     Missing(old(tree), lo, lo + RoundPage(length) / 4096) <= |old(free)|)
      ensures !ok ==> length == 0 || done < RoundPage(length) / 4096
    {
      hide StateOk;
      hide Kept;
      hide Missing;
      hide And;
      done := 0;
      KeptRefl(mem, free, tree);
      if length == 0 {
        return false, 0;
      }
      TruncPageIs(virtualaddr);
      RoundPageIs(length);
      var nlength := RoundPage(length);
      var addr := TruncPage(virtualaddr);
      var end := addr + nlength;
      var pa := physicaladdr;
      ghost var lo, n := virtualaddr / 4096, nlength / 4096;
      while addr < end
        invariant Valid() && Kept(old(mem), old(free), old(tree), mem, free, tree)
        invariant tree.root == pagetable
        invariant done <= n && addr == (lo + done) * 4096 && pa == physicaladdr + done * 4096
        invariant end == (lo + n) * 4096 <= VPNS * 4096
        invariant RangeMapped(old(mem), mem, tree.root, lo, done, physicaladdr / 4096, attr)
        invariant |free| - Missing(tree, lo + done, lo + n) == |old(free)| - Missing(old(tree), lo, lo + n)
        decreases end - addr
      {
        ghost var m1, free1, t1 := mem, free, tree;
        PageArithmetic(lo + done, physicaladdr, done);
        var mapped := MapOne(pagetable, addr, pa, attr, lo + n);
        KeptTrans(old(mem), old(free), old(tree), m1, free1, t1, mem, free, tree);
        if !mapped {
          return false, done;
        }
        RangeGrows(old(mem), m1, mem, tree.root, lo, done, physicaladdr / 4096, attr);
        addr, pa, done := addr + PAGE_SIZE, pa + PAGE_SIZE, done + 1;
      }
      MissingNone(tree, lo + done);
      return true, done;
    }
  }
}
