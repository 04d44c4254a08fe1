/**
  Sv39 page tables: the macros of safemem.h, the hardware walk of sections 4.3.2 and 4.4
  of the RISC-V Privileged Architecture (20211203), the shape of the tables that the kernel
  builds, and what one table write does to every translation.
*/
module Sv39 {
  import opened Bits

  const PAGE_SIZE: nat := 4096
  const WORD: nat := 0x1_0000_0000_0000_0000   // 2^64
  const VPNS: nat := 0x800_0000                // 2^27 pages in 39 bits of address
  const PPNS: nat := 0x1000_0000_0000          // 2^44 physical pages
  const PAGE_MASK: nat := 0xFFFF_FFFF_FFFF_F000
  const PXMASK: nat := 0x1FF

  // ----- safemem.h -----

  function RoundPage(x: nat): nat {
    And((4095 + x) % WORD, PAGE_MASK)
  }

  function TruncPage(x: nat): nat {
    And(x, PAGE_MASK)
  }

  function PxShift(level: nat): nat {
    12 + 9 * level
  }

  function Px(level: nat, va: nat): nat {
    And(Shr(va, PxShift(level)), PXMASK)
  }

  function Pte2Pa(pte: nat): nat {
    (Shr(pte, 10) * PAGE_SIZE) % WORD
  }

  function Pa2Pte(pa: nat): nat {
    Shl(pa / PAGE_SIZE, 10) % WORD
  }

  /** The word that mapAddress and mapPage store: PA2PTE(pa) | attr | PTE_V. */
  function LeafPte(pa: nat, attr: nat): nat {
    Or(Or(Pa2Pte(pa), attr), 1)
  }

  lemma TruncPageIs(x: nat)
    requires x < WORD
    ensures TruncPage(x) == x / 4096 * 4096
  {
    Pow2Values();
    AndNotMask(x, 12, 64);
  }

  lemma RoundPageIs(x: nat)
    requires x < WORD
    ensures RoundPage(x) == if x + 4095 < WORD then (x + 4095) / 4096 * 4096 else 0
  {
    if x + 4095 < WORD {
      SmallMod(4095 + x, WORD);
    } else {
      DivModUnique(4095 + x, WORD, 1, 4095 + x - WORD);
    }
    TruncPageIs((4095 + x) % WORD);
  }

  lemma PxIs(va: nat)
    ensures Px(0, va) == Index(va / 4096, 0)
    ensures Px(1, va) == Index(va / 4096, 1)
    ensures Px(2, va) == Index(va / 4096, 2)
  {
    Pow2Values();
    AndMask(Shr(va, 12), 9);
    AndMask(Shr(va, 21), 9);
    AndMask(Shr(va, 30), 9);
    Split(va, 12);
    Split(va, 21);
    Split(va, 30);
    ShiftsNest(va);
  }

  lemma ShiftsNest(va: nat)
    ensures va / 0x20_0000 == va / 4096 / 512
    ensures va / 0x4000_0000 == va / 4096 / 0x4_0000
  {
  }

  /** Reading back the page a PTE was made from, whatever its ten low bits are. */
  lemma PteRoundTrip(pa: nat, low: nat)
    requires pa / 4096 < PPNS && low < 1024
    ensures Pa2Pte(pa) == pa / 4096 * 1024
    ensures Pte2Pa(Pa2Pte(pa) + low) == pa / 4096 * 4096
  {
    Pow2Values();
    var ppn := pa / 4096;
    ShlIs(ppn, 10);
    SmallMod(ppn * 1024, WORD);
    SmallMod(ppn * 4096, WORD);
    Split(ppn * 1024 + low, 10);
    DivModUnique(ppn * 1024 + low, 1024, ppn, low);
  }

  lemma LeafPteIs(pa: nat, attr: nat)
    requires pa / 4096 < PPNS && attr < 1024
    ensures LeafPte(pa, attr) == pa / 4096 * 1024 + SetV(attr)
  {
    hide Or;
    Pow2Values();
    PteRoundTrip(pa, 0);
    OrFields(pa / 4096, attr, 10);
    OrOne(pa / 4096 * 1024 + attr);
    BitBelow(pa / 4096, attr, 1, 512);
  }

  /** Bits below the page number do not depend on it; d is the weight of the bit. */
  lemma BitBelow(q: nat, f: nat, d: nat, m: nat)
    requires d > 0 && 2 * m * d == 1024
    ensures (q * 1024 + f) / d % 2 == f / d % 2
  {
    var a := f / d;
    assert 2 * (m * q) * d == q * (2 * m * d);
    assert (2 * (m * q) + a) * d == 2 * (m * q) * d + a * d;
    DivModUnique(q * 1024 + f, d, 2 * (m * q) + a, f % d);
    EvenPlus(m * q, a);
  }

  lemma EvenPlus(k: nat, a: nat)
    ensures (2 * k + a) % 2 == a % 2
  {
  }

  function SetV(attr: nat): (f: nat)
    ensures attr < 1024 ==> f < 1024
  {
    attr + 1 - attr % 2
  }

  // ----- the hardware walk -----

  type Memory = map<nat, seq<nat>>   // page address to its 512 words

  /** Memory after one word of one page is written. */
  function Store(m: Memory, p: nat, i: nat, e: nat): Memory
    requires p in m && i < |m[p]|
  {
    var words: seq<nat> := m[p][i := e];
    m[p := words]
  }

  predicate V(e: nat) { e % 2 == 1 }
  predicate R(e: nat) { e / 2 % 2 == 1 }
  predicate W(e: nat) { e / 4 % 2 == 1 }
  predicate X(e: nat) { e / 8 % 2 == 1 }
  predicate Uad(e: nat) { e / 16 % 2 == 1 || e / 64 % 2 == 1 || e / 128 % 2 == 1 }

  /** The physical page a PTE names: bits 53 to 10. */
  function Target(e: nat): nat {
    e / 1024 % PPNS * PAGE_SIZE
  }

  function Index(vpn: nat, level: nat): (i: nat)
    ensures i < 512
  {
    if level == 0 then vpn % 512
    else if level == 1 then vpn / 512 % 512
    else vpn / 0x4_0000 % 512
  }

  datatype Translation = Fault | Leaf(ppn: nat, flags: nat, level: nat)

  /** Steps 2 to 6 of section 4.3.2 at one level; 512^level pages must divide a superpage. */
  function Walk(m: Memory, table: nat, level: nat, vpn: nat): Translation
    decreases level
  {
    if table !in m || |m[table]| != 512 then Fault
    else
      var e := m[table][Index(vpn, level)];
      if !V(e) || (!R(e) && W(e)) || e / 1024 >= PPNS then Fault
      else if R(e) || X(e) then
        if level == 0 || e / 1024 % (if level == 1 then 512 else 0x4_0000) == 0
        then Leaf(e / 1024, e % 1024, level) else Fault
      else if level == 0 || Uad(e) then Fault
      else Walk(m, Target(e), level - 1, vpn)
  }

  function Translate(m: Memory, root: nat, vpn: nat): Translation {
    Walk(m, root, 2, vpn)
  }

  /** Attributes the hardware accepts for a leaf: R or X, and W only beside R. */
  predicate LeafAttr(attr: nat) {
    (R(attr) || X(attr)) && (W(attr) ==> R(attr))
  }

  /** What a page mapped to physical page ppn with attr translates to. */
  function Mapped(ppn: nat, attr: nat): Translation {
    if LeafAttr(attr) then Leaf(ppn, SetV(attr), 0) else Fault
  }

  /** What the walk makes of a word found in a last-level table. */
  function AtLeaf(e: nat): Translation {
    if V(e) && LeafAttr(e) && e / 1024 < PPNS then Leaf(e / 1024, e % 1024, 0) else Fault
  }

  lemma AtLeafOfPte(ppn: nat, attr: nat)
    requires ppn < PPNS && attr < 1024
    ensures AtLeaf(ppn * 1024 + SetV(attr)) == Mapped(ppn, attr)
  {
    FlagsOfPte(ppn, attr);
  }

  lemma FlagsOfPte(ppn: nat, attr: nat)
    requires attr < 1024
    ensures var e := ppn * 1024 + SetV(attr);
            && V(e) && e / 1024 == ppn && e % 1024 == SetV(attr)
            && R(e) == R(attr) && W(e) == W(attr) && X(e) == X(attr)
  {
    var f := SetV(attr);
    DivModUnique(ppn * 1024 + f, 1024, ppn, f);
    BitBelow(ppn, f, 1, 512);
    BitBelow(ppn, f, 2, 256);
    BitBelow(ppn, f, 4, 128);
    BitBelow(ppn, f, 8, 64);
    SetVKeepsRest(attr);
  }

  lemma SetVKeepsRest(attr: nat)
    ensures var f := SetV(attr); V(f) && f / 2 == attr / 2 && f / 4 == attr / 4 && f / 8 == attr / 8
  {
    var f := SetV(attr);
    assert f / 2 == attr / 2;
    assert f / 4 == f / 2 / 2 && attr / 4 == attr / 2 / 2;
    assert f / 8 == f / 4 / 2 && attr / 8 == attr / 4 / 2;
  }

  // ----- the tables the kernel builds -----

  /**
    Where each table page hangs: a middle table at one slot of the root, a last-level
    table at one slot of one middle table.  A page is a key once, so no table is shared.
  */
  datatype Tree = Tree(root: nat, mids: map<nat, nat>, lows: map<nat, (nat, nat)>) {
    function Tables(): set<nat> {
      {root} + mids.Keys + lows.Keys
    }
  }

  predicate IsPage(p: nat) {
    p % 4096 == 0 && p / 4096 < PPNS
  }

  predicate IsMemory(m: Memory) {
    forall p :: p in m ==> |m[p]| == 512 && IsPage(p)
  }

  /** A valid entry above the last level is a bare link, never a superpage. */
  predicate IsLink(e: nat) {
    e % 1024 == 1 && e / 1024 < PPNS
  }

  predicate RootLinksDown(m: Memory, t: Tree)
    requires t.root in m && |m[t.root]| == 512
  {
    forall i :: 0 <= i < 512 && V(m[t.root][i]) ==>
      var e := m[t.root][i]; IsLink(e) && Target(e) in t.mids && t.mids[Target(e)] == i
  }

  predicate MidsLinkDown(m: Memory, t: Tree)
    requires forall p :: p in t.mids ==> p in m && |m[p]| == 512
  {
    forall p, j :: p in t.mids && 0 <= j < 512 && V(m[p][j]) ==>
      var e := m[p][j]; IsLink(e) && Target(e) in t.lows && t.lows[Target(e)] == (t.mids[p], j)
  }

  predicate MidsHang(m: Memory, t: Tree)
    requires t.root in m && |m[t.root]| == 512
  {
    forall p :: p in t.mids ==>
      t.mids[p] < 512 && V(m[t.root][t.mids[p]]) && Target(m[t.root][t.mids[p]]) == p
  }

  predicate LowsHang(m: Memory, t: Tree)
    requires t.root in m && |m[t.root]| == 512
    requires forall p :: p in t.mids ==> p in m && |m[p]| == 512
  {
    forall q :: q in t.lows ==>
      var (i, j) := t.lows[q];
      i < 512 && j < 512 && V(m[t.root][i]) &&
      var p := Target(m[t.root][i]);
      p in t.mids && V(m[p][j]) && Target(m[p][j]) == q
  }

  predicate TreeOk(m: Memory, t: Tree) {
    && IsMemory(m)
    && t.Tables() <= m.Keys
    && t.root !in t.mids && t.root !in t.lows && t.mids.Keys !! t.lows.Keys
    && RootLinksDown(m, t) && MidsLinkDown(m, t) && MidsHang(m, t) && LowsHang(m, t)
  }

  /** The walk through well-formed tables, level by level. */
  function TreeWalk(m: Memory, t: Tree, vpn: nat): Translation
    requires TreeOk(m, t)
  {
    var e2 := m[t.root][Index(vpn, 2)];
    if !V(e2) then Fault else
    var e1 := m[Target(e2)][Index(vpn, 1)];
    if !V(e1) then Fault else
    AtLeaf(m[Target(e1)][Index(vpn, 0)])
  }

  lemma LinkIsNoLeaf(e: nat)
    requires IsLink(e)
    ensures V(e) && !R(e) && !W(e) && !X(e) && !Uad(e) && e / 1024 < PPNS
  {
    var q := e / 1024;
    assert e == q * 1024 + 1;
    BitBelow(q, 1, 2, 256);
    BitBelow(q, 1, 4, 128);
    BitBelow(q, 1, 8, 64);
    BitBelow(q, 1, 16, 32);
    BitBelow(q, 1, 64, 8);
    BitBelow(q, 1, 128, 4);
    BitBelow(q, 1, 1, 512);
  }

  lemma ZeroInvalid()
    ensures !V(0) && AtLeaf(0) == Fault
  {
  }

  lemma WalkIsTreeWalk(m: Memory, t: Tree, vpn: nat)
    requires TreeOk(m, t)
    ensures Translate(m, t.root, vpn) == TreeWalk(m, t, vpn)
  {
    var e2 := m[t.root][Index(vpn, 2)];
    if V(e2) {
      LinkIsNoLeaf(e2);
      var mid := Target(e2);
      var e1 := m[mid][Index(vpn, 1)];
      assert Translate(m, t.root, vpn) == Walk(m, mid, 1, vpn);
      if V(e1) {
        LinkIsNoLeaf(e1);
        assert Walk(m, mid, 1, vpn) == Walk(m, Target(e1), 0, vpn);
      }
    }
  }

  /** The slot that a page number selects at the last two levels. */
  function Path(vpn: nat): (nat, nat) {
    (Index(vpn, 2), Index(vpn, 1))
  }

  lemma VpnFromPath(a: nat, b: nat)
    requires a < VPNS && b < VPNS && Path(a) == Path(b) && Index(a, 0) == Index(b, 0)
    ensures a == b
  {
    SplitVpn(a);
    SplitVpn(b);
  }

  lemma SplitVpn(v: nat)
    requires v < VPNS
    ensures v == Index(v, 2) * 0x4_0000 + Index(v, 1) * 512 + Index(v, 0)
  {
    var w := v / 512;
    assert v == w * 512 + v % 512;
    assert w == w / 512 * 512 + w % 512;
    assert v / 0x4_0000 == w / 512;
    SmallMod(w / 512, 512);
  }

  /** Writing one word of a last-level table changes one translation and no other. */
  lemma WriteLeaf(m: Memory, t: Tree, q: nat, vpn: nat, e: nat)
    requires TreeOk(m, t) && q in t.lows && t.lows[q] == Path(vpn) && vpn < VPNS
    ensures var m' := Store(m, q, Index(vpn, 0), e);
            && TreeOk(m', t)
            && (forall v :: 0 <= v < VPNS ==>
                  Translate(m', t.root, v) == if v == vpn then AtLeaf(e) else Translate(m, t.root, v))
  {
    var m' := Store(m, q, Index(vpn, 0), e);
    assert TreeOk(m', t);
    forall v | 0 <= v < VPNS
      ensures Translate(m', t.root, v) == if v == vpn then AtLeaf(e) else Translate(m, t.root, v)
    {
      WalkIsTreeWalk(m, t, v);
      WalkIsTreeWalk(m', t, v);
      if v != vpn && Path(v) == Path(vpn) && Index(v, 0) == Index(vpn, 0) {
        VpnFromPath(v, vpn);
      }
    }
  }

  function Zeros(): (z: seq<nat>)
    ensures |z| == 512 && forall i :: 0 <= i < 512 ==> z[i] == 0
  {
    seq(512, _ => 0)
  }

  lemma LinkReadsBack(e: nat)
    requires IsLink(e)
    ensures Pte2Pa(e) == Target(e)
  {
    var ppn := e / 1024;
    SmallMod(ppn, PPNS);
    PteRoundTrip(ppn * 4096, 1);
    DivModUnique(ppn * 4096, 4096, ppn, 0);
  }

  /** A link to page f, as pgTraverseAndCreate stores it: PA2PTE(f) | PTE_V. */
  lemma LinkPteIs(f: nat)
    requires IsPage(f)
    ensures var e := Or(Pa2Pte(f), 1); IsLink(e) && Target(e) == f && Pte2Pa(e) == f
  {
    PteRoundTrip(f, 1);
    OrOne(Pa2Pte(f));
  }

  /** Hanging a zeroed page in an empty slot of the root changes no translation. */
  lemma LinkMid(m: Memory, t: Tree, f: nat, i: nat, e: nat)
    requires TreeOk(m, t) && f in m && f !in t.Tables() && m[f] == Zeros()
    requires i < 512 && !V(m[t.root][i]) && IsLink(e) && Target(e) == f
    ensures var m', t' := Store(m, t.root, i, e), t.(mids := t.mids[f := i]);
            && TreeOk(m', t')
            && forall v :: 0 <= v < VPNS ==> Translate(m', t.root, v) == Translate(m, t.root, v)
  {
    LinkMidTree(m, t, f, i, e);
    forall v | 0 <= v < VPNS ensures Translate(Store(m, t.root, i, e), t.root, v) == Translate(m, t.root, v) {
      LinkMidWalk(m, t, f, i, e, v);
    }
  }

  lemma LinkMidTree(m: Memory, t: Tree, f: nat, i: nat, e: nat)
    requires TreeOk(m, t) && f in m && f !in t.Tables() && m[f] == Zeros()
    requires i < 512 && !V(m[t.root][i]) && IsLink(e) && Target(e) == f
    ensures TreeOk(Store(m, t.root, i, e), t.(mids := t.mids[f := i]))
  {
    hide V;
    hide Target;
    hide IsLink;
    hide IsPage;
    hide Index;
    hide AtLeaf;
    var m', t' := Store(m, t.root, i, e), t.(mids := t.mids[f := i]);
    LinkIsNoLeaf(e);
    ZeroInvalid();
    assert m'[f] == Zeros();
    forall p | p in t.mids ensures t.mids[p] != i { assert V(m[t.root][t.mids[p]]); }
    assert MidsLinkDown(m', t');
    forall q | q in t.lows ensures t.lows[q].0 != i { assert V(m[t.root][t.lows[q].0]); }
    assert LowsHang(m', t');
  }

  lemma LinkMidWalk(m: Memory, t: Tree, f: nat, i: nat, e: nat, v: nat)
    requires TreeOk(m, t) && f in m && f !in t.Tables() && m[f] == Zeros()
    requires i < 512 && !V(m[t.root][i]) && IsLink(e) && Target(e) == f
    ensures Translate(Store(m, t.root, i, e), t.root, v) == Translate(m, t.root, v)
  {
    hide V;
    hide Target;
    hide IsLink;
    hide IsPage;
    hide Index;
    hide AtLeaf;
    var m', t' := Store(m, t.root, i, e), t.(mids := t.mids[f := i]);
    LinkMidTree(m, t, f, i, e);
    LinkIsNoLeaf(e);
    ZeroInvalid();
    WalkIsTreeWalk(m, t, v);
    WalkIsTreeWalk(m', t', v);
  }

  /** Hanging a zeroed page in an empty slot of a middle table changes no translation. */
  lemma LinkLow(m: Memory, t: Tree, p: nat, f: nat, j: nat, e: nat)
    requires TreeOk(m, t) && f in m && f !in t.Tables() && m[f] == Zeros()
    requires p in t.mids && j < 512 && !V(m[p][j]) && IsLink(e) && Target(e) == f
    ensures var m', t' := Store(m, p, j, e), t.(lows := t.lows[f := (t.mids[p], j)]);
            && TreeOk(m', t')
            && forall v :: 0 <= v < VPNS ==> Translate(m', t.root, v) == Translate(m, t.root, v)
  {
    LinkLowTree(m, t, p, f, j, e);
    forall v | 0 <= v < VPNS ensures Translate(Store(m, p, j, e), t.root, v) == Translate(m, t.root, v) {
      LinkLowWalk(m, t, p, f, j, e, v);
    }
  }

  lemma LinkLowTree(m: Memory, t: Tree, p: nat, f: nat, j: nat, e: nat)
    requires TreeOk(m, t) && f in m && f !in t.Tables() && m[f] == Zeros()
    requires p in t.mids && j < 512 && !V(m[p][j]) && IsLink(e) && Target(e) == f
    ensures TreeOk(Store(m, p, j, e), t.(lows := t.lows[f := (t.mids[p], j)]))
  {
    hide V;
    hide Target;
    hide IsLink;
    hide IsPage;
    hide LowsHang;
    var m', t' := Store(m, p, j, e), t.(lows := t.lows[f := (t.mids[p], j)]);
    LinkIsNoLeaf(e);
    ZeroInvalid();
    assert RootLinksDown(m', t') && MidsHang(m', t');
    assert MidsLinkDown(m', t');
    LinkLowHangs(m, t, p, f, j, e);
  }

  lemma LinkLowHangs(m: Memory, t: Tree, p: nat, f: nat, j: nat, e: nat)
    requires TreeOk(m, t) && f in m && f !in t.Tables()
    requires p in t.mids && j < 512 && !V(m[p][j]) && IsLink(e) && Target(e) == f
    ensures var m' := Store(m, p, j, e); t.root in m' && |m'[t.root]| == 512
    ensures var m' := Store(m, p, j, e); forall p :: p in t.mids ==> p in m' && |m'[p]| == 512
    ensures LowsHang(Store(m, p, j, e), t.(lows := t.lows[f := (t.mids[p], j)]))
  {
    hide V;
    hide Target;
    hide IsLink;
    hide IsPage;
    hide RootLinksDown;
    hide MidsLinkDown;
    LinkIsNoLeaf(e);
    forall q | q in t.lows ensures t.lows[q] != (t.mids[p], j) {
      assert MidsHang(m, t) && LowsHang(m, t);
    }
  }

  lemma LinkLowWalk(m: Memory, t: Tree, p: nat, f: nat, j: nat, e: nat, v: nat)
    requires TreeOk(m, t) && f in m && f !in t.Tables() && m[f] == Zeros()
    requires p in t.mids && j < 512 && !V(m[p][j]) && IsLink(e) && Target(e) == f
    ensures Translate(Store(m, p, j, e), t.root, v) == Translate(m, t.root, v)
  {
    hide V;
    hide Target;
    hide IsLink;
    hide IsPage;
    hide Index;
    hide AtLeaf;
    var m', t' := Store(m, p, j, e), t.(lows := t.lows[f := (t.mids[p], j)]);
    LinkLowTree(m, t, p, f, j, e);
    LinkIsNoLeaf(e);
    ZeroInvalid();
    WalkIsTreeWalk(m, t, v);
    WalkIsTreeWalk(m', t', v);
    var e2 := m[t.root][Index(v, 2)];
    if V(e2) && (Target(e2) != p || Index(v, 1) != j) {
      var e1 := m[Target(e2)][Index(v, 1)];
      assert m'[Target(e2)][Index(v, 1)] == e1;
      assert V(e1) ==> Target(e1) in t.lows;
    }
  }
}
