/**
  The process queues: doubly linked lists threaded through one array, where entry i below
  NPROC is process i and each queue has a head and a tail entry above.  The table refines a
  sequence of disjoint sequences of processes.
*/
module Queues {
  import opened Types
  import opened Config
  import opened Bits

  // ----- queue ids (queue.h) -----

  function QueueHead(q: nat): nat { And(Shr(q, 16), 0xFFFF) }
  function QueueTail(q: nat): nat { And(q, 0xFFFF) }

  predicate IsBadQueue(q: nat) {
    QueueHead(q) != QueueTail(q) - 1 || QueueTail(q) >= NQENT
  }

  /** isbadqueue in plain numbers: the two halves must be neighbours inside the table. */
  lemma BadQueueIs(q: nat)
    ensures IsBadQueue(q) <==> q / 65536 % 65536 != q % 65536 - 1 || q % 65536 >= 174
  {
    hide And;
    hide Shr;
    hide Pow2;
    Pow2Values();
    AndMask(Shr(q, 16), 16);
    AndMask(q, 16);
    Split(q, 16);
  }

  function Head(k: nat): nat { NPROC + 2 * k }
  function Tail(k: nat): nat { NPROC + 2 * k + 1 }

  /** The id newqueue returns for the k-th queue: (head << 16) | (tail & 0xFFFF). */
  function Qid(k: nat): nat { Or(Shl(Head(k), 16), And(Tail(k), 0xFFFF)) }

  lemma QidRoundTrip(k: nat)
    requires k < NQUEUE
    ensures QueueHead(Qid(k)) == Head(k) && QueueTail(Qid(k)) == Tail(k) && !IsBadQueue(Qid(k))
  {
    hide And;
    hide Or;
    hide Shl;
    hide Shr;
    Pow2Values();
    TwoFields(Head(k), Tail(k), 16);
  }

  /** Two fields of n bits packed into one word and read back. */
  /** The id of the k-th queue in plain numbers: head and tail behind the processes, two entries a queue. */
  lemma QidIs(k: nat)
    requires k < NQUEUE
    ensures Qid(k) == (50 + 2 * k) * 65536 + (51 + 2 * k)
  {
    hide And;
    hide Or;
    hide Shl;
    hide Pow2;
    Pow2Values();
    AndMask(Tail(k), 16);
    SmallMod(Tail(k), 65536);
    ShlIs(Head(k), 16);
    OrFields(Head(k), Tail(k), 16);
  }

  lemma TwoFields(h: nat, t: nat, n: nat)
    requires h < Pow2(n) && t < Pow2(n)
    ensures var q := Or(Shl(h, n), And(t, Pow2(n) - 1));
            And(Shr(q, n), Pow2(n) - 1) == h && And(q, Pow2(n) - 1) == t
  {
    hide And;
    hide Or;
    hide Shl;
    hide Shr;
    hide Pow2;
    AndMask(t, n);
    DivModUnique(t, Pow2(n), 0, t);
    ShlIs(h, n);
    OrFields(h, t, n);
    var q := h * Pow2(n) + t;
    Split(q, n);
    DivModUnique(q, Pow2(n), h, t);
    AndMask(h, n);
    DivModUnique(h, Pow2(n), 0, h);
    AndMask(q, n);
  }

  // ----- chains -----

  ghost predicate InTable(nx: seq<int>, pv: seq<int>, n: seq<int>) {
    |nx| == |pv| && forall i :: 0 <= i < |n| ==> 0 <= n[i] < |nx|
  }

  ghost predicate LinkAt(nx: seq<int>, pv: seq<int>, n: seq<int>, i: nat)
    requires InTable(nx, pv, n) && i + 1 < |n|
  {
    nx[n[i]] == n[i + 1] && pv[n[i + 1]] == n[i]
  }

  /** Consecutive entries of n point at each other. */
  ghost predicate Chain(nx: seq<int>, pv: seq<int>, n: seq<int>) {
    InTable(nx, pv, n) && forall i :: 0 <= i < |n| - 1 ==> LinkAt(nx, pv, n, i)
  }

  lemma ChainFrame(nx: seq<int>, pv: seq<int>, nx': seq<int>, pv': seq<int>, n: seq<int>)
    requires Chain(nx, pv, n) && |nx'| == |pv'| == |nx|
    requires forall i :: 0 <= i < |n| ==> nx'[n[i]] == nx[n[i]] && pv'[n[i]] == pv[n[i]]
    ensures Chain(nx', pv', n)
  {
    forall i | 0 <= i < |n| - 1 ensures LinkAt(nx', pv', n, i) {
      assert LinkAt(nx, pv, n, i);
    }
  }

  /** Linking p in between the last entry of a and the first of b. */
  lemma ChainInsert(nx: seq<int>, pv: seq<int>, a: seq<int>, p: int, b: seq<int>)
    requires Chain(nx, pv, a + b) && a != [] && b != [] && 0 <= p < |nx|
    requires Distinct(a + b) && p !in a + b
    ensures var x, y := a[|a| - 1], b[0];
            0 <= x < |nx| && 0 <= y < |nx| && Chain(nx[p := y][x := p], pv[p := x][y := p], a + [p] + b)
  {
    var n, m := a + b, a + [p] + b;
    var k := |a|;
    assert n[k - 1] == a[k - 1] && n[k] == b[0];
    var x, y := a[k - 1], b[0];
    var nx', pv' := nx[p := y][x := p], pv[p := x][y := p];
    forall i | 0 <= i < |m| ensures 0 <= m[i] < |nx| && m[i] == if i < k then n[i] else if i == k then p else n[i - 1] {
      assert i < k ==> m[i] == n[i];
      assert i > k ==> m[i] == n[i - 1];
    }
    forall i | 0 <= i < |m| - 1 ensures LinkAt(nx', pv', m, i) {
      if i < k - 1 {
        assert LinkAt(nx, pv, n, i);
        assert n[i] != n[k - 1] && n[i + 1] != n[k];
      } else if i > k {
        assert LinkAt(nx, pv, n, i - 1);
        assert n[i - 1] != n[k - 1] && n[i] != n[k];
      }
    }
  }

  /** Unlinking p: its neighbours are made to point at each other. */
  lemma ChainDelete(nx: seq<int>, pv: seq<int>, a: seq<int>, p: int, b: seq<int>)
    requires Chain(nx, pv, a + [p] + b) && a != [] && b != [] && Distinct(a + [p] + b)
    ensures var x, y := a[|a| - 1], b[0];
            && 0 <= p < |nx| && 0 <= x < |nx| && 0 <= y < |nx| && pv[p] == x && nx[p] == y
            && Chain(nx[x := y], pv[y := x], a + b)
  {
    var n, m := a + b, a + [p] + b;
    var k := |a|;
    assert forall i :: 0 <= i < |m| ==> m[i] == if i < k then n[i] else if i == k then p else n[i - 1];
    forall i | 0 <= i < |n| ensures 0 <= n[i] < |nx| {
      assert n[i] == if i < k then m[i] else m[i + 1];
    }
    assert LinkAt(nx, pv, m, k - 1) && LinkAt(nx, pv, m, k);
    var x, y := a[k - 1], b[0];
    assert m[k - 1] == x && m[k + 1] == y;
    var nx', pv' := nx[x := y], pv[y := x];
    forall i | 0 <= i < |n| - 1 ensures LinkAt(nx', pv', n, i) {
      if i < k - 1 {
        assert LinkAt(nx, pv, m, i);
        assert m[i] != m[k - 1] && m[i + 1] != m[k + 1];
      } else if i > k - 1 {
        assert LinkAt(nx, pv, m, i + 1);
        assert m[i + 1] != m[k - 1] && m[i + 2] != m[k + 1];
      }
    }
  }

  // ----- the table as sequences -----

  function Nodes(k: nat, l: seq<int>): seq<int> {
    [Head(k)] + l + [Tail(k)]
  }

  /** Every member is a process, and no process is in two places. */
  ghost predicate Placed(lists: seq<seq<int>>) {
    && (forall k, i :: 0 <= k < |lists| && 0 <= i < |lists[k]| ==> 0 <= lists[k][i] < NPROC)
    && (forall k :: 0 <= k < |lists| ==> Distinct(lists[k]))
    && (forall j, k, p :: 0 <= j < |lists| && 0 <= k < |lists| && p in lists[j] && p in lists[k] ==> j == k)
  }

  ghost predicate QueueOk(nx: seq<int>, pv: seq<int>, k: nat, l: seq<int>) {
    && Chain(nx, pv, Nodes(k, l)) && Tail(k) < |nx|
    && pv[Head(k)] == EMPTY && nx[Tail(k)] == EMPTY
  }

  ghost predicate Refines(nx: seq<int>, pv: seq<int>, lists: seq<seq<int>>) {
    && |nx| == |pv| == NQENT && |lists| <= NQUEUE && Placed(lists)
    && forall k :: 0 <= k < |lists| ==> QueueOk(nx, pv, k, lists[k])
  }

  lemma NodesDistinct(k: nat, l: seq<int>)
    requires Distinct(l) && forall i :: 0 <= i < |l| ==> 0 <= l[i] < NPROC
    ensures Distinct(Nodes(k, l))
  {
    var n := Nodes(k, l);
    assert forall i :: 0 <= i < |n| ==> n[i] == if i == 0 then Head(k) else if i <= |l| then l[i - 1] else Tail(k);
  }

  /** A queue whose entries were not written is as it was. */
  lemma QueueKept(nx: seq<int>, pv: seq<int>, nx': seq<int>, pv': seq<int>, j: nat, l: seq<int>)
    requires QueueOk(nx, pv, j, l) && |nx'| == |pv'| == |nx|
    requires nx'[Head(j)] == nx[Head(j)] && pv'[Head(j)] == pv[Head(j)]
    requires nx'[Tail(j)] == nx[Tail(j)] && pv'[Tail(j)] == pv[Tail(j)]
    requires forall i :: 0 <= i < |l| ==> 0 <= l[i] < |nx| && nx'[l[i]] == nx[l[i]] && pv'[l[i]] == pv[l[i]]
    ensures QueueOk(nx', pv', j, l)
  {
    var n := Nodes(j, l);
    forall i | 0 <= i < |n| ensures nx'[n[i]] == nx[n[i]] && pv'[n[i]] == pv[n[i]] {
      if 0 < i <= |l| { assert n[i] == l[i - 1]; }
    }
    ChainFrame(nx, pv, nx', pv', n);
  }

  ghost predicate Absent(lists: seq<seq<int>>, p: int) {
    forall k :: 0 <= k < |lists| ==> p !in lists[k]
  }

  lemma PlacedAdd(lists: seq<seq<int>>, k: nat, p: int)
    requires Placed(lists) && k < |lists| && 0 <= p < NPROC && Absent(lists, p)
    ensures Placed(lists[k := lists[k] + [p]])
  {
    var lists' := lists[k := lists[k] + [p]];
    assert Distinct(lists[k] + [p]);
    forall j, m, q | 0 <= j < |lists| && 0 <= m < |lists| && q in lists'[j] && q in lists'[m] ensures j == m {
      assert q == p || (q in lists[j] && q in lists[m]);
    }
  }

  function Without(l: seq<int>, i: nat): seq<int>
    requires i < |l|
  {
    l[..i] + l[i + 1..]
  }

  lemma WithoutMembers(l: seq<int>, i: nat)
    requires Distinct(l) && i < |l|
    ensures Distinct(Without(l, i))
    ensures forall q :: q in Without(l, i) <==> q in l && q != l[i]
  {
    var w := Without(l, i);
    assert forall j :: 0 <= j < |w| ==> w[j] == l[if j < i then j else j + 1];
    forall q | q in l && q != l[i] ensures q in w {
      var j :| 0 <= j < |l| && l[j] == q;
      assert w[if j < i then j else j - 1] == q;
    }
  }

  lemma PlacedRemove(lists: seq<seq<int>>, k: nat, i: nat)
    requires Placed(lists) && k < |lists| && i < |lists[k]|
    ensures Placed(lists[k := Without(lists[k], i)])
    ensures Absent(lists[k := Without(lists[k], i)], lists[k][i])
  {
    var w := Without(lists[k], i);
    WithoutMembers(lists[k], i);
    forall j | 0 <= j < |w| ensures 0 <= w[j] < NPROC { assert w[j] in w && w[j] in lists[k]; }
  }

  /** Entries of queue k and of process p are no entries of another queue j. */
  lemma Apart(lists: seq<seq<int>>, j: nat, k: nat, e: int)
    requires Placed(lists) && j < |lists| && k < |lists| && j != k
    requires e == Head(k) || e == Tail(k) || e in lists[k] || (0 <= e < NPROC && Absent(lists, e))
    ensures e != Head(j) && e != Tail(j) && forall i :: 0 <= i < |lists[j]| ==> lists[j][i] != e
  {
    forall i | 0 <= i < |lists[j]| ensures lists[j][i] != e {
      assert lists[j][i] in lists[j];
    }
  }

  // ----- enqueue -----

  lemma EnqueueOne(nx: seq<int>, pv: seq<int>, k: nat, l: seq<int>, p: int)
    requires QueueOk(nx, pv, k, l) && Distinct(l) && 0 <= p < NPROC && p !in l && |nx| == NQENT
    requires forall i :: 0 <= i < |l| ==> 0 <= l[i] < NPROC
    ensures var t, x := Tail(k), pv[Tail(k)];
            && x == (if l == [] then Head(k) else l[|l| - 1])
            && QueueOk(nx[p := t][x := p], pv[p := x][t := p], k, l + [p])
  {
    var a, b := [Head(k)] + l, [Tail(k)];
    NodesDistinct(k, l);
    assert Nodes(k, l) == a + b;
    assert LinkAt(nx, pv, Nodes(k, l), |l|);
    ChainInsert(nx, pv, a, p, b);
    assert Nodes(k, l + [p]) == a + [p] + b;
  }

  /** Entry p written between the last member and the tail appends it to queue k alone. */
  lemma EnqueueRefines(nx: seq<int>, pv: seq<int>, lists: seq<seq<int>>, k: nat, p: int)
    requires Refines(nx, pv, lists) && k < |lists| && 0 <= p < NPROC && Absent(lists, p)
    ensures var t, x := Tail(k), pv[Tail(k)];
            0 <= x < NQENT && Refines(nx[p := t][x := p], pv[p := x][t := p], lists[k := lists[k] + [p]])
  {
    var l, t := lists[k], Tail(k);
    assert QueueOk(nx, pv, k, l);
    EnqueueOne(nx, pv, k, l, p);
    PlacedAdd(lists, k, p);
    var x := pv[t];
    var nx', pv' := nx[p := t][x := p], pv[p := x][t := p];
    forall j | 0 <= j < |lists| && j != k ensures QueueOk(nx', pv', j, lists[j]) {
      Apart(lists, j, k, p);
      Apart(lists, j, k, t);
      Apart(lists, j, k, x);
      assert QueueOk(nx, pv, j, lists[j]);
      QueueKept(nx, pv, nx', pv', j, lists[j]);
    }
  }

  /** The links enqueue writes spell the queue with p at its end if and only if p was in no queue. */
  lemma EnqueueIff(nx: seq<int>, pv: seq<int>, lists: seq<seq<int>>, k: nat, p: int)
    requires Refines(nx, pv, lists) && k < |lists| && 0 <= p < NPROC
    ensures var t, x := Tail(k), pv[Tail(k)];
            && 0 <= x < NQENT
            && (Refines(nx[p := t][x := p], pv[p := x][t := p], lists[k := lists[k] + [p]]) <==> Absent(lists, p))
            && !Refines(nx[p := t][x := p], pv[p := x][t := p], lists)
  {
    hide Absent;
    var l, n, t, x := lists[k], Nodes(k, lists[k]), Tail(k), pv[Tail(k)];
    assert QueueOk(nx, pv, k, l) && LinkAt(nx, pv, n, |l|) && n[|l|] == x && n[|l| + 1] == t;
    var nx', pv' := nx[p := t][x := p], pv[p := x][t := p];
    assert QueueOk(nx', pv', k, l) ==> LinkAt(nx', pv', n, |l|);
    if Absent(lists, p) {
      EnqueueRefines(nx, pv, lists, k, p);
    } else {
      TwicePlaced(lists, k, p);
    }
  }

  lemma TwicePlaced(lists: seq<seq<int>>, k: nat, p: int)
    requires k < |lists| && !Absent(lists, p)
    ensures !Placed(lists[k := lists[k] + [p]])
  {
    var j :| 0 <= j < |lists| && p in lists[j];
    var l' := lists[k := lists[k] + [p]];
    assert l'[k][|lists[k]|] == p && p in l'[k] && p in l'[j];
    if j == k {
      var i :| 0 <= i < |lists[k]| && lists[k][i] == p;
      assert l'[k][i] == p;
      assert !Distinct(l'[k]);
    }
  }

  // ----- remove and dequeue -----

  /** The entries that remove would write for p are in no queue, or say already what it writes. */
  ghost predicate Spared(nx: seq<int>, pv: seq<int>, lists: seq<seq<int>>, p: int)
    requires |nx| == |pv| && 0 <= p < |nx| && 0 <= pv[p] < |nx| && 0 <= nx[p] < |nx|
  {
    forall k, i :: 0 <= k < |lists| && 0 <= i < |Nodes(k, lists[k])| ==>
                     EntrySpared(nx, pv, Nodes(k, lists[k])[i], p)
  }

  ghost predicate EntrySpared(nx: seq<int>, pv: seq<int>, e: int, p: int)
    requires |nx| == |pv| && 0 <= p < |nx| && 0 <= pv[p] < |nx| && 0 <= nx[p] < |nx|
  {
    (e == pv[p] ==> nx[e] == nx[p]) && (e == nx[p] ==> pv[e] == pv[p])
  }

  /** Removing a process leaves all queues as they are if and only if its entry's links spare them. */
  lemma SparedIff(nx: seq<int>, pv: seq<int>, lists: seq<seq<int>>, p: int)
    requires Refines(nx, pv, lists) && 0 <= p < NPROC && 0 <= pv[p] < NQENT && 0 <= nx[p] < NQENT
    ensures Refines(nx[pv[p] := nx[p]], pv[nx[p] := pv[p]], lists) <==> Spared(nx, pv, lists, p)
  {
    hide Placed;
    var nx', pv' := nx[pv[p] := nx[p]], pv[nx[p] := pv[p]];
    forall k | 0 <= k < |lists|
      ensures QueueOk(nx', pv', k, lists[k])
         <==> forall i :: 0 <= i < |Nodes(k, lists[k])| ==> EntrySpared(nx, pv, Nodes(k, lists[k])[i], p)
    {
      assert QueueOk(nx, pv, k, lists[k]);
      SparedOne(nx, pv, k, lists[k], p);
    }
  }

  lemma SparedOne(nx: seq<int>, pv: seq<int>, k: nat, l: seq<int>, p: int)
    requires QueueOk(nx, pv, k, l) && |nx| == NQENT && 0 <= p < NPROC && 0 <= pv[p] < NQENT && 0 <= nx[p] < NQENT
    ensures QueueOk(nx[pv[p] := nx[p]], pv[nx[p] := pv[p]], k, l)
       <==> forall i :: 0 <= i < |Nodes(k, l)| ==> EntrySpared(nx, pv, Nodes(k, l)[i], p)
  {
    var nx', pv', n := nx[pv[p] := nx[p]], pv[nx[p] := pv[p]], Nodes(k, l);
    assert n[0] == Head(k) && n[|l| + 1] == Tail(k);
    if forall i :: 0 <= i < |n| ==> EntrySpared(nx, pv, n[i], p) {
      forall i | 0 <= i < |n| ensures nx'[n[i]] == nx[n[i]] && pv'[n[i]] == pv[n[i]] {
        assert EntrySpared(nx, pv, n[i], p);
      }
      ChainFrame(nx, pv, nx', pv', n);
    } else {
      var i :| 0 <= i < |n| && !EntrySpared(nx, pv, n[i], p);
      if i < |n| - 1 { assert LinkAt(nx, pv, n, i) && (Chain(nx', pv', n) ==> LinkAt(nx', pv', n, i)); }
      if i > 0 { assert LinkAt(nx, pv, n, i - 1) && (Chain(nx', pv', n) ==> LinkAt(nx', pv', n, i - 1)); }
    }
  }

  /**
    Removing a process twice may lose another: the last member p of a queue is removed, q is
    appended, and the links that p still has then lead past q.
  */
  lemma RemovedTwice(nx: seq<int>, pv: seq<int>, lists: seq<seq<int>>, k: nat, l: seq<int>, p: int, q: int)
    requires Refines(nx, pv, lists) && k < |lists| && lists[k] == l + [p]
    requires 0 <= q < NPROC && Absent(lists, q)
    ensures 0 <= p < NPROC && 0 <= pv[p] < NQENT && nx[p] == Tail(k) < NQENT
    ensures var x, t := pv[p], Tail(k);
            var nx2, pv2 := nx[x := t][q := t][x := q], pv[t := x][q := x][t := q];
            var lists2 := lists[k := l + [q]];
            && Refines(nx2, pv2, lists2) && Absent(lists2, p)
            && !Refines(nx2[pv2[p] := nx2[p]], pv2[nx2[p] := pv2[p]], lists2)
  {
    hide Placed;
    RefinesPlaced(nx, pv, lists);
    RemovedLinks(nx, pv, lists, k, l, p, q);
    var i, x, t := |l|, pv[p], Tail(k);
    assert QueueOk(nx, pv, k, lists[k]);
    RemoveRefines(nx, pv, lists, k, i);
    PlacedRemove(lists, k, i);
    assert Without(lists[k], i) == l;
    var nx1, pv1, lists1 := nx[x := t], pv[t := x], lists[k := l];
    EnqueueRefines(nx1, pv1, lists1, k, q);
    var nx2, pv2, lists2 := nx1[q := t][x := q], pv1[q := x][t := q], lists1[k := l + [q]];
    assert lists2 == lists[k := l + [q]];
    SparedIff(nx2, pv2, lists2, p);
    var n := Nodes(k, l + [q]);
    assert n[|n| - 1] == t && lists2[k] == l + [q];
    assert !EntrySpared(nx2, pv2, t, p);
  }

  lemma RemovedLinks(nx: seq<int>, pv: seq<int>, lists: seq<seq<int>>, k: nat, l: seq<int>, p: int, q: int)
    requires Refines(nx, pv, lists) && k < |lists| && lists[k] == l + [p] && 0 <= q < NPROC && Absent(lists, q)
    ensures 0 <= p < NPROC && nx[p] == Tail(k) && q != p && pv[p] != q && pv[p] != p && 0 <= pv[p] < NQENT
  {
    var n := Nodes(k, lists[k]);
    assert QueueOk(nx, pv, k, lists[k]) && Distinct(lists[k]);
    assert n[|l|] == (if l == [] then Head(k) else l[|l| - 1]) && n[|l| + 1] == p && n[|l| + 2] == Tail(k);
    assert lists[k][|l|] == p && p in lists[k];
    assert l != [] ==> lists[k][|l| - 1] == l[|l| - 1] && l[|l| - 1] in lists[k];
    assert LinkAt(nx, pv, n, |l|) && LinkAt(nx, pv, n, |l| + 1);
  }

  /** The walk of remove from entry t comes to one whose prev is EMPTY in n steps or fewer. */
  predicate FindsHead(pv: seq<int>, t: int, n: nat)
    decreases n
  {
    && n > 0 && 0 <= t < |pv| && 0 <= pv[t] < |pv|
    && (pv[pv[t]] == EMPTY || FindsHead(pv, pv[t], n - 1))
  }

  /** And it stays inside the table for n steps, or until then. */
  predicate StaysInside(pv: seq<int>, t: int, n: nat)
    decreases n
  {
    n == 0 || (0 <= t < |pv| && 0 <= pv[t] < |pv| && (pv[pv[t]] == EMPTY || StaysInside(pv, pv[t], n - 1)))
  }

  lemma {:induction false} Inside(pv: seq<int>, t: int, n: nat, m: nat)
    requires FindsHead(pv, t, n)
    ensures StaysInside(pv, t, m)
    decreases n
  {
    if m > 0 && pv[pv[t]] != EMPTY { Inside(pv, pv[t], n - 1, m - 1); }
  }

  /** From the member at place i the walk comes to the head in i + 1 steps. */
  lemma {:induction false} MemberFindsHead(nx: seq<int>, pv: seq<int>, lists: seq<seq<int>>, k: nat, i: nat, n: nat)
    requires Refines(nx, pv, lists) && k < |lists| && i < |lists[k]| && i < n
    ensures FindsHead(pv, lists[k][i], n)
    decreases i
  {
    hide Refines;
    WalkBack(nx, pv, lists, k);
    assert pv[lists[k][i]] == Before(k, lists[k], i);
    if i > 0 { MemberFindsHead(nx, pv, lists, k, i - 1, n - 1); }
  }

  /** An entry that points at itself, as dequeue leaves it, is never told from a long queue. */
  lemma {:induction false} SelfLinkLost(pv: seq<int>, p: int, n: nat)
    requires 0 <= p < |pv| && pv[p] == p
    ensures StaysInside(pv, p, n) && !FindsHead(pv, p, n)
    decreases n
  {
    if n > 0 { SelfLinkLost(pv, p, n - 1); }
  }

  lemma RemoveOne(nx: seq<int>, pv: seq<int>, k: nat, l: seq<int>, i: nat)
    requires QueueOk(nx, pv, k, l) && Distinct(l) && |nx| == NQENT && i < |l|
    requires forall i :: 0 <= i < |l| ==> 0 <= l[i] < NPROC
    ensures var x, y := pv[l[i]], nx[l[i]];
            && x == (if i == 0 then Head(k) else l[i - 1]) && y == (if i + 1 < |l| then l[i + 1] else Tail(k))
            && QueueOk(nx[x := y], pv[y := x], k, Without(l, i))
  {
    var a, p, b := [Head(k)] + l[..i], l[i], l[i + 1..] + [Tail(k)];
    NodesDistinct(k, l);
    assert Nodes(k, l) == a + [p] + b;
    ChainDelete(nx, pv, a, p, b);
    assert Nodes(k, Without(l, i)) == a + b;
  }

  /** Making the neighbours of a member point at each other deletes it from queue k alone. */
  lemma RemoveRefines(nx: seq<int>, pv: seq<int>, lists: seq<seq<int>>, k: nat, i: nat)
    requires Refines(nx, pv, lists) && k < |lists| && i < |lists[k]|
    ensures var x, y := pv[lists[k][i]], nx[lists[k][i]];
            && 0 <= x < NQENT && 0 <= y < NQENT
            && Refines(nx[x := y], pv[y := x], lists[k := Without(lists[k], i)])
  {
    var l := lists[k];
    assert QueueOk(nx, pv, k, l);
    RemoveOne(nx, pv, k, l, i);
    PlacedRemove(lists, k, i);
    var x, y := pv[l[i]], nx[l[i]];
    var nx', pv' := nx[x := y], pv[y := x];
    forall j | 0 <= j < |lists| && j != k ensures QueueOk(nx', pv', j, lists[j]) {
      Apart(lists, j, k, x);
      Apart(lists, j, k, y);
      assert QueueOk(nx, pv, j, lists[j]);
      QueueKept(nx, pv, nx', pv', j, lists[j]);
    }
  }

  /** What happens to the entry of a process in no queue is of no consequence. */
  lemma SelfLinkRefines(nx: seq<int>, pv: seq<int>, lists: seq<seq<int>>, p: int)
    requires Refines(nx, pv, lists) && 0 <= p < NPROC && Absent(lists, p)
    ensures Refines(nx[p := p], pv[p := p], lists)
  {
    forall j | 0 <= j < |lists| ensures QueueOk(nx[p := p], pv[p := p], j, lists[j]) {
      assert QueueOk(nx, pv, j, lists[j]);
      QueueKept(nx, pv, nx[p := p], pv[p := p], j, lists[j]);
    }
  }

  lemma {:induction false} DistinctBound(l: seq<int>, n: nat)
    requires Distinct(l) && forall i :: 0 <= i < |l| ==> 0 <= l[i] < n
    ensures |l| <= n
  {
    if l != [] {
      assert 0 <= l[0] < n;
      if n - 1 in l {
        var i :| 0 <= i < |l| && l[i] == n - 1;
        var w := Without(l, i);
        WithoutMembers(l, i);
        forall j | 0 <= j < |w| ensures 0 <= w[j] < n - 1 { assert w[j] in w && w[j] in l; }
        DistinctBound(w, n - 1);
      } else {
        forall j | 0 <= j < |l| ensures 0 <= l[j] < n - 1 { assert l[j] in l; }
        DistinctBound(l, n - 1);
      }
    }
  }

  lemma EmptyQueueOk(nx: seq<int>, pv: seq<int>, k: nat)
    requires |nx| == |pv| && Tail(k) < |nx|
    requires nx[Head(k)] == Tail(k) && pv[Head(k)] == EMPTY && nx[Tail(k)] == EMPTY && pv[Tail(k)] == Head(k)
    ensures QueueOk(nx, pv, k, [])
  {
    assert Nodes(k, []) == [Head(k), Tail(k)];
    assert LinkAt(nx, pv, Nodes(k, []), 0);
  }

  lemma NewQueueRefines(nx: seq<int>, pv: seq<int>, lists: seq<seq<int>>)
    requires Refines(nx, pv, lists) && |lists| < NQUEUE
    ensures var h, t := Head(|lists|), Tail(|lists|);
            Refines(nx[h := t][t := EMPTY], pv[h := EMPTY][t := h], lists + [[]])
  {
    var k := |lists|;
    var h, t := Head(k), Tail(k);
    var nx', pv', lists' := nx[h := t][t := EMPTY], pv[h := EMPTY][t := h], lists + [[]];
    assert forall j :: 0 <= j < k ==> lists'[j] == lists[j];
    assert lists'[k] == [];
    EmptyQueueOk(nx', pv', k);
    forall j | 0 <= j < k ensures QueueOk(nx', pv', j, lists[j]) {
      assert QueueOk(nx, pv, j, lists[j]);
      QueueKept(nx, pv, nx', pv', j, lists[j]);
    }
  }

  const SYSERR: int := -1

  class QueueTab {
    const next: array<int>
    const prev: array<int>
    var nextqueue: nat
    ghost var lists: seq<seq<int>>

    ghost predicate Valid()
      reads this, next, prev
    {
      && next != prev && next.Length == NQENT && prev.Length == NQENT
      && nextqueue == NPROC + 2 * |lists| && Refines(next[..], prev[..], lists)
    }

    constructor ()
      ensures Valid() && fresh(next) && fresh(prev) && lists == []
    {
      next, prev := new int[NQENT](_ => 0), new int[NQENT](_ => 0);
      nextqueue, lists := NPROC, [];
    }

    method NewQueue() returns (q: nat)
      requires Valid() && |lists| < NQUEUE
      modifies this, next, prev
      ensures Valid() && q == Qid(|old(lists)|) && lists == old(lists) + [[]]
    {
      hide And;
      hide Or;
      hide Shl;
      hide Placed;
      var head, tail := nextqueue, nextqueue + 1;
      nextqueue := nextqueue + 2;
      NewQueueRefines(next[..], prev[..], lists);
      ghost var nx, pv := next[..], prev[..];
      next[head], prev[head] := tail, EMPTY;
      next[tail], prev[tail] := EMPTY, head;
      assert next[..] == nx[head := tail][tail := EMPTY] && prev[..] == pv[head := EMPTY][tail := head];
      lists := lists + [[]];
      return Or(Shl(head, 16), And(tail, 0xFFFF));
    }

    /** The k-th queue gets pid at its end; a bad queue or process is refused. */
    method Enqueue(pid: int, q: nat, isFree: bool, ghost k: nat) returns (r: int)
      requires Valid() && (IsBadQueue(q) || (k < |lists| && q == Qid(k)))
      modifies this`lists, next, prev
      ensures r == if IsBadQueue(q) || pid < 0 || pid >= 50 || isFree then -1 else pid
      ensures r != pid || pid < 0 ==>
                Valid() && lists == old(lists) && next[..] == old(next[..]) && prev[..] == old(prev[..])
      ensures r == pid && pid >= 0 ==> (Valid() <==> old(Absent(lists, pid)))
      ensures r == pid && pid >= 0 && Valid() ==> lists == old(lists)[k := old(lists)[k] + [pid]]
    {
      hide And;
      hide Qid;
      hide Refines;
      if IsBadQueue(q) || pid < 0 || pid >= NPROC || isFree {
        return SYSERR;
      }
      QueueInTable(next[..], prev[..], lists, k);
      var tail := QueueTail(q);
      assert tail == Tail(k);
      ghost var nx, pv := next[..], prev[..];
      EnqueueIff(nx, pv, lists, k, pid);
      next[pid] := tail;
      prev[pid] := prev[tail];
      next[prev[tail]] := pid;
      prev[tail] := pid;
      assert next[..] == nx[pid := tail][pv[tail] := pid] && prev[..] == pv[pid := pv[tail]][tail := pid];
      if Absent(lists, pid) {
        lists := lists[k := lists[k] + [pid]];
      }
      return pid;
    }

    /** The first member of the k-th queue, removed from it; EMPTY when there is none. */
    method Dequeue(q: nat, ghost k: nat) returns (r: int)
      requires Valid() && (IsBadQueue(q) || (k < |lists| && q == Qid(k)))
      modifies this`lists, next, prev
      ensures Valid()
      ensures IsBadQueue(q) ==> r == -1 && lists == old(lists)
      ensures !IsBadQueue(q) && old(lists)[k] == [] ==> r == -2 && lists == old(lists)
      ensures !IsBadQueue(q) && old(lists)[k] != [] ==>
                r == old(lists)[k][0] && lists == old(lists)[k := old(lists)[k][1..]]
    {
      hide And;
      hide Qid;
      hide Refines;
      if IsBadQueue(q) {
        return SYSERR;
      }
      QueueInTable(next[..], prev[..], lists, k);
      var head := QueueHead(q);
      var pid := next[head];
      if pid >= NPROC {
        return EMPTY;
      }
      ghost var nx, pv, l := next[..], prev[..], lists[k];
      RemoveRefines(nx, pv, lists, k, 0);
      RefinesPlaced(nx, pv, lists);
      PlacedRemove(lists, k, 0);
      next[prev[pid]] := next[pid];
      prev[next[pid]] := prev[pid];
      assert next[..] == nx[pv[pid] := nx[pid]] && prev[..] == pv[nx[pid] := pv[pid]];
      lists := lists[k := Without(l, 0)];
      SelfLinkRefines(next[..], prev[..], lists, pid);
      nx, pv := next[..], prev[..];
      prev[pid] := pid;
      next[pid] := pid;
      assert next[..] == nx[pid := pid] && prev[..] == pv[pid := pid];
      assert Without(l, 0) == l[1..];
      return pid;
    }

    method NonEmpty(q: nat, ghost k: nat) returns (b: bool)
      requires Valid() && k < |lists| && q == Qid(k)
      ensures b == (lists[k] != [])
    {
      hide And;
      hide Qid;
      hide Refines;
      QueueInTable(next[..], prev[..], lists, k);
      return next[QueueHead(q)] < NPROC;
    }

    /**
      Deletes pid from whichever queue it is in, at whatever place: the walk back along prev
      meets the head of that queue in fewer than NQENT steps.  For a process in no queue the walk
      goes where old links lead, and may end in a write to a queue that pid has left.
    */
    method Remove(pid: int, isFree: bool, ghost k: nat, ghost i: nat) returns (r: int)
      requires Valid()
      requires 0 <= pid < NPROC && !isFree && !IsMember(lists, k, i, pid) ==>
                 Absent(lists, pid) && StaysInside(prev[..], pid, NQENT) && 0 <= next[pid] < NQENT
      modifies this`lists, next, prev
      ensures pid < 0 || pid >= 50 || isFree ==> r == -1
      ensures 0 <= pid < NPROC && !isFree ==> r == if old(FindsHead(prev[..], pid, 173)) then pid else -1
      ensures r == SYSERR ==>
                Valid() && lists == old(lists) && next[..] == old(next[..]) && prev[..] == old(prev[..])
      ensures 0 <= pid < NPROC && !isFree && old(IsMember(lists, k, i, pid)) ==>
                r == pid && Valid() && lists == old(lists)[k := Without(old(lists)[k], i)]
      ensures r == pid && pid >= 0 && !old(IsMember(lists, k, i, pid)) ==>
                && lists == old(lists)
                && 0 <= pid < NPROC && old(0 <= prev[pid] < NQENT && 0 <= next[pid] < NQENT)
                && (Valid() <==> old(Spared(next[..], prev[..], lists, pid)))
    {
      hide Refines;
      hide Spared;
      if pid < 0 || pid >= NPROC || isFree {
        return SYSERR;
      }
      ghost var nx, pv := next[..], prev[..];
      if IsMember(lists, k, i, pid) {
        WalkBack(nx, pv, lists, k);
        MemberFindsHead(nx, pv, lists, k, i, NQENT - 1);
        Inside(pv, pid, NQENT - 1, NQENT);
        RemoveRefines(nx, pv, lists, k, i);
      }
      var found := FindHead(pid);
      if !found {
        return SYSERR;
      }
      if !IsMember(lists, k, i, pid) { SparedIff(nx, pv, lists, pid); }
      next[prev[pid]] := next[pid];
      prev[next[pid]] := prev[pid];
      assert next[..] == nx[pv[pid] := nx[pid]] && prev[..] == pv[nx[pid] := pv[pid]];
      if IsMember(lists, k, i, pid) {
        lists := lists[k := Without(lists[k], i)];
      }
      return pid;
    }

    /** The walk back along prev until the entry before is EMPTY, or NQENT steps have been made. */
    method FindHead(pid: nat) returns (found: bool)
      requires prev.Length == NQENT && pid < NPROC && StaysInside(prev[..], pid, NQENT)
      ensures found <==> FindsHead(prev[..], pid, NQENT - 1)
    {
      ghost var pv := prev[..];
      var temp, steps := pid, 0;
      while steps < NQENT
        invariant 0 <= steps <= NQENT && StaysInside(pv, temp, NQENT - steps)
        invariant FindsHead(pv, pid, NQENT - 1) <==> steps < NQENT && FindsHead(pv, temp, NQENT - 1 - steps)
      {
        temp := prev[temp];
        steps := steps + 1;
        if prev[temp] == EMPTY {
          break;
        }
      }
      return steps < NQENT;
    }
  }

  /** p is the member at place i of queue k. */
  ghost predicate IsMember(lists: seq<seq<int>>, k: nat, i: nat, p: int) {
    k < |lists| && i < |lists[k]| && lists[k][i] == p
  }

  lemma RefinesPlaced(nx: seq<int>, pv: seq<int>, lists: seq<seq<int>>)
    requires Refines(nx, pv, lists)
    ensures Placed(lists)
  {
  }

  /** What the head of a queue shows: its id is good and its first link tells whether it is empty. */
  lemma QueueInTable(nx: seq<int>, pv: seq<int>, lists: seq<seq<int>>, k: nat)
    requires Refines(nx, pv, lists) && k < |lists|
    ensures QueueHead(Qid(k)) == Head(k) < NQENT && QueueTail(Qid(k)) == Tail(k) < NQENT && !IsBadQueue(Qid(k))
    ensures |nx| == NQENT && |pv| == NQENT
    ensures if lists[k] == [] then nx[Head(k)] >= NPROC else nx[Head(k)] == lists[k][0] && 0 <= lists[k][0] < NPROC
  {
    hide And;
    hide Qid;
    QidRoundTrip(k);
    assert QueueOk(nx, pv, k, lists[k]);
    assert LinkAt(nx, pv, Nodes(k, lists[k]), 0);
    assert Nodes(k, lists[k])[1] == if lists[k] == [] then Tail(k) else lists[k][0];
  }

  /** Going back from a member leads to the member before, and from the first one to the head. */
  lemma WalkBack(nx: seq<int>, pv: seq<int>, lists: seq<seq<int>>, k: nat)
    requires Refines(nx, pv, lists) && k < |lists|
    ensures |nx| == NQENT && |pv| == NQENT && |lists[k]| <= NPROC && Head(k) < NQENT && pv[Head(k)] == EMPTY
    ensures forall i :: 0 <= i < |lists[k]| ==>
              0 <= lists[k][i] < NPROC && pv[lists[k][i]] == Before(k, lists[k], i)
  {
    var l := lists[k];
    var n := Nodes(k, l);
    assert QueueOk(nx, pv, k, l) && Distinct(l);
    assert forall i :: 0 <= i < |l| ==> 0 <= l[i] < NPROC;
    DistinctBound(l, NPROC);
    forall i | 0 <= i < |l| ensures pv[l[i]] == Before(k, l, i) {
      assert LinkAt(nx, pv, n, i);
      assert n[i + 1] == l[i] && n[i] == Before(k, l, i);
    }
  }

  /** The entry before position i of a queue. */
  ghost function Before(k: nat, l: seq<int>, i: nat): int
    requires i < |l|
  {
    if i == 0 then Head(k) else l[i - 1]
  }
}
