/**
  No starvation.  A waiting process has a rank of at most 13 * NPROC: one for each process before
  it in the high queue, three for each in the medium and nine for each in the low one, plus what
  it takes to get through the queues above.  Every resched on its core lowers the rank or
  dispatches the process, and nothing any core does in between raises it.
*/
module Fairness {
  import opened Types
  import opened Config
  import opened Queues
  import opened Kernel
  import opened KernelInv
  import opened KernelLife
  import opened KernelRuns

  // ----- places in a queue -----

  function IndexOf(l: seq<int>, p: int): (i: nat)
    requires p in l
    ensures i < |l| && l[i] == p
  {
    if l[0] == p then 0 else 1 + IndexOf(l[1..], p)
  }

  lemma {:induction false} IndexAppend(l: seq<int>, x: int, p: int)
    requires p in l
    ensures IndexOf(l + [x], p) == IndexOf(l, p)
  {
    if l[0] != p {
      IndexAppend(l[1..], x, p);
      assert (l + [x])[1..] == l[1..] + [x];
    }
  }

  lemma {:induction false} IndexNew(l: seq<int>, p: int)
    requires p !in l
    ensures IndexOf(l + [p], p) == |l|
  {
    if l != [] {
      IndexNew(l[1..], p);
      assert (l + [p])[1..] == l[1..] + [p];
    }
  }

  lemma {:induction false} IndexMinus(l: seq<int>, x: int, p: int)
    requires p in l && x != p
    ensures p in Minus(l, x) && IndexOf(Minus(l, x), p) <= IndexOf(l, p)
  {
    if l[0] == x {
    } else if l[0] != p {
      IndexMinus(l[1..], x, p);
      assert Minus(l, x)[1..] == Minus(l[1..], x);
    }
  }

  lemma OthersBound(qs: seq<seq<int>>, q: nat, p: int)
    requires Placed(qs) && q < |qs| && 0 <= p < NPROC && p !in qs[q]
    ensures |qs[q]| <= NPROC - 1
  {
    var l := qs[q] + [p];
    assert Distinct(l);
    DistinctBound(l, NPROC);
  }

  // ----- rank -----

  /** How far p is from being dispatched, with the ready queues hi, med and lo of its core. */
  ghost function RankIn(hi: seq<int>, med: seq<int>, lo: seq<int>, pm: nat, pl: nat, p: int): int {
    if p in hi then IndexOf(hi, p) + 1
    else if p in med then pm + 3 * IndexOf(med, p) + NPROC
    else if p in lo then pm + 3 * (pl - 1) + 9 * IndexOf(lo, p) + 4 * NPROC
    else 0
  }

  ghost function Rank(k: State, c: nat, p: int): int
    requires Shape(k) && c < NCORES
  {
    RankIn(k.queues[ReadyQ(c, HIGH)], k.queues[ReadyQ(c, MED)], k.queues[ReadyQ(c, LOW)],
           k.cores[c].promoteMed, k.cores[c].promoteLow, p)
  }

  ghost predicate Waits(k: State, c: nat, p: nat) {
    Shape(k) && c < NCORES && p < NPROC && k.proc[p].state == PRREADY && k.proc[p].affinity == c
  }

  /** p is in one of the three ready queues of its core. */
  lemma WaitsInQueue(k: State, c: nat, p: nat)
    requires MidInv(k) && Waits(k, c, p)
    ensures p in k.queues[ReadyQ(c, HIGH)] || p in k.queues[ReadyQ(c, MED)] || p in k.queues[ReadyQ(c, LOW)]
    ensures p in k.queues[ReadyQ(c, HIGH)] ==> p !in k.queues[ReadyQ(c, MED)]
    ensures p in k.queues[ReadyQ(c, HIGH)] ==> p !in k.queues[ReadyQ(c, LOW)]
    ensures p in k.queues[ReadyQ(c, MED)] ==> p !in k.queues[ReadyQ(c, LOW)]
    ensures Placed(k.queues)
  {
    assert ProcFits(k, p);
    var l :| 0 <= l < 3 && p in k.queues[ReadyQ(c, l)];
    assert l == HIGH || l == MED || l == LOW;
  }

  lemma RankBounds(k: State, c: nat, p: nat)
    requires MidInv(k) && Waits(k, c, p)
    ensures 1 <= Rank(k, c, p) <= 13 * NPROC
  {
    hide MidInv;
    hide Placed;
    MidParts(k);
    assert CountersFit(k, c);
    WaitsInQueue(k, c, p);
    forall l | l == HIGH || l == MED || l == LOW ensures |k.queues[ReadyQ(c, l)]| <= NPROC {
      QueueBound(k.queues, ReadyQ(c, l));
    }
  }

  lemma QueueBound(qs: seq<seq<int>>, q: nat)
    requires Placed(qs) && q < |qs|
    ensures |qs[q]| <= NPROC
  {
    DistinctBound(qs[q], NPROC);
  }

  // ----- what resched does to the rank -----

  /** p keeps its queue and gets no later place in it. */
  ghost predicate NoLater(l: seq<int>, l': seq<int>, p: int) {
    (p in l' <==> p in l) && (p in l ==> IndexOf(l', p) <= IndexOf(l, p))
  }

  lemma NoLaterRank(k: State, k': State, c: nat, p: int)
    requires Shape(k) && Shape(k') && c < NCORES
    requires k'.cores[c].promoteMed == k.cores[c].promoteMed && k'.cores[c].promoteLow == k.cores[c].promoteLow
    requires forall l :: 0 <= l < 3 ==> NoLater(k.queues[ReadyQ(c, l)], k'.queues[ReadyQ(c, l)], p)
    ensures Rank(k', c, p) <= Rank(k, c, p)
  {
    assert NoLater(k.queues[ReadyQ(c, HIGH)], k'.queues[ReadyQ(c, HIGH)], p);
    assert NoLater(k.queues[ReadyQ(c, MED)], k'.queues[ReadyQ(c, MED)], p);
    assert NoLater(k.queues[ReadyQ(c, LOW)], k'.queues[ReadyQ(c, LOW)], p);
  }

  lemma AppendNoLater(l: seq<int>, x: int, p: int)
    requires x != p
    ensures NoLater(l, l + [x], p)
  {
    if p in l { IndexAppend(l, x, p); }
  }

  lemma TailNoLater(l: seq<int>, p: int)
    requires l != [] && l[0] != p
    ensures NoLater(l, l[1..], p) && (p in l ==> IndexOf(l[1..], p) == IndexOf(l, p) - 1)
  {
    assert l == [l[0]] + l[1..];
  }

  /** What promotion does to the rank, from what it does to the places. */
  lemma AgeRankIn(hi: seq<int>, med: seq<int>, lo: seq<int>, pm: nat, pl: nat, p: int)
    requires 1 <= pm <= 3 && 1 <= pl <= 3 && (p in hi || p in med || p in lo)
    requires !(p in hi && p in med) && !(p in hi && p in lo) && !(p in med && p in lo)
    requires p !in hi ==> |hi| <= NPROC - 1
    requires p !in med ==> |med| <= NPROC - 1
    ensures pm > 1 && p !in hi ==> RankIn(hi, med, lo, pm - 1, pl, p) < RankIn(hi, med, lo, pm, pl, p)
    ensures pm == 1 && pl > 1 && p !in hi ==>
              RankIn(Up(med, hi), Down(med), lo, 3, pl - 1, p) < RankIn(hi, med, lo, pm, pl, p)
    ensures pm == 1 && pl == 1 && p !in hi ==>
              RankIn(Up(med, hi), Up(lo, Down(med)), Down(lo), 3, 3, p) < RankIn(hi, med, lo, pm, pl, p)
    ensures p in hi ==> RankIn(hi, med, lo, pm - 1, pl, p) <= RankIn(hi, med, lo, pm, pl, p)
    ensures p in hi ==> RankIn(Up(med, hi), Down(med), lo, 3, pl - 1, p) <= RankIn(hi, med, lo, pm, pl, p)
    ensures p in hi ==> RankIn(Up(med, hi), Up(lo, Down(med)), Down(lo), 3, 3, p) <= RankIn(hi, med, lo, pm, pl, p)
  {
    UpDown(med, hi, p);
    UpDown(lo, Down(med), p);
  }

  /** The queue to, once the first member of from has been moved to it; and what is left of from. */
  ghost function Up(from: seq<int>, to: seq<int>): seq<int> {
    if from == [] then to else to + [from[0]]
  }

  ghost function Down(from: seq<int>): seq<int> {
    if from == [] then [] else from[1..]
  }

  lemma UpDown(from: seq<int>, to: seq<int>, p: int)
    requires !(p in from && p in to)
    ensures p in Down(from) ==> p in from
    ensures p in to ==> p in Up(from, to) && IndexOf(Up(from, to), p) == IndexOf(to, p)
    ensures p in from && from[0] == p ==> p in Up(from, to) && IndexOf(Up(from, to), p) == |to|
    ensures p in from && from[0] != p ==> p in Down(from) && IndexOf(Down(from), p) == IndexOf(from, p) - 1
    ensures p !in to && !(p in from && from[0] == p) ==> p !in Up(from, to)
    ensures |Down(from)| <= |from|
  {
    if p in to && from != [] { IndexAppend(to, from[0], p); }
    if p in from && from[0] == p { IndexNew(to, p); }
    if p in from && from[0] != p { TailNoLater(from, p); }
  }

  lemma AgeIs(k: State, c: nat)
    requires Shape(k) && c < NCORES && CountersFit(k, c)
    ensures var hi, med, lo := k.queues[ReadyQ(c, HIGH)], k.queues[ReadyQ(c, MED)], k.queues[ReadyQ(c, LOW)];
            var pm, pl, k' := k.cores[c].promoteMed, k.cores[c].promoteLow, Age(k, c);
            var hi', med', lo' := k'.queues[ReadyQ(c, HIGH)], k'.queues[ReadyQ(c, MED)], k'.queues[ReadyQ(c, LOW)];
            var pm', pl' := k'.cores[c].promoteMed, k'.cores[c].promoteLow;
            if pm > 1 then (hi', med', lo', pm', pl') == (hi, med, lo, pm - 1, pl)
            else if pl > 1 then (hi', med', lo', pm', pl') == (Up(med, hi), Down(med), lo, 3, pl - 1)
            else (hi', med', lo', pm', pl') == (Up(med, hi), Up(lo, Down(med)), Down(lo), 3, 3)
  {
  }

  /** Aging lowers the rank of a process that is not in the high queue, and no rank rises. */
  lemma AgeRank(k: State, c: nat, p: nat)
    requires MidInv(k) && Waits(k, c, p)
    ensures Shape(Age(k, c)) && Rank(Age(k, c), c, p) <= Rank(k, c, p)
    ensures p !in k.queues[ReadyQ(c, HIGH)] ==> Rank(Age(k, c), c, p) < Rank(k, c, p)
    ensures p in k.queues[ReadyQ(c, HIGH)] ==> p in Age(k, c).queues[ReadyQ(c, HIGH)]
  {
    hide MidInv;
    hide Placed;
    hide RankIn;
    hide Age;
    MidParts(k);
    AgeKeeps(k, c);
    MidParts(Age(k, c));
    assert CountersFit(k, c);
    WaitsInQueue(k, c, p);
    var hi, med, lo := k.queues[ReadyQ(c, HIGH)], k.queues[ReadyQ(c, MED)], k.queues[ReadyQ(c, LOW)];
    if p !in hi { OthersBound(k.queues, ReadyQ(c, HIGH), p); }
    if p !in med { OthersBound(k.queues, ReadyQ(c, MED), p); }
    AgeIs(k, c);
    AgeRankIn(hi, med, lo, k.cores[c].promoteMed, k.cores[c].promoteLow, p);
  }

  lemma RequeueRank(k: State, c: nat, p: nat)
    requires MidInv(k) && Waits(k, c, p) && RunsAtHome(k, c)
    ensures Waits(Requeue(k, c), c, p) && Rank(Requeue(k, c), c, p) <= Rank(k, c, p)
    ensures p in k.queues[ReadyQ(c, HIGH)] ==> p in Requeue(k, c).queues[ReadyQ(c, HIGH)]
  {
    var k' := Requeue(k, c);
    var x := k.cores[c].currpid;
    forall l | 0 <= l < 3 ensures NoLater(k.queues[ReadyQ(c, l)], k'.queues[ReadyQ(c, l)], p) {
      if x != p { AppendNoLater(k.queues[ReadyQ(c, l)], x, p); }
    }
    NoLaterRank(k, k', c, p);
  }

  /** The dispatch takes p, or moves it up if it is in the high queue. */
  lemma PickRank(k: State, c: nat, p: nat)
    requires MidInv(k) && Waits(k, c, p)
    ensures var k' := Pick(k, c);
            || k'.cores[c].currpid == p
            || (Waits(k', c, p) && Rank(k', c, p) <= Rank(k, c, p)
                && (p in k.queues[ReadyQ(c, HIGH)] ==> Rank(k', c, p) < Rank(k, c, p)))
  {
    hide MidInv;
    hide Pick;
    MidParts(k);
    WaitsInQueue(k, c, p);
    PickMembers(k, c);
    var k', q0 := Pick(k, c), ReadyQ(c, Level(k, c));
    if k.queues[q0][0] != p {
      TailNoLater(k.queues[q0], p);
      forall l | 0 <= l < 3 ensures NoLater(k.queues[ReadyQ(c, l)], k'.queues[ReadyQ(c, l)], p) {
        assert ReadyQ(c, l) != q0 ==> k'.queues[ReadyQ(c, l)] == k.queues[ReadyQ(c, l)];
      }
      NoLaterRank(k, k', c, p);
    }
  }

  /** Every resched on the core of a waiting process dispatches it or lowers its rank. */
  lemma ReschedRank(k: State, c: nat, p: nat)
    requires MayResched(k, c) && Waits(k, c, p)
    ensures var k' := Resched(k, c);
            || k'.cores[c].currpid == p
            || (Waits(k', c, p) && Rank(k', c, p) < Rank(k, c, p))
  {
    hide MidInv;
    hide Age;
    hide Requeue;
    hide Pick;
    hide Rank;
    MidParts(k);
    AgeKeeps(k, c);
    var ka := Age(k, c);
    MidParts(ka);
    AgeRank(k, c, p);
    RequeueKeeps(ka, c);
    RequeueRank(ka, c, p);
    PickRank(Requeue(ka, c), c, p);
  }

  // ----- what everything else does to it -----

  /** The ready queues of core c let p move up at most, and the counters there stand still. */
  ghost predicate Steady(k: State, k': State, c: nat, p: nat) {
    && Waits(k, c, p) && Waits(k', c, p)
    && k'.cores[c].promoteMed == k.cores[c].promoteMed && k'.cores[c].promoteLow == k.cores[c].promoteLow
    && forall l :: 0 <= l < 3 ==> NoLater(k.queues[ReadyQ(c, l)], k'.queues[ReadyQ(c, l)], p)
  }

  lemma AppendSteady(k: State, k': State, c: nat, p: nat, q: nat, x: int)
    requires Waits(k, c, p) && Shape(k') && k'.cores[c] == k.cores[c] && x != p && q < NQUEUE
    requires k'.proc[p].state == PRREADY && k'.proc[p].affinity == c
    requires k'.queues == k.queues[q := k.queues[q] + [x]]
    ensures Steady(k, k', c, p)
  {
    forall l | 0 <= l < 3 ensures NoLater(k.queues[ReadyQ(c, l)], k'.queues[ReadyQ(c, l)], p) {
      AppendNoLater(k.queues[ReadyQ(c, l)], x, p);
    }
  }

  lemma OtherReadySteady(k: State, k': State, c: nat, p: nat)
    requires Waits(k, c, p) && Shape(k')
    requires k'.cores[c].promoteMed == k.cores[c].promoteMed && k'.cores[c].promoteLow == k.cores[c].promoteLow
    requires k'.proc[p].state == PRREADY && k'.proc[p].affinity == c
    requires forall q :: ReadyQ(c, 0) <= q <= ReadyQ(c, 2) ==> k'.queues[q] == k.queues[q]
    ensures Steady(k, k', c, p)
  {
    forall l | 0 <= l < 3 ensures NoLater(k.queues[ReadyQ(c, l)], k'.queues[ReadyQ(c, l)], p) {
    }
  }

  lemma DropSteady(k: State, k': State, c: nat, p: nat, x: int)
    requires Waits(k, c, p) && Shape(k') && k'.cores[c] == k.cores[c] && x != p && Placed(k.queues)
    requires k'.proc[p].state == PRREADY && k'.proc[p].affinity == c && k'.queues == Drop(k.queues, x)
    ensures Steady(k, k', c, p)
  {
    forall l | 0 <= l < 3 ensures NoLater(k.queues[ReadyQ(c, l)], k'.queues[ReadyQ(c, l)], p) {
      var l0 := k.queues[ReadyQ(c, l)];
      if p in l0 { IndexMinus(l0, x, p); } else if p in Minus(l0, x) { MinusIn(l0, x, p); }
    }
  }

  lemma {:induction false} MinusIn(l: seq<int>, x: int, p: int)
    requires p in Minus(l, x)
    ensures p in l
  {
    if l[0] != x && l[0] != p { MinusIn(l[1..], x, p); }
  }

  /** resched on another core touches neither the ready queues nor the counters of core c. */
  lemma ReschedElsewhere(k: State, d: nat, c: nat, p: nat)
    requires MayResched(k, d) && Waits(k, c, p) && d != c
    ensures Steady(k, Resched(k, d), c, p) && Resched(k, d).cores[c] == k.cores[c]
  {
    hide MidInv;
    hide Requeue;
    hide Age;
    hide Pick;
    MidParts(k);
    AgeKeeps(k, d);
    AgeElsewhere(k, d, c);
    var ka := Age(k, d);
    MidParts(ka);
    RequeueKeeps(ka, d);
    RequeueElsewhere(ka, d, c);
    var kr := Requeue(ka, d);
    MidParts(kr);
    ReschedKeeps(k, d);
    PickMembers(kr, d);
    OtherReadySteady(k, Resched(k, d), c, p);
  }

  lemma AgeElsewhere(k: State, d: nat, c: nat)
    requires Shape(k) && d < NCORES && c < NCORES && d != c
    ensures Shape(Age(k, d)) && Age(k, d).cores[c] == k.cores[c]
    ensures forall q :: ReadyQ(c, 0) <= q <= ReadyQ(c, 2) ==> Age(k, d).queues[q] == k.queues[q]
  {
  }

  lemma RequeueElsewhere(k: State, d: nat, c: nat)
    requires Shape(k) && d < NCORES && c < NCORES && d != c
    ensures Shape(Requeue(k, d)) && Requeue(k, d).cores[c] == k.cores[c]
    ensures forall q :: ReadyQ(c, 0) <= q <= ReadyQ(c, 2) ==> Requeue(k, d).queues[q] == k.queues[q]
  {
  }

  /** Step s ends in a resched on core c. */
  ghost predicate ReschedsOn(k: State, s: Step, c: nat)
    requires Shape(k) && c < NCORES
  {
    match s
    case DoResched(d) => d == c
    case DoTick(d) => d == c && k.cores[c].preempt <= 1
    case DoKill(d, pid) => d == c && !KillRefused(k, c, pid) && k.proc[pid].state == PRCURR
    case _ => false
  }

  ghost predicate KillsIt(k: State, s: Step, p: nat)
    requires Shape(k)
  {
    s.DoKill? && s.pid == p && !KillRefused(k, s.c, s.pid)
  }

  /** What a step does to a waiting process. */
  ghost predicate Served(k: State, k': State, s: Step, c: nat, p: nat)
    requires Waits(k, c, p) && Shape(k')
  {
    if ReschedsOn(k, s, c) then
      && k'.cores[c].preempt == QUANTUM
      && (k'.cores[c].currpid == p || (Waits(k', c, p) && Rank(k', c, p) < Rank(k, c, p)))
    else
      && k'.cores[c].preempt == k.cores[c].preempt - Int(s == DoTick(c))
      && Waits(k', c, p) && Rank(k', c, p) <= Rank(k, c, p)
  }

  lemma SteadyServed(k: State, k': State, s: Step, c: nat, p: nat)
    requires Steady(k, k', c, p) && !ReschedsOn(k, s, c)
    requires k'.cores[c].preempt == k.cores[c].preempt - Int(s == DoTick(c))
    ensures Served(k, k', s, c, p)
  {
    NoLaterRank(k, k', c, p);
  }

  lemma ReschedServed(k: State, s: Step, d: nat, c: nat, p: nat)
    requires MayResched(k, d) && Waits(k, c, p) && ReschedsOn(k, s, c) == (d == c) && (d != c ==> s != DoTick(c))
    ensures Shape(Resched(k, d)) && Served(k, Resched(k, d), s, c, p)
  {
    hide MidInv;
    hide Resched;
    hide Rank;
    MidParts(k);
    ReschedKeeps(k, d);
    MidParts(Resched(k, d));
    if d == c {
      ReschedRank(k, c, p);
    } else {
      ReschedElsewhere(k, d, c, p);
      SteadyServed(k, Resched(k, d), s, c, p);
    }
  }

  lemma TickServed(k: State, d: nat, c: nat, p: nat)
    requires Inv(k) && Waits(k, c, p) && d < NCORES
    ensures Shape(Tick(k, d)) && Served(k, Tick(k, d), DoTick(d), c, p)
  {
    hide MidInv;
    hide Resched;
    hide RankIn;
    MidParts(k);
    TickMayResched(k, d);
    assert CurrentFits(k, c);
    var k1 := k.(cores := k.cores[d := Ticked(k.cores[d])]);
    if k.cores[d].preempt > 1 {
      OtherReadySteady(k, k1, c, p);
      SteadyServed(k, k1, DoTick(d), c, p);
    } else {
      ReschedServed(k1, DoResched(d), d, c, p);
      assert Rank(k1, c, p) == Rank(k, c, p);
    }
  }

  lemma KillServed(w: nat, k: State, d: nat, pid: int, c: nat, p: nat)
    requires w >= 3 && Inv(k) && Waits(k, c, p) && At(k, d, Idle)
    requires !KillRefused(k, d, pid) && pid != p
    ensures Shape(Kill(w, k, d, pid)) && Served(k, Kill(w, k, d, pid), DoKill(d, pid), c, p)
  {
    hide MidInv;
    hide Resched;
    hide Rank;
    hide Drop;
    hide FreeStack;
    MidParts(k);
    var k' := Buried(w, k, pid);
    BuriedRetires(w, k, pid);
    BuriedFits(w, k, d, pid);
    assert ProcFits(k, pid) && ProcFits(k, k.cores[d].currpid);
    if k.proc[pid].state == PRREADY {
      DropSteady(k, k', c, p, pid);
      SteadyServed(k, k', DoKill(d, pid), c, p);
    } else if k.proc[pid].state == PRCURR {
      SuicideServed(k, k', pid, d, c, p);
    } else {
      OtherReadySteady(k, k', c, p);
      SteadyServed(k, k', DoKill(d, pid), c, p);
    }
  }

  lemma SuicideServed(k: State, k': State, pid: nat, d: nat, c: nat, p: nat)
    requires Waits(k, c, p) && Waits(k', c, p) && MayResched(k', d) && k'.queues == k.queues && k'.cores == k.cores
    requires pid < NPROC && !KillRefused(k, d, pid) && k.proc[pid].state == PRCURR
    ensures Shape(Resched(k', d)) && Served(k, Resched(k', d), DoKill(d, pid), c, p)
  {
    hide Resched;
    hide RankIn;
    ReschedServed(k', DoResched(d), d, c, p);
    assert Rank(k', c, p) == Rank(k, c, p);
  }

  /** Whatever step comes next, a waiting process that it does not kill is served. */
  lemma StepServes(w: nat, k: State, s: Step, c: nat, p: nat)
    requires Inv(k) && Enabled(w, k, s) && Waits(k, c, p) && !KillsIt(k, s, p)
    ensures Shape(Next(w, k, s)) && Served(k, Next(w, k, s), s, c, p)
  {
    hide MidInv;
    hide Resched;
    hide Collect;
    hide Deposit;
    hide WakeBody;
    hide Tick;
    hide Kill;
    hide Create;
    hide Rank;
    MidParts(k);
    var x, k' := k.cores[s.c].currpid, Next(w, k, s);
    match s {
      case DoResched(d) => InvMayResched(k, d); ReschedServed(k, s, d, c, p);
      case DoTick(d) => TickServed(k, d, c, p);
      case DoSend(d, pid, msg) => SendSteady(k, x, pid, msg, c, p); SteadyServed(k, k', s, c, p);
      case DoSendNow(d, pid, msg) =>
        if !IsBadPid(k, pid) && !k.proc[pid].hasMessage { DepositSteady(k, x, pid, msg, c, p); }
        else { OtherReadySteady(k, k, c, p); }
        SteadyServed(k, k', s, c, p);
      case DoRecv(d) =>
        if k.proc[x].hasMessage { CollectSteady(k, x, c, p); } else { OtherReadySteady(k, k', c, p); }
        SteadyServed(k, k', s, c, p);
      case DoCollect(d) => ResumedHasMessage(k, d); CollectSteady(k, x, c, p); SteadyServed(k, k', s, c, p);
      case DoRecvNow(d) => OtherReadySteady(k, k', c, p); SteadyServed(k, k', s, c, p);
      case DoReturn(d) => OtherReadySteady(k, k', c, p); SteadyServed(k, k', s, c, p);
      case DoWake(d) => WakeSteady(k, x, c, p); SteadyServed(k, k', s, c, p);
      case DoReady(d, pid, core) => ReadySteady(k, pid, core, c, p); SteadyServed(k, k', s, c, p);
      case DoCreate(d, ssize, priority) => CreateSteady(w, k, d, ssize, priority, c, p); SteadyServed(k, k', s, c, p);
      case DoKill(d, pid) =>
        if KillRefused(k, d, pid) { RefusedSteady(w, k, d, pid, c, p); SteadyServed(k, k', s, c, p); }
        else { KillServed(w, k, d, pid, c, p); }
    }
  }

  lemma RefusedSteady(w: nat, k: State, d: nat, pid: int, c: nat, p: nat)
    requires w >= 3 && Shape(k) && d < NCORES && KillRefused(k, d, pid) && Waits(k, c, p)
    ensures Kill(w, k, d, pid) == k && Steady(k, k, c, p)
  {
    OtherReadySteady(k, k, c, p);
  }

  lemma DepositSteady(k: State, x: nat, pid: nat, msg: int, c: nat, p: nat)
    requires Shape(k) && x < NPROC && pid < NPROC && Waits(k, c, p)
    ensures Steady(k, Deposit(k, x, pid, msg), c, p) && Deposit(k, x, pid, msg).cores == k.cores
  {
    OtherReadySteady(k, Deposit(k, x, pid, msg), c, p);
  }

  lemma SendSteady(k: State, x: nat, pid: int, msg: int, c: nat, p: nat)
    requires Shape(k) && x < NPROC && k.proc[x].state == PRCURR && Waits(k, c, p)
    ensures Steady(k, SendBody(k, x, pid, msg), c, p) && SendBody(k, x, pid, msg).cores == k.cores
  {
    hide Deposit;
    if IsBadPid(k, pid) {
      OtherReadySteady(k, k, c, p);
    } else if k.proc[pid].hasMessage {
      AppendSteady(k, SendBody(k, x, pid, msg), c, p, pid, x);
    } else {
      DepositSteady(k, x, pid, msg, c, p);
    }
  }

  lemma CollectSteady(k: State, x: nat, c: nat, p: nat)
    requires Inv(k) && x < NPROC && k.proc[x].state == PRCURR && !k.proc[x].pc.Waking? && k.proc[x].hasMessage
    requires Waits(k, c, p)
    ensures Steady(k, Collect(k, x), c, p) && Collect(k, x).cores == k.cores
  {
    hide MidInv;
    hide Collect;
    MidParts(k);
    if k.queues[x] == [] { CollectPlain(k, x); } else { AdmitIs(k, x); }
    OtherReadySteady(k, Collect(k, x), c, p);
  }

  lemma WakeSteady(k: State, x: nat, c: nat, p: nat)
    requires Inv(k) && x < NPROC && k.proc[x].state == PRCURR && k.proc[x].pc.Waking? && Waits(k, c, p)
    ensures k.proc[x].pc.target < NPROC && Steady(k, WakeBody(k, x), c, p) && WakeBody(k, x).cores == k.cores
  {
    hide MidInv;
    hide WakeBody;
    MidParts(k);
    if Owes(k, x) {
      WakeIs(k, x);
      var t := k.proc[x].pc.target;
      AppendSteady(k, WakeBody(k, x), c, p, ReadyQ(k.proc[t].affinity, k.proc[t].priority), t);
    } else {
      WakeStaleIs(k, x);
      OtherReadySteady(k, WakeBody(k, x), c, p);
    }
  }

  lemma ReadySteady(k: State, pid: int, core: nat, c: nat, p: nat)
    requires Inv(k) && 0 <= pid < NPROC && k.proc[pid].state == PRSUSP && core < NCORES && Waits(k, c, p)
    ensures Steady(k, ReadyBody(k, pid, core), c, p) && ReadyBody(k, pid, core).cores == k.cores
  {
    hide MidInv;
    MidParts(k);
    assert ProcFits(k, pid);
    var k' := ReadyBody(k, pid, core);
    AppendSteady(k, k', c, p, ReadyQ(k'.proc[pid].affinity, k'.proc[pid].priority), pid);
  }

  lemma CreateSteady(w: nat, k: State, d: nat, ssize: nat, priority: nat, c: nat, p: nat)
    requires w >= 3 && Shape(k) && d < |k.heap.lists| == |k.heap.lens| && Waits(k, c, p)
    ensures Steady(k, Create(w, k, d, ssize, priority).1, c, p) && Create(w, k, d, ssize, priority).1.cores == k.cores
  {
    hide NewPid;
    hide GetMem;
    hide StackSize;
    NewPidFree(k, k.nextpid, NPROC);
    OtherReadySteady(k, Create(w, k, d, ssize, priority).1, c, p);
  }

  // ----- runs -----

  ghost function Rescheds(w: nat, ks: seq<State>, steps: seq<Step>, c: nat, n: nat): nat
    requires Run(w, ks, steps) && c < NCORES && n <= |steps|
  {
    if n == 0 then 0
    else assert Enabled(w, ks[n - 1], steps[n - 1]);
         Rescheds(w, ks, steps, c, n - 1) + Int(ReschedsOn(ks[n - 1], steps[n - 1], c))
  }

  ghost function Ticks(steps: seq<Step>, c: nat, n: nat): nat
    requires n <= |steps|
  {
    if n == 0 then 0 else Ticks(steps, c, n - 1) + Int(steps[n - 1] == DoTick(c))
  }

  /** One of the first n steps makes p current on core c. */
  ghost predicate Dispatched(w: nat, ks: seq<State>, steps: seq<Step>, c: nat, p: nat, n: nat)
    requires Run(w, ks, steps) && c < NCORES && n <= |steps|
  {
    exists i :: 0 <= i < n && DispatchedAt(w, ks, steps, c, p, i)
  }

  ghost predicate DispatchedAt(w: nat, ks: seq<State>, steps: seq<Step>, c: nat, p: nat, i: nat)
    requires Run(w, ks, steps) && c < NCORES && i < |steps|
  {
    assert Enabled(w, ks[i], steps[i]);
    ReschedsOn(ks[i], steps[i], c) && |ks[i + 1].cores| == NCORES && ks[i + 1].cores[c].currpid == p
  }

  ghost predicate Spared(w: nat, ks: seq<State>, steps: seq<Step>, p: nat)
    requires Run(w, ks, steps)
  {
    forall i :: 0 <= i < |steps| ==> Enabled(w, ks[i], steps[i]) && !KillsIt(ks[i], steps[i], p)
  }

  lemma {:induction false} RankFalls(w: nat, ks: seq<State>, steps: seq<Step>, c: nat, p: nat, n: nat)
    requires Run(w, ks, steps) && Inv(ks[0]) && Waits(ks[0], c, p) && Spared(w, ks, steps, p) && n <= |steps|
    ensures Inv(ks[n])
    ensures Dispatched(w, ks, steps, c, p, n)
         || (Waits(ks[n], c, p)
             && Rank(ks[n], c, p) + Rescheds(w, ks, steps, c, n) <= Rank(ks[0], c, p)
             && QUANTUM * Rank(ks[n], c, p) + ks[n].cores[c].preempt + Ticks(steps, c, n)
                  <= QUANTUM * Rank(ks[0], c, p) + ks[0].cores[c].preempt)
  {
    hide Enabled;
    hide Next;
    hide Inv;
    hide Rank;
    KernelRuns.RunKeeps(w, ks, steps, n);
    if n > 0 {
      RankFalls(w, ks, steps, c, p, n - 1);
      var k, s := ks[n - 1], steps[n - 1];
      if Dispatched(w, ks, steps, c, p, n - 1) {
        var i :| 0 <= i < n - 1 && DispatchedAt(w, ks, steps, c, p, i);
      } else {
        StepServes(w, k, s, c, p);
        if ReschedsOn(k, s, c) && ks[n].cores[c].currpid == p {
          assert DispatchedAt(w, ks, steps, c, p, n - 1);
        } else {
          PreemptRange(k, c);
        }
      }
    }
  }

  lemma PreemptRange(k: State, c: nat)
    requires Inv(k) && c < NCORES
    ensures Shape(k) && 1 <= k.cores[c].preempt <= QUANTUM
  {
    assert CountersFit(k, c) && CurrentFits(k, c);
  }

  /**
    No starvation: a ready process that is not killed is dispatched within 13 * NPROC calls of
    resched on its core, whatever else every core does in between.
  */
  lemma NoStarvation(w: nat, ks: seq<State>, steps: seq<Step>, c: nat, p: nat)
    requires Run(w, ks, steps) && Inv(ks[0]) && Waits(ks[0], c, p) && Spared(w, ks, steps, p)
    requires Rescheds(w, ks, steps, c, |steps|) >= 13 * NPROC
    ensures Dispatched(w, ks, steps, c, p, |steps|)
  {
    hide Enabled;
    hide Next;
    hide Inv;
    hide Rank;
    RankFalls(w, ks, steps, c, p, |steps|);
    InvMid(ks[0]);
    RankBounds(ks[0], c, p);
    InvMid(ks[|steps|]);
    if Waits(ks[|steps|], c, p) { RankBounds(ks[|steps|], c, p); }
  }

  lemma InvMid(k: State)
    requires Inv(k)
    ensures MidInv(k) && Shape(k)
  {
  }

  /** The same bound in clock ticks. */
  lemma NoStarvationInTicks(w: nat, ks: seq<State>, steps: seq<Step>, c: nat, p: nat)
    requires Run(w, ks, steps) && Inv(ks[0]) && Waits(ks[0], c, p) && Spared(w, ks, steps, p)
    requires Ticks(steps, c, |steps|) >= 13 * NPROC * QUANTUM
    ensures Dispatched(w, ks, steps, c, p, |steps|)
  {
    hide Enabled;
    hide Next;
    hide Inv;
    hide Rank;
    RankFalls(w, ks, steps, c, p, |steps|);
    InvMid(ks[0]);
    RankBounds(ks[0], c, p);
    InvMid(ks[|steps|]);
    PreemptRange(ks[0], c);
    PreemptRange(ks[|steps|], c);
    if Waits(ks[|steps|], c, p) { RankBounds(ks[|steps|], c, p); }
  }

  // ----- the clock -----

  lemma ReschedClock(k: State, d: nat, c: nat)
    requires Shape(k) && d < NCORES && c < NCORES && d != c
    ensures Shape(Resched(k, d)) && Resched(k, d).cores[c] == k.cores[c]
  {
    hide Age;
    hide Requeue;
    AgeElsewhere(k, d, c);
    RequeueElsewhere(Age(k, d), d, c);
  }

  /** Between two calls of resched on core c each tick there lowers its preempt counter by one. */
  lemma StepClock(w: nat, k: State, s: Step, c: nat)
    requires Inv(k) && Enabled(w, k, s) && c < NCORES && !ReschedsOn(k, s, c)
    ensures Shape(Next(w, k, s)) && Next(w, k, s).cores[c].preempt == k.cores[c].preempt - Int(s == DoTick(c))
  {
    hide MidInv;
    hide Resched;
    hide Collect;
    hide WakeBody;
    hide NewPid;
    hide GetMem;
    hide StackSize;
    hide FreeStack;
    MidParts(k);
    assert CurrentFits(k, c);
    var x := k.cores[s.c].currpid;
    match s {
      case DoResched(d) => ReschedClock(k, d, c);
      case DoTick(d) =>
        if d != c { ReschedClock(k.(cores := k.cores[d := Ticked(k.cores[d])]), d, c); }
      case DoRecv(d) => if k.proc[x].hasMessage { CollectCores(k, x); }
      case DoCollect(d) => ResumedHasMessage(k, d); CollectCores(k, x);
      case DoWake(d) => if Owes(k, x) { WakeIs(k, x); } else { WakeStaleIs(k, x); }
      case DoKill(d, pid) => KillClock(w, k, d, pid, c);
      case _ =>
    }
  }

  lemma CollectCores(k: State, x: nat)
    requires Inv(k) && x < NPROC && k.proc[x].state == PRCURR && !k.proc[x].pc.Waking? && k.proc[x].hasMessage
    ensures Shape(Collect(k, x)) && Collect(k, x).cores == k.cores
  {
    hide MidInv;
    hide Collect;
    MidParts(k);
    if k.queues[x] == [] { CollectPlain(k, x); } else { AdmitIs(k, x); }
  }

  lemma KillClock(w: nat, k: State, d: nat, pid: int, c: nat)
    requires w >= 3 && Shape(k) && d < NCORES && c < NCORES && !ReschedsOn(k, DoKill(d, pid), c)
    ensures Shape(Kill(w, k, d, pid)) && Kill(w, k, d, pid).cores[c] == k.cores[c]
  {
    hide Resched;
    hide FreeStack;
    if !KillRefused(k, d, pid) && k.proc[pid].state == PRCURR {
      var h := FreeStack(w, k.heap, k.proc[pid].stkbase, k.proc[pid].stklen);
      var k1 := k.(numproc := k.numproc - 1, heap := h);
      ReschedClock(SetProc(k1, pid, Freed(k.proc[pid])), d, c);
    }
  }

  lemma {:induction false} ClockRunsDown(w: nat, ks: seq<State>, steps: seq<Step>, c: nat, n: nat)
    requires Run(w, ks, steps) && Inv(ks[0]) && c < NCORES && n <= |steps| && Rescheds(w, ks, steps, c, n) == 0
    ensures Inv(ks[n]) && Shape(ks[0]) && Shape(ks[n])
    ensures ks[n].cores[c].preempt + Ticks(steps, c, n) == ks[0].cores[c].preempt
  {
    hide Enabled;
    hide Next;
    hide Inv;
    KernelRuns.RunKeeps(w, ks, steps, n);
    InvMid(ks[n]);
    InvMid(ks[0]);
    if n > 0 {
      ClockRunsDown(w, ks, steps, c, n - 1);
      StepClock(w, ks[n - 1], steps[n - 1], c);
    }
  }

  /** At least one resched happens on a core in any QUANTUM ticks there. */
  lemma TicksResched(w: nat, ks: seq<State>, steps: seq<Step>, c: nat)
    requires Run(w, ks, steps) && Inv(ks[0]) && c < NCORES && Ticks(steps, c, |steps|) >= QUANTUM
    ensures Rescheds(w, ks, steps, c, |steps|) >= 1
  {
    hide Enabled;
    hide Next;
    hide Inv;
    if Rescheds(w, ks, steps, c, |steps|) == 0 {
      ClockRunsDown(w, ks, steps, c, |steps|);
      PreemptRange(ks[0], c);
      PreemptRange(ks[|steps|], c);
    }
  }

  // ----- the time -----

  /** The ticks that a core's clock says have passed. */
  function Elapsed(r: Core): nat { r.clktime * CLKTICKS_PER_SEC + r.clkticks }

  ghost predicate SameTime(r: Core, r': Core) {
    r'.clkticks == r.clkticks && r'.clktime == r.clktime
  }

  lemma ReschedTime(k: State, d: nat, c: nat)
    requires Shape(k) && d < NCORES && c < NCORES
    ensures Shape(Resched(k, d)) && SameTime(k.cores[c], Resched(k, d).cores[c])
  {
    var ka := Age(k, d);
    assert Shape(ka) && SameTime(k.cores[c], ka.cores[c]);
    var kr := Requeue(ka, d);
    assert Shape(kr) && kr.cores == ka.cores;
  }

  lemma TickTime(k: State, d: nat, c: nat)
    requires Shape(k) && d < NCORES && c < NCORES
    ensures Shape(Tick(k, d)) && Elapsed(Tick(k, d).cores[c]) == Elapsed(k.cores[c]) + Int(d == c)
    ensures k.cores[c].clkticks < CLKTICKS_PER_SEC ==> Tick(k, d).cores[c].clkticks < CLKTICKS_PER_SEC
  {
    hide Resched;
    ReschedTime(k.(cores := k.cores[d := Ticked(k.cores[d])]), d, c);
  }

  lemma KillTime(w: nat, k: State, d: nat, pid: int, c: nat)
    requires w >= 3 && Shape(k) && d < NCORES && c < NCORES
    ensures Shape(Kill(w, k, d, pid)) && SameTime(k.cores[c], Kill(w, k, d, pid).cores[c])
  {
    hide Resched;
    hide FreeStack;
    if !KillRefused(k, d, pid) {
      var h := FreeStack(w, k.heap, k.proc[pid].stkbase, k.proc[pid].stklen);
      ReschedTime(SetProc(k.(numproc := k.numproc - 1, heap := h), pid, Freed(k.proc[pid])), d, c);
    }
  }

  /** Nothing but its own ticks moves the clock of a core, each by one. */
  lemma StepTime(w: nat, k: State, s: Step, c: nat)
    requires Inv(k) && Enabled(w, k, s) && c < NCORES
    ensures Shape(Next(w, k, s)) && Elapsed(Next(w, k, s).cores[c]) == Elapsed(k.cores[c]) + Int(s == DoTick(c))
    ensures k.cores[c].clkticks < CLKTICKS_PER_SEC ==> Next(w, k, s).cores[c].clkticks < CLKTICKS_PER_SEC
  {
    hide MidInv;
    hide Resched;
    hide Collect;
    hide WakeBody;
    hide Tick;
    hide Kill;
    hide NewPid;
    hide GetMem;
    hide StackSize;
    MidParts(k);
    var x := k.cores[s.c].currpid;
    match s {
      case DoResched(d) => ReschedTime(k, d, c);
      case DoTick(d) => TickTime(k, d, c);
      case DoRecv(d) => if k.proc[x].hasMessage { CollectCores(k, x); }
      case DoCollect(d) => ResumedHasMessage(k, d); CollectCores(k, x);
      case DoWake(d) => if Owes(k, x) { WakeIs(k, x); } else { WakeStaleIs(k, x); }
      case DoKill(d, pid) => KillTime(w, k, d, pid, c);
      case _ =>
    }
  }

  /** clktime and clkticks count the ticks of their core: a thousand to the second, never more left over. */
  lemma {:induction false} ClockCounts(w: nat, ks: seq<State>, steps: seq<Step>, c: nat, n: nat)
    requires Run(w, ks, steps) && Inv(ks[0]) && Shape(ks[0]) && c < NCORES && n <= |steps|
    requires ks[0].cores[c].clkticks < CLKTICKS_PER_SEC
    ensures Shape(ks[n]) && Elapsed(ks[n].cores[c]) == Elapsed(ks[0].cores[c]) + Ticks(steps, c, n)
    ensures ks[n].cores[c].clkticks < CLKTICKS_PER_SEC
  {
    hide Enabled;
    hide Next;
    hide Inv;
    hide Elapsed;
    if n > 0 {
      ClockCounts(w, ks, steps, c, n - 1);
      KernelRuns.RunKeeps(w, ks, steps, n - 1);
      StepTime(w, ks[n - 1], steps[n - 1], c);
    }
  }
}
