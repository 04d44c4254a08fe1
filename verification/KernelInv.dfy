/** Every step of every core keeps the kernel's invariant. */
module KernelInv {
  import opened Config
  import opened Queues
  import opened Kernel

  // ----- frames -----

  /** A process whose entry, queues and waker are as before fits as before. */
  lemma ProcKept(k: State, k': State, p: nat)
    requires Shape(k) && Shape(k') && p < NPROC && ProcFits(k, p) && k'.proc[p] == k.proc[p]
    requires Woken(k', p) <==> Woken(k, p)
    requires k.proc[p].state == PRREADY && InReadyQueue(k, p) ==> InReadyQueue(k', p)
    requires k.proc[p].state == PRSEND && InMessageQueue(k, p) ==> InMessageQueue(k', p)
    requires k.proc[p].state == PRCURR ==> k'.cores[k.proc[p].affinity].currpid == p
    ensures ProcFits(k', p)
  {
  }

  lemma MembersKept(k: State, k': State, q: nat)
    requires Shape(k) && Shape(k') && q < NQUEUE && QueueFits(k, q)
    requires forall p :: p in k'.queues[q] ==> p in k.queues[q]
    requires forall p :: p in k'.queues[q] && 0 <= p < NPROC ==>
               && k'.proc[p].state == k.proc[p].state && k'.proc[p].affinity == k.proc[p].affinity
               && k'.proc[p].priority == k.proc[p].priority && (Woken(k', p) <==> Woken(k, p))
    ensures QueueFits(k', q)
  {
    forall p | p in k'.queues[q] ensures MemberFits(k', q, p) {
      assert MemberFits(k, q, p);
    }
  }

  lemma WokenSame(k: State, k': State, t: nat)
    requires |k.proc| == |k'.proc| && forall w :: 0 <= w < |k.proc| ==> k'.proc[w].pc == k.proc[w].pc
    ensures Woken(k', t) <==> Woken(k, t)
  {
    if Woken(k, t) {
      var w :| 0 <= w < |k.proc| && k.proc[w].pc == Waking(t);
      assert k'.proc[w].pc == Waking(t);
    }
    if Woken(k', t) {
      var w :| 0 <= w < |k'.proc| && k'.proc[w].pc == Waking(t);
      assert k.proc[w].pc == Waking(t);
    }
  }

  lemma MidParts(k: State)
    requires MidInv(k)
    ensures Shape(k) && Placed(k.queues) && WakersFit(k)
    ensures forall q :: 0 <= q < NQUEUE ==> QueueFits(k, q)
    ensures forall p :: 0 <= p < NPROC ==> ProcFits(k, p)
    ensures forall c :: 0 <= c < NCORES ==> CountersFit(k, c)
  {
  }

  // ----- aging -----

  /** Moving the first member of one ready queue to the next one up. */
  lemma MoveMembers(qs: seq<seq<int>>, from: nat, to: nat)
    requires Placed(qs) && from < |qs| && to < |qs| && from != to && qs[from] != []
    ensures var qs' := MoveHead(qs, from, to); var h := qs[from][0];
            && |qs'| == |qs| && Placed(qs')
            && (forall q, p :: 0 <= q < |qs| ==>
                  (p in qs'[q] <==> if p == h then q == to else p in qs[q]))
  {
    var h := qs[from][0];
    WithoutMembers(qs[from], 0);
    assert Without(qs[from], 0) == qs[from][1..];
    PlacedRemove(qs, from, 0);
    var qs1 := qs[from := qs[from][1..]];
    PlacedAdd(qs1, to, h);
    assert MoveHead(qs, from, to) == qs1[to := qs1[to] + [h]];
    assert h in qs[from];
  }

  lemma MoveUpKeeps(k: State, c: nat, l: nat)
    requires MidInv(k) && c < NCORES && l < 2
    ensures MidInv(k.(queues := MoveHead(k.queues, ReadyQ(c, l), ReadyQ(c, l + 1))))
  {
    var from, to := ReadyQ(c, l), ReadyQ(c, l + 1);
    if k.queues[from] != [] {
      var k' := k.(queues := MoveHead(k.queues, from, to));
      var h := k.queues[from][0];
      MoveMembers(k.queues, from, to);
      assert h in k.queues[from] && QueueFits(k, from) && MemberFits(k, from, h);
      forall q | 0 <= q < NQUEUE ensures QueueFits(k', q) {
        MoveUpQueue(k, k', from, to, h, q);
      }
      forall p | 0 <= p < NPROC ensures ProcFits(k', p) {
        MoveUpProc(k, k', from, to, h, p);
      }
      forall d | 0 <= d < NCORES ensures CountersFit(k', d) { assert CountersFit(k, d); }
    } else {
      assert k.(queues := k.queues) == k;
    }
  }

  lemma MoveUpQueue(k: State, k': State, from: nat, to: nat, h: int, q: nat)
    requires Shape(k) && Shape(k') && q < NQUEUE && QueueFits(k, q) && from < NQUEUE && to < NQUEUE
    requires k' == k.(queues := k'.queues) && NPROC <= from && to == from + 1
    requires MemberFits(k, from, h) && MemberFits(k, to, h)
    requires forall p :: p in k'.queues[q] <==> if p == h then q == to else p in k.queues[q]
    ensures QueueFits(k', q)
  {
    forall p | p in k'.queues[q] ensures MemberFits(k', q, p) {
      WokenSame(k, k', if p >= 0 then p else 0);
      if p != h { assert MemberFits(k, q, p); }
    }
  }

  lemma MoveUpProc(k: State, k': State, from: nat, to: nat, h: int, p: nat)
    requires Shape(k) && Shape(k') && p < NPROC && ProcFits(k, p)
    requires k' == k.(queues := k'.queues) && NPROC <= from && to == from + 1 && to < NQUEUE && MemberFits(k, to, h)
    requires forall q, p :: 0 <= q < NQUEUE ==> (p in k'.queues[q] <==> if p == h then q == to else p in k.queues[q])
    ensures ProcFits(k', p)
  {
    WokenSame(k, k', p);
    var b := k.proc[p];
    if b.state == PRREADY {
      if p == h {
        var l := to - NPROC - 3 * b.affinity;
        assert ReadyQ(b.affinity, l) == to;
      } else {
        var l :| 0 <= l < 3 && p in k.queues[ReadyQ(b.affinity, l)];
        assert p in k'.queues[ReadyQ(b.affinity, l)];
      }
      assert InReadyQueue(k', p);
    }
    if b.state == PRSEND && InMessageQueue(k, p) {
      var r :| 0 <= r < NPROC && p in k.queues[r];
      assert p != h;
      assert p in k'.queues[r];
    }
    ProcKept(k, k', p);
  }

  /** New counters on one core, in range. */
  lemma CountersKeep(k: State, c: nat, r: Core)
    requires MidInv(k) && c < NCORES && r.currpid == k.cores[c].currpid
    requires 1 <= r.promoteMed <= QUANTUM && 1 <= r.promoteLow <= QUANTUM && r.preempt <= QUANTUM
    ensures MidInv(k.(cores := k.cores[c := r]))
  {
    var k' := k.(cores := k.cores[c := r]);
    assert CountersFit(k, c);
    forall p | 0 <= p < NPROC ensures ProcFits(k', p) {
      assert ProcFits(k, p);
      WokenSame(k, k', p);
      if k.proc[p].state == PRREADY {
        var l :| 0 <= l < 3 && p in k.queues[ReadyQ(k.proc[p].affinity, l)];
        assert InReadyQueue(k', p);
      }
      if k.proc[p].state == PRSEND && InMessageQueue(k, p) {
        var r :| 0 <= r < NPROC && p in k.queues[r];
        assert InMessageQueue(k', p);
      }
      ProcKept(k, k', p);
    }
    forall q | 0 <= q < NQUEUE ensures QueueFits(k', q) {
      forall p | p in k'.queues[q] && 0 <= p < NPROC ensures Woken(k', p) <==> Woken(k, p) { WokenSame(k, k', p); }
      MembersKept(k, k', q);
    }
    forall d | 0 <= d < NCORES ensures CountersFit(k', d) { assert CountersFit(k, d); }
  }

  lemma AgeKeeps(k: State, c: nat)
    requires MidInv(k) && c < NCORES
    ensures MidInv(Age(k, c)) && Age(k, c).proc == k.proc
    ensures Age(k, c) == k.(queues := Age(k, c).queues, cores := Age(k, c).cores)
    ensures forall d :: 0 <= d < NCORES ==>
              Age(k, c).cores[d].currpid == k.cores[d].currpid && Age(k, c).cores[d].preempt == k.cores[d].preempt
  {
    hide MidInv;
    MidParts(k);
    var r := k.cores[c];
    assert CountersFit(k, c);
    if r.promoteMed > 1 {
      CountersKeep(k, c, r.(promoteMed := r.promoteMed - 1));
    } else {
      var k1 := k.(queues := MoveHead(k.queues, ReadyQ(c, MED), ReadyQ(c, HIGH)));
      MoveUpKeeps(k, c, MED);
      MidParts(k1);
      if r.promoteLow > 1 {
        CountersKeep(k1, c, r.(promoteMed := QUANTUM, promoteLow := r.promoteLow - 1));
      } else {
        MoveUpKeeps(k1, c, LOW);
        var k2 := k1.(queues := MoveHead(k1.queues, ReadyQ(c, LOW), ReadyQ(c, MED)));
        MidParts(k2);
        CountersKeep(k2, c, r.(promoteMed := QUANTUM, promoteLow := QUANTUM));
      }
    }
  }

  // ----- a process joins or leaves a ready queue -----

  lemma AbsentUnlessQueued(k: State, p: nat)
    requires MidInv(k) && p < NPROC
    requires k.proc[p].state != PRREADY
    requires k.proc[p].state == PRSEND || k.proc[p].state == PRFREE ==> Woken(k, p) || !InMessageQueue(k, p)
    ensures Absent(k.queues, p)
  {
    forall q | 0 <= q < NQUEUE ensures p !in k.queues[q] {
      assert QueueFits(k, q);
      assert p in k.queues[q] ==> MemberFits(k, q, p);
    }
  }

  /** Process p, in no queue, gets a new entry that says PRREADY and joins the queue it says. */
  function Join(k: State, p: nat, b: Pcb): State
    requires Shape(k) && p < NPROC && 0 <= b.affinity < NCORES && b.priority <= 2
  {
    Append(SetProc(k, p, b), ReadyQ(b.affinity, b.priority), p)
  }

  lemma JoinMembers(k: State, p: nat, b: Pcb)
    requires MidInv(k) && p < NPROC && 0 <= b.affinity < NCORES && b.priority <= 2 && Absent(k.queues, p)
    ensures var k' := Join(k, p, b);
            && Shape(k') && Placed(k'.queues)
            && forall q, x :: 0 <= q < NQUEUE ==>
                 (x in k'.queues[q] <==> x in k.queues[q] || (x == p && q == ReadyQ(b.affinity, b.priority)))
  {
    PlacedAdd(k.queues, ReadyQ(b.affinity, b.priority), p);
  }

  lemma ReadyStays(k: State, k': State, x: nat)
    requires Shape(k) && Shape(k') && x < NPROC && k'.proc[x] == k.proc[x]
    requires forall q :: 0 <= q < NQUEUE && x in k.queues[q] ==> x in k'.queues[q]
    ensures 0 <= k.proc[x].affinity < NCORES && InReadyQueue(k, x) ==> InReadyQueue(k', x)
    ensures InMessageQueue(k, x) ==> InMessageQueue(k', x)
  {
    if 0 <= k.proc[x].affinity < NCORES && InReadyQueue(k, x) {
      var l :| 0 <= l < 3 && x in k.queues[ReadyQ(k.proc[x].affinity, l)];
      assert x in k'.queues[ReadyQ(k'.proc[x].affinity, l)];
    }
    if InMessageQueue(k, x) {
      var r :| 0 <= r < NPROC && x in k.queues[r];
      assert x in k'.queues[r];
    }
  }

  /**
    Joining keeps the invariant when every other process finds its waker as before and
    nobody is left to wake p.
  */
  lemma JoinKeeps(k: State, p: nat, b: Pcb)
    requires MidInv(k) && p < NPROC && Absent(k.queues, p)
    requires b.state == PRREADY && 0 <= b.affinity < NCORES && b.priority <= 2
    requires b.pc == k.proc[p].pc && (b.pc == InRecv ==> b.hasMessage) && !Woken(k, p)
    requires p < NCORES ==> b.affinity == p && b.priority == LOW
    ensures MidInv(Join(k, p, b))
  {
    var k' := Join(k, p, b);
    JoinMembers(k, p, b);
    forall x: nat ensures Woken(k', x) <==> Woken(k, x) { WokenSame(k, k', x); }
    forall x | 0 <= x < NPROC ensures ProcFits(k', x) {
      assert ProcFits(k, x);
      if x == p {
        assert p in k'.queues[ReadyQ(b.affinity, b.priority)];
      } else {
        ReadyStays(k, k', x);
        ProcKept(k, k', x);
      }
    }
    forall q | 0 <= q < NQUEUE ensures QueueFits(k', q) {
      JoinQueue(k, p, b, q);
    }
    forall d | 0 <= d < NCORES ensures CountersFit(k', d) { assert CountersFit(k, d); }
  }

  lemma JoinQueue(k: State, p: nat, b: Pcb, q: nat)
    requires MidInv(k) && p < NPROC && Absent(k.queues, p) && q < NQUEUE
    requires b.state == PRREADY && 0 <= b.affinity < NCORES && b.priority <= 2 && b.pc == k.proc[p].pc
    ensures QueueFits(Join(k, p, b), q)
  {
    var k' := Join(k, p, b);
    JoinMembers(k, p, b);
    assert QueueFits(k, q);
    forall x | x in k'.queues[q] ensures MemberFits(k', q, x) {
      if x != p {
        assert MemberFits(k, q, x);
        WokenSame(k, k', x);
      }
    }
  }

  ghost predicate RunsAtHome(k: State, c: nat)
    requires Shape(k) && c < NCORES
  {
    var p := k.cores[c].currpid;
    p < NPROC && k.proc[p].state == PRCURR ==> k.proc[p].affinity == c
  }

  lemma RequeueKeeps(k: State, c: nat)
    requires MidInv(k) && c < NCORES
    requires RunsAtHome(k, c)
    ensures MidInv(Requeue(k, c)) && Requeue(k, c).cores == k.cores
    ensures forall p :: 0 <= p < NPROC && k.proc[p].affinity == c ==> Requeue(k, c).proc[p].state != PRCURR
    ensures forall p :: 0 <= p < NPROC && k.proc[p].affinity != c ==> Requeue(k, c).proc[p] == k.proc[p]
  {
    assert CountersFit(k, c);
    var p := k.cores[c].currpid;
    assert ProcFits(k, p);
    if k.proc[p].state == PRCURR {
      AbsentUnlessQueued(k, p);
      JoinKeeps(k, p, k.proc[p].(state := PRREADY));
    }
    forall x | 0 <= x < NPROC && k.proc[x].affinity == c ensures Requeue(k, c).proc[x].state != PRCURR {
      assert ProcFits(k, x);
    }
  }

  // ----- dispatch -----

  lemma PickMembers(k: State, c: nat)
    requires MidInv(k) && c < NCORES && k.queues[ReadyQ(c, Level(k, c))] != []
    ensures var q0 := ReadyQ(c, Level(k, c)); var p := k.queues[q0][0]; var k' := Pick(k, c);
            && 0 <= p < NPROC && k.proc[p].state == PRREADY && k.proc[p].affinity == c
            && k' == State(k.proc[p := k.proc[p].(state := PRCURR)], k.queues[q0 := k.queues[q0][1..]],
                           k.cores[c := k.cores[c].(currpid := p, preempt := QUANTUM)], k.numproc, k.nextpid, k.heap)
            && Shape(k') && Placed(k'.queues)
            && forall q, x :: 0 <= q < NQUEUE ==> (x in k'.queues[q] <==> x in k.queues[q] && x != p)
  {
    var q0 := ReadyQ(c, Level(k, c));
    var p := k.queues[q0][0];
    assert QueueFits(k, q0) && p in k.queues[q0];
    assert MemberFits(k, q0, p);
    PlacedRemove(k.queues, q0, 0);
    WithoutMembers(k.queues[q0], 0);
    assert Without(k.queues[q0], 0) == k.queues[q0][1..];
  }

  lemma PickKeeps(k: State, c: nat)
    requires MidInv(k) && c < NCORES && k.queues[ReadyQ(c, Level(k, c))] != []
    requires forall x :: 0 <= x < NPROC && k.proc[x].affinity == c ==> k.proc[x].state != PRCURR
    ensures MidInv(Pick(k, c)) && CurrentFits(Pick(k, c), c)
  {
    var k' := Pick(k, c);
    PickMembers(k, c);
    var p := k.queues[ReadyQ(c, Level(k, c))][0];
    forall x: nat ensures Woken(k', x) <==> Woken(k, x) { WokenSame(k, k', x); }
    forall x | 0 <= x < NPROC ensures ProcFits(k', x) {
      assert ProcFits(k, x);
      if x != p {
        ReadyStays(k, k', x);
        ProcKept(k, k', x);
      }
    }
    forall q | 0 <= q < NQUEUE ensures QueueFits(k', q) {
      assert QueueFits(k, q);
      MembersKept(k, k', q);
    }
    forall d | 0 <= d < NCORES ensures CountersFit(k', d) { assert CountersFit(k, d); }
  }

  /** The null process of a core keeps that core's ready queues from running dry. */
  lemma NeverEmpty(k: State, c: nat)
    requires MidInv(k) && c < NCORES && k.proc[c].state == PRREADY
    ensures k.queues[ReadyQ(c, Level(k, c))] != []
  {
    assert ProcFits(k, c);
    var l :| 0 <= l < 3 && c in k.queues[ReadyQ(c, l)];
    assert l == HIGH || l == MED || l == LOW;
  }

  /** What resched may be called on: the current process of the core has yielded, blocked or gone. */
  ghost predicate MayResched(k: State, c: nat) {
    && MidInv(k) && c < NCORES
    && RunsAtHome(k, c)
    && forall d :: 0 <= d < NCORES && d != c ==> CurrentFits(k, d)
  }

  lemma InvMayResched(k: State, c: nat)
    requires Inv(k) && c < NCORES
    ensures MayResched(k, c)
  {
    assert CurrentFits(k, c);
  }

  /** resched keeps the invariant, finds a process to run, and makes it current on its own core. */
  lemma ReschedKeeps(k: State, c: nat)
    requires MayResched(k, c)
    ensures Inv(Resched(k, c))
    ensures var k1 := Requeue(Age(k, c), c); var q := ReadyQ(c, Level(k1, c));
            Shape(k1) && k1.queues[q] != [] && 0 <= k1.queues[q][0] < NPROC
    ensures Resched(k, c).cores[c].preempt == QUANTUM
    ensures Resched(k, c).proc[Resched(k, c).cores[c].currpid].state == PRCURR
  {
    hide MidInv;
    hide Age;
    hide Requeue;
    MidParts(k);
    assert CountersFit(k, c);
    AgeKeeps(k, c);
    var ka := Age(k, c);
    MidParts(ka);
    RequeueKeeps(ka, c);
    var kr := Requeue(ka, c);
    MidParts(kr);
    assert ProcFits(kr, c) && ProcFits(ka, c);
    NeverEmpty(kr, c);
    PickKeeps(kr, c);
    PickMembers(kr, c);
    forall d | 0 <= d < NCORES && d != c ensures CurrentFits(Pick(kr, c), d) {
      assert CurrentFits(k, d);
    }
  }

  // ----- messages -----

  /** Who is about to be woken after one process changed what it is doing. */
  lemma WokenAfter(k: State, k': State, p: nat, x: nat)
    requires |k.proc| == |k'.proc| && p < |k.proc| && WakersFit(k)
    requires forall w :: 0 <= w < |k.proc| && w != p ==> k'.proc[w].pc == k.proc[w].pc
    ensures Woken(k', x) <==> k'.proc[p].pc == Waking(x) || (Woken(k, x) && k.proc[p].pc != Waking(x))
  {
    if Woken(k, x) && k.proc[p].pc != Waking(x) {
      var w :| 0 <= w < |k.proc| && k.proc[w].pc == Waking(x);
      assert k'.proc[w].pc == Waking(x);
    }
    if Woken(k', x) {
      var w :| 0 <= w < |k'.proc| && k'.proc[w].pc == Waking(x);
      assert w != p ==> k.proc[w].pc == Waking(x);
    }
  }

  lemma CurrentsKept(k: State, k': State)
    requires Inv(k) && Shape(k') && k'.cores == k.cores
    requires forall x :: 0 <= x < NPROC && Live(k.proc[x].state) ==>
               k'.proc[x].affinity == k.proc[x].affinity && Live(k'.proc[x].state)
    ensures forall c :: 0 <= c < NCORES ==> CurrentFits(k', c) && CountersFit(k', c)
  {
    forall c | 0 <= c < NCORES ensures CurrentFits(k', c) && CountersFit(k', c) {
      assert CurrentFits(k, c) && CountersFit(k, c);
    }
  }

  /** Filling a slot wakes nobody else, and its owner only if it waits in recv. */
  lemma DepositKeeps(k: State, p: nat, pid: nat, msg: int)
    requires Inv(k) && p < NPROC && pid < NPROC && k.proc[p].state == PRCURR && k.proc[p].pc == Idle
    requires k.proc[pid].state != PRFREE && !k.proc[pid].hasMessage
    ensures Inv(Deposit(k, p, pid, msg))
  {
    hide Deposit;
    DepositIs(k, p, pid, msg);
    var k' := Deposit(k, p, pid, msg);
    forall x | 0 <= x < NPROC ensures ProcFits(k', x) {
      assert ProcFits(k, x);
      QueuesSame(k, k', x);
    }
    forall q | 0 <= q < NQUEUE ensures QueueFits(k', q) {
      assert QueueFits(k, q);
      forall x | x in k'.queues[q] ensures MemberFits(k', q, x) { assert MemberFits(k, q, x); }
    }
    CurrentsKept(k, k');
  }

  lemma DepositIs(k: State, p: nat, pid: nat, msg: int)
    requires Inv(k) && p < NPROC && pid < NPROC && k.proc[p].state == PRCURR && k.proc[p].pc == Idle
    requires k.proc[pid].state != PRFREE && !k.proc[pid].hasMessage
    ensures var k' := Deposit(k, p, pid, msg); var wakes := k.proc[pid].state == PRRECV;
            && Shape(k') && k' == k.(proc := k'.proc) && WakersFit(k')
            && (wakes ==> p != pid && k.proc[pid].pc == InRecv)
            && (forall x :: 0 <= x < NPROC && x != p && x != pid ==> k'.proc[x] == k.proc[x])
            && (wakes ==> k'.proc[p] == k.proc[p].(pc := Waking(pid)))
            && (!wakes && p != pid ==> k'.proc[p] == k.proc[p])
            && k'.proc[pid] == k.proc[pid].(msgin := msg, hasMessage := true)
            && (forall x: nat :: Woken(k', x) <==> Woken(k, x) || (x == pid && wakes))
            && (k.proc[pid].state == PRRECV ==> !Woken(k, pid))
  {
    var k' := Deposit(k, p, pid, msg);
    assert ProcFits(k, pid) && ProcFits(k, p);
    forall x: nat ensures Woken(k', x) <==> Woken(k, x) || (x == pid && k.proc[pid].state == PRRECV) {
      WokenAfter(k, k', p, x);
    }
  }

  lemma QueuesSame(k: State, k': State, x: nat)
    requires Shape(k) && Shape(k') && k'.queues == k.queues && x < NPROC
    requires k'.proc[x].affinity == k.proc[x].affinity
    ensures 0 <= k.proc[x].affinity < NCORES ==> (InReadyQueue(k', x) <==> InReadyQueue(k, x))
    ensures InMessageQueue(k', x) <==> InMessageQueue(k, x)
  {
  }

  /** A process that queues up behind a full slot. */
  lemma SendBlockKeeps(k: State, p: nat, pid: nat, msg: int)
    requires Inv(k) && NCORES <= p < NPROC && pid < NPROC && k.proc[p].state == PRCURR && k.proc[p].pc == Idle
    ensures Inv(Append(SetProc(k, p, k.proc[p].(msgout := msg, state := PRSEND, pc := InSend)), pid, p))
  {
    var k' := Append(SetProc(k, p, k.proc[p].(msgout := msg, state := PRSEND, pc := InSend)), pid, p);
    assert ProcFits(k, p);
    AbsentUnlessQueued(k, p);
    PlacedAdd(k.queues, pid, p);
    assert forall q, x :: 0 <= q < NQUEUE ==> (x in k'.queues[q] <==> x in k.queues[q] || (x == p && q == pid));
    forall x: nat ensures Woken(k', x) <==> Woken(k, x) { WokenAfter(k, k', p, x); }
    forall x | 0 <= x < NPROC ensures ProcFits(k', x) {
      assert ProcFits(k, x);
      if x == p {
        assert p in k'.queues[pid];
      } else {
        ReadyStays(k, k', x);
        ProcKept(k, k', x);
      }
    }
    forall q | 0 <= q < NQUEUE ensures QueueFits(k', q) {
      assert QueueFits(k, q);
      forall x | x in k'.queues[q] ensures MemberFits(k', q, x) {
        if x != p { assert MemberFits(k, q, x); }
      }
    }
    CurrentsKept(k, k');
  }

  /** A process that finds its slot empty and blocks. */
  lemma RecvBlockKeeps(k: State, p: nat)
    requires Inv(k) && NCORES <= p < NPROC && k.proc[p].state == PRCURR && k.proc[p].pc == Idle
    requires !k.proc[p].hasMessage
    ensures Inv(SetProc(k, p, k.proc[p].(state := PRRECV, pc := InRecv)))
  {
    EntryKeeps(k, p, k.proc[p].(state := PRRECV, pc := InRecv));
  }

  /** A running process whose own entry changes, though not its place in queues or wake-ups. */
  lemma EntryKeeps(k: State, p: nat, b: Pcb)
    requires Inv(k) && p < NPROC && k.proc[p].state == PRCURR && !k.proc[p].pc.Waking?
    requires b.affinity == k.proc[p].affinity && b.priority == k.proc[p].priority
    requires (b.state == PRCURR && (b.pc == Idle || (b.pc == InRecv && b.hasMessage)))
          || (b.state == PRRECV && b.pc == InRecv && !b.hasMessage && NCORES <= p)
    ensures Inv(SetProc(k, p, b))
  {
    var k' := SetProc(k, p, b);
    assert ProcFits(k, p);
    AbsentUnlessQueued(k, p);
    forall x: nat ensures Woken(k', x) <==> Woken(k, x) { WokenAfter(k, k', p, x); }
    forall x | 0 <= x < NPROC ensures ProcFits(k', x) {
      assert ProcFits(k, x);
      if x != p {
        ReadyStays(k, k', x);
        ProcKept(k, k', x);
      }
    }
    forall q | 0 <= q < NQUEUE ensures QueueFits(k', q) {
      assert QueueFits(k, q) && p !in k.queues[q];
      MembersKept(k, k', q);
    }
    CurrentsKept(k, k');
  }

  /** Taking the message with nobody waiting empties the slot. */
  lemma CollectEmptyKeeps(k: State, p: nat)
    requires Inv(k) && p < NPROC && k.proc[p].state == PRCURR && !k.proc[p].pc.Waking?
    ensures Inv(SetProc(k, p, k.proc[p].(hasMessage := false, pc := Idle)))
  {
    EntryKeeps(k, p, k.proc[p].(hasMessage := false, pc := Idle));
  }

  /** Taking the message lets the first waiting sender out of the queue and into a wake-up. */
  lemma CollectAdmitKeeps(k: State, p: nat)
    requires Inv(k) && p < NPROC && k.proc[p].state == PRCURR && !k.proc[p].pc.Waking? && k.proc[p].hasMessage
    requires k.queues[p] != []
    ensures 0 <= k.queues[p][0] < NPROC && Inv(Collect(k, p))
  {
    hide Collect;
    AdmitIs(k, p);
    var k', s := Collect(k, p), k.queues[p][0];
    forall x | 0 <= x < NPROC ensures ProcFits(k', x) {
      assert ProcFits(k, x) && ProcFits(k, p);
      if x != p && x != s {
        ReadyStays(k, k', x);
        ProcKept(k, k', x);
      }
    }
    forall q | 0 <= q < NQUEUE ensures QueueFits(k', q) {
      assert QueueFits(k, q);
      MembersKept(k, k', q);
    }
    CurrentsKept(k, k');
  }

  lemma AdmitIs(k: State, p: nat)
    requires Inv(k) && p < NPROC && k.proc[p].state == PRCURR && !k.proc[p].pc.Waking? && k.proc[p].hasMessage
    requires k.queues[p] != []
    ensures var s, k' := k.queues[p][0], Collect(k, p);
            && 0 <= s < NPROC && s != p && (k.proc[s].state == PRSEND || k.proc[s].state == PRFREE) && !Woken(k, s)
            && k' == State(k.proc[p := k.proc[p].(msgin := k.proc[s].msgout, pc := Waking(s))]
                                 [s := k.proc[s].(msgout := EMPTY)],
                           k.queues[p := k.queues[p][1..]], k.cores, k.numproc, k.nextpid, k.heap)
            && Shape(k') && Placed(k'.queues) && WakersFit(k')
            && (forall q, x :: 0 <= q < NQUEUE ==> (x in k'.queues[q] <==> x in k.queues[q] && x != s))
            && (forall q :: 0 <= q < NQUEUE ==> p !in k.queues[q])
            && (forall x: nat :: Woken(k', x) <==> Woken(k, x) || x == s)
  {
    var s := k.queues[p][0];
    assert s in k.queues[p] && QueueFits(k, p);
    assert MemberFits(k, p, s);
    AbsentUnlessQueued(k, p);
    var k' := Collect(k, p);
    PlacedRemove(k.queues, p, 0);
    WithoutMembers(k.queues[p], 0);
    assert Without(k.queues[p], 0) == k.queues[p][1..];
    forall x: nat ensures Woken(k', x) <==> Woken(k, x) || x == s { WokenAfter(k, k', p, x); }
    assert WakersFit(k') by { assert !Woken(k, s); }
  }

  /** The wake-up itself: the one that waits becomes ready, and its waker is done. */
  lemma WakeKeeps(k: State, p: nat)
    requires Inv(k) && p < NPROC && k.proc[p].state == PRCURR && k.proc[p].pc.Waking?
    ensures var t := k.proc[p].pc.target;
            && t < NPROC && Inv(WakeBody(k, p))
            && WakeBody(k, p).proc[t].state == if k.proc[t].state == PRFREE then PRFREE else PRREADY
  {
    hide MidInv;
    MidParts(k);
    if k.proc[k.proc[p].pc.target].state == PRFREE { WakeStaleKeeps(k, p); } else { WakeLiveKeeps(k, p); }
  }

  lemma WakeLiveKeeps(k: State, p: nat)
    requires Inv(k) && p < NPROC && k.proc[p].state == PRCURR && Owes(k, p)
    ensures k.proc[p].pc.target < NPROC && Inv(WakeBody(k, p))
    ensures WakeBody(k, p).proc[k.proc[p].pc.target].state == PRREADY
  {
    var k', t := WakeBody(k, p), k.proc[p].pc.target;
    WakeIs(k, p);
    forall x | 0 <= x < NPROC ensures ProcFits(k', x) { WakeProc(k, p, x); }
    forall q | 0 <= q < NQUEUE ensures QueueFits(k', q) { WakeQueue(k, p, q); }
    CurrentsKept(k, k');
  }

  /** A wake-up of a process that has been killed since: ready refuses it, and the waker is done. */
  lemma WakeStaleIs(k: State, p: nat)
    requires Inv(k) && p < NPROC && k.proc[p].state == PRCURR && k.proc[p].pc.Waking? && !Owes(k, p)
    ensures var t := k.proc[p].pc.target;
            && t < NPROC && t != p && k.proc[t].state == PRFREE
            && WakeBody(k, p) == SetProc(k, p, k.proc[p].(pc := Idle))
            && (forall x: nat :: Woken(WakeBody(k, p), x) <==> Woken(k, x) && x != t)
  {
    var t := k.proc[p].pc.target;
    assert Woken(k, t);
    assert ProcFits(k, t);
    var k' := WakeBody(k, p);
    forall x: nat ensures Woken(k', x) <==> Woken(k, x) && x != t { WokenAfter(k, k', p, x); }
  }

  lemma WakeStaleKeeps(k: State, p: nat)
    requires Inv(k) && p < NPROC && k.proc[p].state == PRCURR && k.proc[p].pc.Waking? && !Owes(k, p)
    ensures k.proc[p].pc.target < NPROC && k.proc[k.proc[p].pc.target].state == PRFREE && Inv(WakeBody(k, p))
  {
    hide WakeBody;
    WakeStaleIs(k, p);
    var k', t := WakeBody(k, p), k.proc[p].pc.target;
    AbsentUnlessQueued(k, p);
    forall x | 0 <= x < NPROC ensures ProcFits(k', x) {
      assert ProcFits(k, x);
      if x != p && x != t {
        ReadyStays(k, k', x);
        ProcKept(k, k', x);
      }
    }
    forall q | 0 <= q < NQUEUE ensures QueueFits(k', q) {
      assert QueueFits(k, q);
      forall x | x in k'.queues[q] ensures MemberFits(k', q, x) { assert MemberFits(k, q, x); }
    }
    CurrentsKept(k, k');
  }

  lemma WakeIs(k: State, p: nat)
    requires Inv(k) && p < NPROC && k.proc[p].state == PRCURR && Owes(k, p)
    ensures var t := k.proc[p].pc.target; var k' := WakeBody(k, p);
            && t < NPROC && t != p && (k.proc[t].state == PRRECV || k.proc[t].state == PRSEND)
            && 0 <= k.proc[t].affinity < NCORES && k.proc[t].priority <= 2
            && var q0 := ReadyQ(k.proc[t].affinity, k.proc[t].priority);
            && k' == Append(SetProc(SetProc(k, p, k.proc[p].(pc := Idle)), t, k.proc[t].(state := PRREADY)), q0, t)
            && Shape(k') && Placed(k'.queues) && WakersFit(k')
            && (forall q, x :: 0 <= q < NQUEUE ==> (x in k'.queues[q] <==> x in k.queues[q] || (x == t && q == q0)))
            && (forall x: nat :: Woken(k', x) <==> Woken(k, x) && x != t)
  {
    var t := k.proc[p].pc.target;
    assert Woken(k, t);
    assert ProcFits(k, t) && ProcFits(k, p);
    AbsentUnlessQueued(k, t);
    var k' := WakeBody(k, p);
    PlacedAdd(k.queues, ReadyQ(k.proc[t].affinity, k.proc[t].priority), t);
    forall x: nat ensures Woken(k', x) <==> Woken(k, x) && x != t { WokenAfter(k, k', p, x); }
  }

  lemma WakeProc(k: State, p: nat, x: nat)
    requires Inv(k) && p < NPROC && k.proc[p].state == PRCURR && Owes(k, p) && x < NPROC
    ensures ProcFits(WakeBody(k, p), x)
  {
    hide WakeBody;
    WakeIs(k, p);
    var k', t := WakeBody(k, p), k.proc[p].pc.target;
    assert ProcFits(k, x);
    if x == t {
      assert t in k'.queues[ReadyQ(k.proc[t].affinity, k.proc[t].priority)];
    } else if x != p {
      ReadyStays(k, k', x);
      ProcKept(k, k', x);
    }
  }

  lemma WakeQueue(k: State, p: nat, q: nat)
    requires Inv(k) && p < NPROC && k.proc[p].state == PRCURR && Owes(k, p) && q < NQUEUE
    ensures QueueFits(WakeBody(k, p), q)
  {
    hide WakeBody;
    WakeIs(k, p);
    var k', t := WakeBody(k, p), k.proc[p].pc.target;
    assert QueueFits(k, q);
    forall x | x in k'.queues[q] ensures MemberFits(k', q, x) {
      if x != t { assert MemberFits(k, q, x); }
    }
  }

  /** ready on a process that create left suspended. */
  lemma ReadyKeeps(k: State, pid: nat, core: nat)
    requires Inv(k) && pid < NPROC && core < NCORES && k.proc[pid].state == PRSUSP
    ensures Inv(ReadyBody(k, pid, core)) && ReadyBody(k, pid, core).proc[pid].state == PRREADY
  {
    assert ProcFits(k, pid);
    var b := k.proc[pid].(state := PRREADY, affinity := ReadyCore(k, pid, core));
    AbsentUnlessQueued(k, pid);
    JoinKeeps(k, pid, b);
    assert ReadyBody(k, pid, core) == Join(k, pid, b);
    CurrentsKept(k, ReadyBody(k, pid, core));
  }
}
