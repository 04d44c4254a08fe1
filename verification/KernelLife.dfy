/** create, kill and the clock: exactly when they keep the kernel's invariant. */
module KernelLife {
  import opened Config
  import opened Queues
  import opened Types
  import opened FreeLists
  import opened Heaps
  import opened Kernel
  import opened KernelInv

  // ----- leaving the queues -----

  lemma {:induction false} MinusAt(l: seq<int>, p: int, i: nat)
    requires Distinct(l) && i < |l| && l[i] == p
    ensures Minus(l, p) == Without(l, i)
  {
    if i > 0 {
      assert l[0] != l[i];
      assert l[1..][i - 1] == p;
      MinusAt(l[1..], p, i - 1);
      assert Without(l, i) == [l[0]] + Without(l[1..], i - 1);
    }
  }

  lemma {:induction false} MinusNone(l: seq<int>, p: int)
    requires p !in l
    ensures Minus(l, p) == l
  {
    if l != [] { MinusNone(l[1..], p); }
  }

  /** Dropping p takes it out of the one queue it is in, place i of queue q. */
  lemma DropAt(qs: seq<seq<int>>, q: nat, i: nat)
    requires Placed(qs) && q < |qs| && i < |qs[q]|
    ensures Drop(qs, qs[q][i]) == qs[q := Without(qs[q], i)]
  {
    var p := qs[q][i];
    assert p in qs[q];
    forall j | 0 <= j < |qs| ensures Drop(qs, p)[j] == qs[q := Without(qs[q], i)][j] {
      if j == q { MinusAt(qs[q], p, i); } else { MinusNone(qs[j], p); }
    }
  }

  lemma DropMembers(qs: seq<seq<int>>, q: nat, p: int)
    requires Placed(qs) && q < |qs| && p in qs[q]
    ensures |Drop(qs, p)| == |qs| && Placed(Drop(qs, p))
    ensures forall j, x :: 0 <= j < |qs| ==> (x in Drop(qs, p)[j] <==> x in qs[j] && x != p)
  {
    var i :| 0 <= i < |qs[q]| && qs[q][i] == p;
    DropAt(qs, q, i);
    PlacedRemove(qs, q, i);
    WithoutMembers(qs[q], i);
  }

  // ----- a process comes or goes -----

  /** The entry of p is replaced by one that is not live, and p is in no ready queue. */
  ghost predicate Retired(k: State, k': State, p: nat) {
    && Shape(k) && Shape(k') && NCORES <= p < NPROC && k'.cores == k.cores && Placed(k'.queues)
    && (forall x :: 0 <= x < NPROC && x != p ==> k'.proc[x] == k.proc[x])
    && (forall q, x :: 0 <= q < NQUEUE ==> (x in k'.queues[q] <==> x in k.queues[q] && (x != p || q < NPROC)))
    && !Live(k'.proc[p].state) && k'.proc[p].pc == Idle
    && k'.proc[p].priority <= 2 && -1 <= k'.proc[p].affinity < NCORES
    && (k'.proc[p].state == PRSUSP ==> k'.proc[p].affinity == -1)
  }

  /** The process that goes leaves a free slot if it is still claimed or queued. */
  ghost predicate MayRetire(k: State, k': State, p: nat) {
    && Retired(k, k', p) && WakersFit(k)
    && (Woken(k, p) || InMessageQueue(k, p) ==> k'.proc[p].state == PRFREE)
  }

  lemma RetireWoken(k: State, k': State, p: nat, x: nat)
    requires MayRetire(k, k', p)
    ensures Woken(k', x) <==> Woken(k, x) && k.proc[p].pc != Waking(x)
  {
    WokenAfter(k, k', p, x);
  }

  lemma RetireProc(k: State, k': State, p: nat, x: nat)
    requires MidInv(k) && MayRetire(k, k', p) && x < NPROC
    ensures ProcFits(k', x)
  {
    assert ProcFits(k, x);
    RetireWoken(k, k', p, x);
    if x != p && k.proc[p].pc != Waking(x) {
      ReadyStays(k, k', x);
      ProcKept(k, k', x);
    }
  }

  lemma RetireQueue(k: State, k': State, p: nat, q: nat)
    requires MidInv(k) && MayRetire(k, k', p) && q < NQUEUE
    ensures QueueFits(k', q)
  {
    assert QueueFits(k, q);
    forall x | x in k'.queues[q] ensures MemberFits(k', q, x) {
      assert MemberFits(k, q, x);
      RetireWoken(k, k', p, x);
    }
  }

  lemma RetireKeeps(k: State, k': State, p: nat)
    requires Inv(k) && MayRetire(k, k', p)
    ensures MidInv(k')
    ensures forall d :: 0 <= d < NCORES && k.cores[d].currpid != p ==> CurrentFits(k', d)
  {
    forall x | 0 <= x < NPROC ensures ProcFits(k', x) { RetireProc(k, k', p, x); }
    forall q | 0 <= q < NQUEUE ensures QueueFits(k', q) { RetireQueue(k, k', p, q); }
    forall d | 0 <= d < NCORES ensures CountersFit(k', d) { assert CountersFit(k, d); }
    forall d | 0 <= d < NCORES && k.cores[d].currpid != p ensures CurrentFits(k', d) { assert CurrentFits(k, d); }
  }

  // ----- create -----

  /** newpid looks at every slot: it fails only when none is free. */
  lemma {:induction false} NewPidFree(k: State, np: nat, n: nat)
    requires Shape(k)
    ensures NewPid(k, np, n).0.Some? ==> NewPid(k, np, n).0.value < NPROC
    ensures NewPid(k, np, n).0.Some? ==> k.proc[NewPid(k, np, n).0.value].state == PRFREE
    decreases n
  {
    if n > 0 { NewPidFree(k, SuccPid(np), n - 1); }
  }

  /** The slot that is n places round from np. */
  function Round(np: nat, n: nat): nat
    requires np < NPROC
  {
    if np + n < NPROC then np + n else (np + n) % NPROC
  }

  lemma {:induction false} NewPidSeesAll(k: State, np: nat, n: nat, i: nat)
    requires Shape(k) && np < NPROC && NewPid(k, np, n).0 == None && 1 <= i <= n <= NPROC
    ensures k.proc[Round(np, i)].state != PRFREE
    decreases n
  {
    assert Round(np, 1) == SuccPid(np);
    if i > 1 {
      NewPidSeesAll(k, SuccPid(np), n - 1, i - 1);
      assert Round(SuccPid(np), i - 1) == Round(np, i);
    }
  }

  /** What newpid returns is the first free slot round from np, and nextpid is left there. */
  lemma {:induction false} NewPidFirst(k: State, np: nat, n: nat) returns (i: nat)
    requires Shape(k) && np < NPROC && n <= NPROC && NewPid(k, np, n).0.Some?
    ensures 1 <= i <= n && NewPid(k, np, n) == (Some(Round(np, i)), Round(np, i))
    ensures k.proc[Round(np, i)].state == PRFREE
    ensures forall j :: 1 <= j < i ==> k.proc[Round(np, j)].state != PRFREE
    decreases n
  {
    assert Round(np, 1) == SuccPid(np);
    if k.proc[SuccPid(np)].state == PRFREE {
      i := 1;
    } else {
      var m := NewPidFirst(k, SuccPid(np), n - 1);
      i := m + 1;
      assert Round(SuccPid(np), m) == Round(np, i);
      forall j | 1 <= j < i ensures k.proc[Round(np, j)].state != PRFREE {
        if j > 1 { assert Round(SuccPid(np), j - 1) == Round(np, j); }
      }
    }
  }

  lemma NewPidComplete(k: State, np: nat)
    requires Shape(k) && np < NPROC
    ensures NewPid(k, np, NPROC).0 == None <==> forall p :: 0 <= p < NPROC ==> k.proc[p].state != PRFREE
  {
    NewPidFree(k, np, NPROC);
    if NewPid(k, np, NPROC).0 == None {
      forall p | 0 <= p < NPROC ensures k.proc[p].state != PRFREE {
        var i := if p > np then p - np else p + NPROC - np;
        NewPidSeesAll(k, np, NPROC, i);
        assert Round(np, i) == p;
      }
    }
  }

  /** create succeeds exactly with a block for the stack and a free slot, and then returns that slot. */
  lemma CreateSlot(w: nat, k: State, c: nat, ssize: nat, priority: nat)
    requires w >= 3 && Shape(k) && c < |k.heap.lists| == |k.heap.lens|
    ensures GetMem(w, k, c, StackSize(w, ssize)).0.Some? <==> GetsStack(w, k, c, ssize)
    ensures Create(w, k, c, ssize, priority).0
         == if GetsStack(w, k, c, ssize) then NewPid(k, k.nextpid, NPROC).0 else None
    ensures forall r: nat :: Create(w, k, c, ssize, priority).0 == Some(r) <==> Fills(w, k, c, ssize, r)
  {
    hide StackSize;
    hide RoundMb;
    hide NewPid;
    TakeNone(k.heap.lists[c], RoundMb(w, StackSize(w, ssize)));
    NewPidFree(k, k.nextpid, NPROC);
  }

  lemma CreateKeeps(w: nat, k: State, c: nat, ssize: nat, priority: nat)
    requires w >= 3 && Inv(k) && c < |k.heap.lists| == |k.heap.lens| && priority <= 2
    requires CreateSafe(w, k, c, ssize)
    ensures Inv(Create(w, k, c, ssize, priority).1)
  {
    hide MidInv;
    hide NewPid;
    hide StackSize;
    hide GetMem;
    hide GetsStack;
    MidParts(k);
    var (pid, k') := Create(w, k, c, ssize, priority);
    CreateSlot(w, k, c, ssize, priority);
    NewPidFree(k, k.nextpid, NPROC);
    assert pid.Some? ==> Fills(w, k, c, ssize, pid.value);
    if pid == None {
      SameKeeps(k, k');
    } else {
      ArriveKeeps(k, k', pid.value);
    }
  }

  /**
    create keeps the invariant if and only if nobody is still about to ready the slot it hands out
    and that slot is in no message queue.
  */
  lemma CreateKeepsIff(w: nat, k: State, c: nat, ssize: nat, priority: nat)
    requires w >= 3 && Inv(k) && c < |k.heap.lists| == |k.heap.lens| && priority <= 2
    ensures Inv(Create(w, k, c, ssize, priority).1) <==> CreateSafe(w, k, c, ssize)
  {
    hide MidInv;
    hide NewPid;
    hide StackSize;
    hide GetMem;
    hide GetsStack;
    MidParts(k);
    CreateSlot(w, k, c, ssize, priority);
    NewPidFree(k, k.nextpid, NPROC);
    if CreateSafe(w, k, c, ssize) {
      CreateKeeps(w, k, c, ssize, priority);
    } else {
      var (pid, k') := Create(w, k, c, ssize, priority);
      assert ProcFits(k, pid.value);
      if Woken(k, pid.value) {
        WokenAfter(k, k', pid.value, pid.value);
        UnfitBreaks(k', pid.value);
      } else {
        var r :| 0 <= r < NPROC && pid.value in k.queues[r];
        assert !MemberFits(k', r, pid.value);
        QueueBreaks(k', r, pid.value);
      }
    }
  }

  lemma QueueBreaks(k: State, q: nat, p: int)
    requires Shape(k) && q < NQUEUE && p in k.queues[q] && !MemberFits(k, q, p)
    ensures !Inv(k)
  {
    assert !QueueFits(k, q);
  }

  lemma UnfitBreaks(k: State, p: nat)
    requires Shape(k) && p < NPROC && !ProcFits(k, p)
    ensures !Inv(k)
  {
  }

  /**
    What goes wrong in the first case: the new process has no core yet, so the call of ready that
    is still to come passes -1 and indexes the ready lists out of range.
  */
  lemma StaleReady(w: nat, k: State, c: nat, ssize: nat, priority: nat, v: nat)
    requires w >= 3 && Inv(k) && c < |k.heap.lists| == |k.heap.lens| && v < NPROC && k.proc[v].pc.Waking?
    requires Fills(w, k, c, ssize, k.proc[v].pc.target)
    ensures var t, k' := k.proc[v].pc.target, Create(w, k, c, ssize, priority).1;
            && t < NPROC && Shape(k') && k'.proc[v].pc == Waking(t)
            && !ReadyInRange(k', t, k'.proc[t].affinity)
  {
    hide MidInv;
    hide NewPid;
    hide StackSize;
    hide GetMem;
    hide GetsStack;
    MidParts(k);
    CreateSlot(w, k, c, ssize, priority);
    NewPidFree(k, k.nextpid, NPROC);
    assert ProcFits(k, v);
  }

  /**
    And in the second: the new process stands in the queue in the place of the sender that was
    killed there, whose message is gone; and the receiver that takes it off will ready it.
  */
  lemma StaleMember(w: nat, k: State, c: nat, ssize: nat, priority: nat, r: nat, t: nat)
    requires w >= 3 && Inv(k) && c < |k.heap.lists| == |k.heap.lens| && r < NPROC && t in k.queues[r]
    requires Fills(w, k, c, ssize, t)
    ensures var k' := Create(w, k, c, ssize, priority).1;
            && t < NPROC && Shape(k') && k'.queues[r] == k.queues[r]
            && k'.proc[t].msgout == EMPTY && !ReadyInRange(k', t, k'.proc[t].affinity)
  {
    hide MidInv;
    hide NewPid;
    hide StackSize;
    hide GetMem;
    hide GetsStack;
    MidParts(k);
    CreateSlot(w, k, c, ssize, priority);
    NewPidFree(k, k.nextpid, NPROC);
  }

  /** In every state that fits, a wake-up in progress is refused or finds its ready list. */
  lemma WakeInRange(k: State, v: nat)
    requires Inv(k) && v < NPROC && k.proc[v].pc.Waking?
    ensures var t := k.proc[v].pc.target; t < NPROC && ReadyInRange(k, t, k.proc[t].affinity)
  {
    var t := k.proc[v].pc.target;
    assert Woken(k, t) && ProcFits(k, t);
  }

  /** A free slot gets an entry that is not live. */
  lemma ArriveKeeps(k: State, k': State, p: nat)
    requires Inv(k) && Shape(k') && p < NPROC && k.proc[p].state == PRFREE && !Woken(k, p) && !InMessageQueue(k, p)
    requires k'.cores == k.cores && k'.queues == k.queues
    requires k'.proc == k.proc[p := k'.proc[p]] && !Live(k'.proc[p].state) && k'.proc[p].pc == Idle
    requires k'.proc[p].priority <= 2 && k'.proc[p].affinity == -1
    ensures Inv(k')
  {
    assert ProcFits(k, p);
    AbsentUnlessQueued(k, p);
    assert Retired(k, k', p);
    RetireKeeps(k, k', p);
    forall d | 0 <= d < NCORES ensures CurrentFits(k', d) {
      assert CurrentFits(k, d);
      assert k.cores[d].currpid != p;
    }
  }

  lemma SameKeeps(k: State, k': State)
    requires Inv(k) && k'.proc == k.proc && k'.queues == k.queues && k'.cores == k.cores
    ensures Inv(k')
  {
    forall x: nat ensures Woken(k', x) <==> Woken(k, x) { WokenSame(k, k', x); }
    forall x | 0 <= x < NPROC ensures ProcFits(k', x) {
      assert ProcFits(k, x);
      QueuesSame(k, k', x);
      ProcKept(k, k', x);
    }
    forall q | 0 <= q < NQUEUE ensures QueueFits(k', q) {
      assert QueueFits(k, q);
      MembersKept(k, k', q);
    }
    CurrentsKept(k, k');
  }

  // ----- kill -----

  /** The state in which kill leaves everything but the choice of a new current process. */
  function Buried(w: nat, k: State, pid: nat): State
    requires w >= 3 && Shape(k) && pid < NPROC
  {
    var b := k.proc[pid];
    State(k.proc[pid := Freed(b)], if b.state == PRREADY then Drop(k.queues, pid) else k.queues, k.cores,
          k.numproc - 1, k.nextpid, FreeStack(w, k.heap, b.stkbase, b.stklen))
  }

  lemma BuriedRetires(w: nat, k: State, pid: nat)
    requires w >= 3 && Inv(k) && NCORES <= pid < NPROC
    ensures Retired(k, Buried(w, k, pid), pid)
  {
    hide FreeStack;
    assert ProcFits(k, pid);
    forall q | 0 <= q < NQUEUE && pid in k.queues[q] ensures MemberFits(k, q, pid) { assert QueueFits(k, q); }
    if k.proc[pid].state == PRREADY {
      var l :| 0 <= l < 3 && pid in k.queues[ReadyQ(k.proc[pid].affinity, l)];
      DropMembers(k.queues, ReadyQ(k.proc[pid].affinity, l), pid);
    }
  }

  /** A process that kills itself leaves its core ready for resched; any other kill leaves nothing to do. */
  lemma BuriedFits(w: nat, k: State, c: nat, pid: int)
    requires w >= 3 && Inv(k) && At(k, c, Idle) && !KillRefused(k, c, pid)
    ensures k.proc[pid].state == PRCURR ==> k.cores[c].currpid == pid && MayResched(Buried(w, k, pid), c)
    ensures k.proc[pid].state != PRCURR ==> Inv(Buried(w, k, pid))
  {
    hide MidInv;
    hide FreeStack;
    hide Drop;
    MidParts(k);
    var k', p := Buried(w, k, pid), k.cores[c].currpid;
    BuriedRetires(w, k, pid);
    assert MayRetire(k, k', pid);
    RetireKeeps(k, k', pid);
    assert ProcFits(k, pid) && ProcFits(k, p);
    forall d | 0 <= d < NCORES && d != c ensures CurrentFits(k', d) { assert CurrentFits(k, d); }
  }

  /** kill keeps the invariant, whatever its target. */
  lemma KillKeeps(w: nat, k: State, c: nat, pid: int)
    requires w >= 3 && Inv(k) && At(k, c, Idle)
    ensures Inv(Kill(w, k, c, pid))
  {
    hide MidInv;
    hide FreeStack;
    hide Drop;
    hide Resched;
    MidParts(k);
    if !KillRefused(k, c, pid) {
      BuriedFits(w, k, c, pid);
      if k.proc[pid].state == PRCURR { ReschedKeeps(Buried(w, k, pid), c); }
    }
  }

  /** The queue that a free process is left in. */
  ghost predicate FreeInQueue(k: State, pid: nat)
    requires Shape(k) && pid < NPROC
  {
    k.proc[pid].state == PRFREE && InMessageQueue(k, pid)
  }

  /** A process that is killed stays in the message queue it waits in, and every other goes on as it was. */
  lemma SenderStays(w: nat, k: State, c: nat, pid: int)
    requires w >= 3 && Inv(k) && At(k, c, Idle) && !KillRefused(k, c, pid)
    ensures Shape(Kill(w, k, c, pid)) && Kill(w, k, c, pid).proc[pid] == Freed(k.proc[pid])
    ensures forall x :: 0 <= x < NPROC && x != pid ==> SameBut(k.proc[x], Kill(w, k, c, pid).proc[x])
    ensures forall r, x :: 0 <= r < NPROC ==> (x in Kill(w, k, c, pid).queues[r] <==> x in k.queues[r])
  {
    hide FreeStack;
    hide Drop;
    hide MidInv;
    hide Resched;
    MidParts(k);
    BuriedRetires(w, k, pid);
    assert ProcFits(k, pid) && ProcFits(k, k.cores[c].currpid);
    if k.proc[pid].state == PRCURR {
      BuriedFits(w, k, c, pid);
      ReschedMessages(Buried(w, k, pid), c);
      assert SameBut(Freed(k.proc[pid]), Kill(w, k, c, pid).proc[pid]);
    }
  }

  lemma KillWoken(w: nat, k: State, c: nat, pid: int, t: nat)
    requires w >= 3 && Inv(k) && At(k, c, Idle) && !KillRefused(k, c, pid)
    ensures Woken(Kill(w, k, c, pid), t) <==> Woken(k, t) && k.proc[pid].pc != Waking(t)
  {
    hide MidInv;
    hide Kill;
    MidParts(k);
    SenderStays(w, k, c, pid);
    var k' := Kill(w, k, c, pid);
    forall x | 0 <= x < NPROC && x != pid ensures k'.proc[x].pc == k.proc[x].pc {
      assert SameBut(k.proc[x], k'.proc[x]);
    }
    WokenAfter(k, k', pid, t);
  }

  /** After a kill those are stranded that were, but for its target, and the one its target had still to ready. */
  lemma KillStrands(w: nat, k: State, c: nat, pid: int, t: nat)
    requires w >= 3 && Inv(k) && At(k, c, Idle) && !KillRefused(k, c, pid) && t < NPROC
    ensures Shape(Kill(w, k, c, pid))
    ensures Stranded(Kill(w, k, c, pid), t)
       <==> t != pid && (Stranded(k, t) || (k.proc[pid].pc == Waking(t) && k.proc[t].state != PRFREE))
  {
    hide MidInv;
    hide Kill;
    MidParts(k);
    SenderStays(w, k, c, pid);
    KillWoken(w, k, c, pid, t);
    var k' := Kill(w, k, c, pid);
    assert ProcFits(k, t);
    assert t != pid ==> SameBut(k.proc[t], k'.proc[t]);
    forall r | 0 <= r < NPROC ensures t in k.queues[r] ==> !Woken(k, t) {
      assert QueueFits(k, r);
      assert t in k.queues[r] ==> MemberFits(k, r, t);
    }
  }

  /** A process goes on as it was, but may be put on its core or taken off it. */
  predicate SameBut(b: Pcb, b': Pcb) {
    b' == b.(state := b'.state) && (b'.state == b.state || (Runnable(b.state) && Runnable(b'.state)))
  }

  predicate Runnable(s: PState) { s == PRCURR || s == PRREADY }

  /** resched touches no message queue, and no process that does not run or want to. */
  lemma ReschedMessages(k: State, c: nat)
    requires MayResched(k, c)
    ensures Shape(Resched(k, c))
    ensures forall p :: 0 <= p < NPROC ==> SameBut(k.proc[p], Resched(k, c).proc[p])
    ensures forall r :: 0 <= r < NPROC ==> Resched(k, c).queues[r] == k.queues[r]
  {
    hide MidInv;
    hide Age;
    hide Requeue;
    hide Pick;
    MidParts(k);
    AgeKeeps(k, c);
    AgeMessages(k, c);
    var ka := Age(k, c);
    MidParts(ka);
    RequeueMessages(ka, c);
    var kr := Requeue(ka, c);
    RequeueKeeps(ka, c);
    PickMessages(kr, c);
    var k' := Resched(k, c);
    forall p | 0 <= p < NPROC ensures SameBut(k.proc[p], k'.proc[p]) {
      assert SameBut(ka.proc[p], kr.proc[p]) && SameBut(kr.proc[p], k'.proc[p]);
    }
  }

  lemma RequeueMessages(k: State, c: nat)
    requires Shape(k) && c < NCORES
    ensures Shape(Requeue(k, c)) && forall r :: 0 <= r < NPROC ==> Requeue(k, c).queues[r] == k.queues[r]
    ensures forall p :: 0 <= p < NPROC ==> SameBut(k.proc[p], Requeue(k, c).proc[p])
  {
  }

  lemma PickMessages(k: State, c: nat)
    requires MidInv(k) && c < NCORES
    ensures Shape(Pick(k, c)) && forall r :: 0 <= r < NPROC ==> Pick(k, c).queues[r] == k.queues[r]
    ensures forall p :: 0 <= p < NPROC ==> SameBut(k.proc[p], Pick(k, c).proc[p])
  {
    hide MidInv;
    MidParts(k);
    if k.queues[ReadyQ(c, Level(k, c))] != [] { PickMembers(k, c); }
  }

  lemma AgeMessages(k: State, c: nat)
    requires Shape(k) && c < NCORES
    ensures |Age(k, c).queues| == NQUEUE && forall r :: 0 <= r < NPROC ==> Age(k, c).queues[r] == k.queues[r]
  {
  }

  /**
    kill always keeps the invariant.  Where nobody is stranded, it strands a process if and only if
    its target owes a live one a wake-up.  The slot it frees stays in a message queue if and only
    if the target waited in one.
  */
  lemma KillKeepsIff(w: nat, k: State, c: nat, pid: int)
    requires w >= 3 && Inv(k) && At(k, c, Idle) && !KillRefused(k, c, pid) && NobodyStranded(k)
    ensures Inv(Kill(w, k, c, pid)) && Shape(Kill(w, k, c, pid))
    ensures NobodyStranded(Kill(w, k, c, pid)) <==> !Owes(k, pid)
    ensures Owes(k, pid) ==> Stranded(Kill(w, k, c, pid), k.proc[pid].pc.target)
    ensures FreeInQueue(Kill(w, k, c, pid), pid) <==> InMessageQueue(k, pid)
  {
    hide MidInv;
    hide Kill;
    hide Stranded;
    MidParts(k);
    KillKeeps(w, k, c, pid);
    SenderStays(w, k, c, pid);
    NotItsOwn(k, pid);
    forall t | 0 <= t < NPROC
      ensures Stranded(Kill(w, k, c, pid), t) <==> t != pid && k.proc[pid].pc == Waking(t) && k.proc[t].state != PRFREE
    {
      KillStrands(w, k, c, pid, t);
    }
  }

  /** No process is about to ready itself. */
  lemma NotItsOwn(k: State, p: nat)
    requires Inv(k) && p < NPROC
    ensures k.proc[p].pc != Waking(p)
  {
    assert ProcFits(k, p);
    assert k.proc[p].pc == Waking(p) ==> Woken(k, p);
  }

  /**
    In the fields of the process table: a process that waits may be killed at any time, queued or
    claimed or not; one that was never readied has no core yet, so every kill of it is refused.
  */
  lemma BlockedKill(k: State, c: nat, pid: nat)
    requires Inv(k) && pid < NPROC && c < NCORES
    ensures k.proc[pid].state == PRRECV || k.proc[pid].state == PRSEND ==> !Owes(k, pid)
    ensures k.proc[pid].state == PRSUSP ==> KillRefused(k, c, pid)
  {
    assert ProcFits(k, pid);
  }

  // ----- the clock -----

  /** The counter may stand at zero when the clock calls resched. */
  lemma TickMayResched(k: State, c: nat)
    requires Inv(k) && c < NCORES
    ensures 1 <= k.cores[c].preempt <= QUANTUM
    ensures MayResched(k.(cores := k.cores[c := Ticked(k.cores[c])]), c)
    ensures k.cores[c].preempt > 1 ==> Inv(k.(cores := k.cores[c := Ticked(k.cores[c])]))
  {
    assert CountersFit(k, c) && CurrentFits(k, c);
    var r := Ticked(k.cores[c]);
    var k' := k.(cores := k.cores[c := r]);
    CountersKeep(k, c, r);
    forall d | 0 <= d < NCORES && d != c ensures CurrentFits(k', d) { assert CurrentFits(k, d); }
    assert k.cores[c].preempt > 1 ==> CurrentFits(k', c);
  }

  lemma TickKeeps(k: State, c: nat)
    requires Inv(k) && c < NCORES
    ensures Inv(Tick(k, c))
  {
    hide Resched;
    hide MidInv;
    MidParts(k);
    TickMayResched(k, c);
    if k.cores[c].preempt == 1 { ReschedKeeps(k.(cores := k.cores[c := Ticked(k.cores[c])]), c); }
  }
}
