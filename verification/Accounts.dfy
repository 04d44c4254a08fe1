/** Stacks and the process count: what is allocated is what the live user processes run on. */
module Accounts {
  import opened Config
  import opened Bits
  import opened Types
  import opened FreeLists
  import opened Heaps
  import opened Kernel
  import opened KernelInv
  import opened KernelLife
  import opened KernelRuns

  predicate UserLive(k: State, p: int) {
    NCORES <= p < |k.proc| && k.proc[p].state != PRFREE
  }

  /** The bytes kill gives back for a process. */
  function StackOf(w: nat, b: Pcb): Block
    requires w >= 3
  {
    Block(b.stkbase, RoundMb(w, AsUlong(w, b.stklen)))
  }

  ghost predicate Owned(w: nat, k: State, b: Block)
    requires w >= 3
  {
    exists p :: UserLive(k, p) && StackOf(w, k.proc[p]) == b
  }

  ghost predicate OwnsStack(w: nat, k: State, p: int)
    requires w >= 3 && UserLive(k, p)
  {
    var len := AsUlong(w, k.proc[p].stklen);
    0 < len && len + 7 < Pow2(w) && StackOf(w, k.proc[p]) in k.heap.alloc
  }

  ghost predicate OneEach(w: nat, k: State)
    requires w >= 3
  {
    forall p, q :: UserLive(k, p) && UserLive(k, q) && StackOf(w, k.proc[p]) == StackOf(w, k.proc[q]) ==> p == q
  }

  function NonFree(k: State): set<int> {
    set p | 0 <= p < |k.proc| && k.proc[p].state != PRFREE
  }

  /** Every live user process has an allocated stack of its own, and numproc counts the slots in use. */
  ghost predicate Backed(w: nat, k: State) {
    && w >= 3 && Shape(k) && HeapInv(k.heap) && |k.heap.regions| == NCORES && k.nextpid < NPROC
    && (forall p :: UserLive(k, p) ==> OwnsStack(w, k, p))
    && OneEach(w, k)
    && k.numproc == |NonFree(k)|
  }

  ghost predicate AllOwned(w: nat, k: State)
    requires w >= 3
  {
    forall b :: b in k.heap.alloc ==> Owned(w, k, b)
  }

  /** And nothing else is allocated: the allocated blocks are exactly those stacks. */
  ghost predicate Accounted(w: nat, k: State) {
    Backed(w, k) && AllOwned(w, k)
  }

  lemma BootedAccounted(w: nat, rs: seq<Region>, end: nat, ptr: nat)
    requires w >= 3 && RegionsOk(rs) && |rs| == NCORES
    ensures Accounted(w, Booted(rs, end, ptr))
  {
    var k := Booted(rs, end, ptr);
    InitialInv(rs);
    forall p | 0 <= p < NPROC ensures k.proc[p].state == if p < NCORES then PRCURR else PRFREE {
      assert k.proc[p] == BootPcb(end, ptr, p);
    }
    assert NonFree(k) == {0, 1, 2, 3};
  }

  /** Once every user process is gone, each free list is again its one initial block. */
  lemma AllKilled(w: nat, k: State)
    requires Accounted(w, k) && Inv(k) && forall p :: !UserLive(k, p)
    ensures k.heap == Initial(k.heap.regions) && k.numproc == NCORES
  {
    forall b ensures b !in k.heap.alloc { assert b in k.heap.alloc ==> Owned(w, k, b); }
    assert k.heap.alloc == {};
    AllFreed(k.heap);
    forall p | 0 <= p < NCORES ensures k.proc[p].state != PRFREE { assert ProcFits(k, p); }
    forall p ensures p in NonFree(k) <==> 0 <= p < NCORES { assert !UserLive(k, p); }
    assert NonFree(k) == {0, 1, 2, 3};
  }

  // ----- steps that move no memory -----

  ghost predicate SameBooks(k: State, k': State) {
    && |k'.proc| == |k.proc| && k'.heap == k.heap && k'.numproc == k.numproc
    && (k.nextpid < NPROC ==> k'.nextpid < NPROC)
    && forall p :: 0 <= p < |k.proc| ==> SameSlot(k.proc[p], k'.proc[p])
  }

  predicate SameSlot(b: Pcb, b': Pcb) {
    (b'.state == PRFREE <==> b.state == PRFREE) && b'.stkbase == b.stkbase && b'.stklen == b.stklen
  }

  lemma SameLive(w: nat, k: State, k': State)
    requires w >= 3 && Shape(k) && Shape(k') && SameBooks(k, k')
    ensures forall p :: UserLive(k', p) <==> UserLive(k, p)
    ensures forall p :: UserLive(k, p) ==> StackOf(w, k'.proc[p]) == StackOf(w, k.proc[p])
    ensures forall p :: UserLive(k, p) ==> k'.proc[p].stklen == k.proc[p].stklen
    ensures NonFree(k') == NonFree(k)
  {
    hide RoundMb;
    forall p | 0 <= p < NPROC ensures SameSlot(k.proc[p], k'.proc[p]) { }
    forall p ensures p in NonFree(k') <==> p in NonFree(k) {
      if 0 <= p < NPROC { assert SameSlot(k.proc[p], k'.proc[p]); }
    }
  }

  lemma SameBacked(w: nat, k: State, k': State)
    requires Backed(w, k) && Shape(k') && SameBooks(k, k')
    ensures Backed(w, k')
  {
    hide HeapInv;
    hide RoundMb;
    hide StackOf;
    hide NonFree;
    SameLive(w, k, k');
    forall p | UserLive(k', p) ensures OwnsStack(w, k', p) { assert OwnsStack(w, k, p); }
  }

  lemma SameOwned(w: nat, k: State, k': State)
    requires w >= 3 && Shape(k) && Shape(k') && SameBooks(k, k')
    ensures AllOwned(w, k') <==> AllOwned(w, k)
  {
    hide RoundMb;
    hide StackOf;
    SameLive(w, k, k');
    forall b ensures Owned(w, k', b) <==> Owned(w, k, b) {
      if Owned(w, k, b) {
        var p :| UserLive(k, p) && StackOf(w, k.proc[p]) == b;
        assert StackOf(w, k'.proc[p]) == b;
      }
      if Owned(w, k', b) {
        var p :| UserLive(k', p) && StackOf(w, k'.proc[p]) == b;
        assert StackOf(w, k.proc[p]) == b;
      }
    }
  }

  lemma ReschedBooks(k: State, c: nat)
    requires MidInv(k) && c < NCORES && RunsAtHome(k, c)
    ensures Shape(Resched(k, c)) && SameBooks(k, Resched(k, c))
  {
    hide MidInv;
    hide Age;
    MidParts(k);
    AgeKeeps(k, c);
    var ka := Age(k, c);
    MidParts(ka);
    RequeueKeeps(ka, c);
    var kr := Requeue(ka, c);
    MidParts(kr);
    assert SameBooks(ka, kr);
    if kr.queues[ReadyQ(c, Level(kr, c))] != [] { PickMembers(kr, c); }
    assert SameBooks(kr, Pick(kr, c));
  }

  lemma TickBooks(k: State, c: nat)
    requires Inv(k) && c < NCORES
    ensures Shape(Tick(k, c)) && SameBooks(k, Tick(k, c))
  {
    hide MidInv;
    hide Resched;
    MidParts(k);
    TickMayResched(k, c);
    ReschedBooks(k.(cores := k.cores[c := Ticked(k.cores[c])]), c);
  }

  lemma CollectBooks(k: State, p: nat)
    requires Inv(k) && p < NPROC && k.proc[p].state == PRCURR && !k.proc[p].pc.Waking? && k.proc[p].hasMessage
    ensures Shape(Collect(k, p)) && SameBooks(k, Collect(k, p))
  {
    hide MidInv;
    hide Collect;
    MidParts(k);
    if k.queues[p] == [] { CollectPlain(k, p); } else { AdmitIs(k, p); }
  }

  lemma DepositBooks(k: State, p: nat, pid: nat, msg: int)
    requires Shape(k) && p < NPROC && pid < NPROC
    ensures Shape(Deposit(k, p, pid, msg)) && SameBooks(k, Deposit(k, p, pid, msg))
  {
  }

  predicate MovesMemory(s: Step) { s.DoCreate? || s.DoKill? }

  lemma StepBooks(w: nat, k: State, s: Step)
    requires Inv(k) && Enabled(w, k, s) && !MovesMemory(s)
    ensures Shape(Next(w, k, s)) && SameBooks(k, Next(w, k, s))
  {
    hide MidInv;
    hide Resched;
    hide Collect;
    hide Deposit;
    hide WakeBody;
    hide Tick;
    MidParts(k);
    var p, k' := k.cores[s.c].currpid, Next(w, k, s);
    match s {
      case DoResched(c) => InvMayResched(k, c); ReschedBooks(k, c);
      case DoTick(c) => TickBooks(k, c);
      case DoSend(c, pid, msg) =>
        if !IsBadPid(k, pid) && !k.proc[pid].hasMessage { DepositBooks(k, p, pid, msg); }
      case DoSendNow(c, pid, msg) =>
        if !IsBadPid(k, pid) && !k.proc[pid].hasMessage { DepositBooks(k, p, pid, msg); }
      case DoRecv(c) => if k.proc[p].hasMessage { CollectBooks(k, p); }
      case DoCollect(c) => ResumedHasMessage(k, c); CollectBooks(k, p);
      case DoRecvNow(c) =>
      case DoReturn(c) =>
      case DoWake(c) => if Owes(k, p) { WakeIs(k, p); } else { WakeStaleIs(k, p); }
      case DoReady(c, pid, core) =>
    }
  }

  // ----- create -----

  predicate HasSlot(k: State) {
    exists p :: 0 <= p < |k.proc| && k.proc[p].state == PRFREE
  }

  /** The size of the stack wraps when getmem rounds it up. */
  predicate Overshoots(w: nat, ssize: nat) {
    StackSize(w, ssize) + 7 >= Pow2(w)
  }

  /** create takes memory for the stack and finds no slot for the process. */
  ghost predicate Leaks(w: nat, k: State, c: nat, ssize: nat)
    requires w >= 3 && Shape(k) && c < |k.heap.lists|
  {
    GetsStack(w, k, c, ssize) && !Overshoots(w, ssize) && !HasSlot(k)
  }

  /**
    create makes a process of a stack that kill cannot give back: its size wraps, so that the stack
    is still free, or its length does not survive the int it is kept in.
  */
  ghost predicate Mislays(w: nat, k: State, c: nat, ssize: nat)
    requires w >= 3 && Shape(k) && c < |k.heap.lists|
  {
    GetsStack(w, k, c, ssize) && HasSlot(k) && (Overshoots(w, ssize) || (StackSize(w, ssize) >= 0x8000_0000 && w > 32))
  }

  lemma {:induction false} NewPidInRange(k: State, np: nat, n: nat)
    requires Shape(k) && np < NPROC
    ensures NewPid(k, np, n).1 < NPROC
    decreases n
  {
    if n > 0 { NewPidInRange(k, SuccPid(np), n - 1); }
  }

  lemma GetMemSpec(w: nat, k: State, c: nat, n: nat)
    requires w >= 3 && HeapInv(k.heap) && c < |k.heap.regions| && n < Pow2(w)
    ensures |k.heap.lists| == |k.heap.lens| == |k.heap.regions|
    ensures var (a, h) := GetMem(w, k, c, n); var m := RoundMb(w, n);
            && HeapInv(h) && h.regions == k.heap.regions
            && (a == None || n + 7 >= Pow2(w) ==> h == k.heap)
            && (a.Some? && n + 7 < Pow2(w) ==>
                  h.alloc == k.heap.alloc + {Block(a.value, m)} && Block(a.value, m) !in k.heap.alloc)
  {
    hide RoundMb;
    if n > 0 {
      Rounded(w, n);
      if n + 7 < Pow2(w) { GetKeeps(k.heap, c, RoundMb(w, n)); } else { GetNothing(k.heap, c); }
    }
  }

  lemma ArriveOneEach(w: nat, k: State, k': State, p: nat)
    requires w >= 3 && p < |k.proc| && |k'.proc| == |k.proc| && OneEach(w, k)
    requires forall x :: 0 <= x < |k.proc| && x != p ==> k'.proc[x] == k.proc[x]
    requires forall x :: UserLive(k, x) ==> OwnsStack(w, k, x)
    requires StackOf(w, k'.proc[p]) !in k.heap.alloc
    ensures OneEach(w, k')
  {
    hide RoundMb;
    forall x, y | UserLive(k', x) && UserLive(k', y) && StackOf(w, k'.proc[x]) == StackOf(w, k'.proc[y])
      ensures x == y
    {
      if x != p { assert UserLive(k, x) && OwnsStack(w, k, x); }
      if y != p { assert UserLive(k, y) && OwnsStack(w, k, y); }
    }
  }

  /** A slot that was free gets a process that owns the one block allocated for it. */
  lemma ArriveBacked(w: nat, k: State, k': State, p: nat)
    requires Backed(w, k) && Shape(k') && NCORES <= p < NPROC
    requires k.proc[p].state == PRFREE && k'.proc[p].state != PRFREE
    requires k'.proc == k.proc[p := k'.proc[p]] && k'.numproc == k.numproc + 1 && k'.nextpid < NPROC
    requires HeapInv(k'.heap) && k'.heap.regions == k.heap.regions
    requires 0 < AsUlong(w, k'.proc[p].stklen) && AsUlong(w, k'.proc[p].stklen) + 7 < Pow2(w)
    requires StackOf(w, k'.proc[p]) !in k.heap.alloc
    requires k'.heap.alloc == k.heap.alloc + {StackOf(w, k'.proc[p])}
    ensures Backed(w, k') && (AllOwned(w, k) ==> AllOwned(w, k'))
  {
    hide HeapInv;
    hide StackOf;
    hide OneEach;
    hide AsUlong;
    assert forall x :: x != p ==> (UserLive(k', x) <==> UserLive(k, x));
    forall x | UserLive(k', x) ensures OwnsStack(w, k', x) {
      if x != p { assert OwnsStack(w, k, x); }
    }
    ArriveOneEach(w, k, k', p);
    assert NonFree(k') == NonFree(k) + {p} && p !in NonFree(k);
    if AllOwned(w, k) { ArriveOwned(w, k, k', p); }
  }

  lemma ArriveOwned(w: nat, k: State, k': State, p: nat)
    requires w >= 3 && AllOwned(w, k) && NCORES <= p < |k.proc| && |k'.proc| == |k.proc|
    requires k.proc[p].state == PRFREE && k'.proc[p].state != PRFREE && k'.proc == k.proc[p := k'.proc[p]]
    requires k'.heap.alloc == k.heap.alloc + {StackOf(w, k'.proc[p])}
    ensures AllOwned(w, k')
  {
    hide StackOf;
    forall b | b in k'.heap.alloc ensures Owned(w, k', b) {
      if b in k.heap.alloc {
        assert Owned(w, k, b);
        var x :| UserLive(k, x) && StackOf(w, k.proc[x]) == b;
        assert UserLive(k', x) && StackOf(w, k'.proc[x]) == b;
      } else {
        assert UserLive(k', p);
      }
    }
  }

  lemma StackBelow(w: nat, ssize: nat)
    ensures StackSize(w, ssize) < 0x1_0000_0000
  {
    hide And;
    AndBelow(((if ssize < MINSTK then MINSTK else ssize) + 3) % Pow2(w), 0xFFFF_FFFC);
  }

  lemma StackInWord(w: nat, ssize: nat)
    requires w >= 32
    ensures StackSize(w, ssize) < 0x1_0000_0000 <= Pow2(w) && (Overshoots(w, ssize) ==> w == 32)
  {
    hide StackSize;
    hide Pow2;
    Pow2Values();
    Pow2Mono(32, w);
    StackBelow(w, ssize);
    if w > 32 { Twice32(w); }
  }

  lemma CreateParts(w: nat, k: State, c: nat, ssize: nat, priority: nat)
    requires w >= 32 && Backed(w, k) && Inv(k) && c < NCORES
    ensures |k.heap.lists| == |k.heap.lens| == NCORES
    ensures var len := StackSize(w, ssize); var (a, h) := GetMem(w, k, c, len);
            var (pid, k') := Create(w, k, c, ssize, priority);
            && HeapInv(h) && h.regions == k.heap.regions && k'.heap == h && k'.nextpid < NPROC && Shape(k')
            && (a == None || Overshoots(w, ssize) ==> h == k.heap)
            && (a.Some? && !Overshoots(w, ssize) ==>
                  && Block(a.value, RoundMb(w, len)) !in k.heap.alloc
                  && h.alloc == k.heap.alloc + {Block(a.value, RoundMb(w, len))})
            && (pid == None ==> k'.proc == k.proc && k'.numproc == k.numproc)
            && (pid.Some? ==>
                  && NCORES <= pid.value < NPROC && k.proc[pid.value].state == PRFREE && a.Some? && 0 < len
                  && k'.proc == k.proc[pid.value := NewPcb(priority, a.value, len)] && k'.numproc == k.numproc + 1)
            && (a.Some? <==> GetsStack(w, k, c, ssize)) && (pid.Some? <==> a.Some? && HasSlot(k))
  {
    hide MidInv;
    hide HeapInv;
    hide StackSize;
    hide NewPid;
    hide GetMem;
    hide RoundMb;
    MidParts(k);
    HeapLengths(k.heap);
    StackInWord(w, ssize);
    GetMemSpec(w, k, c, StackSize(w, ssize));
    CreateSlot(w, k, c, ssize, priority);
    NewPidFree(k, k.nextpid, NPROC);
    NewPidInRange(k, k.nextpid, NPROC);
    NewPidComplete(k, k.nextpid);
    var pid := Create(w, k, c, ssize, priority).0;
    if pid.Some? { assert ProcFits(k, pid.value); }
  }

  lemma CreateBacked(w: nat, k: State, c: nat, ssize: nat, priority: nat)
    requires w >= 32 && Backed(w, k) && Inv(k) && c < NCORES
    ensures |k.heap.lists| == |k.heap.lens| == NCORES
    ensures !Mislays(w, k, c, ssize) ==> Backed(w, Create(w, k, c, ssize, priority).1)
    ensures !Mislays(w, k, c, ssize) && !Leaks(w, k, c, ssize) && AllOwned(w, k) ==>
              AllOwned(w, Create(w, k, c, ssize, priority).1)
  {
    hide Inv;
    hide HeapInv;
    hide StackSize;
    hide Create;
    hide GetMem;
    hide RoundMb;
    hide NonFree;
    CreateParts(w, k, c, ssize, priority);
    var len := StackSize(w, ssize);
    var (pid, k') := Create(w, k, c, ssize, priority);
    StackInWord(w, ssize);
    if pid.Some? && !Mislays(w, k, c, ssize) {
      IntKeepsLength(w, len);
      ArriveBacked(w, k, k', pid.value);
    } else if pid == None {
      MoreAllocated(w, k, k');
    }
  }

  /** With nothing but more allocated, every process still has its stack. */
  lemma MoreAllocated(w: nat, k: State, k': State)
    requires Backed(w, k) && Shape(k') && HeapInv(k'.heap) && k'.heap.regions == k.heap.regions && k'.nextpid < NPROC
    requires k'.proc == k.proc && k'.numproc == k.numproc && k.heap.alloc <= k'.heap.alloc
    ensures Backed(w, k')
    ensures k'.heap.alloc == k.heap.alloc && AllOwned(w, k) ==> AllOwned(w, k')
  {
    hide HeapInv;
    hide StackOf;
    assert forall p :: UserLive(k', p) <==> UserLive(k, p);
    forall p | UserLive(k', p) ensures OwnsStack(w, k', p) { assert OwnsStack(w, k, p); }
    assert NonFree(k') == NonFree(k);
    forall b | Owned(w, k, b) ensures Owned(w, k', b) {
      var p :| UserLive(k, p) && StackOf(w, k.proc[p]) == b;
      assert StackOf(w, k'.proc[p]) == b;
    }
  }

  lemma HeapLengths(h: Heap)
    requires HeapInv(h)
    ensures |h.lists| == |h.regions| == |h.lens|
  {
  }

  /** The block allocated for a process that is not there is no process's stack. */
  lemma CreateLeaks(w: nat, k: State, c: nat, ssize: nat, priority: nat)
    requires w >= 32 && Backed(w, k) && Inv(k) && c < NCORES
    requires |k.heap.lists| == |k.heap.lens| == NCORES && Leaks(w, k, c, ssize)
    ensures !AllOwned(w, Create(w, k, c, ssize, priority).1)
  {
    hide Inv;
    hide HeapInv;
    hide StackSize;
    hide Create;
    hide GetMem;
    hide RoundMb;
    hide AsUlong;
    CreateParts(w, k, c, ssize, priority);
    var len := StackSize(w, ssize);
    var (a, h) := GetMem(w, k, c, len);
    var k' := Create(w, k, c, ssize, priority).1;
    var b := Block(a.value, RoundMb(w, len));
    assert b in k'.heap.alloc;
    forall p | UserLive(k', p) ensures StackOf(w, k'.proc[p]) != b { assert UserLive(k, p) && OwnsStack(w, k, p); }
  }

  /** Two allocated blocks that start at the same place are one. */
  lemma OneStart(h: Heap, a: Block, b: Block)
    requires HeapInv(h) && a in h.alloc && b in h.alloc && a.start == b.start
    ensures a == b
  {
    assert a.Has(a.start) && b.Has(a.start);
  }

  /** A stack whose size wraps is not allocated; a length of 2^31 or more on longer words comes back as another. */
  lemma CreateMislays(w: nat, k: State, c: nat, ssize: nat, priority: nat)
    requires w >= 32 && Backed(w, k) && Inv(k) && c < NCORES
    requires |k.heap.lists| == |k.heap.lens| == NCORES && Mislays(w, k, c, ssize)
    ensures !Backed(w, Create(w, k, c, ssize, priority).1)
  {
    hide Inv;
    hide HeapInv;
    hide StackSize;
    hide Create;
    hide GetMem;
    hide RoundMb;
    hide Pow2;
    CreateParts(w, k, c, ssize, priority);
    var len := StackSize(w, ssize);
    var (a, h) := GetMem(w, k, c, len);
    var (pid, k') := Create(w, k, c, ssize, priority);
    StackInWord(w, ssize);
    var p, back := pid.value, AsUlong(w, AsInt(len));
    assert UserLive(k', p);
    if Overshoots(w, ssize) {
      IntKeepsLength(w, len);
      assert !OwnsStack(w, k', p);
    } else {
      Twice32(w);
      assert back == len - 0x1_0000_0000 + Pow2(w);
      if OwnsStack(w, k', p) {
        RoundMbIs(w, back);
        RoundMbIs(w, len);
        OneStart(h, StackOf(w, k'.proc[p]), Block(a.value, RoundMb(w, len)));
      }
    }
  }

  lemma Twice32(w: nat)
    requires w > 32
    ensures Pow2(w) >= 0x2_0000_0000
  {
    Pow2Values();
    assert Pow2(33) == 2 * Pow2(32);
    Pow2Mono(33, w);
  }

  /** create leaves every process a stack of its own if and only if it does not mislay the new one's. */
  lemma CreateBackedIff(w: nat, k: State, c: nat, ssize: nat, priority: nat)
    requires w >= 32 && Backed(w, k) && Inv(k) && c < NCORES
    ensures |k.heap.lists| == |k.heap.lens| == NCORES
    ensures Backed(w, Create(w, k, c, ssize, priority).1) <==> !Mislays(w, k, c, ssize)
  {
    hide Inv;
    hide Backed;
    hide Create;
    hide StackSize;
    BackedFacts(w, k);
    CreateBacked(w, k, c, ssize, priority);
    if Mislays(w, k, c, ssize) { CreateMislays(w, k, c, ssize, priority); }
  }

  /** create keeps the books if and only if, besides, it does not get a stack without getting a slot. */
  lemma CreateAccountedIff(w: nat, k: State, c: nat, ssize: nat, priority: nat)
    requires w >= 32 && Accounted(w, k) && Inv(k) && c < NCORES
    ensures |k.heap.lists| == |k.heap.lens| == NCORES
    ensures Accounted(w, Create(w, k, c, ssize, priority).1)
       <==> !Leaks(w, k, c, ssize) && !Mislays(w, k, c, ssize)
  {
    hide Inv;
    hide Backed;
    hide AllOwned;
    hide Create;
    hide StackSize;
    hide RoundMb;
    BackedFacts(w, k);
    CreateBackedIff(w, k, c, ssize, priority);
    CreateBacked(w, k, c, ssize, priority);
    if Leaks(w, k, c, ssize) { CreateLeaks(w, k, c, ssize, priority); }
  }

  // ----- kill -----

  lemma LeaveBacked(w: nat, k: State, k': State, p: nat)
    requires Backed(w, k) && Shape(k') && UserLive(k, p) && k'.proc[p].state == PRFREE
    requires k'.proc == k.proc[p := k'.proc[p]] && k'.numproc == k.numproc - 1 && k'.nextpid == k.nextpid
    requires HeapInv(k'.heap) && k'.heap.regions == k.heap.regions
    requires k'.heap.alloc == k.heap.alloc - {StackOf(w, k.proc[p])}
    ensures Backed(w, k') && (AllOwned(w, k) ==> AllOwned(w, k'))
  {
    hide HeapInv;
    hide StackOf;
    hide AsUlong;
    assert forall x :: x != p ==> (UserLive(k', x) <==> UserLive(k, x));
    forall x | UserLive(k', x) ensures OwnsStack(w, k', x) {
      assert OwnsStack(w, k, x);
      assert StackOf(w, k.proc[x]) != StackOf(w, k.proc[p]);
    }
    assert NonFree(k') == NonFree(k) - {p} && p in NonFree(k);
    if AllOwned(w, k) {
      forall b | b in k'.heap.alloc ensures Owned(w, k', b) {
        assert Owned(w, k, b);
        var x :| UserLive(k, x) && StackOf(w, k.proc[x]) == b;
        assert x != p && StackOf(w, k'.proc[x]) == b;
      }
    }
  }

  lemma BuriedBacked(w: nat, k: State, p: nat)
    requires Backed(w, k) && UserLive(k, p)
    ensures Shape(Buried(w, k, p)) && Backed(w, Buried(w, k, p))
    ensures AllOwned(w, k) ==> AllOwned(w, Buried(w, k, p))
  {
    hide HeapInv;
    hide RoundMb;
    hide Minus;
    assert OwnsStack(w, k, p);
    var k', b := Buried(w, k, p), StackOf(w, k.proc[p]);
    HeapLengths(k.heap);
    FreeKeeps(k.heap, b);
    Rounded(w, AsUlong(w, k.proc[p].stklen));
    assert k'.heap == Free(k.heap, b.start, b.len).1;
    LeaveBacked(w, k, k', p);
  }

  /** kill gives back the stack and keeps the books, whatever its target. */
  lemma KillBacked(w: nat, k: State, c: nat, pid: int)
    requires Backed(w, k) && Inv(k) && At(k, c, Idle)
    ensures Backed(w, Kill(w, k, c, pid)) && (AllOwned(w, k) ==> AllOwned(w, Kill(w, k, c, pid)))
  {
    hide MidInv;
    hide Backed;
    hide AllOwned;
    hide Drop;
    hide FreeStack;
    hide Resched;
    MidParts(k);
    BackedFacts(w, k);
    if !KillRefused(k, c, pid) {
      var k' := Buried(w, k, pid);
      BuriedBacked(w, k, pid);
      if k.proc[pid].state == PRCURR {
        BuriedFits(w, k, c, pid);
        ReschedBooks(k', c);
        SameBacked(w, k', Resched(k', c));
        SameOwned(w, k', Resched(k', c));
      }
    }
  }

  lemma BackedFacts(w: nat, k: State)
    requires Backed(w, k)
    ensures w >= 3 && Shape(k) && |k.heap.lists| == |k.heap.lens| == |k.heap.regions| == NCORES
  {
    HeapLengths(k.heap);
  }

  // ----- runs -----

  ghost predicate NoMislay(w: nat, k: State, s: Step)
    requires Enabled(w, k, s)
  {
    s.DoCreate? ==> !Mislays(w, k, s.c, s.ssize)
  }

  ghost predicate NoLeak(w: nat, k: State, s: Step)
    requires Enabled(w, k, s)
  {
    s.DoCreate? ==> !Leaks(w, k, s.c, s.ssize)
  }

  lemma StepBacked(w: nat, k: State, s: Step)
    requires w >= 32 && Inv(k) && Backed(w, k) && Enabled(w, k, s) && NoMislay(w, k, s)
    ensures Backed(w, Next(w, k, s))
    ensures AllOwned(w, k) && NoLeak(w, k, s) ==> AllOwned(w, Next(w, k, s))
  {
    hide Inv;
    hide Backed;
    hide AllOwned;
    hide Create;
    hide Kill;
    BackedFacts(w, k);
    match s {
      case DoCreate(c, ssize, priority) => CreateBacked(w, k, c, ssize, priority);
      case DoKill(c, pid) => KillBacked(w, k, c, pid);
      case _ =>
        StepBooks(w, k, s);
        SameBacked(w, k, Next(w, k, s));
        SameOwned(w, k, Next(w, k, s));
    }
  }

  /** The regions of the cores stay what sysinit made them. */
  lemma StepRegions(w: nat, k: State, s: Step)
    requires Inv(k) && Enabled(w, k, s)
    ensures Next(w, k, s).heap.regions == k.heap.regions
  {
    hide Inv;
    hide NewPid;
    hide StackSize;
    hide Take;
    hide Put;
    hide RoundMb;
    hide Resched;
    hide Drop;
    match s {
      case DoCreate(c, ssize, priority) =>
      case DoKill(c, pid) => if !KillRefused(k, c, pid) { BuriedRegions(w, k, c, pid); }
      case _ => StepBooks(w, k, s);
    }
  }

  lemma BuriedRegions(w: nat, k: State, c: nat, pid: int)
    requires w >= 3 && Inv(k) && At(k, c, Idle) && !KillRefused(k, c, pid)
    ensures Kill(w, k, c, pid).heap.regions == k.heap.regions
  {
    hide MidInv;
    hide Resched;
    hide Drop;
    hide Put;
    hide RoundMb;
    MidParts(k);
    BuriedFits(w, k, c, pid);
    if k.proc[pid].state == PRCURR { ReschedBooks(Buried(w, k, pid), c); }
  }

  /** Over every run in which no entry is given a length it cannot hold, every process keeps its stack. */
  lemma {:induction false} RunBacked(w: nat, ks: seq<State>, steps: seq<Step>, i: nat)
    requires w >= 32 && Run(w, ks, steps) && Inv(ks[0]) && Backed(w, ks[0]) && i < |ks|
    requires forall j :: 0 <= j < |steps| ==> NoMislay(w, ks[j], steps[j])
    ensures Backed(w, ks[i]) && ks[i].heap.regions == ks[0].heap.regions
  {
    hide Inv;
    hide Backed;
    hide Mislays;
    hide Enabled;
    hide Next;
    if i > 0 {
      RunBacked(w, ks, steps, i - 1);
      KernelRuns.RunKeeps(w, ks, steps, i - 1);
      StepBacked(w, ks[i - 1], steps[i - 1]);
      StepRegions(w, ks[i - 1], steps[i - 1]);
    }
  }

  /** If create never runs out of slots either, the books are right at every step. */
  lemma {:induction false} RunAccounted(w: nat, ks: seq<State>, steps: seq<Step>, i: nat)
    requires w >= 32 && Run(w, ks, steps) && Inv(ks[0]) && Accounted(w, ks[0]) && i < |ks|
    requires forall j :: 0 <= j < |steps| ==> NoMislay(w, ks[j], steps[j]) && NoLeak(w, ks[j], steps[j])
    ensures Accounted(w, ks[i]) && ks[i].heap.regions == ks[0].heap.regions
  {
    hide Inv;
    hide Backed;
    hide AllOwned;
    hide Mislays;
    hide Leaks;
    hide Enabled;
    hide Next;
    RunBacked(w, ks, steps, i);
    if i > 0 {
      RunAccounted(w, ks, steps, i - 1);
      KernelRuns.RunKeeps(w, ks, steps, i - 1);
      StepBacked(w, ks[i - 1], steps[i - 1]);
    }
  }

  /** From boot on, and once every user process has been killed the heap is as it was at boot. */
  lemma FromBoot(w: nat, rs: seq<Region>, end: nat, ptr: nat, ks: seq<State>, steps: seq<Step>, i: nat)
    requires w >= 32 && RegionsOk(rs) && |rs| == NCORES && Run(w, ks, steps) && i < |ks|
    requires ks[0] == Booted(rs, end, ptr)
    requires forall j :: 0 <= j < |steps| ==> NoMislay(w, ks[j], steps[j]) && NoLeak(w, ks[j], steps[j])
    ensures Inv(ks[i]) && Accounted(w, ks[i])
    ensures (forall p :: !UserLive(ks[i], p)) ==> ks[i].numproc == NCORES && ks[i].heap == Initial(rs)
  {
    hide Enabled;
    hide Next;
    hide Inv;
    hide Accounted;
    hide Mislays;
    hide Leaks;
    BootedInv(rs, end, ptr);
    BootedAccounted(w, rs, end, ptr);
    KernelRuns.RunKeeps(w, ks, steps, i);
    RunAccounted(w, ks, steps, i);
    if forall p :: !UserLive(ks[i], p) { AllKilled(w, ks[i]); }
  }
}
