/**
  Runs from boot into the states where a promise fails: a process table filled to the last slot,
  and two user processes of which one sends the other two messages.
*/
module Witnesses {
  import opened Config
  import opened Bits
  import opened Types
  import opened FreeLists
  import opened Heaps
  import opened Kernel
  import opened KernelInv
  import opened KernelLife
  import opened KernelRuns
  import opened Accounts
  import opened Messages

  // ----- states that are reached -----

  ghost predicate Reaches(w: nat, k0: State, k: State) {
    exists ks, steps :: Run(w, ks, steps) && ks[0] == k0 && ks[|steps|] == k
  }

  lemma ReachesSelf(w: nat, k: State)
    ensures Reaches(w, k, k)
  {
    assert Run(w, [k], []);
  }

  lemma ReachesNext(w: nat, k0: State, k: State, s: Step)
    requires Reaches(w, k0, k) && Enabled(w, k, s)
    ensures Reaches(w, k0, Next(w, k, s))
  {
    hide Enabled;
    hide Next;
    var ks, steps :| Run(w, ks, steps) && ks[0] == k0 && ks[|steps|] == k;
    var ks', steps' := ks + [Next(w, k, s)], steps + [s];
    forall i | 0 <= i < |steps'| ensures Enabled(w, ks'[i], steps'[i]) && ks'[i + 1] == Next(w, ks'[i], steps'[i]) {
      if i < |steps| { assert Enabled(w, ks[i], steps[i]) && ks[i + 1] == Next(w, ks[i], steps[i]); }
    }
    assert Run(w, ks', steps');
    assert ks'[|steps'|] == Next(w, k, s);
  }

  ghost predicate Reached(w: nat, k0: State, k: State) {
    Reaches(w, k0, k) && Inv(k) && Accounted(w, k)
  }

  lemma Onward(w: nat, k0: State, k: State, s: Step)
    requires w >= 32 && Reached(w, k0, k) && Enabled(w, k, s) && NoMislay(w, k, s) && NoLeak(w, k, s)
    ensures Reached(w, k0, Next(w, k, s)) && Shape(Next(w, k, s))
  {
    hide Reaches;
    hide Enabled;
    hide Next;
    hide MidInv;
    hide Backed;
    hide AllOwned;
    ReachesNext(w, k0, k, s);
    StepKeeps(w, k, s);
    StepBacked(w, k, s);
    MidParts(Next(w, k, s));
  }

  // ----- filling the process table -----

  const SLOTS: nat := NPROC - NCORES

  /** A process apart from where its stack is. */
  function Bare(b: Pcb): Pcb { b.(stkbase := 0, stklen := 0) }

  function Suspended(): Pcb { Bare(NewPcb(LOW, 0, 0)) }

  /** Everything is as at boot but for n suspended processes in the slots from NCORES on. */
  ghost predicate Stocked(k: State, bound: nat, n: nat) {
    && Shape(k) && n <= SLOTS && n * MINSTK <= bound
    && (forall q :: 0 <= q < NQUEUE ==> k.queues[q] == [])
    && (forall c :: 0 <= c < NCORES ==> k.cores[c] == BootCore(c))
    && (forall p :: 0 <= p < NCORES ==> k.proc[p].state == PRCURR && k.proc[p].pc == Idle)
    && (forall p :: NCORES <= p < NCORES + n ==> Bare(k.proc[p]) == Suspended())
    && (forall p :: NCORES + n <= p < NPROC ==> k.proc[p].state == PRFREE && k.proc[p].pc == Idle)
    && k.nextpid == (if n == 0 then 0 else NCORES - 1 + n)
    && |k.heap.lists| == |k.heap.lens| == NCORES
    && |k.heap.lists[0]| == 1 && k.heap.lists[0][0].len == bound - n * MINSTK
  }

  lemma BootedStocked(w: nat, rs: seq<Region>, end: nat, ptr: nat)
    requires w >= 3 && RegionsOk(rs) && |rs| == NCORES
    ensures var k := Booted(rs, end, ptr); Stocked(k, rs[0].bound, 0) && Reached(w, k, k)
  {
    hide Inv;
    hide Accounted;
    hide Reaches;
    var k := Booted(rs, end, ptr);
    forall p | 0 <= p < NPROC ensures k.proc[p] == BootPcb(end, ptr, p) { }
    BootedInv(rs, end, ptr);
    BootedAccounted(w, rs, end, ptr);
    ReachesSelf(w, k);
  }

  lemma SmallStack(w: nat)
    requires w >= 32
    ensures StackSize(w, MINSTK) == MINSTK && RoundMb(w, MINSTK) == MINSTK && MINSTK + 7 < Pow2(w)
  {
    hide StackSize;
    hide RoundMb;
    hide Pow2;
    Pow2Values();
    Pow2Mono(32, w);
    StackSizeIs(w, MINSTK);
    RoundMbIs(w, MINSTK);
  }

  lemma NextSlot(k: State, bound: nat, n: nat)
    requires Stocked(k, bound, n) && n < SLOTS
    ensures var slot: nat := NCORES + n; NewPid(k, k.nextpid, NPROC) == (Some(slot), slot)
  {
    if n == 0 {
      var slot: nat := 4;
      assert NewPid(k, 3, NPROC - 3) == (Some(slot), slot);
      assert NewPid(k, 2, NPROC - 2) == NewPid(k, 3, NPROC - 3);
      assert NewPid(k, 1, NPROC - 1) == NewPid(k, 2, NPROC - 2);
    }
  }

  lemma FillOne(w: nat, k0: State, k: State, bound: nat, n: nat)
    requires w >= 32 && Reached(w, k0, k) && Stocked(k, bound, n) && n < SLOTS && (SLOTS + 1) * MINSTK <= bound
    ensures var s := DoCreate(0, MINSTK, LOW);
            && Enabled(w, k, s) && Stocked(Next(w, k, s), bound, n + 1) && Reached(w, k0, Next(w, k, s))
  {
    hide Reached;
    hide NewPid;
    hide StackSize;
    hide RoundMb;
    hide AsInt;
    var s := DoCreate(0, MINSTK, LOW);
    SmallStack(w);
    NextSlot(k, bound, n);
    var k' := Create(w, k, 0, MINSTK, LOW).1;
    var b := k.heap.lists[0][0];
    assert k'.heap.lists[0] == [Block(b.start + MINSTK, b.len - MINSTK)];
    assert At(k, 0, Idle) by { assert k.cores[0] == BootCore(0); }
    forall v | 0 <= v < NPROC ensures k.proc[v].pc == Idle {
      if NCORES <= v < NCORES + n { assert Bare(k.proc[v]) == Suspended(); }
    }
    assert k.proc[NCORES + n].state == PRFREE;
    Onward(w, k0, k, s);
  }

  /** A full process table, from boot. */
  lemma {:induction false} Fill(w: nat, k0: State, bound: nat, n: nat) returns (k: State)
    requires w >= 32 && Stocked(k0, bound, 0) && Reached(w, k0, k0) && n <= SLOTS && (SLOTS + 1) * MINSTK <= bound
    ensures Stocked(k, bound, n) && Reached(w, k0, k)
  {
    hide Reached;
    hide Stocked;
    if n == 0 {
      k := k0;
    } else {
      var k1 := Fill(w, k0, bound, n - 1);
      FillOne(w, k0, k1, bound, n - 1);
      k := Next(w, k1, DoCreate(0, MINSTK, LOW));
    }
  }

  /** The books go wrong: with every slot taken, a create whose stack still fits loses that stack. */
  lemma LeakReached(w: nat, rs: seq<Region>, end: nat, ptr: nat) returns (k: State)
    requires w >= 32 && RegionsOk(rs) && |rs| == NCORES && (SLOTS + 1) * MINSTK <= rs[0].bound
    ensures Reached(w, Booted(rs, end, ptr), k) && |k.heap.lists| == |k.heap.lens| == NCORES && Shape(k)
    ensures Leaks(w, k, 0, MINSTK) && !Accounted(w, Create(w, k, 0, MINSTK, LOW).1)
  {
    hide Reaches;
    hide Inv;
    hide Accounted;
    hide Create;
    hide StackSize;
    hide RoundMb;
    BootedStocked(w, rs, end, ptr);
    k := Fill(w, Booted(rs, end, ptr), rs[0].bound, SLOTS);
    SmallStack(w);
    forall p | NCORES <= p < NPROC ensures k.proc[p].state == PRSUSP { assert Bare(k.proc[p]) == Suspended(); }
    assert k.heap.lists[0][0].len >= RoundMb(w, StackSize(w, MINSTK));
    CreateAccountedIff(w, k, 0, MINSTK, LOW);
  }

  /** On words longer than 32 bits a stack of 2^31 bytes is one that kill could not give back. */
  lemma MislayReached(w: nat, rs: seq<Region>, end: nat, ptr: nat)
    requires w > 32 && RegionsOk(rs) && |rs| == NCORES && 0x8000_0000 <= rs[0].bound
    ensures var k := Booted(rs, end, ptr);
            && Reached(w, k, k) && |k.heap.lists| == |k.heap.lens| == NCORES
            && Mislays(w, k, 0, 0x8000_0000) && !Backed(w, Create(w, k, 0, 0x8000_0000, LOW).1)
  {
    hide Reaches;
    hide Inv;
    hide Backed;
    hide AllOwned;
    hide NewPid;
    hide StackSize;
    hide RoundMb;
    hide GetMem;
    hide Pow2;
    var k := Booted(rs, end, ptr);
    BootedStocked(w, rs, end, ptr);
    HeapOfReached(w, k, k);
    NextSlot(k, rs[0].bound, 0);
    Twice32(w);
    Pow2Values();
    StackSizeIs(w, 0x8000_0000);
    RoundMbIs(w, 0x8000_0000);
    assert k.heap.lists[0][0].len >= 0x8000_0000;
    assert k.proc[NCORES].state == PRFREE;
    CreateBackedIff(w, k, 0, 0x8000_0000, LOW);
  }

  /** On 32 bits a stack within seven bytes of 2^32 is a process's and free memory at once. */
  lemma OvershootReached(rs: seq<Region>, end: nat, ptr: nat, ssize: nat)
    requires RegionsOk(rs) && |rs| == NCORES && 0xFFFF_FFF9 <= ssize <= 0xFFFF_FFFC
    ensures var k := Booted(rs, end, ptr);
            && Reached(32, k, k) && |k.heap.lists| == |k.heap.lens| == NCORES && Mislays(32, k, 0, ssize)
            && var (pid, k') := Create(32, k, 0, ssize, LOW);
               && pid == Some(NCORES) && Shape(k') && k'.proc[NCORES].stkbase == rs[0].base && k'.heap == k.heap
               && Covers(k'.heap.lists[0], rs[0].base) && Inv(k') && !Backed(32, k')
  {
    hide Reaches;
    hide Inv;
    hide Backed;
    hide AllOwned;
    hide NewPid;
    hide StackSize;
    hide RoundMb;
    hide Get;
    hide Pow2;
    var k := Booted(rs, end, ptr);
    BootedStocked(32, rs, end, ptr);
    HeapOfReached(32, k, k);
    NextSlot(k, rs[0].bound, 0);
    Pow2Values();
    StackSizeIs(32, ssize);
    Rounded(32, 0xFFFF_FFFC);
    GetNothing(k.heap, 0);
    assert k.proc[NCORES].state == PRFREE;
    assert k.heap.lists[0] == [Block(rs[0].base, rs[0].bound)];
    assert k.heap.lists[0][0].Has(rs[0].base) && k.heap.lists[0][0].len >= RoundMb(32, 0xFFFF_FFFC);
    forall v | 0 <= v < NPROC ensures k.proc[v].pc == Idle { assert k.proc[v] == BootPcb(end, ptr, v); }
    CreateKeeps(32, k, 0, ssize, LOW);
    CreateBackedIff(32, k, 0, ssize, LOW);
  }


  /**
    That process can be readied and then killed, and freemem is called with the start of the only
    free block of the core and a length that rounds to nothing.
  */
  lemma OvershootKill(rs: seq<Region>, end: nat, ptr: nat, ssize: nat) returns (k: State)
    requires RegionsOk(rs) && |rs| == NCORES && 0xFFFF_FFF9 <= ssize <= 0xFFFF_FFFC
    ensures Reaches(32, Booted(rs, end, ptr), k) && Inv(k) && Shape(k)
    ensures Enabled(32, k, DoKill(0, NCORES)) && !KillRefused(k, 0, NCORES) && HeapInv(k.heap)
    ensures k.heap.regions == rs && |k.heap.lists| == NCORES && k.heap.lists[0] == [Block(rs[0].base, rs[0].bound)]
    ensures k.proc[NCORES].stkbase == rs[0].base && 0 < AsUlong(32, k.proc[NCORES].stklen) < Pow2(32)
    ensures RoundMb(32, AsUlong(32, k.proc[NCORES].stklen)) == 0
  {
    hide Reaches;
    hide Inv;
    hide Backed;
    hide AllOwned;
    hide NewPid;
    hide StackSize;
    hide RoundMb;
    hide GetMem;
    hide Pow2;
    hide HeapInv;
    var k0 := Booted(rs, end, ptr);
    BootedStocked(32, rs, end, ptr);
    HeapOfReached(32, k0, k0);
    OvershootReached(rs, end, ptr, ssize);
    OvershootEnabled(rs, end, ptr, ssize);
    var s1 := DoCreate(0, ssize, LOW);
    var k1 := Next(32, k0, s1);
    ReachesNext(32, k0, k0, s1);
    OvershootEntry(rs, end, ptr, ssize);
    var s2 := DoReady(0, NCORES, 0);
    assert Enabled(32, k1, s2);
    k := Next(32, k1, s2);
    ReachesNext(32, k0, k1, s2);
    ReadyKeeps(k1, NCORES, 0);
    Pow2Values();
    StackSizeIs(32, ssize);
    IntKeepsLength(32, 0xFFFF_FFFC);
    Rounded(32, 0xFFFF_FFFC);
  }

  lemma OvershootEnabled(rs: seq<Region>, end: nat, ptr: nat, ssize: nat)
    requires RegionsOk(rs) && |rs| == NCORES
    ensures Enabled(32, Booted(rs, end, ptr), DoCreate(0, ssize, LOW))
  {
    hide NewPid;
    hide StackSize;
    hide RoundMb;
    var k := Booted(rs, end, ptr);
    forall v | 0 <= v < NPROC ensures k.proc[v].pc == Idle { assert k.proc[v] == BootPcb(end, ptr, v); }
    assert k.cores[0] == BootCore(0) && k.proc[0] == BootPcb(end, ptr, 0);
  }

  lemma OvershootEntry(rs: seq<Region>, end: nat, ptr: nat, ssize: nat)
    requires RegionsOk(rs) && |rs| == NCORES && 0xFFFF_FFF9 <= ssize <= 0xFFFF_FFFC
    ensures var k := Booted(rs, end, ptr);
            && |k.heap.lists| == |k.heap.lens| == NCORES
            && var k' := Create(32, k, 0, ssize, LOW).1;
               && Shape(k') && k'.cores == k.cores && k'.queues == k.queues
               && Bare(k'.proc[NCORES]) == Suspended() && k'.proc[NCORES].stklen == AsInt(StackSize(32, ssize))
               && k'.proc[0] == k.proc[0] == BootPcb(end, ptr, 0)
  {
    hide NewPid;
    hide StackSize;
    hide RoundMb;
    hide GetMem;
    OvershootReached(rs, end, ptr, ssize);
  }

  // ----- two messages to one receiver -----

  const A: nat := 4
  const B: nat := 5

  function Actor(state: PState, core: int, has: bool, msgin: int, msgout: int, pc: Pc): Pcb {
    Pcb(state, LOW, core, has, msgin, msgout, 0, 0, pc)
  }

  /** Core c, which is 0 or 1, runs p; its low queue is l and its other two are empty. */
  ghost predicate Runs(k: State, c: nat, p: nat, l: seq<int>, pm: nat)
    requires Shape(k) && c < NCORES
  {
    && k.cores[c].currpid == p && k.cores[c].promoteMed == pm
    && k.queues[ReadyQ(c, LOW)] == l && k.queues[ReadyQ(c, MED)] == [] && k.queues[ReadyQ(c, HIGH)] == []
    && k.proc[c].state == (if p == c then PRCURR else PRREADY) && k.proc[c].priority == LOW
  }

  /** The two actors, the senders that wait for B, and every other slot taken by an idle process. */
  ghost predicate Cast(k: State, a: Pcb, b: Pcb, waiting: seq<int>)
    requires Shape(k)
  {
    && Bare(k.proc[A]) == a && Bare(k.proc[B]) == b && k.queues[B] == waiting
    && forall p :: 0 <= p < NPROC && p != A && p != B ==> k.proc[p].state != PRFREE && k.proc[p].pc == Idle
  }

  /** Where the play is after i steps. */
  ghost predicate Stage(k: State, i: nat, m1: int, m2: int) {
    var ready, late := i > 0, i > 1;
    var a := if i == 0 then Suspended()
             else if i < 3 then Actor(PRREADY, 0, false, EMPTY, EMPTY, Idle)
             else if i < 5 then Actor(PRCURR, 0, false, EMPTY, EMPTY, Idle)
             else Actor(PRSEND, 0, false, EMPTY, m2, InSend);
    var b := if i < 2 then Suspended()
             else if i < 4 then Actor(PRREADY, 1, false, EMPTY, EMPTY, Idle)
             else if i < 7 then Actor(PRREADY, 1, true, m1, EMPTY, Idle)
             else Actor(PRCURR, 1, true, m1, EMPTY, Idle);
    && Shape(k) && Cast(k, a, b, if i < 5 then [] else [A])
    && (if i == 0 then Runs(k, 0, 0, [], 3) else if i < 3 then Runs(k, 0, 0, [A], 3)
        else if i < 6 then Runs(k, 0, A, [0], 2) else Runs(k, 0, 0, [], 1))
    && (if i < 2 then Runs(k, 1, 1, [], 3) else if i < 7 then Runs(k, 1, 1, [B], 3) else Runs(k, 1, B, [1], 2))
  }

  /** A and B are readied on two cores; A runs, sends twice and gives way; B runs. */
  function Play(i: nat, m1: int, m2: int): Step {
    if i == 0 then DoReady(0, A, 0)
    else if i == 1 then DoReady(0, B, 1)
    else if i == 2 then DoResched(0)
    else if i == 3 then DoSend(0, B, m1)
    else if i == 4 then DoSend(0, B, m2)
    else if i == 5 then DoResched(0)
    else DoResched(1)
  }

  lemma PlayCall(w: nat, k: State, i: nat, m1: int, m2: int)
    requires w >= 3 && (i < 2 || i == 3 || i == 4) && Stage(k, i, m1, m2) && |k.heap.lists| == |k.heap.lens| == NCORES
    ensures var s := Play(i, m1, m2); Enabled(w, k, s) && Stage(Next(w, k, s), i + 1, m1, m2)
  {
    hide Create;
    hide Kill;
    hide Resched;
  }

  lemma PlayResched(w: nat, k: State, i: nat, m1: int, m2: int)
    requires w >= 3 && (i == 2 || i == 5) && Stage(k, i, m1, m2) && |k.heap.lists| == |k.heap.lens| == NCORES
    ensures var s := Play(i, m1, m2); Enabled(w, k, s) && Stage(Next(w, k, s), i + 1, m1, m2)
  {
    hide Create;
    hide Kill;
  }

  lemma PlayLast(w: nat, k: State, m1: int, m2: int)
    requires w >= 3 && Stage(k, 6, m1, m2) && |k.heap.lists| == |k.heap.lens| == NCORES
    ensures var s := Play(6, m1, m2); Enabled(w, k, s) && Stage(Next(w, k, s), 7, m1, m2)
  {
    hide Create;
    hide Kill;
  }

  /** The play from a full process table on. */
  lemma {:induction false} Acted(w: nat, k0: State, k: State, i: nat, m1: int, m2: int) returns (k': State)
    requires w >= 32 && Reached(w, k0, k) && Stage(k, 0, m1, m2) && i <= 7
    ensures Reached(w, k0, k') && Stage(k', i, m1, m2) && k'.heap == k.heap
  {
    hide Reaches;
    hide Inv;
    hide Accounted;
    hide Stage;
    hide Enabled;
    hide Next;
    if i == 0 {
      k' := k;
    } else {
      var k1 := Acted(w, k0, k, i - 1, m1, m2);
      HeapOfReached(w, k0, k1);
      if i == 7 {
        PlayLast(w, k1, m1, m2);
      } else if i == 3 || i == 6 {
        PlayResched(w, k1, i - 1, m1, m2);
      } else {
        PlayCall(w, k1, i - 1, m1, m2);
      }
      StepBooks(w, k1, Play(i - 1, m1, m2));
      Onward(w, k0, k1, Play(i - 1, m1, m2));
      k' := Next(w, k1, Play(i - 1, m1, m2));
    }
  }

  lemma HeapOfReached(w: nat, k0: State, k: State)
    requires Reached(w, k0, k)
    ensures w >= 3 && Shape(k) && HeapInv(k.heap) && k.nextpid < NPROC
    ensures |k.heap.lists| == |k.heap.lens| == |k.heap.regions| == NCORES
  {
    hide Reaches;
    BackedFacts(w, k);
  }

  /** Regions in which the table can be filled, with room for one more stack. */
  ghost predicate Roomy(w: nat, rs: seq<Region>) {
    w >= 32 && RegionsOk(rs) && |rs| == NCORES && (SLOTS + 1) * MINSTK <= rs[0].bound
  }

  ghost predicate HasRoom(h: Heap) {
    |h.lists| == NCORES && exists i :: 0 <= i < |h.lists[0]| && h.lists[0][i].len >= MINSTK
  }

  /** From boot: B runs with a message unread, and A waits in its queue with a second one. */
  lemma Meeting(w: nat, rs: seq<Region>, end: nat, ptr: nat) returns (k: State)
    requires Roomy(w, rs)
    ensures Reached(w, Booted(rs, end, ptr), k) && Stage(k, 7, 1, 2) && HasRoom(k.heap)
  {
    hide Reaches;
    hide Inv;
    hide Accounted;
    BootedStocked(w, rs, end, ptr);
    var k1 := Fill(w, Booted(rs, end, ptr), rs[0].bound, SLOTS);
    assert HasRoom(k1.heap) by { assert k1.heap.lists[0][0].len >= MINSTK; }
    StockedStage(k1, rs[0].bound);
    k := Acted(w, Booted(rs, end, ptr), k1, 7, 1, 2);
  }

  lemma StockedStage(k: State, bound: nat)
    requires Stocked(k, bound, SLOTS) && Inv(k)
    ensures Stage(k, 0, 1, 2)
  {
    forall p | 0 <= p < NPROC && p != A && p != B ensures k.proc[p].state != PRFREE && k.proc[p].pc == Idle {
      if p >= NCORES { assert Bare(k.proc[p]) == Suspended(); }
    }
    assert k.cores[0] == BootCore(0) && k.cores[1] == BootCore(1);
    assert ProcFits(k, 0) && ProcFits(k, 1);
  }

  // ----- what fails there -----

  /** A message accepted after a recvnow is received before one that was accepted earlier. */
  lemma OvertakingReached(w: nat, rs: seq<Region>, end: nat, ptr: nat, m3: int) returns (k: State)
    requires Roomy(w, rs) && m3 != 2
    ensures Reached(w, Booted(rs, end, ptr), k) && Enabled(w, k, DoRecvNow(1)) && k.cores[1].currpid == B
    ensures var s := DoSendNow(0, B, m3); var k1 := Next(w, k, DoRecvNow(1));
            && Enabled(w, k1, s) && Shape(Next(w, k1, s)) && !KeepsOrder(w, k1, s, B)
            && Pending(Next(w, k1, s), B) == [m3, 2]
    ensures var k1 := Next(w, k, DoRecvNow(1));
            && Shape(k1) && Pending(k1, B) == [2] && Enabled(w, k1, DoRecv(1))
            && Next(w, k1, DoRecv(1)).proc[B].state == PRRECV
  {
    hide Reaches;
    hide Inv;
    hide Accounted;
    k := Meeting(w, rs, end, ptr);
    HeapOfReached(w, Booted(rs, end, ptr), k);
    Overtaken(w, k, 1, 0, B, m3);
    assert Outgoing(k, k.queues[B]) == [2];
    assert Outgoing(k, k.queues[B])[0] != m3;
  }

  /** A kill leaves room where there was room. */
  lemma KillRoom(w: nat, k: State, c: nat, pid: int)
    requires w >= 3 && Inv(k) && Backed(w, k) && At(k, c, Idle) && !KillRefused(k, c, pid)
    requires HasRoom(k.heap)
    ensures HasRoom(Kill(w, k, c, pid).heap)
  {
    hide MidInv;
    hide HeapInv;
    hide RoundMb;
    hide Free;
    hide Resched;
    hide Drop;
    MidParts(k);
    assert UserLive(k, pid) && OwnsStack(w, k, pid);
    var b := StackOf(w, k.proc[pid]);
    HeapLengths(k.heap);
    var i :| 0 <= i < |k.heap.lists[0]| && k.heap.lists[0][i].len >= MINSTK;
    var j := FreeGrows(k.heap, b, 0, i);
    var h := Free(k.heap, b.start, b.len).1;
    assert h.lists[0][j].len >= MINSTK;
    Rounded(w, AsUlong(w, k.proc[pid].stklen));
    BuriedFits(w, k, c, pid);
    if k.proc[pid].state == PRCURR { ReschedBooks(Buried(w, k, pid), c); }
  }

  /** With one slot free and room for a stack, create takes that slot. */
  lemma OnlySlot(w: nat, k: State, r: nat)
    requires w >= 32 && Inv(k) && Backed(w, k) && HasRoom(k.heap) && r < NPROC && k.proc[r].state == PRFREE
    requires forall p :: 0 <= p < NPROC && p != r ==> k.proc[p].state != PRFREE
    ensures |k.heap.lists| == |k.heap.lens| == NCORES && StackSize(w, MINSTK) + 7 < Pow2(w)
    ensures Fills(w, k, 0, MINSTK, r) && Create(w, k, 0, MINSTK, LOW).0 == Some(r)
  {
    hide Inv;
    hide HeapInv;
    hide StackSize;
    hide NewPid;
    hide GetMem;
    hide RoundMb;
    SmallStack(w);
    HeapLengths(k.heap);
    CreateSlot(w, k, 0, MINSTK, LOW);
    NewPidFree(k, k.nextpid, NPROC);
    NewPidComplete(k, k.nextpid);
  }

  /**
    A is killed while it waits: its slot stays in the queue of B, and a process created in that
    slot takes its place there, while its message is gone.
  */
  lemma KillOfSender(w: nat, rs: seq<Region>, end: nat, ptr: nat) returns (k: State)
    requires Roomy(w, rs)
    ensures Reached(w, Booted(rs, end, ptr), k) && Shape(k) && At(k, 0, Idle) && FreeInQueue(k, A)
    ensures |k.heap.lists| == |k.heap.lens| == NCORES && !CreateSafe(w, k, 0, MINSTK)
    ensures var k' := Create(w, k, 0, MINSTK, LOW).1;
            !Inv(k') && Shape(k') && Pending(k, B) == [1, 2] && Pending(k', B) == [1, EMPTY]
  {
    hide Reaches;
    hide Inv;
    hide Backed;
    hide AllOwned;
    hide FreeStack;
    hide NewPid;
    hide GetMem;
    hide StackSize;
    var k1 := Meeting(w, rs, end, ptr);
    HeapOfReached(w, Booted(rs, end, ptr), k1);
    KillRoom(w, k1, 0, A);
    Onward(w, Booted(rs, end, ptr), k1, DoKill(0, A));
    k := Kill(w, k1, 0, A);
    HeapOfReached(w, Booted(rs, end, ptr), k);
    OnlySlot(w, k, A);
    assert A in k.queues[B];
    assert InMessageQueue(k, A);
    CreateKeepsIff(w, k, 0, MINSTK, LOW);
    StaleMember(w, k, 0, MINSTK, LOW, B, A);
    var k' := Create(w, k, 0, MINSTK, LOW).1;
    assert Outgoing(k, k.queues[B]) == [2] && Outgoing(k', k'.queues[B]) == [EMPTY];
  }

  /** B has died with a message unread and A still waiting for it. */
  lemma Bereaved(w: nat, rs: seq<Region>, end: nat, ptr: nat) returns (k: State)
    requires Roomy(w, rs)
    ensures Reached(w, Booted(rs, end, ptr), k) && Shape(k) && HasRoom(k.heap) && At(k, 0, Idle)
    ensures Cast(k, Actor(PRSEND, 0, false, EMPTY, 2, InSend), Actor(PRFREE, 1, true, 1, EMPTY, Idle), [A])
    ensures !InMessageQueue(k, B)
  {
    hide Reaches;
    hide Inv;
    hide Backed;
    hide AllOwned;
    hide FreeStack;
    var k1 := Meeting(w, rs, end, ptr);
    HeapOfReached(w, Booted(rs, end, ptr), k1);
    NotQueued(k1, B);
    SenderStays(w, k1, 1, B);
    KillRoom(w, k1, 1, B);
    Onward(w, Booted(rs, end, ptr), k1, DoKill(1, B));
    k := Kill(w, k1, 1, B);
  }

  /** A process that dies with mail: its successor gets the waiting message and not the one in the slot. */
  lemma SuccessorReached(w: nat, rs: seq<Region>, end: nat, ptr: nat) returns (k: State)
    requires Roomy(w, rs)
    ensures Reached(w, Booted(rs, end, ptr), k) && Enabled(w, k, DoCreate(0, MINSTK, LOW))
    ensures var s := DoCreate(0, MINSTK, LOW);
            && Fills(w, k, 0, MINSTK, B) && Shape(Next(w, k, s))
            && !KeepsMail(w, k, s, B) && !KeepsOrder(w, k, s, B)
            && Pending(k, B) == [1, 2] && Pending(Next(w, k, s), B) == [2]
  {
    hide Reaches;
    hide Inv;
    hide Backed;
    hide AllOwned;
    hide Create;
    hide StackSize;
    k := Bereaved(w, rs, end, ptr);
    HeapOfReached(w, Booted(rs, end, ptr), k);
    OnlySlot(w, k, B);
    var s := DoCreate(0, MINSTK, LOW);
    assert Enabled(w, k, s);
    CreateInherits(w, k, s, B);
    StepFlows(w, k, s, B);
    assert Outgoing(k, k.queues[B]) == [2];
  }

  /** B has taken its first message, let A's into its slot, and is about to ready A. */
  lemma AboutToWake(w: nat, rs: seq<Region>, end: nat, ptr: nat) returns (k: State)
    requires Roomy(w, rs)
    ensures Reached(w, Booted(rs, end, ptr), k) && Shape(k) && HasRoom(k.heap)
    ensures Cast(k, Actor(PRSEND, 0, false, EMPTY, EMPTY, InSend), Actor(PRCURR, 1, true, 2, EMPTY, Waking(A)), [])
    ensures Runs(k, 0, 0, [], 1) && Runs(k, 1, B, [1], 2)
  {
    hide Reaches;
    hide Inv;
    hide Accounted;
    var k1 := Meeting(w, rs, end, ptr);
    HeapOfReached(w, Booted(rs, end, ptr), k1);
    assert Enabled(w, k1, DoRecv(1));
    Onward(w, Booted(rs, end, ptr), k1, DoRecv(1));
    k := Next(w, k1, DoRecv(1));
  }

  lemma NotQueued(k: State, p: nat)
    requires Inv(k) && p < NPROC && ((k.proc[p].state != PRSEND && k.proc[p].state != PRFREE) || Woken(k, p))
    ensures !InMessageQueue(k, p)
  {
    forall r | 0 <= r < NPROC ensures p !in k.queues[r] {
      assert QueueFits(k, r);
      assert p in k.queues[r] ==> MemberFits(k, r, p);
    }
  }

  /** If A is killed before B readies it, create may hand out A's slot, and B then readies the newcomer. */
  lemma StaleReached(w: nat, rs: seq<Region>, end: nat, ptr: nat) returns (k: State)
    requires Roomy(w, rs)
    ensures Reached(w, Booted(rs, end, ptr), k) && |k.heap.lists| == |k.heap.lens| == NCORES
    ensures At(k, 0, Idle) && Shape(k) && !CreateSafe(w, k, 0, MINSTK)
    ensures var k' := Create(w, k, 0, MINSTK, LOW).1;
            && !Inv(k') && Shape(k') && At(k', 1, Waking(A)) && !ReadyInRange(k', A, k'.proc[A].affinity)
  {
    hide Reaches;
    hide Inv;
    hide Backed;
    hide AllOwned;
    hide FreeStack;
    hide NewPid;
    hide GetMem;
    hide StackSize;
    var k1 := AboutToWake(w, rs, end, ptr);
    HeapOfReached(w, Booted(rs, end, ptr), k1);
    assert k1.proc[B].pc == Waking(A);
    KillRoom(w, k1, 0, A);
    Onward(w, Booted(rs, end, ptr), k1, DoKill(0, A));
    k := Kill(w, k1, 0, A);
    HeapOfReached(w, Booted(rs, end, ptr), k);
    OnlySlot(w, k, A);
    assert k.proc[B].pc == Waking(A);
    CreateKeepsIff(w, k, 0, MINSTK, LOW);
    StaleReady(w, k, 0, MINSTK, LOW, B);
  }

  lemma NobodyYet(k: State)
    requires Inv(k) && Shape(k)
    requires Cast(k, Actor(PRSEND, 0, false, EMPTY, EMPTY, InSend), Actor(PRCURR, 1, true, 2, EMPTY, Waking(A)), [])
    ensures NobodyStranded(k)
  {
    forall t | 0 <= t < NPROC ensures !Stranded(k, t) {
      assert ProcFits(k, t);
      assert k.proc[B].pc == Waking(A);
    }
  }

  /** Killing a process that is about to ready another strands that one. */
  lemma KillOfWaker(w: nat, rs: seq<Region>, end: nat, ptr: nat) returns (k: State)
    requires Roomy(w, rs)
    ensures Reached(w, Booted(rs, end, ptr), k) && At(k, 1, Idle) && Shape(k) && !KillRefused(k, 1, B)
    ensures NobodyStranded(k) && Shape(Kill(w, k, 1, B)) && Stranded(Kill(w, k, 1, B), A)
  {
    hide Reaches;
    hide Inv;
    hide Accounted;
    hide Kill;
    var k1 := AboutToWake(w, rs, end, ptr);
    HeapOfReached(w, Booted(rs, end, ptr), k1);
    Onward(w, Booted(rs, end, ptr), k1, DoResched(1));
    k := Resched(k1, 1);
    assert Bare(k.proc[B]).pc == Waking(A) && Owes(k, B);
    NobodyYet(k1);
    StepStrandsNobody(w, k1, DoResched(1));
    KillKeepsIff(w, k, 1, B);
  }
}
