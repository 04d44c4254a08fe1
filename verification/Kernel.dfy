/**
  The process manager as a state machine: process table, queues, schedulers and message
  slots, with one step for every section of a system call that runs under a lock or with
  interrupts off.  Steps of different cores interleave freely.
*/
module Kernel {
  import opened Config
  import opened Queues
  import opened Types
  import opened Heaps
  import opened Bits

  // ----- state -----

  datatype PState = PRFREE | PRCURR | PRSUSP | PRREADY | PRRECV | PRSEND

  /** Where a process stands inside a system call, between the sections that are one step. */
  datatype Pc =
    | Idle                  // in user code
    | InRecv                // in recv, past the point where it set PRRECV
    | InSend                // in send, past the point where it queued itself
    | Waking(target: nat)   // has released the lock and is about to call ready(target)

  datatype Pcb = Pcb(state: PState, priority: nat, affinity: int, hasMessage: bool, msgin: int, msgout: int,
                     stkbase: nat, stklen: int, pc: Pc)

  datatype Core = Core(currpid: nat, promoteMed: nat, promoteLow: nat, preempt: nat, clkticks: nat, clktime: nat)

  datatype State = State(proc: seq<Pcb>, queues: seq<seq<int>>, cores: seq<Core>,
                         numproc: int, nextpid: nat, heap: Heap)

  const LOW: nat := 0
  const MED: nat := 1
  const HIGH: nat := 2

  /** Queue p is the message queue of process p; then come the ready queues, three a core. */
  function ReadyQ(c: nat, level: nat): nat { NPROC + 3 * c + level }

  ghost predicate Shape(k: State) {
    |k.proc| == NPROC && |k.queues| == NQUEUE && |k.cores| == NCORES
  }

  // ----- what every state of a run satisfies -----

  ghost predicate Woken(k: State, t: nat) {
    exists w :: 0 <= w < |k.proc| && k.proc[w].pc == Waking(t)
  }

  ghost predicate InReadyQueue(k: State, p: nat)
    requires Shape(k) && p < NPROC && 0 <= k.proc[p].affinity < NCORES
  {
    exists l :: 0 <= l < 3 && p in k.queues[ReadyQ(k.proc[p].affinity, l)]
  }

  ghost predicate InMessageQueue(k: State, p: nat)
    requires Shape(k)
  {
    exists r :: 0 <= r < NPROC && p in k.queues[r]
  }

  /**
    A member of a message queue waits as a sender, or has been killed while it did; a member of a
    ready queue is ready on that core.
  */
  ghost predicate MemberFits(k: State, q: nat, p: int)
    requires Shape(k) && q < NQUEUE
  {
    && 0 <= p < NPROC
    && if q < NPROC then (k.proc[p].state == PRSEND || k.proc[p].state == PRFREE) && !Woken(k, p)
       else k.proc[p].state == PRREADY && 3 * k.proc[p].affinity + k.proc[p].priority <= q - NPROC
            && q - NPROC < 3 * k.proc[p].affinity + 3
  }

  ghost predicate QueueFits(k: State, q: nat)
    requires Shape(k) && q < NQUEUE
  {
    forall p :: p in k.queues[q] ==> MemberFits(k, q, p)
  }

  predicate Live(s: PState) { s == PRCURR || s == PRREADY || s == PRRECV || s == PRSEND }

  ghost predicate ProcFits(k: State, p: nat)
    requires Shape(k) && p < NPROC
  {
    var b := k.proc[p];
    && b.priority <= 2 && -1 <= b.affinity < NCORES
    && (Live(b.state) ==> 0 <= b.affinity) && (b.state == PRSUSP ==> b.affinity == -1)
    && (b.state == PRCURR ==> k.cores[b.affinity].currpid == p)
    && (b.state == PRREADY ==> InReadyQueue(k, p))
    && (b.state == PRSEND ==> b.pc == InSend)
    && (b.state == PRRECV ==> b.pc == InRecv && (Woken(k, p) ==> b.hasMessage))
    && (Woken(k, p) ==> b.state == PRRECV || b.state == PRSEND || b.state == PRFREE)
    && (b.pc == InRecv ==> b.state == PRRECV || b.hasMessage)
    && (!Live(b.state) ==> b.pc == Idle)
    && (p < NCORES ==> b.affinity == p && b.priority == LOW && (b.state == PRCURR || b.state == PRREADY))
  }

  /** At most one process is about to ready any given one. */
  ghost predicate WakersFit(k: State) {
    && (forall w :: 0 <= w < |k.proc| && k.proc[w].pc.Waking? ==> k.proc[w].pc.target < NPROC)
    && (forall v, w :: 0 <= v < |k.proc| && 0 <= w < |k.proc| && k.proc[v].pc.Waking? && k.proc[w].pc == k.proc[v].pc
          ==> v == w)
  }

  ghost predicate CountersFit(k: State, c: nat)
    requires Shape(k) && c < NCORES
  {
    var r := k.cores[c];
    r.currpid < NPROC && 1 <= r.promoteMed <= QUANTUM && 1 <= r.promoteLow <= QUANTUM && r.preempt <= QUANTUM
  }

  /** What also holds in the middle of resched, when the process that was current may be gone. */
  ghost predicate MidInv(k: State) {
    && Shape(k) && Placed(k.queues) && WakersFit(k)
    && (forall q :: 0 <= q < NQUEUE ==> QueueFits(k, q))
    && (forall p :: 0 <= p < NPROC ==> ProcFits(k, p))
    && (forall c :: 0 <= c < NCORES ==> CountersFit(k, c))
  }

  ghost predicate CurrentFits(k: State, c: nat)
    requires Shape(k) && c < NCORES
  {
    && k.cores[c].currpid < NPROC && 1 <= k.cores[c].preempt
    && var b := k.proc[k.cores[c].currpid];
       b.affinity == c && Live(b.state)
  }

  ghost predicate Inv(k: State) {
    MidInv(k) && forall c :: 0 <= c < NCORES ==> CurrentFits(k, c)
  }

  /** Process t waits, has what it waits for, and nobody is left to ready it. */
  ghost predicate Stranded(k: State, t: nat)
    requires Shape(k) && t < NPROC
  {
    && !Woken(k, t)
    && ((k.proc[t].state == PRRECV && k.proc[t].hasMessage) || (k.proc[t].state == PRSEND && !InMessageQueue(k, t)))
  }

  ghost predicate NobodyStranded(k: State)
    requires Shape(k)
  {
    forall t :: 0 <= t < NPROC ==> !Stranded(k, t)
  }

  // ----- resched -----

  /** --x on an unsigned counter, of 32 bits here; no run has it at zero, so the width does not matter. */
  function Dec(x: nat): nat {
    if x == 0 then 0xFFFF_FFFF else x - 1
  }

  /** enqueue(dequeue(from), to), when from is not empty. */
  function MoveHead(qs: seq<seq<int>>, from: nat, to: nat): seq<seq<int>>
    requires from < |qs| && to < |qs| && from != to
  {
    if qs[from] == [] then qs
    else qs[to := qs[to] + [qs[from][0]]][from := qs[from][1..]]
  }

  /** The aging half of resched. */
  function Age(k: State, c: nat): State
    requires Shape(k) && c < NCORES
  {
    var r := k.cores[c];
    var pm := Dec(r.promoteMed);
    if pm > 0 then k.(cores := k.cores[c := r.(promoteMed := pm)])
    else
      var qs := MoveHead(k.queues, ReadyQ(c, MED), ReadyQ(c, HIGH));
      var pl := Dec(r.promoteLow);
      if pl > 0 then k.(queues := qs, cores := k.cores[c := r.(promoteMed := QUANTUM, promoteLow := pl)])
      else k.(queues := MoveHead(qs, ReadyQ(c, LOW), ReadyQ(c, MED)),
              cores := k.cores[c := r.(promoteMed := QUANTUM, promoteLow := QUANTUM)])
  }

  function SetProc(k: State, p: nat, b: Pcb): State
    requires p < |k.proc|
  {
    k.(proc := k.proc[p := b])
  }

  function Append(k: State, q: nat, p: nat): State
    requires q < |k.queues|
  {
    k.(queues := k.queues[q := k.queues[q] + [p]])
  }

  /** A current process that is still runnable goes to the end of the queue of its own priority. */
  function Requeue(k: State, c: nat): State
    requires Shape(k) && c < NCORES
  {
    var p := k.cores[c].currpid;
    if p < NPROC && k.proc[p].state == PRCURR && k.proc[p].priority <= 2
    then Append(SetProc(k, p, k.proc[p].(state := PRREADY)), ReadyQ(c, k.proc[p].priority), p)
    else k
  }

  function Level(k: State, c: nat): (l: nat)
    requires Shape(k) && c < NCORES
    ensures l <= 2
  {
    if k.queues[ReadyQ(c, HIGH)] != [] then HIGH
    else if k.queues[ReadyQ(c, MED)] != [] then MED
    else LOW
  }

  /** The first process of the highest queue that is not empty becomes the current one. */
  function Pick(k: State, c: nat): State
    requires Shape(k) && c < NCORES
  {
    var q := ReadyQ(c, Level(k, c));
    if k.queues[q] == [] || !(0 <= k.queues[q][0] < NPROC) then k   // dequeue would yield EMPTY
    else
      var p := k.queues[q][0];
      State(k.proc[p := k.proc[p].(state := PRCURR)], k.queues[q := k.queues[q][1..]],
            k.cores[c := k.cores[c].(currpid := p, preempt := QUANTUM)], k.numproc, k.nextpid, k.heap)
  }

  function Resched(k: State, c: nat): State
    requires Shape(k) && c < NCORES
  {
    Pick(Requeue(Age(k, c), c), c)
  }

  // ----- messages -----

  predicate IsBadPid(k: State, pid: int)
    requires Shape(k)
  {
    pid < 0 || pid >= NPROC || k.proc[pid].state == PRFREE
  }

  /** A full slot for pid, and a caller p about to wake it if it waits in recv. */
  function Deposit(k: State, p: nat, pid: nat, msg: int): State
    requires Shape(k) && p < NPROC && pid < NPROC
  {
    var k1 := SetProc(k, pid, k.proc[pid].(msgin := msg, hasMessage := true));
    if k.proc[pid].state == PRRECV then SetProc(k1, p, k1.proc[p].(pc := Waking(pid))) else k1
  }

  /** The locked section of send by process p: deposit, or queue up behind the full slot. */
  function SendBody(k: State, p: nat, pid: int, msg: int): State
    requires Shape(k) && p < NPROC
  {
    if IsBadPid(k, pid) then k
    else if k.proc[pid].hasMessage
    then Append(SetProc(k, p, k.proc[p].(msgout := msg, state := PRSEND, pc := InSend)), pid, p)
    else Deposit(k, p, pid, msg)
  }

  function SendNowBody(k: State, p: nat, pid: int, msg: int): State
    requires Shape(k) && p < NPROC
  {
    if IsBadPid(k, pid) || k.proc[pid].hasMessage then k else Deposit(k, p, pid, msg)
  }

  /** The second half of recv: take the message and let the first waiting sender fill the slot. */
  function Collect(k: State, p: nat): State
    requires Shape(k) && p < NPROC
  {
    var b := k.proc[p];
    if k.queues[p] != [] && 0 <= k.queues[p][0] < NPROC then
      var s := k.queues[p][0];
      var k1 := SetProc(k.(queues := k.queues[p := k.queues[p][1..]]), p,
                        b.(msgin := k.proc[s].msgout, pc := Waking(s)));
      SetProc(k1, s, k1.proc[s].(msgout := EMPTY))
    else SetProc(k, p, b.(hasMessage := false, pc := Idle))
  }

  function RecvBody(k: State, p: nat): State
    requires Shape(k) && p < NPROC
  {
    if k.proc[p].hasMessage then Collect(k, p)
    else SetProc(k, p, k.proc[p].(state := PRRECV, pc := InRecv))
  }

  function RecvNowBody(k: State, p: nat): State
    requires Shape(k) && p < NPROC
  {
    SetProc(k, p, k.proc[p].(hasMessage := false))
  }

  /** The core whose ready list ready(pid, resch, core) goes to. */
  function ReadyCore(k: State, pid: nat, core: int): int
    requires pid < |k.proc|
  {
    if k.proc[pid].affinity == -1 then core else k.proc[pid].affinity
  }

  /** ready refuses the process, or the ready list it indexes exists. */
  predicate ReadyInRange(k: State, pid: int, core: int)
    requires Shape(k)
  {
    IsBadPid(k, pid) || (0 <= ReadyCore(k, pid, core) < NCORES && k.proc[pid].priority <= 2)
  }

  /** ready(pid, RESCHED_NO, core), which says nothing useful where the index is out of range. */
  function ReadyBody(k: State, pid: int, core: int): State
    requires Shape(k)
  {
    if IsBadPid(k, pid) || !ReadyInRange(k, pid, core) then k
    else
      var b := k.proc[pid].(state := PRREADY, affinity := ReadyCore(k, pid, core));
      Append(SetProc(k, pid, b), ReadyQ(b.affinity, b.priority), pid)
  }

  /**
    A process that has filled a slot or emptied a queue place readies the one it is to wake, on
    the core that one belongs to; if it has been killed in the meantime ready refuses it.
  */
  function WakeBody(k: State, p: nat): State
    requires Shape(k) && p < NPROC && k.proc[p].pc.Waking? && k.proc[p].pc.target < NPROC
  {
    ReadyBody(SetProc(k, p, k.proc[p].(pc := Idle)), k.proc[p].pc.target, k.proc[k.proc[p].pc.target].affinity)
  }

  // ----- create -----

  const MINSTK: nat := 4096

  /** The stack create asks for: at least MINSTK, rounded up to a multiple of four. */
  function StackSize(w: nat, ssize: nat): nat {
    And(((if ssize < MINSTK then MINSTK else ssize) + 3) % Pow2(w), 0xFFFF_FFFC)
  }

  /** The mask has 32 bits, so the stack holds what was asked for if and only if that is short of 2^32 - 3. */
  lemma StackSizeIs(w: nat, ssize: nat)
    requires w >= 32
    ensures var s := if ssize < 4096 then 4096 else ssize;
            && StackSize(w, ssize) == (s + 3) % 0x1_0000_0000 / 4 * 4
            && (s <= StackSize(w, ssize) <==> s + 3 < 0x1_0000_0000)
  {
    hide And;
    hide Pow2;
    var s := if ssize < MINSTK then MINSTK else ssize;
    StackMask(w, s + 3);
    DownTo4((s + 3) % 0x1_0000_0000);
    if s + 3 < 0x1_0000_0000 { SmallMod(s + 3, 0x1_0000_0000); }
  }

  lemma StackMask(w: nat, y: nat)
    requires w >= 32
    ensures And(y % Pow2(w), 0xFFFF_FFFC) == y % 0x1_0000_0000 / 4 * 4
  {
    hide And;
    hide Pow2;
    Pow2Values();
    var x := y % Pow2(w);
    AndBits(x, 0xFFFF_FFFC, 32);
    Split(x, 32);
    ModPow(y, 32, w);
    var z := y % 0x1_0000_0000;
    assert Low(x, 32) == z;
    AndNotMask(z, 2, 32);
    DownTo4(z);
  }

  lemma DownTo4(x: nat)
    ensures x - x % 4 == x / 4 * 4 && x - 4 < x / 4 * 4 <= x && (x < 0x1_0000_0000 ==> x / 4 * 4 <= 0xFFFF_FFFC)
  {
  }

  function SuccPid(np: nat): nat { if np + 1 >= NPROC then 0 else np + 1 }

  /** newpid with n slots still to look at: the next free slot round from np, and where it stopped. */
  function NewPid(k: State, np: nat, n: nat): (Option<nat>, nat)
    requires Shape(k)
    decreases n
  {
    if n == 0 then (None, np)
    else if k.proc[SuccPid(np)].state == PRFREE then (Some(SuccPid(np)), SuccPid(np))
    else NewPid(k, SuccPid(np), n - 1)
  }

  /** A word stored in an int of 32 bits. */
  function AsInt(x: nat): int {
    var y := x % 0x1_0000_0000;
    if y < 0x8000_0000 then y else y - 0x1_0000_0000
  }

  /** An int passed as an unsigned long of w bits. */
  function AsUlong(w: nat, v: int): nat {
    if v >= 0 then v else if v + Pow2(w) >= 0 then v + Pow2(w) else 0
  }

  /** stklen gives back the length that was put into it exactly below 2^31, or where a long has 32 bits. */
  lemma IntKeepsLength(w: nat, x: nat)
    requires w >= 32 && x < 0x1_0000_0000
    ensures AsUlong(w, AsInt(x)) == x <==> x < 0x8000_0000 || w == 32
  {
    hide Pow2;
    Pow2Values();
    Pow2Mono(32, w);
    if w > 32 { Pow2Grows(w); }
  }

  lemma Pow2Grows(w: nat)
    requires w > 32
    ensures Pow2(w) > 0x1_0000_0000
  {
    Pow2Values();
    Pow2Mono(32, w - 1);
  }

  function NewPcb(priority: nat, base: nat, len: nat): Pcb {
    Pcb(PRSUSP, priority, -1, false, EMPTY, EMPTY, base, AsInt(len), Idle)
  }

  /** getmem(n) by core c. */
  function GetMem(w: nat, k: State, c: nat, n: nat): (Option<nat>, Heap)
    requires w >= 3 && c < |k.heap.lists| == |k.heap.lens|
  {
    if n == 0 then (None, k.heap) else Get(k.heap, c, RoundMb(w, n))
  }

  /** create by core c: the new process, or None, and the state it leaves. */
  function Create(w: nat, k: State, c: nat, ssize: nat, priority: nat): (Option<nat>, State)
    requires w >= 3 && Shape(k) && c < |k.heap.lists| == |k.heap.lens|
  {
    var len := StackSize(w, ssize);
    var (saddr, heap) := GetMem(w, k, c, len);
    var (pid, np) := NewPid(k, k.nextpid, NPROC);
    var k1 := k.(heap := heap, nextpid := np);
    if saddr == None || pid == None || pid.value >= NPROC then (None, k1)
    else (pid, SetProc(k1.(numproc := k.numproc + 1), pid.value, NewPcb(priority, saddr.value, len)))
  }

  // ----- kill -----

  /** l without p. */
  function Minus(l: seq<int>, p: int): seq<int> {
    if l == [] then [] else if l[0] == p then l[1..] else [l[0]] + Minus(l[1..], p)
  }

  /** remove(p): p leaves whichever queue it is in. */
  function Drop(qs: seq<seq<int>>, p: int): seq<seq<int>> {
    seq(|qs|, q requires 0 <= q < |qs| => Minus(qs[q], p))
  }

  /** freemem of a stack that lies in some region; of a length that rounds to nothing it takes none off the lists. */
  function FreeStack(w: nat, h: Heap, base: nat, stklen: int): Heap
    requires w >= 3
  {
    var len := AsUlong(w, stklen);
    if len == 0 || RoundMb(w, len) == 0 then h
    else if !(|h.lists| == |h.regions| == |h.lens|) || RegionOf(h.regions, base) >= |h.regions| then h
    else Free(h, base, RoundMb(w, len)).1
  }

  predicate KillRefused(k: State, c: nat, pid: int)
    requires Shape(k)
  {
    IsBadPid(k, pid) || pid < NCORES || k.proc[pid].affinity != c
  }

  function Freed(b: Pcb): Pcb { b.(state := PRFREE, pc := Idle) }

  /** kill(pid) by core c; the slot of a process that kills itself is free before resched. */
  function Kill(w: nat, k: State, c: nat, pid: int): State
    requires w >= 3 && Shape(k) && c < NCORES
  {
    if KillRefused(k, c, pid) then k
    else
      var b := k.proc[pid];
      var k1 := k.(numproc := k.numproc - 1, heap := FreeStack(w, k.heap, b.stkbase, b.stklen));
      var k2 := SetProc(k1, pid, Freed(b));
      if b.state == PRCURR then Resched(k2, c)
      else if b.state == PRREADY then k2.(queues := Drop(k.queues, pid))
      else k2
  }

  // ----- the clock -----

  const CLKTICKS_PER_SEC: nat := 1000

  /** One more tick, and one more second at every thousandth. */
  function CountTick(r: Core): Core {
    if r.clkticks + 1 == CLKTICKS_PER_SEC then r.(clkticks := 0, clktime := r.clktime + 1)
    else r.(clkticks := r.clkticks + 1)
  }

  /** The counters of core c after a tick. */
  function Ticked(r: Core): Core {
    CountTick(r).(preempt := Dec(r.preempt))
  }

  /** clkhandler on core c. */
  function Tick(k: State, c: nat): State
    requires Shape(k) && c < NCORES
  {
    var k1 := k.(cores := k.cores[c := Ticked(k.cores[c])]);
    if k1.cores[c].preempt > 0 then k1 else Resched(k1, c)
  }

  // ----- steps -----

  datatype Step =
    | DoResched(c: nat)
    | DoTick(c: nat)
    | DoSend(c: nat, pid: int, msg: int)
    | DoSendNow(c: nat, pid: int, msg: int)
    | DoRecv(c: nat)                             // recv up to its first lock_release
    | DoCollect(c: nat)                          // recv from where resched returned
    | DoRecvNow(c: nat)
    | DoReturn(c: nat)                           // send from where resched returned
    | DoWake(c: nat)                             // the call of ready after a lock_release
    | DoReady(c: nat, pid: int, core: nat)       // ready on what create returned
    | DoCreate(c: nat, ssize: nat, priority: nat)
    | DoKill(c: nat, pid: int)

  /** The process current on core c runs, and pc says where in its code. */
  predicate At(k: State, c: nat, pc: Pc) {
    && c < |k.cores| && k.cores[c].currpid < |k.proc|
    && k.proc[k.cores[c].currpid].state == PRCURR && k.proc[k.cores[c].currpid].pc == pc
  }

  /** Process p has yet to ready one that waits for it. */
  predicate Owes(k: State, p: nat)
    requires p < |k.proc|
  {
    k.proc[p].pc.Waking? && k.proc[p].pc.target < |k.proc| && k.proc[k.proc[p].pc.target].state != PRFREE
  }

  /** Core c has a free block for the stack that create asks for. */
  predicate GetsStack(w: nat, k: State, c: nat, ssize: nat)
    requires w >= 3 && c < |k.heap.lists|
  {
    var n, l := StackSize(w, ssize), k.heap.lists[c];
    n > 0 && exists i :: 0 <= i < |l| && l[i].len >= RoundMb(w, n)
  }

  /** create succeeds with slot r: there is a stack for it, and newpid finds it. */
  ghost predicate Fills(w: nat, k: State, c: nat, ssize: nat, r: nat)
    requires w >= 3 && Shape(k) && c < |k.heap.lists|
  {
    GetsStack(w, k, c, ssize) && NewPid(k, k.nextpid, NPROC).0 == Some(r)
  }

  /** Nobody is still about to ready the slot that newpid finds, and no message queue still has it. */
  ghost predicate CreateSafe(w: nat, k: State, c: nat, ssize: nat)
    requires w >= 3 && Shape(k) && c < |k.heap.lists|
  {
    forall r :: 0 <= r < NPROC && Fills(w, k, c, ssize, r) ==> !Woken(k, r) && !InMessageQueue(k, r)
  }

  /** What the kernel asks of the code that makes a call; null processes never block. */
  ghost predicate Enabled(w: nat, k: State, s: Step) {
    && w >= 3 && Shape(k) && |k.heap.lists| == |k.heap.lens| == NCORES && s.c < NCORES
    && match s
       case DoResched(c) => true
       case DoTick(c) => true
       case DoSend(c, _, _) => At(k, c, Idle) && k.cores[c].currpid >= NCORES
       case DoSendNow(c, _, _) => At(k, c, Idle)
       case DoRecv(c) => At(k, c, Idle) && k.cores[c].currpid >= NCORES
       case DoCollect(c) => At(k, c, InRecv)
       case DoRecvNow(c) => At(k, c, Idle)
       case DoReturn(c) => At(k, c, InSend)
       case DoWake(c) => exists t: nat :: t < NPROC && At(k, c, Waking(t))
       case DoReady(c, pid, core) => At(k, c, Idle) && 0 <= pid < NPROC && core < NCORES && k.proc[pid].state == PRSUSP
       case DoCreate(c, ssize, priority) =>
         At(k, c, Idle) && priority <= 2 && CreateSafe(w, k, c, ssize)
       case DoKill(c, pid) => At(k, c, Idle)
  }

  ghost function Next(w: nat, k: State, s: Step): State
    requires Enabled(w, k, s)
  {
    var p := k.cores[s.c].currpid;
    match s
    case DoResched(c) => Resched(k, c)
    case DoTick(c) => Tick(k, c)
    case DoSend(c, pid, msg) => SendBody(k, p, pid, msg)
    case DoSendNow(c, pid, msg) => SendNowBody(k, p, pid, msg)
    case DoRecv(c) => RecvBody(k, p)
    case DoCollect(c) => Collect(k, p)
    case DoRecvNow(c) => RecvNowBody(k, p)
    case DoReturn(c) => SetProc(k, p, k.proc[p].(pc := Idle))
    case DoWake(c) => WakeBody(k, p)
    case DoReady(c, pid, core) => ReadyBody(k, pid, core)
    case DoCreate(c, ssize, priority) => Create(w, k, c, ssize, priority).1
    case DoKill(c, pid) => Kill(w, k, c, pid)
  }

  /** The state after each step of a run, from ks[0] on. */
  ghost predicate Run(w: nat, ks: seq<State>, steps: seq<Step>) {
    && |ks| == |steps| + 1
    && forall i :: 0 <= i < |steps| ==> Enabled(w, ks[i], steps[i]) && ks[i + 1] == Next(w, ks[i], steps[i])
  }

  // ----- boot -----

  /** The null process of core p, whose stack starts p times 8192 pointers behind the image. */
  function NullPcb(end: nat, ptr: nat, p: nat): Pcb {
    Pcb(PRCURR, LOW, p, false, 0, 0, end + p * 8192 * ptr, 8192, Idle)
  }

  function FreePcb(): Pcb {
    Pcb(PRFREE, LOW, -1, false, 0, 0, 0, 0, Idle)
  }

  function BootPcb(end: nat, ptr: nat, p: nat): Pcb {
    if p < NCORES then NullPcb(end, ptr, p) else FreePcb()
  }

  function BootCore(c: nat): Core {
    Core(c, QUANTUM, QUANTUM, QUANTUM, 0, 0)
  }

  /**
    What sysinit and clkinit leave: a null process current on each core, every queue empty.  The
    image ends at end and a pointer has ptr bytes.
  */
  function Booted(rs: seq<Region>, end: nat, ptr: nat): (k: State)
    ensures |k.proc| == NPROC && |k.queues| == NQUEUE && |k.cores| == NCORES
    ensures forall p :: 0 <= p < NPROC ==> k.proc[p] == BootPcb(end, ptr, p)
    ensures forall q :: 0 <= q < NQUEUE ==> k.queues[q] == []
    ensures forall c :: 0 <= c < NCORES ==> k.cores[c] == BootCore(c)
  {
    State(seq(NPROC, p requires 0 <= p < NPROC => BootPcb(end, ptr, p)), seq(NQUEUE, _ => []),
          seq(NCORES, c requires 0 <= c < NCORES => BootCore(c)), NCORES, 0, Initial(rs))
  }
}
