/**
  What each step does to the tables, field by field, and what it leaves alone: whether a call may
  be made is read off the state, and the state after it is written out.
*/
module Effects {
  import opened Config
  import opened Queues
  import opened Types
  import opened Bits
  import opened Heaps
  import opened Kernel
  import opened KernelInv
  import opened KernelLife
  import opened KernelRuns

  // ----- resched and the clock -----

  /** The three queues of a core, highest first, as sequences. */
  datatype Levels = Levels(high: seq<int>, med: seq<int>, low: seq<int>)

  function First(l: seq<int>): seq<int> { if l == [] then [] else [l[0]] }
  function Later(l: seq<int>): seq<int> { if l == [] then [] else l[1..] }

  function LevelsOf(k: State, c: nat): Levels
    requires Shape(k) && c < 4
  {
    Levels(k.queues[52 + 3 * c], k.queues[51 + 3 * c], k.queues[50 + 3 * c])
  }

  /** At every third resched the first of the middle level goes up, and at every ninth the first of the lowest too. */
  function Aged(r: Core, l: Levels): Levels {
    if r.promoteMed != 1 then l
    else if r.promoteLow != 1 then Levels(l.high + First(l.med), Later(l.med), l.low)
    else Levels(l.high + First(l.med), Later(l.med) + First(l.low), Later(l.low))
  }

  /** A process that may still run goes behind the others of its priority. */
  function Behind(l: Levels, p: nat, b: Pcb): Levels {
    if b.state != PRCURR then l
    else if b.priority == 2 then l.(high := l.high + [p])
    else if b.priority == 1 then l.(med := l.med + [p])
    else l.(low := l.low + [p])
  }

  function Lead(l: Levels): seq<int> {
    if l.high != [] then [l.high[0]] else if l.med != [] then [l.med[0]] else First(l.low)
  }

  function AfterLead(l: Levels): Levels {
    if l.high != [] then l.(high := l.high[1..])
    else if l.med != [] then l.(med := l.med[1..])
    else l.(low := Later(l.low))
  }

  /** The counters of a core after a resched that dispatches p. */
  function Dispatching(r: Core, p: nat): Core
    requires 1 <= r.promoteMed && 1 <= r.promoteLow
  {
    Core(p, if r.promoteMed == 1 then 3 else r.promoteMed - 1,
         if r.promoteMed != 1 then r.promoteLow else if r.promoteLow == 1 then 3 else r.promoteLow - 1,
         3, r.clkticks, r.clktime)
  }

  /** The tables after a resched on core c that leaves the levels l and then takes their first process. */
  function Switched(k: State, c: nat, l: Levels, p: nat): State
    requires Shape(k) && c < 4 && p < 50 && k.cores[c].currpid < 50
    requires 1 <= k.cores[c].promoteMed && 1 <= k.cores[c].promoteLow
  {
    var cur, q := k.cores[c].currpid, AfterLead(l);
    var procs := if k.proc[cur].state == PRCURR then k.proc[cur := k.proc[cur].(state := PRREADY)] else k.proc;
    State(procs[p := procs[p].(state := PRCURR)],
          k.queues[52 + 3 * c := q.high][51 + 3 * c := q.med][50 + 3 * c := q.low],
          k.cores[c := Dispatching(k.cores[c], p)], k.numproc, k.nextpid, k.heap)
  }

  /** resched, written out: age, queue up behind, and run the first of the highest level. */
  lemma ReschedIs(k: State, c: nat)
    requires MayResched(k, c)
    ensures Shape(k) && c < 4 && k.cores[c].currpid < 50 && 1 <= k.cores[c].promoteMed && 1 <= k.cores[c].promoteLow
    ensures var l := Behind(Aged(k.cores[c], LevelsOf(k, c)), k.cores[c].currpid, k.proc[k.cores[c].currpid]);
            && Lead(l) != [] && 0 <= Lead(l)[0] < 50 && Resched(k, c) == Switched(k, c, l, Lead(l)[0])
  {
    hide MidInv;
    hide Age;
    hide Requeue;
    hide Pick;
    hide Aged;
    hide Behind;
    hide AfterLead;
    hide Lead;
    hide Level;
    ReschedParts(k, c);
    AgeKeeps(k, c);
    AgeIs(k, c);
    var ka, cur := Age(k, c), k.cores[c].currpid;
    RequeueIs(ka, c);
    RequeueKeeps(ka, c);
    var kr := Requeue(ka, c);
    PickIs(kr, c);
    var l := Behind(Aged(k.cores[c], LevelsOf(k, c)), cur, k.proc[cur]);
    assert LevelsOf(kr, c) == l;
    var k', s := Resched(k, c), Switched(k, c, l, Lead(l)[0]);
    forall q | 0 <= q < NQUEUE ensures k'.queues[q] == s.queues[q] {
      assert LevelsOf(k', c) == AfterLead(l);
    }
  }

  lemma ReschedParts(k: State, c: nat)
    requires MayResched(k, c)
    ensures Shape(k) && CountersFit(k, c) && k.proc[k.cores[c].currpid].priority <= 2
    ensures MidInv(Age(k, c)) && Shape(Age(k, c)) && RunsAtHome(Age(k, c), c)
    ensures var kr := Requeue(Age(k, c), c); Shape(kr) && MidInv(kr) && kr.queues[ReadyQ(c, Level(kr, c))] != []
  {
    hide MidInv;
    hide Age;
    hide Requeue;
    MidParts(k);
    assert CountersFit(k, c);
    assert ProcFits(k, k.cores[c].currpid);
    AgeKeeps(k, c);
    MidParts(Age(k, c));
    RequeueKeeps(Age(k, c), c);
    ReschedKeeps(k, c);
  }

  lemma AgeIs(k: State, c: nat)
    requires Shape(k) && c < 4 && CountersFit(k, c)
    ensures Shape(Age(k, c)) && LevelsOf(Age(k, c), c) == Aged(k.cores[c], LevelsOf(k, c))
    ensures forall q :: 0 <= q < NQUEUE && !(50 + 3 * c <= q <= 52 + 3 * c) ==> Age(k, c).queues[q] == k.queues[q]
    ensures Age(k, c).cores == k.cores[c := Dispatching(k.cores[c], k.cores[c].currpid).(preempt := k.cores[c].preempt)]
  {
    var l := LevelsOf(k, c);
    assert forall s: seq<int> :: s + [] == s;
  }

  lemma RequeueIs(k: State, c: nat)
    requires Shape(k) && c < 4 && k.cores[c].currpid < 50 && k.proc[k.cores[c].currpid].priority <= 2
    ensures var cur := k.cores[c].currpid; var kr := Requeue(k, c);
            && Shape(kr) && LevelsOf(kr, c) == Behind(LevelsOf(k, c), cur, k.proc[cur])
            && kr.cores == k.cores && kr.numproc == k.numproc && kr.nextpid == k.nextpid && kr.heap == k.heap
            && kr.proc
               == (if k.proc[cur].state == PRCURR then k.proc[cur := k.proc[cur].(state := PRREADY)] else k.proc)
    ensures forall q :: 0 <= q < NQUEUE && !(50 + 3 * c <= q <= 52 + 3 * c) ==> Requeue(k, c).queues[q] == k.queues[q]
  {
  }

  lemma PickIs(k: State, c: nat)
    requires MidInv(k) && Shape(k) && c < 4 && k.queues[ReadyQ(c, Level(k, c))] != []
    ensures var l, k' := LevelsOf(k, c), Pick(k, c);
            && Shape(k') && Lead(l) != [] && 0 <= Lead(l)[0] < 50 && LevelsOf(k', c) == AfterLead(l)
            && k'.proc == k.proc[Lead(l)[0] := k.proc[Lead(l)[0]].(state := PRCURR)]
            && k'.cores == k.cores[c := k.cores[c].(currpid := Lead(l)[0], preempt := 3)]
            && k'.numproc == k.numproc && k'.nextpid == k.nextpid && k'.heap == k.heap
            && forall q :: 0 <= q < NQUEUE && !(50 + 3 * c <= q <= 52 + 3 * c) ==> k'.queues[q] == k.queues[q]
  {
    hide MidInv;
    hide Pick;
    hide Placed;
    PickMembers(k, c);
  }

  // ----- the clock -----

  /** One tick of a core: its clock goes on, a thousand ticks to the second, and its quantum runs down. */
  function TickedCore(r: Core): Core
    requires r.preempt >= 1
  {
    Core(r.currpid, r.promoteMed, r.promoteLow, r.preempt - 1, if r.clkticks == 999 then 0 else r.clkticks + 1,
         if r.clkticks == 999 then r.clktime + 1 else r.clktime)
  }

  /** A tick changes the clock and the quantum of its core alone; the last of a quantum is a resched besides. */
  lemma TickIs(k: State, c: nat)
    requires Inv(k) && c < 4
    ensures Shape(k) && 1 <= k.cores[c].preempt
    ensures var k1 := State(k.proc, k.queues, k.cores[c := TickedCore(k.cores[c])], k.numproc, k.nextpid, k.heap);
            Tick(k, c) == if k.cores[c].preempt > 1 then k1 else Resched(k1, c)
  {
    hide Resched;
    hide MidInv;
    MidParts(k);
    TickMayResched(k, c);
  }

  /** Every core may be interrupted by the clock and may give way at any time. */
  lemma DoTickIs(w: nat, k: State, c: nat)
    requires w >= 3 && Inv(k) && |k.heap.lists| == |k.heap.lens| == 4 && c < 4
    ensures Enabled(w, k, DoTick(c)) && Enabled(w, k, DoResched(c))
    ensures Next(w, k, DoTick(c)) == Tick(k, c) && Next(w, k, DoResched(c)) == Resched(k, c)
  {
    hide MidInv;
    hide Tick;
    hide Resched;
    MidParts(k);
  }

  // ----- ready -----

  /** ready binds a new process to the core asked for, and puts a process at the end of its own core's queue. */
  lemma ReadyIs(k: State, pid: int, core: nat)
    requires Shape(k) && 0 <= pid < 50 && k.proc[pid].state != PRFREE && k.proc[pid].priority <= 2
    requires -1 <= k.proc[pid].affinity < 4 && (k.proc[pid].affinity == -1 ==> core < 4)
    ensures var b := k.proc[pid]; var home := if b.affinity == -1 then core else b.affinity;
            var q := 50 + 3 * home + b.priority;
            && !IsBadPid(k, pid) && ReadyCore(k, pid, core) == home && ReadyInRange(k, pid, core)
            && ReadyBody(k, pid, core)
               == State(k.proc[pid := Pcb(PRREADY, b.priority, home, b.hasMessage, b.msgin, b.msgout, b.stkbase,
                                          b.stklen, b.pc)],
                        k.queues[q := k.queues[q] + [pid]], k.cores, k.numproc, k.nextpid, k.heap)
  {
  }

  /** ready refuses a number that is no process's, and changes nothing. */
  lemma ReadyRefused(k: State, pid: int, core: int)
    requires Shape(k)
    ensures IsBadPid(k, pid) <==> pid < 0 || pid >= 50 || k.proc[pid].state == PRFREE
    ensures IsBadPid(k, pid) ==> ReadyBody(k, pid, core) == k
  {
  }

  /** The calls of ready in a run: the new process is on the core asked for. */
  lemma DoReadyIs(w: nat, k: State, c: nat, pid: int, core: nat)
    requires w >= 3 && Inv(k) && |k.heap.lists| == |k.heap.lens| == 4 && At(k, c, Idle) && core < 4
    requires 0 <= pid < 50 && k.proc[pid].state == PRSUSP
    ensures Enabled(w, k, DoReady(c, pid, core)) && k.proc[pid].priority <= 2
    ensures var b := k.proc[pid]; var q := 50 + 3 * core + b.priority;
            Next(w, k, DoReady(c, pid, core))
            == k.(proc := k.proc[pid := b.(state := PRREADY, affinity := core)],
                  queues := k.queues[q := k.queues[q] + [pid]])
  {
    hide MidInv;
    MidParts(k);
    assert ProcFits(k, pid);
    ReadyIs(k, pid, core);
  }

  /** After a lock is released, the process to be woken goes to its own core's queue, unless it has been killed. */
  lemma DoWakeIs(w: nat, k: State, c: nat, t: nat)
    requires w >= 3 && Inv(k) && |k.heap.lists| == |k.heap.lens| == 4 && At(k, c, Waking(t))
    ensures Enabled(w, k, DoWake(c)) && t < 50
    ensures var me := k.cores[c].currpid; var k1 := k.(proc := k.proc[me := k.proc[me].(pc := Idle)]);
            && t != me && (k.proc[t].state != PRFREE ==> 0 <= k.proc[t].affinity < 4 && k.proc[t].priority <= 2)
            && var b := k.proc[t]; var q := 50 + 3 * b.affinity + b.priority;
               Next(w, k, DoWake(c))
               == if b.state == PRFREE then k1
                  else k1.(proc := k1.proc[t := b.(state := PRREADY)], queues := k.queues[q := k.queues[q] + [t]])
  {
    hide MidInv;
    hide WakeBody;
    MidParts(k);
    var me := k.cores[c].currpid;
    assert k.proc[me].pc.target < NPROC;
    if Owes(k, me) { WakeIs(k, me); } else { WakeStaleIs(k, me); }
  }

  // ----- messages -----

  /** A message goes into the receiver's empty slot; a receiver that waits is to be woken by the caller. */
  function Filled(k: State, me: nat, pid: nat, msg: int): State
    requires Shape(k) && me < 50 && pid < 50
  {
    var procs := k.proc[pid := k.proc[pid].(msgin := msg, hasMessage := true)];
    k.(proc := if k.proc[pid].state == PRRECV then procs[me := procs[me].(pc := Waking(pid))] else procs)
  }

  lemma DoSendIs(w: nat, k: State, c: nat, pid: int, msg: int)
    requires w >= 3 && Shape(k) && |k.heap.lists| == |k.heap.lens| == 4 && c < 4 && At(k, c, Idle)
    requires k.cores[c].currpid >= 4
    ensures Enabled(w, k, DoSend(c, pid, msg))
    ensures var me := k.cores[c].currpid;
            Next(w, k, DoSend(c, pid, msg))
            == if pid < 0 || pid >= 50 || k.proc[pid].state == PRFREE then k
               else if k.proc[pid].hasMessage
               then k.(proc := k.proc[me := k.proc[me].(msgout := msg, state := PRSEND, pc := InSend)],
                       queues := k.queues[pid := k.queues[pid] + [me]])
               else Filled(k, me, pid, msg)
  {
  }

  lemma DoSendNowIs(w: nat, k: State, c: nat, pid: int, msg: int)
    requires w >= 3 && Shape(k) && |k.heap.lists| == |k.heap.lens| == 4 && c < 4 && At(k, c, Idle)
    ensures Enabled(w, k, DoSendNow(c, pid, msg))
    ensures Next(w, k, DoSendNow(c, pid, msg))
            == if pid < 0 || pid >= 50 || k.proc[pid].state == PRFREE || k.proc[pid].hasMessage then k
               else Filled(k, k.cores[c].currpid, pid, msg)
  {
  }

  /** The message is taken: the first sender that waits fills the slot again and is to be woken, or it is empty. */
  function Emptied(k: State, me: nat): State
    requires Shape(k) && me < 50
  {
    if k.queues[me] != [] && 0 <= k.queues[me][0] < 50 && k.queues[me][0] != me then
      var s := k.queues[me][0];
      k.(proc := k.proc[me := k.proc[me].(msgin := k.proc[s].msgout, pc := Waking(s))][s := k.proc[s].(msgout := -2)],
         queues := k.queues[me := k.queues[me][1..]])
    else k.(proc := k.proc[me := k.proc[me].(hasMessage := false, pc := Idle)])
  }

  lemma CollectIs(k: State, p: nat)
    requires Inv(k) && p < NPROC && k.proc[p].state == PRCURR && !k.proc[p].pc.Waking? && k.proc[p].hasMessage
    ensures Shape(k) && Collect(k, p) == Emptied(k, p)
    ensures k.queues[p] != [] ==> 0 <= k.queues[p][0] < 50 && k.queues[p][0] != p
  {
    hide MidInv;
    MidParts(k);
    if k.queues[p] == [] { CollectPlain(k, p); } else { AdmitIs(k, p); }
  }

  lemma DoRecvIs(w: nat, k: State, c: nat)
    requires w >= 3 && Inv(k) && |k.heap.lists| == |k.heap.lens| == 4 && At(k, c, Idle) && k.cores[c].currpid >= 4
    ensures Enabled(w, k, DoRecv(c))
    ensures var me := k.cores[c].currpid;
            Next(w, k, DoRecv(c))
            == if k.proc[me].hasMessage then Emptied(k, me)
               else k.(proc := k.proc[me := k.proc[me].(state := PRRECV, pc := InRecv)])
  {
    hide MidInv;
    hide Collect;
    MidParts(k);
    if k.proc[k.cores[c].currpid].hasMessage { CollectIs(k, k.cores[c].currpid); }
  }

  lemma DoCollectIs(w: nat, k: State, c: nat)
    requires w >= 3 && Inv(k) && |k.heap.lists| == |k.heap.lens| == 4 && At(k, c, InRecv)
    ensures Enabled(w, k, DoCollect(c)) && Next(w, k, DoCollect(c)) == Emptied(k, k.cores[c].currpid)
  {
    hide MidInv;
    hide Collect;
    MidParts(k);
    ResumedHasMessage(k, c);
    CollectIs(k, k.cores[c].currpid);
  }

  lemma DoRecvNowIs(w: nat, k: State, c: nat)
    requires w >= 3 && Shape(k) && |k.heap.lists| == |k.heap.lens| == 4 && c < 4 && At(k, c, Idle)
    ensures Enabled(w, k, DoRecvNow(c))
    ensures var me := k.cores[c].currpid;
            Next(w, k, DoRecvNow(c)) == k.(proc := k.proc[me := k.proc[me].(hasMessage := false)])
  {
  }

  lemma DoReturnIs(w: nat, k: State, c: nat)
    requires w >= 3 && Shape(k) && |k.heap.lists| == |k.heap.lens| == 4 && c < 4 && At(k, c, InSend)
    ensures Enabled(w, k, DoReturn(c))
    ensures var me := k.cores[c].currpid; Next(w, k, DoReturn(c)) == k.(proc := k.proc[me := k.proc[me].(pc := Idle)])
  {
  }

  // ----- create and kill -----

  /** The number that an int of 32 bits holds for a word, and the word it is passed on as. */
  lemma IntIs(w: nat, x: nat)
    requires w >= 32
    ensures -0x8000_0000 <= AsInt(x) < 0x8000_0000 && (x - AsInt(x)) % 0x1_0000_0000 == 0
    ensures AsUlong(w, AsInt(x)) == if AsInt(x) >= 0 then AsInt(x) else Pow2(w) + AsInt(x)
  {
    hide Pow2;
    Pow2Values();
    Pow2Mono(32, w);
    var q, y := x / 0x1_0000_0000, x % 0x1_0000_0000;
    assert x == q * 0x1_0000_0000 + y;
    if y < 0x8000_0000 { Multiple(x - AsInt(x), q); } else { Multiple(x - AsInt(x), q + 1); }
  }

  lemma Multiple(n: int, q: nat)
    requires n == q * 0x1_0000_0000
    ensures n % 0x1_0000_0000 == 0
  {
  }

  /**
    create: with a free block long enough for the stack and a free slot, the next round, that slot
    gets a suspended process of the priority asked for, on no core, without a message, on the
    lowest such block; whatever fails, no entry changes.
  */
  lemma DoCreateIs(w: nat, k: State, c: nat, ssize: nat, priority: nat)
    requires w >= 3 && Shape(k) && |k.heap.lists| == |k.heap.lens| == 4 && c < 4
    ensures var n := StackSize(w, ssize); var (pid, k') := Create(w, k, c, ssize, priority);
            var (a, h) := if n == 0 then (None, k.heap) else Get(k.heap, c, RoundMb(w, n));
            && k'.heap == h && k'.nextpid == NewPid(k, k.nextpid, 50).1 && k'.queues == k.queues && k'.cores == k.cores
            && (pid.Some? <==> a.Some? && NewPid(k, k.nextpid, 50).0.Some?)
            && (pid == None ==> k'.proc == k.proc && k'.numproc == k.numproc)
            && (pid.Some? ==>
                  && pid == NewPid(k, k.nextpid, 50).0 && pid.value < 50 && k'.numproc == k.numproc + 1
                  && k'.proc == k.proc[pid.value := Pcb(PRSUSP, priority, -1, false, -2, -2, a.value, AsInt(n), Idle)])
    ensures var slot := NewPid(k, k.nextpid, 50).0;
            && At(k, c, Idle) && priority <= 2
            && (slot.Some? ==> !Woken(k, slot.value) && !InMessageQueue(k, slot.value)) ==>
              Enabled(w, k, DoCreate(c, ssize, priority))
              && Next(w, k, DoCreate(c, ssize, priority)) == Create(w, k, c, ssize, priority).1
  {
    hide StackSize;
    hide RoundMb;
    hide NewPid;
    NewPidFree(k, k.nextpid, NPROC);
  }

  /** A kill is accepted of every live user process of the calling core, and of no other. */
  lemma KillAccepted(k: State, c: nat, pid: int)
    requires Shape(k)
    ensures !KillRefused(k, c, pid) <==> 4 <= pid < 50 && k.proc[pid].state != PRFREE && k.proc[pid].affinity == c
  {
  }

  /** l without what stands at place i. */
  function Cut(l: seq<int>, i: nat): seq<int>
    requires i < |l|
  {
    l[..i] + l[i + 1..]
  }

  /**
    A kill that is accepted frees the slot, takes a ready process out of its queue, and gives the
    stack back; a process that kills itself then gives up the core.  Nothing else changes.
  */
  lemma DoKillIs(w: nat, k: State, c: nat, pid: int) returns (k1: State)
    requires w >= 3 && Inv(k) && |k.heap.lists| == |k.heap.lens| == 4 && At(k, c, Idle)
    ensures Enabled(w, k, DoKill(c, pid)) && Shape(k) && Shape(k1) && c < 4
    ensures var accepted := 4 <= pid < 50 && k.proc[pid].state != PRFREE && k.proc[pid].affinity == c;
            && (!accepted ==> Next(w, k, DoKill(c, pid)) == k)
            && (accepted ==>
                  && Next(w, k, DoKill(c, pid)) == (if k.proc[pid].state == PRCURR then Resched(k1, c) else k1)
                  && k1.proc == k.proc[pid := k.proc[pid].(state := PRFREE, pc := Idle)]
                  && k1.cores == k.cores && k1.numproc == k.numproc - 1 && k1.nextpid == k.nextpid
                  && (k.proc[pid].state != PRREADY ==> k1.queues == k.queues)
                  && (k.proc[pid].state == PRREADY ==>
                        exists q, i :: 50 <= q < 62 && 0 <= i < |k.queues[q]| && k.queues[q][i] == pid
                                       && k1.queues == k.queues[q := Cut(k.queues[q], i)]))
    ensures 4 <= pid < 50 && 0 < k.proc[pid].stklen && k.proc[pid].stklen + 7 < Pow2(w) && |k.heap.regions| == 4
            && RegionOf(k.heap.regions, k.proc[pid].stkbase) < 4 ==>
              k1.heap == Free(k.heap, k.proc[pid].stkbase, (k.proc[pid].stklen + 7) / 8 * 8).1
  {
    hide MidInv;
    hide Resched;
    hide RoundMb;
    hide Free;
    hide Drop;
    MidParts(k);
    KillAccepted(k, c, pid);
    k1 := if 4 <= pid < 50 then Buried(w, k, pid) else k;
    if 4 <= pid < 50 {
      var b := k.proc[pid];
      if 0 < b.stklen && b.stklen + 7 < Pow2(w) { RoundMbIs(w, b.stklen); }
      if b.state == PRREADY {
        var q, i := ReadyAt(k, pid);
        DropAt(k.queues, q, i);
        assert k1.queues == k.queues[q := Cut(k.queues[q], i)];
      }
    }
  }

  /** Where a ready process stands. */
  lemma ReadyAt(k: State, pid: nat) returns (q: nat, i: nat)
    requires Inv(k) && pid < 50 && k.proc[pid].state == PRREADY
    ensures Shape(k) && Placed(k.queues) && 50 <= q < 62 && i < |k.queues[q]| && k.queues[q][i] == pid
  {
    assert ProcFits(k, pid);
    var l :| 0 <= l < 3 && pid in k.queues[ReadyQ(k.proc[pid].affinity, l)];
    q := ReadyQ(k.proc[pid].affinity, l);
    i :| 0 <= i < |k.queues[q]| && k.queues[q][i] == pid;
  }

  // ----- boot -----

  /** The state after boot, entry by entry. */
  lemma BootIs(rs: seq<Region>, end: nat, ptr: nat)
    ensures var k := Booted(rs, end, ptr);
            && |k.proc| == 50 && |k.queues| == 62 && |k.cores| == 4 && k.numproc == 4 && k.nextpid == 0
            && k.heap == Initial(rs)
            && (forall p :: 0 <= p < 4 ==>
                  k.proc[p] == Pcb(PRCURR, 0, p, false, 0, 0, end + 8192 * ptr * p, 8192, Idle))
            && (forall p :: 4 <= p < 50 ==> k.proc[p] == Pcb(PRFREE, 0, -1, false, 0, 0, 0, 0, Idle))
            && (forall q :: 0 <= q < 62 ==> k.queues[q] == [])
            && (forall c :: 0 <= c < 4 ==> k.cores[c] == Core(c, 3, 3, 3, 0, 0))
  {
    forall p | 0 <= p < 4 ensures p * 8192 * ptr == 8192 * ptr * p { }
  }
}
