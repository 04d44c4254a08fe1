/**
  The system calls as they run: arrays, the linked queue table and the heap updated in place.
  Each method is one section of a call, up to the point where it gives up a lock or the core,
  and carries the machine through the matching step of the state machine.
*/
module Machines {
  import opened Config
  import opened Bits
  import opened Queues
  import opened Types
  import opened Heaps
  import opened Allocator
  import opened K = Kernel
  import opened KernelInv
  import opened KernelLife
  import opened KernelRuns
  import opened Accounts
  import opened Messages

  const OK: int := 1

  /** Every member of a ready queue is a process in use, so enqueue takes it. */
  ghost predicate LiveMembers(proc: seq<Pcb>, qs: seq<seq<int>>) {
    Placed(qs) && forall q, p :: NPROC <= q < |qs| && p in qs[q] ==> InUse(proc, p)
  }

  ghost predicate InUse(proc: seq<Pcb>, p: int) {
    0 <= p < |proc| && proc[p].state != PRFREE
  }

  lemma MidLive(k: State)
    requires MidInv(k)
    ensures LiveMembers(k.proc, k.queues)
  {
    forall q, p | NPROC <= q < NQUEUE && p in k.queues[q] ensures InUse(k.proc, p) {
      assert QueueFits(k, q);
      assert MemberFits(k, q, p);
    }
  }

  lemma MoveLive(proc: seq<Pcb>, qs: seq<seq<int>>, f: nat, t: nat)
    requires LiveMembers(proc, qs) && NPROC <= f < |qs| && NPROC <= t < |qs| && f != t && qs[f] != []
    ensures LiveMembers(proc, MoveHead(qs, f, t)) && InUse(proc, qs[f][0])
    ensures Absent(qs[f := qs[f][1..]], qs[f][0])
    ensures MoveHead(qs, f, t) == qs[f := qs[f][1..]][t := qs[t] + [qs[f][0]]]
  {
    MoveMembers(qs, f, t);
    assert qs[f][0] in qs[f];
    PlacedRemove(qs, f, 0);
    assert Without(qs[f], 0) == qs[f][1..];
  }

  /** What ready asks of its caller: a process in no queue, with a core and a priority to go to. */
  ghost predicate Readiable(k: State, pid: int, core: int) {
    && Shape(k) && 0 <= pid < NPROC && Absent(k.queues, pid) && k.proc[pid].priority <= 2
    && 0 <= ReadyCore(k, pid, core) < NCORES
  }

  lemma WakeReadiable(k: State, me: nat)
    requires Inv(k) && me < NPROC && k.proc[me].state == PRCURR && k.proc[me].pc.Waking?
    ensures var t, k1 := k.proc[me].pc.target, SetProc(k, me, k.proc[me].(pc := Idle));
            && t < NPROC && t != me && (IsBadPid(k1, t) <==> !Owes(k, me))
            && (IsBadPid(k1, t) || (Readiable(k1, t, k.proc[t].affinity) && k.proc[t].affinity >= 0))
  {
    var t := k.proc[me].pc.target;
    assert WakersFit(k);
    assert Woken(k, t) && ProcFits(k, t) && ProcFits(k, me);
    if k.proc[t].state != PRFREE { AbsentUnlessQueued(k, t); }
  }

  lemma SuspReadiable(k: State, pid: int, core: nat)
    requires Inv(k) && 0 <= pid < NPROC && core < NCORES && k.proc[pid].state == PRSUSP
    ensures Readiable(k, pid, core) && Inv(ReadyBody(k, pid, core))
  {
    assert ProcFits(k, pid);
    AbsentUnlessQueued(k, pid);
    ReadyKeeps(k, pid, core);
  }

  /** The three stages of resched may follow one another. */
  lemma ReschedStages(k: State, c: nat)
    requires MayResched(k, c)
    ensures c < NCORES && LiveMembers(k.proc, k.queues) && Shape(k)
    ensures MidInv(K.Age(k, c)) && Shape(K.Age(k, c)) && RunsAtHome(K.Age(k, c), c)
    ensures var kr := K.Requeue(K.Age(k, c), c);
            MidInv(kr) && Shape(kr) && kr.queues[ReadyQ(c, Level(kr, c))] != []
    ensures Inv(K.Resched(k, c))
  {
    hide MidInv;
    hide K.Age;
    hide K.Requeue;
    MidParts(k);
    MidLive(k);
    AgeKeeps(k, c);
    var ka := K.Age(k, c);
    MidParts(ka);
    RequeueKeeps(ka, c);
    MidParts(K.Requeue(ka, c));
    ReschedKeeps(k, c);
  }

  lemma PoolShape(pool: Pool)
    requires pool.Valid()
    ensures |pool.freelist| == |pool.h.regions| == |pool.h.lists| == |pool.h.lens|
  {
  }

  lemma GetRegions(h: Heap, c: nat, n: nat, w: nat)
    requires w >= 3 && c < |h.lists| == |h.lens|
    ensures Get(h, c, RoundMb(w, n)).1.regions == h.regions
  {
  }

  lemma {:induction false} NewPidSame(k: State, k': State, np: nat, n: nat)
    requires Shape(k) && Shape(k') && k'.proc == k.proc
    ensures K.NewPid(k', np, n) == K.NewPid(k, np, n)
    decreases n
  {
    if n > 0 { NewPidSame(k, k', SuccPid(np), n - 1); }
  }

  /** Where a ready process is. */
  lemma ReadyPlace(k: State, pid: nat) returns (q: nat, i: nat)
    requires Inv(k) && pid < NPROC && k.proc[pid].state == PRREADY
    ensures Shape(k) && Placed(k.queues) && q < NQUEUE && i < |k.queues[q]| && k.queues[q][i] == pid
    ensures i > 0 ==> k.queues[q][i - 1] != pid
  {
    assert ProcFits(k, pid);
    var l :| 0 <= l < 3 && pid in k.queues[ReadyQ(k.proc[pid].affinity, l)];
    q := ReadyQ(k.proc[pid].affinity, l);
    i :| 0 <= i < |k.queues[q]| && k.queues[q][i] == pid;
  }

  lemma BackedOwns(w: nat, k: State, p: nat)
    requires Backed(w, k) && UserLive(k, p)
    ensures OwnsStack(w, k, p)
  {
  }

  class Machine {
    const proctab: array<Pcb>
    const cores: array<Core>          // currpid and what clkinit sets up, core by core
    const queuetab: QueueTab
    const pool: Pool
    const msgqueue: seq<nat>          // queue id of each process
    const readylist: seq<seq<nat>>    // queue ids of each core, by priority
    var numproc: int
    var nextpid: nat

    ghost predicate Valid()
      reads this, proctab, cores, queuetab, queuetab.next, queuetab.prev, pool
    {
      && proctab.Length == NPROC && cores.Length == NCORES
      && queuetab.Valid() && |queuetab.lists| == NQUEUE
      && pool.Valid() && |pool.h.regions| == NCORES
      && |msgqueue| == NPROC && (forall p :: 0 <= p < NPROC ==> msgqueue[p] == Qid(p))
      && |readylist| == NCORES && (forall c :: 0 <= c < NCORES ==> ThreeIds(readylist[c], c))
    }

    ghost function View(): State
      reads this, proctab, cores, queuetab, pool
    {
      State(proctab[..], queuetab.lists, cores[..], numproc, nextpid, pool.h)
    }

    // ----- boot -----

    /** sysinit and clkinit; the image ends at end, a pointer has ptr bytes. */
    constructor (w: nat, end: nat, ptr: nat, heapEnd: nat, top: nat)
      requires w >= 3 && 0 < heapEnd && heapEnd + 7 < Pow2(w) && top < Pow2(w)
      requires RoundMb(w, heapEnd) <= TruncMb(w, top)
      ensures pool.w == w && pool.memheap == RoundMb(w, heapEnd) && pool.maxaddr == TruncMb(w, top)
      ensures pool.memheap <= pool.maxaddr
      ensures var share := Share(pool.memheap, pool.maxaddr);
              && View() == Booted(PerCore(pool.memheap, share, NCORES), end, ptr)
              && (share > 0 ==> Valid() && Inv(View()) && Accounted(w, View()))
    {
      hide *;
      var heap := new Pool(w, heapEnd, top);
      var qt := new QueueTab();
      var procs, mq := FillProctab(qt, end, ptr);
      var rl := FillReady(qt);
      var cs := FillCores();
      proctab, cores, queuetab, pool, msgqueue, readylist := procs, cs, qt, heap, mq, rl;
      numproc, nextpid := NCORES, 0;
      new;
      Booting(this, w, end, ptr);
    }

    // ----- resched -----

    /** enqueue(dequeue(from), to) when from is not empty. */
    method Promote(c: nat, from: nat, to: nat)
      requires Valid() && c < NCORES && from < 3 && to < 3 && from != to && LiveMembers(proctab[..], queuetab.lists)
      modifies queuetab`lists, queuetab.next, queuetab.prev
      ensures Valid() && LiveMembers(proctab[..], queuetab.lists)
      ensures queuetab.lists == MoveHead(old(queuetab.lists), ReadyQ(c, from), ReadyQ(c, to))
    {
      hide Refines;
      hide Placed;
      hide Qid;
      hide Spells;
      hide LiveMembers;
      hide IsBadQueue;
      hide HeapInv;
      assert ThreeIds(readylist[c], c);
      ghost var f, t, qs := ReadyQ(c, from), ReadyQ(c, to), queuetab.lists;
      var some := queuetab.NonEmpty(readylist[c][from], f);
      if some {
        MoveLive(proctab[..], qs, f, t);
        QidRoundTrip(f);
        QidRoundTrip(t);
        var p := queuetab.Dequeue(readylist[c][from], f);
        var r := queuetab.Enqueue(p, readylist[c][to], proctab[p].state == PRFREE, t);
      }
    }

    /** The aging half of resched. */
    method Age(c: nat)
      requires Valid() && c < NCORES && LiveMembers(proctab[..], queuetab.lists)
      modifies cores, queuetab`lists, queuetab.next, queuetab.prev
      ensures Valid() && View() == K.Age(old(View()), c)
    {
      hide Refines;
      hide Placed;
      hide Qid;
      hide MoveHead;
      hide Spells;
      ghost var k := View();
      cores[c] := cores[c].(promoteMed := Dec(cores[c].promoteMed));
      if cores[c].promoteMed <= 0 {
        Promote(c, MED, HIGH);
        cores[c] := cores[c].(promoteLow := Dec(cores[c].promoteLow));
        if cores[c].promoteLow <= 0 {
          Promote(c, LOW, MED);
          cores[c] := cores[c].(promoteLow := QUANTUM);
        }
        cores[c] := cores[c].(promoteMed := QUANTUM);
      }
    }

    /** enqueue(p, readylist[c][l]). */
    method EnqueueReady(p: nat, c: nat, l: nat)
      requires Valid() && p < NPROC && c < NCORES && l < 3 && Absent(queuetab.lists, p) && proctab[p].state != PRFREE
      modifies queuetab`lists, queuetab.next, queuetab.prev
      ensures Valid()
      ensures queuetab.lists == old(queuetab.lists)[ReadyQ(c, l) := old(queuetab.lists)[ReadyQ(c, l)] + [p]]
    {
      hide Refines;
      hide Qid;
      hide Spells;
      hide IsBadQueue;
      hide HeapInv;
      assert ThreeIds(readylist[c], c);
      QidRoundTrip(ReadyQ(c, l));
      var r := queuetab.Enqueue(p, readylist[c][l], proctab[p].state == PRFREE, ReadyQ(c, l));
    }

    /** The current process goes to the end of its own ready queue if it is still runnable. */
    method Requeue(c: nat)
      requires Valid() && MidInv(View()) && c < NCORES && RunsAtHome(View(), c)
      modifies proctab, queuetab`lists, queuetab.next, queuetab.prev
      ensures Valid() && View() == K.Requeue(old(View()), c)
    {
      hide Refines;
      hide Qid;
      hide Spells;
      hide HeapInv;
      hide MidInv;
      ghost var k := View();
      MidParts(k);
      assert CountersFit(k, c);
      var p := cores[c].currpid;
      assert ProcFits(k, p);
      if proctab[p].state == PRCURR {
        AbsentUnlessQueued(k, p);
        proctab[p] := proctab[p].(state := PRREADY);
        EnqueueReady(p, c, proctab[p].priority);
      }
    }

    /** The highest of the three queues of a core that is not empty, or the lowest. */
    method Highest(c: nat) returns (l: nat)
      requires Valid() && c < NCORES
      ensures l == Level(View(), c)
    {
      hide Refines;
      hide Qid;
      hide Spells;
      hide HeapInv;
      assert ThreeIds(readylist[c], c);
      var high := queuetab.NonEmpty(readylist[c][HIGH], ReadyQ(c, HIGH));
      if high {
        return HIGH;
      }
      var med := queuetab.NonEmpty(readylist[c][MED], ReadyQ(c, MED));
      return if med then MED else LOW;
    }

    /** The first process of the highest queue that is not empty becomes current. */
    method Dispatch(c: nat)
      requires Valid() && MidInv(View()) && c < NCORES && View().queues[ReadyQ(c, Level(View(), c))] != []
      modifies proctab, cores, queuetab`lists, queuetab.next, queuetab.prev
      ensures Valid() && View() == Pick(old(View()), c)
    {
      hide Refines;
      hide Qid;
      hide Spells;
      hide HeapInv;
      hide IsBadQueue;
      hide MidInv;
      hide Pick;
      hide Level;
      hide Placed;
      ghost var k := View();
      MidParts(k);
      PickMembers(k, c);
      assert ThreeIds(readylist[c], c);
      var highest := Highest(c);
      QidRoundTrip(ReadyQ(c, highest));
      var p := queuetab.Dequeue(readylist[c][highest], ReadyQ(c, highest));
      cores[c] := cores[c].(currpid := p);
      proctab[p] := proctab[p].(state := PRCURR);
      cores[c] := cores[c].(preempt := QUANTUM);
      assert proctab[..] == k.proc[p := k.proc[p].(state := PRCURR)];
    }

    method Resched(c: nat)
      requires Valid() && MayResched(View(), c)
      modifies proctab, cores, queuetab`lists, queuetab.next, queuetab.prev
      ensures Valid() && View() == K.Resched(old(View()), c) && Inv(View())
    {
      hide MidInv;
      hide Refines;
      hide Qid;
      hide Spells;
      hide HeapInv;
      hide LiveMembers;
      hide RunsAtHome;
      hide K.Age;
      hide K.Requeue;
      hide Pick;
      ghost var k := View();
      ReschedStages(k, c);
      Age(c);
      Requeue(c);
      Dispatch(c);
    }

    method ClkHandler(c: nat)
      requires Valid() && Inv(View()) && c < NCORES
      modifies proctab, cores, queuetab`lists, queuetab.next, queuetab.prev
      ensures Valid() && View() == Tick(old(View()), c) && Inv(View())
    {
      hide Refines;
      hide Qid;
      hide Spells;
      hide HeapInv;
      hide MidInv;
      hide K.Resched;
      ghost var k := View();
      MidParts(k);
      TickKeeps(k, c);
      TickMayResched(k, c);
      cores[c] := cores[c].(clkticks := cores[c].clkticks + 1);
      if cores[c].clkticks == CLKTICKS_PER_SEC {
        cores[c] := cores[c].(clktime := cores[c].clktime + 1);
        cores[c] := cores[c].(clkticks := 0);
      }
      cores[c] := cores[c].(preempt := Dec(cores[c].preempt));
      assert View() == k.(cores := k.cores[c := Ticked(k.cores[c])]);
      if cores[c].preempt <= 0 {
        Resched(c);
      }
    }

    // ----- ready and the four message calls -----

    /** ready, without the call of resched at its end. */
    method Enlist(pid: int, core: int) returns (r: int)
      requires Valid() && (IsBadPid(View(), pid) || Readiable(View(), pid, core))
      modifies proctab, queuetab`lists, queuetab.next, queuetab.prev
      ensures Valid() && View() == ReadyBody(old(View()), pid, core)
      ensures r == if IsBadPid(old(View()), pid) then -1 else 1
      ensures r == OK ==> proctab[pid].affinity == ReadyCore(old(View()), pid, core)
    {
      hide Refines;
      hide Qid;
      hide Spells;
      hide HeapInv;
      if pid < 0 || pid >= NPROC || proctab[pid].state == PRFREE {
        return SYSERR;
      }
      proctab[pid] := proctab[pid].(state := PRREADY);
      if proctab[pid].affinity == -1 {
        proctab[pid] := proctab[pid].(affinity := core);
      }
      EnqueueReady(pid, proctab[pid].affinity, proctab[pid].priority);
      return OK;
    }

    /** ready by core c: with resch the core gives way if the process is its own. */
    method Ready(c: nat, pid: int, resch: bool, core: int) returns (r: int)
      requires Valid() && (IsBadPid(View(), pid) || Readiable(View(), pid, core))
      requires resch && !IsBadPid(View(), pid) && ReadyCore(View(), pid, core) == c ==>
                 MayResched(ReadyBody(View(), pid, core), c)
      modifies proctab, cores, queuetab`lists, queuetab.next, queuetab.prev
      ensures Valid() && r == if IsBadPid(old(View()), pid) then -1 else 1
      ensures var k := old(View());
              View() == if resch && r == OK && ReadyCore(k, pid, core) == c then K.Resched(ReadyBody(k, pid, core), c)
                        else ReadyBody(k, pid, core)
    {
      hide Refines;
      hide Qid;
      hide Spells;
      hide HeapInv;
      hide MayResched;
      hide ReadyBody;
      hide K.Resched;
      r := Enlist(pid, core);
      if r == OK && resch && c == proctab[pid].affinity {
        Resched(c);
      }
    }

    /** What send does under the receiver's lock. */
    method Send(c: nat, pid: int, msg: int) returns (r: int)
      requires Valid() && Inv(View()) && Enabled(pool.w, View(), DoSend(c, pid, msg))
      modifies proctab, queuetab`lists, queuetab.next, queuetab.prev
      ensures Valid() && View() == Next(pool.w, old(View()), DoSend(c, pid, msg))
      ensures r == if IsBadPid(old(View()), pid) then -1 else 1
    {
      hide Refines;
      hide Qid;
      hide Spells;
      hide HeapInv;
      hide MidInv;
      hide IsBadQueue;
      ghost var k := View();
      MidParts(k);
      if pid < 0 || pid >= NPROC || proctab[pid].state == PRFREE {
        return SYSERR;
      }
      var me := cores[c].currpid;
      if proctab[pid].hasMessage {
        AbsentUnlessQueued(k, me);
        QidRoundTrip(pid);
        proctab[me] := proctab[me].(msgout := msg, state := PRSEND, pc := InSend);
        var e := queuetab.Enqueue(me, msgqueue[pid], proctab[me].state == PRFREE, pid);
      } else {
        Deposit(me, pid, msg);
      }
      return OK;
    }

    /** A message goes into an empty slot; the caller is to wake the receiver if it waits. */
    method Deposit(me: nat, pid: nat, msg: int)
      requires Valid() && me < NPROC && pid < NPROC
      modifies proctab
      ensures Valid() && View() == K.Deposit(old(View()), me, pid, msg)
    {
      hide Refines;
      hide Qid;
      hide Spells;
      hide HeapInv;
      proctab[pid] := proctab[pid].(msgin := msg);
      proctab[pid] := proctab[pid].(hasMessage := true);
      if proctab[pid].state == PRRECV {
        proctab[me] := proctab[me].(pc := Waking(pid));
      }
    }

    method SendNow(c: nat, pid: int, msg: int) returns (r: int)
      requires Valid() && Inv(View()) && Enabled(pool.w, View(), DoSendNow(c, pid, msg))
      modifies proctab
      ensures Valid() && View() == Next(pool.w, old(View()), DoSendNow(c, pid, msg))
      ensures r == if IsBadPid(old(View()), pid) || old(View()).proc[pid].hasMessage then -1 else 1
    {
      hide Refines;
      hide Qid;
      hide Spells;
      hide HeapInv;
      hide MidInv;
      if pid < 0 || pid >= NPROC || proctab[pid].state == PRFREE || proctab[pid].hasMessage {
        return SYSERR;
      }
      Deposit(cores[c].currpid, pid, msg);
      return OK;
    }

    /** recv up to its first release of the lock: the message, or nothing yet. */
    method Recv(c: nat) returns (m: Option<int>)
      requires Valid() && Inv(View()) && Enabled(pool.w, View(), DoRecv(c))
      modifies proctab, queuetab`lists, queuetab.next, queuetab.prev
      ensures Valid() && View() == Next(pool.w, old(View()), DoRecv(c))
      ensures Received(pool.w, old(View()), DoRecv(c), old(cores[c].currpid)) == if m.Some? then [m.value] else []
    {
      hide Refines;
      hide Qid;
      hide Spells;
      hide HeapInv;
      hide MidInv;
      hide K.Collect;
      var me := cores[c].currpid;
      if !proctab[me].hasMessage {
        proctab[me] := proctab[me].(state := PRRECV, pc := InRecv);
        return None;
      }
      var msg := Take(me);
      return Some(msg);
    }

    /** recv from where resched returned. */
    method Collect(c: nat) returns (msg: int)
      requires Valid() && Inv(View()) && Enabled(pool.w, View(), DoCollect(c))
      modifies proctab, queuetab`lists, queuetab.next, queuetab.prev
      ensures Valid() && View() == Next(pool.w, old(View()), DoCollect(c))
      ensures Received(pool.w, old(View()), DoCollect(c), old(cores[c].currpid)) == [msg]
    {
      hide Refines;
      hide Qid;
      hide Spells;
      hide HeapInv;
      hide MidInv;
      hide K.Collect;
      ResumedHasMessage(View(), c);
      msg := Take(cores[c].currpid);
    }

    /** The message is taken and the first waiting sender's takes its place. */
    method Take(me: nat) returns (msg: int)
      requires Valid() && Inv(View()) && me < NPROC && View().proc[me].state == PRCURR
      requires !View().proc[me].pc.Waking? && View().proc[me].hasMessage
      modifies proctab, queuetab`lists, queuetab.next, queuetab.prev
      ensures Valid() && View() == K.Collect(old(View()), me) && msg == old(proctab[me].msgin)
    {
      hide Refines;
      hide Qid;
      hide Spells;
      hide HeapInv;
      hide MidInv;
      hide IsBadQueue;
      hide Placed;
      hide K.Collect;
      ghost var k := View();
      MidParts(k);
      QidRoundTrip(me);
      msg := proctab[me].msgin;
      var waiting := queuetab.NonEmpty(msgqueue[me], me);
      if waiting {
        AdmitIs(k, me);
        var sender := queuetab.Dequeue(msgqueue[me], me);
        proctab[me] := proctab[me].(msgin := proctab[sender].msgout, pc := Waking(sender));
        proctab[sender] := proctab[sender].(msgout := EMPTY);
        assert View() == K.Collect(k, me);
      } else {
        CollectPlain(k, me);
        proctab[me] := proctab[me].(hasMessage := false, pc := Idle);
      }
    }

    method RecvNow(c: nat) returns (m: Option<int>)
      requires Valid() && Inv(View()) && Enabled(pool.w, View(), DoRecvNow(c))
      modifies proctab
      ensures Valid() && View() == Next(pool.w, old(View()), DoRecvNow(c))
      ensures Received(pool.w, old(View()), DoRecvNow(c), old(cores[c].currpid)) == if m.Some? then [m.value] else []
    {
      hide Refines;
      hide Qid;
      hide Spells;
      hide HeapInv;
      hide MidInv;
      ghost var k := View();
      var me := cores[c].currpid;
      if !proctab[me].hasMessage {
        assert View() == SetProc(k, me, k.proc[me].(hasMessage := false));
        return None;
      }
      var msg := proctab[me].msgin;
      proctab[me] := proctab[me].(hasMessage := false);
      return Some(msg);
    }

    /** The call of ready that follows a release of the lock: send asks it to resched, sendnow and recv do not. */
    method Wake(c: nat, resch: bool)
      requires Valid() && Inv(View()) && Enabled(pool.w, View(), DoWake(c))
      modifies proctab, cores, queuetab`lists, queuetab.next, queuetab.prev
      ensures Valid()
      ensures var k, k' := old(View()), Next(pool.w, old(View()), DoWake(c));
              var me := k.cores[c].currpid;
              var mine := Owes(k, me) && k.proc[k.proc[me].pc.target].affinity == c;
              View() == if resch && mine then K.Resched(k', c) else k'
    {
      hide Refines;
      hide Qid;
      hide Spells;
      hide HeapInv;
      hide MidInv;
      hide ReadyBody;
      hide K.Resched;
      hide MayResched;
      ghost var k := View();
      MidParts(k);
      var me := cores[c].currpid;
      var t := proctab[me].pc.target;
      WakeReadiable(k, me);
      WakeKeeps(k, me);
      InvMayResched(WakeBody(k, me), c);
      proctab[me] := proctab[me].(pc := Idle);
      var r := Ready(c, t, resch, proctab[t].affinity);
    }

    // ----- create and kill -----

    /** A free slot, the next one round from nextpid. */
    method NewPid() returns (r: Option<nat>)
      requires Valid()
      modifies this`nextpid
      ensures Valid() && View() == old(View()).(nextpid := nextpid)
      ensures (r, nextpid) == K.NewPid(old(View()), old(nextpid), NPROC)
    {
      hide Refines;
      hide Qid;
      hide Spells;
      hide HeapInv;
      ghost var k := View();
      var pid := 0;
      while pid < NPROC
        invariant pid <= NPROC && Valid() && View() == k.(nextpid := nextpid)
        invariant K.NewPid(k, k.nextpid, NPROC) == K.NewPid(k, nextpid, NPROC - pid)
      {
        nextpid := if nextpid + 1 >= NPROC then 0 else nextpid + 1;
        if proctab[nextpid].state == PRFREE {
          return Some(nextpid);
        }
        pid := pid + 1;
      }
      return None;
    }

    method Create(c: nat, ssize: nat, priority: nat) returns (r: Option<nat>)
      requires Valid() && Inv(View()) && pool.w >= 32 && c < NCORES
      modifies this, proctab, pool
      ensures Valid() && (r, View()) == K.Create(pool.w, old(View()), c, ssize, priority)
    {
      hide Refines;
      hide Qid;
      hide Spells;
      hide HeapInv;
      hide MidInv;
      hide K.NewPid;
      hide And;
      hide Get;
      ghost var k := View();
      MidParts(k);
      var len := if ssize < MINSTK then MINSTK else ssize;
      len := And((len + 3) % Pow2(pool.w), 0xFFFF_FFFC);
      assert len == StackSize(pool.w, ssize);
      PoolShape(pool);
      GetRegions(k.heap, c, len, pool.w);
      NewPidFree(k, k.nextpid, NPROC);
      StackInWord(pool.w, ssize);
      var saddr := pool.GetMem(c, len);
      NewPidSame(k, View(), k.nextpid, NPROC);
      var pid := NewPid();
      if saddr == None || pid == None {
        return None;
      }
      numproc := numproc + 1;
      proctab[pid.value] := NewPcb(priority, saddr.value, len);
      return pid;
    }

    /** kill, whatever its target. */
    method Kill(c: nat, pid: int) returns (r: int)
      requires Valid() && Inv(View()) && Backed(pool.w, View()) && At(View(), c, Idle)
      modifies this`numproc, proctab, cores, pool, queuetab`lists, queuetab.next, queuetab.prev
      ensures Valid() && View() == K.Kill(pool.w, old(View()), c, pid) && Backed(pool.w, View())
      ensures r == if KillRefused(old(View()), c, pid) then -1 else 1
    {
      hide Refines;
      hide Qid;
      hide Spells;
      hide HeapInv;
      hide MidInv;
      hide Backed;
      hide K.Resched;
      hide Drop;
      hide MayResched;
      hide FreeStack;
      hide RoundMb;
      hide Placed;
      ghost var k, w := View(), pool.w;
      MidParts(k);
      KillBacked(w, k, c, pid);
      if pid < 0 || pid >= NPROC || proctab[pid].state == PRFREE || pid == 0 || pid == 1 || pid == 2 || pid == 3
        || proctab[pid].affinity != c
      {
        return SYSERR;
      }
      BackedOwns(w, k, pid);
      numproc := numproc - 1;
      FreeStackOf(pid);
      if proctab[pid].state == PRCURR {
        BuriedFits(w, k, c, pid);
        proctab[pid] := proctab[pid].(state := PRFREE, pc := Idle);
        assert View() == Buried(w, k, pid);
        Resched(c);
        return OK;
      }
      if proctab[pid].state == PRREADY {
        RemoveReady(pid, k);
      }
      proctab[pid] := proctab[pid].(state := PRFREE, pc := Idle);
      return OK;
    }

    /** freemem of the stack of a process: that block and no other is free again. */
    method FreeStackOf(pid: nat)
      requires Valid() && NCORES <= pid < NPROC && proctab[pid].state != PRFREE
      requires OwnsStack(pool.w, View(), pid)
      modifies pool
      ensures Valid() && pool.h == FreeStack(pool.w, old(pool.h), proctab[pid].stkbase, proctab[pid].stklen)
      ensures pool.h.alloc == old(pool.h.alloc) - {StackOf(pool.w, proctab[pid])}
    {
      hide Refines;
      hide Qid;
      hide Spells;
      hide HeapInv;
      hide RoundMb;
      ghost var b := StackOf(pool.w, proctab[pid]);
      PoolShape(pool);
      AllocPlace(pool.h, b, pool.memheap, pool.maxaddr);
      FreeKeeps(pool.h, b);
      Rounded(pool.w, AsUlong(pool.w, proctab[pid].stklen));
      var ok := pool.FreeMem(proctab[pid].stkbase, AsUlong(pool.w, proctab[pid].stklen));
    }

    /** remove(pid) on a ready process. */
    method RemoveReady(pid: nat, ghost k: State)
      requires Valid() && Inv(k) && pid < NPROC && k.proc[pid].state == PRREADY && queuetab.lists == k.queues
      requires proctab[pid].state != PRFREE
      modifies queuetab`lists, queuetab.next, queuetab.prev
      ensures Valid() && queuetab.lists == Drop(old(queuetab.lists), pid)
    {
      hide Refines;
      hide Qid;
      hide Spells;
      hide HeapInv;
      hide MidInv;
      hide Drop;
      ghost var q, i := ReadyPlace(k, pid);
      WalkBack(queuetab.next[..], queuetab.prev[..], queuetab.lists, q);
      DropAt(k.queues, q, i);
      var r := queuetab.Remove(pid, proctab[pid].state == PRFREE, q, i);
    }

    // ----- all of it -----

    /** Whatever the next step is, running its code carries the machine through it. */
    method Step(s: Step)
      requires Valid() && pool.w >= 32 && Inv(View()) && Backed(pool.w, View())
      requires Enabled(pool.w, View(), s)
      modifies this, proctab, cores, pool, queuetab`lists, queuetab.next, queuetab.prev
      ensures Valid() && View() == Next(pool.w, old(View()), s) && Inv(View())
      ensures old(NoMislay(pool.w, View(), s)) ==> Backed(pool.w, View())
      ensures old(NoMislay(pool.w, View(), s) && Accounted(pool.w, View()) && NoLeak(pool.w, View(), s)) ==>
                Accounted(pool.w, View())
    {
      hide Refines;
      hide Qid;
      hide Spells;
      hide HeapInv;
      hide Inv;
      hide MidInv;
      hide Backed;
      hide AllOwned;
      hide Mislays;
      hide Leaks;
      hide K.Resched;
      hide Tick;
      hide SendBody;
      hide SendNowBody;
      hide RecvBody;
      hide K.Collect;
      hide WakeBody;
      hide ReadyBody;
      hide K.Create;
      hide K.Kill;
      ghost var k := View();
      StepKeeps(pool.w, k, s);
      if NoMislay(pool.w, k, s) { StepBacked(pool.w, k, s); }
      match s {
        case DoResched(c) => InvMayResched(k, c); Resched(c);
        case DoTick(c) => ClkHandler(c);
        case DoSend(c, pid, msg) => var r := Send(c, pid, msg);
        case DoSendNow(c, pid, msg) => var r := SendNow(c, pid, msg);
        case DoRecv(c) => var m := Recv(c);
        case DoCollect(c) => var m := Collect(c);
        case DoRecvNow(c) => var m := RecvNow(c);
        case DoReturn(c) => proctab[cores[c].currpid] := proctab[cores[c].currpid].(pc := Idle);
        case DoWake(c) => Wake(c, false);
        case DoReady(c, pid, core) => SuspReadiable(k, pid, core); var r := Ready(c, pid, false, core);
        case DoCreate(c, ssize, priority) => var r := Create(c, ssize, priority);
        case DoKill(c, pid) => var r := Kill(c, pid);
      }
    }
  }

  ghost predicate AllEmpty(lists: seq<seq<int>>, n: nat) {
    |lists| == n && forall q :: 0 <= q < n ==> lists[q] == []
  }

  /** The loop of sysinit over the process table, and the four null processes. */
  method FillProctab(qt: QueueTab, end: nat, ptr: nat) returns (procs: array<Pcb>, mq: seq<nat>)
    requires qt.Valid() && qt.lists == []
    modifies qt, qt.next, qt.prev
    ensures qt.Valid() && AllEmpty(qt.lists, NPROC) && fresh(procs) && procs.Length == NPROC
    ensures |mq| == NPROC && forall p :: 0 <= p < NPROC ==> mq[p] == Qid(p)
    ensures forall p :: 0 <= p < NPROC ==> procs[p] == BootPcb(end, ptr, p)
  {
    hide Refines;
    hide Qid;
    procs := new Pcb[NPROC](_ => Pcb(PRFREE, LOW, 0, false, 0, 0, 0, 0, Idle));
    mq := [];
    var i := 0;
    while i < NPROC
      invariant i <= NPROC && |mq| == i && qt.Valid() && AllEmpty(qt.lists, i)
      invariant forall p :: 0 <= p < i ==> mq[p] == Qid(p)
      invariant forall p :: 0 <= p < i ==> procs[p] == FreePcb()
      invariant forall p :: i <= p < NPROC ==> procs[p] == Pcb(PRFREE, LOW, 0, false, 0, 0, 0, 0, Idle)
    {
      procs[i] := procs[i].(state := PRFREE, affinity := -1);
      var q := qt.NewQueue();
      mq := mq + [q];
      i := i + 1;
    }
    procs[0], procs[1] := NullPcb(end, ptr, 0), NullPcb(end, ptr, 1);
    procs[2], procs[3] := NullPcb(end, ptr, 2), NullPcb(end, ptr, 3);
  }

  /** The loops of sysinit over the ready lists. */
  method FillReady(qt: QueueTab) returns (rl: seq<seq<nat>>)
    requires qt.Valid() && AllEmpty(qt.lists, NPROC)
    modifies qt, qt.next, qt.prev
    ensures qt.Valid() && AllEmpty(qt.lists, NQUEUE)
    ensures |rl| == NCORES && forall c :: 0 <= c < NCORES ==> ThreeIds(rl[c], c)
  {
    hide Refines;
    hide Qid;
    rl := [];
    var i := 0;
    while i < NCORES
      invariant i <= NCORES && |rl| == i && qt.Valid() && AllEmpty(qt.lists, NPROC + 3 * i)
      invariant forall c :: 0 <= c < i ==> ThreeIds(rl[c], c)
    {
      var q0 := qt.NewQueue();
      var q1 := qt.NewQueue();
      var q2 := qt.NewQueue();
      rl := rl + [[q0, q1, q2]];
      i := i + 1;
    }
  }

  ghost predicate ThreeIds(ids: seq<nat>, c: nat) {
    |ids| == 3 && forall l :: 0 <= l < 3 ==> ids[l] == Qid(ReadyQ(c, l))
  }

  /** currpid of the null processes, and the three loops of clkinit. */
  method FillCores() returns (cs: array<Core>)
    ensures fresh(cs) && cs.Length == NCORES
    ensures forall c :: 0 <= c < NCORES ==> cs[c] == BootCore(c)
  {
    cs := new Core[NCORES](c requires 0 <= c < NCORES => Core(c, 0, 0, 0, 0, 0));
    for i := 0 to NCORES
      invariant forall c :: 0 <= c < NCORES ==> cs[c] == Core(c, 0, 0, if c < i then QUANTUM else 0, 0, 0)
    {
      cs[i] := cs[i].(preempt := QUANTUM);
    }
    for i := 0 to NCORES
      invariant forall c :: 0 <= c < NCORES ==>
                  var q := if c < i then QUANTUM else 0; cs[c] == Core(c, q, q, QUANTUM, 0, 0)
    {
      cs[i] := cs[i].(promoteMed := QUANTUM);
      cs[i] := cs[i].(promoteLow := QUANTUM);
    }
    for i := 0 to NCORES
      invariant forall c :: 0 <= c < NCORES ==> cs[c] == BootCore(c)
    {
      cs[i] := cs[i].(clkticks := 0, clktime := 0);
    }
  }

  lemma BootedIs(k: State, rs: seq<Region>, end: nat, ptr: nat)
    requires Shape(k) && AllEmpty(k.queues, NQUEUE) && k.heap == Initial(rs) && k.numproc == NCORES && k.nextpid == 0
    requires forall p :: 0 <= p < NPROC ==> k.proc[p] == BootPcb(end, ptr, p)
    requires forall c :: 0 <= c < NCORES ==> k.cores[c] == BootCore(c)
    ensures k == Booted(rs, end, ptr)
  {
    var b := Booted(rs, end, ptr);
    assert k.proc == b.proc;
    assert k.queues == b.queues;
    assert k.cores == b.cores;
  }

  /** What the parts make up once they are put together. */
  lemma Booting(m: Machine, w: nat, end: nat, ptr: nat)
    requires m.proctab.Length == NPROC && m.cores.Length == NCORES && m.numproc == NCORES && m.nextpid == 0
    requires m.queuetab.Valid() && AllEmpty(m.queuetab.lists, NQUEUE) && |m.pool.freelist| == NCORES
    requires |m.msgqueue| == NPROC && forall p :: 0 <= p < NPROC ==> m.msgqueue[p] == Qid(p)
    requires |m.readylist| == NCORES && forall c :: 0 <= c < NCORES ==> ThreeIds(m.readylist[c], c)
    requires forall p :: 0 <= p < NPROC ==> m.proctab[p] == BootPcb(end, ptr, p)
    requires forall c :: 0 <= c < NCORES ==> m.cores[c] == BootCore(c)
    requires m.pool.memheap <= m.pool.maxaddr && m.pool.w == w
    requires Share(m.pool.memheap, m.pool.maxaddr) > 0 ==> m.pool.Valid()
    requires m.pool.h == Initial(PerCore(m.pool.memheap, Share(m.pool.memheap, m.pool.maxaddr), NCORES))
    ensures var share := Share(m.pool.memheap, m.pool.maxaddr);
            && m.View() == Booted(PerCore(m.pool.memheap, share, NCORES), end, ptr)
            && (share > 0 ==> m.Valid() && Inv(m.View()) && Accounted(w, m.View()))
  {
    hide Refines;
    hide Spells;
    hide Qid;
    hide PerCore;
    hide Inv;
    hide Accounted;
    hide Share;
    hide BootPcb;
    hide BootCore;
    var rs := PerCore(m.pool.memheap, Share(m.pool.memheap, m.pool.maxaddr), NCORES);
    BootedIs(m.View(), rs, end, ptr);
    BootedInv(rs, end, ptr);
    if Share(m.pool.memheap, m.pool.maxaddr) > 0 {
      PoolShape(m.pool);
      BootedAccounted(w, rs, end, ptr);
    }
  }
}
