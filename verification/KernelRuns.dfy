/** What holds in every state of every run of the kernel, from boot on, however the cores interleave. */
module KernelRuns {
  import opened Config
  import opened Types
  import opened Heaps
  import opened Kernel
  import opened KernelInv
  import opened KernelLife

  lemma BootedInv(rs: seq<Region>, end: nat, ptr: nat)
    ensures Inv(Booted(rs, end, ptr))
  {
    var k := Booted(rs, end, ptr);
    forall p | 0 <= p < NPROC ensures k.proc[p].pc == Idle { assert k.proc[p] == BootPcb(end, ptr, p); }
    forall p | 0 <= p < NPROC ensures ProcFits(k, p) {
      assert k.proc[p] == BootPcb(end, ptr, p);
      if p < NCORES { assert k.cores[p] == BootCore(p); }
    }
    forall q | 0 <= q < NQUEUE ensures QueueFits(k, q) { }
    forall c | 0 <= c < NCORES ensures CurrentFits(k, c) && CountersFit(k, c) {
      assert k.cores[c] == BootCore(c) && k.proc[c] == BootPcb(end, ptr, c);
    }
  }

  lemma SendKeeps(k: State, p: nat, pid: int, msg: int)
    requires Inv(k) && NCORES <= p < NPROC && k.proc[p].state == PRCURR && k.proc[p].pc == Idle
    ensures Inv(SendBody(k, p, pid, msg))
  {
    hide MidInv;
    MidParts(k);
    if !IsBadPid(k, pid) {
      if k.proc[pid].hasMessage { SendBlockKeeps(k, p, pid, msg); } else { DepositKeeps(k, p, pid, msg); }
    }
  }

  lemma SendNowKeeps(k: State, p: nat, pid: int, msg: int)
    requires Inv(k) && p < NPROC && k.proc[p].state == PRCURR && k.proc[p].pc == Idle
    ensures Inv(SendNowBody(k, p, pid, msg))
  {
    hide MidInv;
    MidParts(k);
    if !IsBadPid(k, pid) && !k.proc[pid].hasMessage { DepositKeeps(k, p, pid, msg); }
  }

  lemma CollectKeeps(k: State, p: nat)
    requires Inv(k) && p < NPROC && k.proc[p].state == PRCURR && !k.proc[p].pc.Waking? && k.proc[p].hasMessage
    ensures Inv(Collect(k, p))
  {
    hide MidInv;
    MidParts(k);
    if k.queues[p] == [] { CollectEmptyKeeps(k, p); } else { CollectAdmitKeeps(k, p); }
  }

  lemma RecvKeeps(k: State, p: nat)
    requires Inv(k) && NCORES <= p < NPROC && k.proc[p].state == PRCURR && k.proc[p].pc == Idle
    ensures Inv(RecvBody(k, p))
  {
    hide MidInv;
    hide Collect;
    MidParts(k);
    if k.proc[p].hasMessage { CollectKeeps(k, p); } else { RecvBlockKeeps(k, p); }
  }

  /** A process that comes back from the resched inside recv finds a message. */
  lemma ResumedHasMessage(k: State, c: nat)
    requires Inv(k) && At(k, c, InRecv)
    ensures k.proc[k.cores[c].currpid].hasMessage
  {
    assert ProcFits(k, k.cores[c].currpid);
  }

  lemma StepKeeps(w: nat, k: State, s: Step)
    requires Inv(k) && Enabled(w, k, s)
    ensures Inv(Next(w, k, s))
  {
    hide Inv;
    hide Resched;
    hide Tick;
    hide SendBody;
    hide SendNowBody;
    hide RecvBody;
    hide Collect;
    hide WakeBody;
    hide ReadyBody;
    hide Create;
    hide Kill;
    var p := k.cores[s.c].currpid;
    match s {
      case DoResched(c) => InvMayResched(k, c); ReschedKeeps(k, c);
      case DoTick(c) => TickKeeps(k, c);
      case DoSend(c, pid, msg) => SendKeeps(k, p, pid, msg);
      case DoSendNow(c, pid, msg) => SendNowKeeps(k, p, pid, msg);
      case DoRecv(c) => RecvKeeps(k, p);
      case DoCollect(c) => ResumedHasMessage(k, c); CollectKeeps(k, p);
      case DoRecvNow(c) => EntryKeeps(k, p, k.proc[p].(hasMessage := false));
      case DoReturn(c) => EntryKeeps(k, p, k.proc[p].(pc := Idle));
      case DoWake(c) => WakeKeeps(k, p);
      case DoReady(c, pid, core) => ReadyKeeps(k, pid, core);
      case DoCreate(c, ssize, priority) => CreateKeeps(w, k, c, ssize, priority);
      case DoKill(c, pid) => KillKeeps(w, k, c, pid);
    }
  }

  /** The invariant holds all along every run. */
  lemma {:induction false} RunKeeps(w: nat, ks: seq<State>, steps: seq<Step>, i: nat)
    requires Run(w, ks, steps) && Inv(ks[0]) && i < |ks|
    ensures Inv(ks[i])
  {
    hide Inv;
    hide Enabled;
    hide Next;
    if i > 0 {
      RunKeeps(w, ks, steps, i - 1);
      StepKeeps(w, ks[i - 1], steps[i - 1]);
    }
  }

  /**
    A core can schedule: its null process is current or in one of its three ready queues, its
    counters are in range so that no decrement wraps, and resched finds a process of that core.
  */
  ghost predicate Schedules(k: State, c: nat)
    requires Shape(k) && c < NCORES
  {
    && 1 <= k.cores[c].promoteMed <= QUANTUM && 1 <= k.cores[c].promoteLow <= QUANTUM
    && 1 <= k.cores[c].preempt <= QUANTUM
    && (k.cores[c].currpid == c || exists l :: 0 <= l < 3 && c in k.queues[ReadyQ(c, l)])
    && (var k1 := Requeue(Age(k, c), c); Shape(k1) && k1.queues[ReadyQ(c, Level(k1, c))] != [])
    && (var k' := Resched(k, c); Inv(k') && k'.proc[k'.cores[c].currpid].state == PRCURR)
  }

  lemma AlwaysSchedules(w: nat, ks: seq<State>, steps: seq<Step>, i: nat, c: nat)
    requires Run(w, ks, steps) && Inv(ks[0]) && i < |ks| && c < NCORES
    ensures Shape(ks[i]) && Schedules(ks[i], c)
  {
    hide Enabled;
    hide Next;
    hide MidInv;
    hide Age;
    hide Requeue;
    hide Pick;
    var k := ks[i];
    RunKeeps(w, ks, steps, i);
    MidParts(k);
    assert CountersFit(k, c) && CurrentFits(k, c) && ProcFits(k, c);
    InvMayResched(k, c);
    ReschedKeeps(k, c);
  }

  /**
    resched dispatches the first process of the highest level that has one, counting the process
    that was current, which queues behind the others of its own priority.
  */
  lemma DispatchesHighest(k: State, c: nat) returns (l: nat)
    requires MayResched(k, c)
    ensures Shape(Age(k, c)) && Shape(Requeue(Age(k, c), c)) && l < 3
    ensures var k1 := Requeue(Age(k, c), c); var k' := Resched(k, c);
            && k1.queues[ReadyQ(c, l)] != [] && (forall m :: l < m < 3 ==> k1.queues[ReadyQ(c, m)] == [])
            && k'.cores[c].currpid == k1.queues[ReadyQ(c, l)][0]
            && k'.queues[ReadyQ(c, l)] == k1.queues[ReadyQ(c, l)][1..]
    ensures var p := k.cores[c].currpid; p < NPROC && k.proc[p].state == PRCURR ==>
              k.proc[p].priority <= 2 && var q := ReadyQ(c, k.proc[p].priority);
              Requeue(Age(k, c), c).queues == Age(k, c).queues[q := Age(k, c).queues[q] + [p]]
  {
    hide MidInv;
    hide Age;
    MidParts(k);
    AgeKeeps(k, c);
    var ka := Age(k, c);
    MidParts(ka);
    RequeueKeeps(ka, c);
    var k1 := Requeue(ka, c);
    MidParts(k1);
    ReschedKeeps(k, c);
    assert CountersFit(k, c);
    assert ProcFits(ka, k.cores[c].currpid);
    PickMembers(k1, c);
    l := Level(k1, c);
  }

  // ----- what the invariant says of one process -----

  ghost predicate InSomeReady(k: State, p: nat)
    requires Shape(k)
  {
    exists q :: NPROC <= q < NQUEUE && p in k.queues[q]
  }

  /** q is the ready queue of p's own core at level l, no lower than its priority. */
  ghost predicate AtLevel(k: State, p: nat, q: nat, l: nat)
    requires p < |k.proc|
  {
    k.proc[p].priority <= l <= 2 && 0 <= k.proc[p].affinity < NCORES && q == ReadyQ(k.proc[p].affinity, l)
  }

  /**
    Every process is where its state says: PRREADY exactly when it is in a ready queue, which is
    one of its own core and no lower than its priority; PRSEND, if it is not stranded, exactly when
    it is in a message queue, save between the section that took it out and the call that readies
    it, and save for slots of processes killed there; nothing is in two queues or twice in one.
  */
  lemma Placement(k: State, p: nat)
    requires Inv(k) && p < NPROC
    ensures k.proc[p].state == PRREADY <==> InSomeReady(k, p)
    ensures forall q :: NPROC <= q < NQUEUE && p in k.queues[q] ==>
              exists l :: AtLevel(k, p, q, l)
    ensures !Stranded(k, p) ==>
              (k.proc[p].state == PRSEND && !Woken(k, p) <==> InMessageQueue(k, p) && k.proc[p].state != PRFREE)
    ensures InMessageQueue(k, p) ==> !Woken(k, p)
    ensures forall q, q' :: 0 <= q < NQUEUE && 0 <= q' < NQUEUE && p in k.queues[q] && p in k.queues[q'] ==> q == q'
    ensures forall q :: 0 <= q < NQUEUE ==> Distinct(k.queues[q])
  {
    assert ProcFits(k, p);
    if k.proc[p].state == PRREADY {
      var l :| 0 <= l < 3 && p in k.queues[ReadyQ(k.proc[p].affinity, l)];
    }
    forall q | 0 <= q < NQUEUE && p in k.queues[q] ensures MemberFits(k, q, p) { assert QueueFits(k, q); }
    forall q | NPROC <= q < NQUEUE && p in k.queues[q]
      ensures exists l :: AtLevel(k, p, q, l)
    {
      assert MemberFits(k, q, p);
      var l := q - NPROC - 3 * k.proc[p].affinity;
      assert AtLevel(k, p, q, l);
    }
  }

  /**
    With every core between system calls, PRSEND is being alive in a message queue and each core
    runs a PRCURR process.
  */
  lemma Quiet(k: State)
    requires Inv(k) && NobodyStranded(k) && forall c :: 0 <= c < NCORES ==> At(k, c, Idle)
    requires forall w :: 0 <= w < NPROC ==> !k.proc[w].pc.Waking?
    ensures forall p :: 0 <= p < NPROC ==>
              (k.proc[p].state == PRSEND <==> InMessageQueue(k, p) && k.proc[p].state != PRFREE)
    ensures forall p :: 0 <= p < NPROC ==>
              (k.proc[p].state == PRCURR <==> exists c :: 0 <= c < NCORES && k.cores[c].currpid == p)
    ensures forall p :: 0 <= p < NPROC && k.proc[p].state == PRRECV ==> !k.proc[p].hasMessage
  {
    forall p | 0 <= p < NPROC
      ensures k.proc[p].state == PRSEND <==> InMessageQueue(k, p) && k.proc[p].state != PRFREE
      ensures k.proc[p].state == PRCURR <==> exists c :: 0 <= c < NCORES && k.cores[c].currpid == p
      ensures k.proc[p].state == PRRECV ==> !k.proc[p].hasMessage
    {
      Placement(k, p);
      assert ProcFits(k, p) && !Stranded(k, p);
      if k.proc[p].state == PRCURR { assert k.cores[k.proc[p].affinity].currpid == p; }
      if c :| 0 <= c < NCORES && k.cores[c].currpid == p { assert At(k, c, Idle); }
    }
  }

  // ----- wake-ups -----

  /** The section that claims t: a deposit that finds t waiting in recv, or a collect that takes t off its queue. */
  ghost predicate Claims(w: nat, k: State, s: Step, t: nat)
    requires Enabled(w, k, s) && t < NPROC
  {
    var p := k.cores[s.c].currpid;
    match s
    case DoSend(_, pid, _) => pid == t && k.proc[t].state == PRRECV && !k.proc[t].hasMessage
    case DoSendNow(_, pid, _) => pid == t && k.proc[t].state == PRRECV && !k.proc[t].hasMessage
    case DoRecv(_) => k.proc[p].hasMessage && k.queues[p] != [] && k.queues[p][0] == t
    case DoCollect(_) => k.queues[p] != [] && k.queues[p][0] == t
    case _ => false
  }

  /** The call of ready that a claim leads to, on a process that is still there. */
  ghost predicate Readies(k: State, s: Step, t: nat)
    requires t < |k.proc|
  {
    s.DoWake? && At(k, s.c, Waking(t)) && k.proc[t].state != PRFREE
  }

  /** A claim of a process killed since comes to nothing: ready refuses it, or its waker is killed too. */
  ghost predicate Lapses(k: State, s: Step, t: nat)
    requires Shape(k) && t < NPROC
  {
    && k.proc[t].state == PRFREE
    && ((s.DoWake? && At(k, s.c, Waking(t)))
        || (s.DoKill? && !KillRefused(k, s.c, s.pid) && k.proc[s.pid].pc == Waking(t)))
  }

  /** A kill of t itself. */
  ghost predicate Kills(k: State, s: Step, t: nat)
    requires Shape(k) && t < NPROC
  {
    s.DoKill? && s.pid == t && !KillRefused(k, s.c, t)
  }

  /** A kill of the process that was about to ready t, which is still there. */
  ghost predicate Strands(k: State, s: Step, t: nat)
    requires Shape(k) && t < NPROC
  {
    s.DoKill? && !KillRefused(k, s.c, s.pid) && k.proc[s.pid].pc == Waking(t) && k.proc[t].state != PRFREE
  }

  function Int(b: bool): nat { if b then 1 else 0 }

  lemma CollectClaims(k: State, p: nat, t: nat)
    requires Inv(k) && p < NPROC && t < NPROC
    requires k.proc[p].state == PRCURR && !k.proc[p].pc.Waking? && k.proc[p].hasMessage
    ensures Int(Woken(Collect(k, p), t)) == Int(Woken(k, t)) + Int(k.queues[p] != [] && k.queues[p][0] == t)
  {
    hide MidInv;
    hide Collect;
    MidParts(k);
    if k.queues[p] != [] {
      AdmitIs(k, p);
    } else {
      CollectPlain(k, p);
      WokenAfter(k, Collect(k, p), p, t);
    }
  }

  lemma CollectPlain(k: State, p: nat)
    requires Shape(k) && p < NPROC && k.queues[p] == []
    ensures Collect(k, p) == SetProc(k, p, k.proc[p].(hasMessage := false, pc := Idle))
  {
  }

  lemma DepositClaims(k: State, p: nat, pid: int, msg: int, t: nat)
    requires Inv(k) && p < NPROC && 0 <= pid < NPROC && t < NPROC && k.proc[p].state == PRCURR && k.proc[p].pc == Idle
    requires k.proc[pid].state != PRFREE && !k.proc[pid].hasMessage
    ensures Int(Woken(Deposit(k, p, pid, msg), t)) == Int(Woken(k, t)) + Int(pid == t && k.proc[t].state == PRRECV)
  {
    hide MidInv;
    hide Deposit;
    MidParts(k);
    DepositIs(k, p, pid, msg);
  }

  lemma PcsSame(k: State, k': State, t: nat)
    requires Shape(k) && Shape(k') && forall x :: 0 <= x < NPROC ==> k'.proc[x].pc == k.proc[x].pc
    ensures Woken(k', t) == Woken(k, t)
  {
    WokenSame(k, k', t);
  }

  lemma ReschedPcs(k: State, c: nat)
    requires Shape(k) && c < NCORES
    ensures Shape(Resched(k, c)) && forall x :: 0 <= x < NPROC ==> Resched(k, c).proc[x].pc == k.proc[x].pc
  {
    var ka := Age(k, c);
    assert Shape(ka) && ka.proc == k.proc;
    var kr := Requeue(ka, c);
    assert Shape(kr) && forall x :: 0 <= x < NPROC ==> kr.proc[x].pc == ka.proc[x].pc;
  }

  lemma KillPcs(w: nat, k: State, c: nat, pid: int, t: nat)
    requires w >= 3 && Inv(k) && At(k, c, Idle)
    ensures Woken(Kill(w, k, c, pid), t) <==> Woken(k, t) && (KillRefused(k, c, pid) || k.proc[pid].pc != Waking(t))
  {
    hide MidInv;
    MidParts(k);
    if !KillRefused(k, c, pid) { KillWoken(w, k, c, pid, t); }
  }

  lemma SendWakeUp(k: State, p: nat, pid: int, msg: int, t: nat)
    requires Inv(k) && p < NPROC && t < NPROC && k.proc[p].state == PRCURR && k.proc[p].pc == Idle
    ensures Int(Woken(SendBody(k, p, pid, msg), t))
         == Int(Woken(k, t)) + Int(pid == t && k.proc[t].state == PRRECV && !k.proc[t].hasMessage)
  {
    hide MidInv;
    hide Deposit;
    MidParts(k);
    if IsBadPid(k, pid) {
    } else if k.proc[pid].hasMessage {
      WokenAfter(k, SendBody(k, p, pid, msg), p, t);
    } else {
      DepositClaims(k, p, pid, msg, t);
    }
  }

  /** A step claims t, readies it, lets a claim lapse, strands it, or leaves alone whether someone is to ready it. */
  lemma StepWakeUps(w: nat, k: State, s: Step, t: nat)
    requires Inv(k) && Enabled(w, k, s) && t < NPROC
    ensures Int(Woken(Next(w, k, s), t))
         == Int(Woken(k, t)) + Int(Claims(w, k, s, t))
            - Int(Readies(k, s, t)) - Int(Lapses(k, s, t)) - Int(Strands(k, s, t))
    ensures Claims(w, k, s, t) ==> !Woken(k, t) && (k.proc[t].state == PRRECV || InMessageQueue(k, t))
    ensures Readies(k, s, t) ==> Woken(k, t) && Next(w, k, s).proc[t].state == PRREADY
    ensures Lapses(k, s, t) || Strands(k, s, t) ==> Woken(k, t)
  {
    hide Inv;
    hide Next;
    if s.DoSend? || s.DoSendNow? || s.DoRecv? || s.DoCollect? {
      MessageWakeUps(w, k, s, t);
    } else {
      OtherWakeUps(w, k, s, t);
    }
  }

  lemma MessageWakeUps(w: nat, k: State, s: Step, t: nat)
    requires Inv(k) && Enabled(w, k, s) && t < NPROC && (s.DoSend? || s.DoSendNow? || s.DoRecv? || s.DoCollect?)
    ensures Int(Woken(Next(w, k, s), t))
         == Int(Woken(k, t)) + Int(Claims(w, k, s, t))
            - Int(Readies(k, s, t)) - Int(Lapses(k, s, t)) - Int(Strands(k, s, t))
    ensures Claims(w, k, s, t) ==> !Woken(k, t) && (k.proc[t].state == PRRECV || InMessageQueue(k, t))
    ensures !Readies(k, s, t) && !Lapses(k, s, t) && !Strands(k, s, t)
  {
    hide MidInv;
    hide Collect;
    hide Deposit;
    hide SendBody;
    MidParts(k);
    var p, k' := k.cores[s.c].currpid, Next(w, k, s);
    assert ProcFits(k, t);
    match s {
      case DoSend(c, pid, msg) =>
        SendWakeUp(k, p, pid, msg, t);
      case DoSendNow(c, pid, msg) =>
        if !IsBadPid(k, pid) && !k.proc[pid].hasMessage { DepositClaims(k, p, pid, msg, t); }
      case DoRecv(c) =>
        if k.proc[p].hasMessage { CollectWakeUp(k, p, t); } else { WokenAfter(k, k', p, t); }
      case DoCollect(c) => ResumedHasMessage(k, c); CollectWakeUp(k, p, t);
    }
  }

  lemma OtherWakeUps(w: nat, k: State, s: Step, t: nat)
    requires Inv(k) && Enabled(w, k, s) && t < NPROC
    requires !(s.DoSend? || s.DoSendNow? || s.DoRecv? || s.DoCollect?)
    ensures Int(Woken(Next(w, k, s), t))
         == Int(Woken(k, t)) + Int(Claims(w, k, s, t))
            - Int(Readies(k, s, t)) - Int(Lapses(k, s, t)) - Int(Strands(k, s, t))
    ensures !Claims(w, k, s, t)
    ensures Readies(k, s, t) ==> Woken(k, t) && Next(w, k, s).proc[t].state == PRREADY
    ensures Lapses(k, s, t) || Strands(k, s, t) ==> Woken(k, t)
  {
    hide MidInv;
    hide Resched;
    hide WakeBody;
    hide Create;
    hide Kill;
    hide Tick;
    MidParts(k);
    var p, k' := k.cores[s.c].currpid, Next(w, k, s);
    assert ProcFits(k, t);
    match s {
      case DoResched(c) => ReschedPcs(k, c); PcsSame(k, k', t);
      case DoTick(c) => TickPcs(k, c); PcsSame(k, k', t);
      case DoRecvNow(c) => WokenAfter(k, k', p, t);
      case DoReturn(c) => WokenAfter(k, k', p, t);
      case DoWake(c) => if Owes(k, p) { WakeIs(k, p); } else { WakeStaleIs(k, p); }
      case DoReady(c, pid, core) => assert ProcFits(k, pid); WokenAfter(k, k', pid, t);
      case DoCreate(c, ssize, priority) => CreatePcs(w, k, c, ssize, priority, t);
      case DoKill(c, pid) => KillPcs(w, k, c, pid, t);
    }
  }

  lemma CollectWakeUp(k: State, p: nat, t: nat)
    requires Inv(k) && p < NPROC && t < NPROC
    requires k.proc[p].state == PRCURR && !k.proc[p].pc.Waking? && k.proc[p].hasMessage
    ensures Int(Woken(Collect(k, p), t)) == Int(Woken(k, t)) + Int(k.queues[p] != [] && k.queues[p][0] == t)
    ensures k.queues[p] != [] && k.queues[p][0] == t ==> InMessageQueue(k, t) && !Woken(k, t)
  {
    hide MidInv;
    hide Collect;
    MidParts(k);
    CollectClaims(k, p, t);
    if k.queues[p] != [] { AdmitIs(k, p); }
  }

  lemma TickPcs(k: State, c: nat)
    requires Shape(k) && c < NCORES
    ensures Shape(Tick(k, c)) && forall x :: 0 <= x < NPROC ==> Tick(k, c).proc[x].pc == k.proc[x].pc
  {
    hide Resched;
    ReschedPcs(k.(cores := k.cores[c := Ticked(k.cores[c])]), c);
  }

  lemma CreatePcs(w: nat, k: State, c: nat, ssize: nat, priority: nat, t: nat)
    requires w >= 3 && Inv(k) && c < |k.heap.lists| == |k.heap.lens|
    ensures Woken(Create(w, k, c, ssize, priority).1, t) == Woken(k, t)
  {
    hide MidInv;
    hide NewPid;
    hide StackSize;
    hide GetMem;
    MidParts(k);
    var (pid, k') := Create(w, k, c, ssize, priority);
    NewPidFree(k, k.nextpid, NPROC);
    if pid == None {
      PcsSame(k, k', t);
    } else {
      assert ProcFits(k, pid.value);
      WokenAfter(k, k', pid.value, t);
    }
  }

  ghost function ClaimCount(w: nat, ks: seq<State>, steps: seq<Step>, t: nat, n: nat): int
    requires Run(w, ks, steps) && t < NPROC && n <= |steps|
  {
    if n == 0 then 0 else ClaimCount(w, ks, steps, t, n - 1) + Int(Claims(w, ks[n - 1], steps[n - 1], t))
  }

  ghost function ReadyCount(w: nat, ks: seq<State>, steps: seq<Step>, t: nat, n: nat): int
    requires Run(w, ks, steps) && t < NPROC && n <= |steps|
  {
    if n == 0 then 0
    else assert Enabled(w, ks[n - 1], steps[n - 1]);
         ReadyCount(w, ks, steps, t, n - 1) + Int(Readies(ks[n - 1], steps[n - 1], t))
  }

  ghost function LapseCount(w: nat, ks: seq<State>, steps: seq<Step>, t: nat, n: nat): int
    requires Run(w, ks, steps) && t < NPROC && n <= |steps|
  {
    if n == 0 then 0
    else assert Enabled(w, ks[n - 1], steps[n - 1]);
         LapseCount(w, ks, steps, t, n - 1) + Int(Lapses(ks[n - 1], steps[n - 1], t))
  }

  ghost function StrandCount(w: nat, ks: seq<State>, steps: seq<Step>, t: nat, n: nat): int
    requires Run(w, ks, steps) && t < NPROC && n <= |steps|
  {
    if n == 0 then 0
    else assert Enabled(w, ks[n - 1], steps[n - 1]);
         StrandCount(w, ks, steps, t, n - 1) + Int(Strands(ks[n - 1], steps[n - 1], t))
  }

  /**
    Along every run a process is readied once for each time it is claimed, save for claims that
    lapse because it was killed, those whose waker was, and one that may still be in progress: no
    other wake-up is lost and none happens twice.
  */
  lemma {:induction false} WakeUpsBalance(w: nat, ks: seq<State>, steps: seq<Step>, t: nat, n: nat)
    requires Run(w, ks, steps) && Inv(ks[0]) && t < NPROC && n <= |steps|
    ensures ReadyCount(w, ks, steps, t, n) + LapseCount(w, ks, steps, t, n) + StrandCount(w, ks, steps, t, n)
            + Int(Woken(ks[n], t))
         == ClaimCount(w, ks, steps, t, n) + Int(Woken(ks[0], t))
  {
    hide Enabled;
    hide Inv;
    hide Next;
    hide Claims;
    hide Readies;
    hide Lapses;
    hide Strands;
    hide Woken;
    if n > 0 {
      WakeUpsBalance(w, ks, steps, t, n - 1);
      RunKeeps(w, ks, steps, n - 1);
      StepWakeUps(w, ks[n - 1], steps[n - 1], t);
    }
  }

  /** A step fills no message queue but with the process that makes it, and frees a slot only by killing. */
  lemma StepMessages(w: nat, k: State, s: Step, t: nat)
    requires Inv(k) && Enabled(w, k, s) && t < NPROC
    ensures Shape(Next(w, k, s))
    ensures Next(w, k, s).proc[t].state == PRFREE ==>
              k.proc[t].state == PRFREE || (s.DoKill? && s.pid == t && !KillRefused(k, s.c, t))
    ensures InMessageQueue(Next(w, k, s), t) ==> InMessageQueue(k, t) || k.proc[t].state == PRCURR
  {
    hide MidInv;
    hide Resched;
    hide Collect;
    hide Deposit;
    hide WakeBody;
    hide Create;
    hide Kill;
    hide Tick;
    MidParts(k);
    var p, k' := k.cores[s.c].currpid, Next(w, k, s);
    match s {
      case DoResched(c) => InvMayResched(k, c); ReschedMessages(k, c); assert SameBut(k.proc[t], k'.proc[t]);
      case DoTick(c) => TickMessages(k, c); assert SameBut(k.proc[t], k'.proc[t]);
      case DoSend(c, pid, msg) => SendMessages(k, p, pid, msg, t);
      case DoSendNow(c, pid, msg) =>
        if !IsBadPid(k, pid) && !k.proc[pid].hasMessage { DepositIs(k, p, pid, msg); }
      case DoRecv(c) => if k.proc[p].hasMessage { CollectMessages(k, p, t); }
      case DoCollect(c) => ResumedHasMessage(k, c); CollectMessages(k, p, t);
      case DoRecvNow(c) =>
      case DoReturn(c) =>
      case DoWake(c) => if Owes(k, p) { WakeIs(k, p); } else { WakeStaleIs(k, p); }
      case DoReady(c, pid, core) =>
      case DoCreate(c, ssize, priority) => CreateMessages(w, k, c, ssize, priority, t);
      case DoKill(c, pid) => KillMessages(w, k, c, pid, t);
    }
  }

  lemma TickMessages(k: State, c: nat)
    requires Inv(k) && c < NCORES
    ensures Shape(Tick(k, c))
    ensures forall p :: 0 <= p < NPROC ==> SameBut(k.proc[p], Tick(k, c).proc[p])
    ensures forall r :: 0 <= r < NPROC ==> Tick(k, c).queues[r] == k.queues[r]
  {
    hide Resched;
    hide MidInv;
    MidParts(k);
    TickMayResched(k, c);
    ReschedMessages(k.(cores := k.cores[c := Ticked(k.cores[c])]), c);
  }

  lemma SendMessages(k: State, p: nat, pid: int, msg: int, t: nat)
    requires Inv(k) && p < NPROC && t < NPROC && k.proc[p].state == PRCURR && k.proc[p].pc == Idle
    ensures var k' := SendBody(k, p, pid, msg);
            && Shape(k') && (k'.proc[t].state == PRFREE ==> k.proc[t].state == PRFREE)
            && (InMessageQueue(k', t) ==> InMessageQueue(k, t) || t == p)
  {
    hide MidInv;
    hide Deposit;
    MidParts(k);
    if !IsBadPid(k, pid) && !k.proc[pid].hasMessage { DepositIs(k, p, pid, msg); }
  }

  lemma CollectMessages(k: State, p: nat, t: nat)
    requires Inv(k) && p < NPROC && t < NPROC && k.proc[p].state == PRCURR && !k.proc[p].pc.Waking?
    requires k.proc[p].hasMessage
    ensures var k' := Collect(k, p);
            && Shape(k') && (k'.proc[t].state == PRFREE ==> k.proc[t].state == PRFREE)
            && (InMessageQueue(k', t) ==> InMessageQueue(k, t))
  {
    hide MidInv;
    hide Collect;
    MidParts(k);
    if k.queues[p] == [] { CollectPlain(k, p); } else { AdmitIs(k, p); }
  }

  lemma CreateMessages(w: nat, k: State, c: nat, ssize: nat, priority: nat, t: nat)
    requires w >= 3 && Inv(k) && c < |k.heap.lists| == |k.heap.lens| && t < NPROC
    ensures var k' := Create(w, k, c, ssize, priority).1;
            && Shape(k') && (k'.proc[t].state == PRFREE ==> k.proc[t].state == PRFREE)
            && (InMessageQueue(k', t) ==> InMessageQueue(k, t))
  {
    hide MidInv;
    hide NewPid;
    hide StackSize;
    hide GetMem;
    MidParts(k);
  }

  lemma KillMessages(w: nat, k: State, c: nat, pid: int, t: nat)
    requires w >= 3 && Inv(k) && At(k, c, Idle) && t < NPROC
    ensures var k' := Kill(w, k, c, pid);
            && Shape(k')
            && (k'.proc[t].state == PRFREE ==> k.proc[t].state == PRFREE || (pid == t && !KillRefused(k, c, pid)))
            && (InMessageQueue(k', t) ==> InMessageQueue(k, t))
  {
    hide MidInv;
    hide FreeStack;
    hide Drop;
    hide Resched;
    MidParts(k);
    if !KillRefused(k, c, pid) {
      SenderStays(w, k, c, pid);
      assert t != pid ==> SameBut(k.proc[t], Kill(w, k, c, pid).proc[t]);
    }
  }

  /** Process t is there, or nobody is about to ready its slot and no message queue has it. */
  ghost predicate Unclaimed(k: State, t: nat) {
    Shape(k) && t < NPROC && (k.proc[t].state == PRFREE ==> !Woken(k, t) && !InMessageQueue(k, t))
  }

  lemma StaysUnclaimed(w: nat, k: State, s: Step, t: nat)
    requires Inv(k) && Enabled(w, k, s) && Unclaimed(k, t)
    requires s.DoKill? && s.pid == t ==> KillRefused(k, s.c, t)
    ensures Unclaimed(Next(w, k, s), t) && !Lapses(k, s, t)
  {
    hide Inv;
    hide Next;
    StepWakeUps(w, k, s, t);
    StepMessages(w, k, s, t);
  }

  /** No claim of a process lapses unless it is killed. */
  lemma {:induction false} NoLapse(w: nat, ks: seq<State>, steps: seq<Step>, t: nat, n: nat)
    requires Run(w, ks, steps) && Inv(ks[0]) && n <= |steps| && Unclaimed(ks[0], t)
    requires forall i :: 0 <= i < n && steps[i].DoKill? && steps[i].pid == t ==>
               Shape(ks[i]) && KillRefused(ks[i], steps[i].c, t)
    ensures LapseCount(w, ks, steps, t, n) == 0 && Unclaimed(ks[n], t)
  {
    hide Inv;
    hide Next;
    hide Enabled;
    hide Unclaimed;
    hide Lapses;
    if n > 0 {
      NoLapse(w, ks, steps, t, n - 1);
      RunKeeps(w, ks, steps, n - 1);
      StaysUnclaimed(w, ks[n - 1], steps[n - 1], t);
    }
  }

  // ----- who is stranded -----

  /**
    Being stranded is for good: a process is stranded after a step if and only if it was before and
    the step does not kill it, or the step kills the one that was about to ready it.
  */
  lemma StepStrands(w: nat, k: State, s: Step, t: nat)
    requires Inv(k) && Enabled(w, k, s) && t < NPROC
    ensures Shape(Next(w, k, s))
    ensures Stranded(Next(w, k, s), t) <==> (Stranded(k, t) && !Kills(k, s, t)) || Strands(k, s, t)
  {
    hide MidInv;
    hide Resched;
    hide Collect;
    hide Deposit;
    hide WakeBody;
    hide Create;
    hide Kill;
    hide Tick;
    hide Stranded;
    MidParts(k);
    var p, k' := k.cores[s.c].currpid, Next(w, k, s);
    match s {
      case DoResched(c) => InvMayResched(k, c); ReschedMessages(k, c); SameStranded(k, k', t);
      case DoTick(c) => TickMessages(k, c); SameStranded(k, k', t);
      case DoSend(c, pid, msg) => SendStrands(k, p, pid, msg, t);
      case DoSendNow(c, pid, msg) =>
        if !IsBadPid(k, pid) && !k.proc[pid].hasMessage { DepositStrands(k, p, pid, msg, t); }
      case DoRecv(c) => if k.proc[p].hasMessage { CollectStrands(k, p, t); } else { EntryStrands(k, k', p, t); }
      case DoCollect(c) => ResumedHasMessage(k, c); CollectStrands(k, p, t);
      case DoRecvNow(c) => EntryStrands(k, k', p, t);
      case DoReturn(c) => EntryStrands(k, k', p, t);
      case DoWake(c) => WakeStrands(k, p, t);
      case DoReady(c, pid, core) => ReadyStrands(k, pid, core, t);
      case DoCreate(c, ssize, priority) => CreateStrands(w, k, c, ssize, priority, t);
      case DoKill(c, pid) =>
        if KillRefused(k, c, pid) {
          RefusedKill(w, k, c, pid);
        } else {
          KillStrands(w, k, c, pid, t);
          NotItsOwn(k, pid);
        }
    }
  }

  lemma RefusedKill(w: nat, k: State, c: nat, pid: int)
    requires w >= 3 && Shape(k) && c < NCORES && KillRefused(k, c, pid)
    ensures Kill(w, k, c, pid) == k
  {
  }

  lemma SameStranded(k: State, k': State, t: nat)
    requires Shape(k) && Shape(k') && t < NPROC
    requires forall p :: 0 <= p < NPROC ==> SameBut(k.proc[p], k'.proc[p])
    requires forall r :: 0 <= r < NPROC ==> k'.queues[r] == k.queues[r]
    ensures Stranded(k', t) <==> Stranded(k, t)
  {
    forall p | 0 <= p < NPROC ensures k'.proc[p].pc == k.proc[p].pc { assert SameBut(k.proc[p], k'.proc[p]); }
    WokenSame(k, k', t);
    assert SameBut(k.proc[t], k'.proc[t]);
    assert InMessageQueue(k', t) <==> InMessageQueue(k, t);
  }

  /** A running process changes its own entry, and wakes nobody. */
  lemma EntryStrands(k: State, k': State, p: nat, t: nat)
    requires Shape(k) && WakersFit(k) && p < NPROC && t < NPROC && k.proc[p].state == PRCURR && !k.proc[p].pc.Waking?
    requires Shape(k') && k' == SetProc(k, p, k'.proc[p]) && !k'.proc[p].pc.Waking?
    requires k'.proc[p].state == PRCURR || (k'.proc[p].state == PRRECV && !k'.proc[p].hasMessage)
    ensures Stranded(k', t) <==> Stranded(k, t)
  {
    WokenAfter(k, k', p, t);
    assert InMessageQueue(k', t) <==> InMessageQueue(k, t);
  }

  lemma DepositStrands(k: State, p: nat, pid: int, msg: int, t: nat)
    requires Inv(k) && p < NPROC && 0 <= pid < NPROC && t < NPROC && k.proc[p].state == PRCURR && k.proc[p].pc == Idle
    requires k.proc[pid].state != PRFREE && !k.proc[pid].hasMessage
    ensures Shape(Deposit(k, p, pid, msg))
    ensures Stranded(Deposit(k, p, pid, msg), t) <==> Stranded(k, t)
  {
    hide MidInv;
    hide Deposit;
    MidParts(k);
    DepositIs(k, p, pid, msg);
    assert InMessageQueue(Deposit(k, p, pid, msg), t) <==> InMessageQueue(k, t);
  }

  lemma SendStrands(k: State, p: nat, pid: int, msg: int, t: nat)
    requires Inv(k) && p < NPROC && t < NPROC && k.proc[p].state == PRCURR && k.proc[p].pc == Idle
    ensures Shape(SendBody(k, p, pid, msg)) && (Stranded(SendBody(k, p, pid, msg), t) <==> Stranded(k, t))
  {
    hide MidInv;
    hide Deposit;
    MidParts(k);
    if !IsBadPid(k, pid) && !k.proc[pid].hasMessage {
      DepositStrands(k, p, pid, msg, t);
    } else if !IsBadPid(k, pid) {
      var k' := SendBody(k, p, pid, msg);
      WokenAfter(k, k', p, t);
      assert p in k'.queues[pid];
      assert forall r :: 0 <= r < NPROC && t != p ==> (t in k'.queues[r] <==> t in k.queues[r]);
      assert t != p ==> (InMessageQueue(k', t) <==> InMessageQueue(k, t));
    }
  }

  lemma CollectStrands(k: State, p: nat, t: nat)
    requires Inv(k) && p < NPROC && t < NPROC && k.proc[p].state == PRCURR && !k.proc[p].pc.Waking?
    requires k.proc[p].hasMessage
    ensures Shape(Collect(k, p)) && (Stranded(Collect(k, p), t) <==> Stranded(k, t))
  {
    hide MidInv;
    hide Collect;
    MidParts(k);
    var k' := Collect(k, p);
    if k.queues[p] == [] {
      CollectPlain(k, p);
      EntryStrands(k, k', p, t);
    } else {
      AdmitIs(k, p);
      var s := k.queues[p][0];
      assert InMessageQueue(k, s) by { assert s in k.queues[p]; }
      assert t != s ==> (InMessageQueue(k', t) <==> InMessageQueue(k, t));
    }
  }

  lemma WakeStrands(k: State, p: nat, t: nat)
    requires Inv(k) && p < NPROC && t < NPROC && k.proc[p].state == PRCURR && k.proc[p].pc.Waking?
    requires k.proc[p].pc.target < NPROC
    ensures Shape(WakeBody(k, p)) && (Stranded(WakeBody(k, p), t) <==> Stranded(k, t))
  {
    hide MidInv;
    hide WakeBody;
    MidParts(k);
    assert Woken(k, k.proc[p].pc.target);
    if Owes(k, p) { WakeIs(k, p); } else { WakeStaleIs(k, p); }
    assert InMessageQueue(WakeBody(k, p), t) <==> InMessageQueue(k, t);
  }

  lemma ReadyStrands(k: State, pid: nat, core: nat, t: nat)
    requires Inv(k) && pid < NPROC && core < NCORES && k.proc[pid].state == PRSUSP && t < NPROC
    ensures Shape(ReadyBody(k, pid, core)) && (Stranded(ReadyBody(k, pid, core), t) <==> Stranded(k, t))
  {
    hide MidInv;
    MidParts(k);
    var k' := ReadyBody(k, pid, core);
    assert ProcFits(k, pid);
    WokenAfter(k, k', pid, t);
    assert forall r :: 0 <= r < NPROC ==> k'.queues[r] == k.queues[r];
    assert InMessageQueue(k', t) <==> InMessageQueue(k, t);
  }

  lemma CreateStrands(w: nat, k: State, c: nat, ssize: nat, priority: nat, t: nat)
    requires w >= 3 && Inv(k) && c < |k.heap.lists| == |k.heap.lens| && t < NPROC
    ensures var k' := Create(w, k, c, ssize, priority).1; Shape(k') && (Stranded(k', t) <==> Stranded(k, t))
  {
    hide MidInv;
    hide NewPid;
    hide StackSize;
    hide GetMem;
    MidParts(k);
    var k' := Create(w, k, c, ssize, priority).1;
    NewPidFree(k, k.nextpid, NPROC);
    CreatePcs(w, k, c, ssize, priority, t);
    assert InMessageQueue(k', t) <==> InMessageQueue(k, t);
  }

  /** So a stranded process stays so until it is killed: it never runs again. */
  lemma {:induction false} StrandedForGood(w: nat, ks: seq<State>, steps: seq<Step>, t: nat, i: nat, j: nat)
    requires Run(w, ks, steps) && Inv(ks[0]) && t < NPROC && i <= j < |ks| && Shape(ks[i]) && Stranded(ks[i], t)
    requires forall n :: i <= n < j ==> Shape(ks[n]) && !Kills(ks[n], steps[n], t)
    ensures Shape(ks[j]) && Stranded(ks[j], t) && !Runnable(ks[j].proc[t].state)
  {
    hide Inv;
    hide Enabled;
    hide Next;
    if i < j {
      StrandedForGood(w, ks, steps, t, i, j - 1);
      RunKeeps(w, ks, steps, j - 1);
      StepStrands(w, ks[j - 1], steps[j - 1], t);
    }
  }

  /** A kill of a process that has still to ready a live one. */
  ghost predicate KillsWaker(k: State, s: Step)
    requires Shape(k)
  {
    s.DoKill? && !KillRefused(k, s.c, s.pid) && Owes(k, s.pid)
  }

  lemma StepStrandsNobody(w: nat, k: State, s: Step)
    requires Inv(k) && Enabled(w, k, s) && NobodyStranded(k)
    ensures Shape(Next(w, k, s)) && (NobodyStranded(Next(w, k, s)) <==> !KillsWaker(k, s))
  {
    hide MidInv;
    hide Next;
    hide Stranded;
    MidParts(k);
    StepStrands(w, k, s, 0);
    forall t | 0 <= t < NPROC ensures Stranded(Next(w, k, s), t) <==> Strands(k, s, t) { StepStrands(w, k, s, t); }
    if KillsWaker(k, s) { assert Strands(k, s, k.proc[s.pid].pc.target); }
  }

  /** Along a run that starts with nobody stranded, nobody ever is if and only if no waker is killed. */
  lemma StrandsIff(w: nat, ks: seq<State>, steps: seq<Step>)
    requires Run(w, ks, steps) && Inv(ks[0]) && Shape(ks[0]) && NobodyStranded(ks[0])
    ensures forall i :: 0 <= i < |ks| ==> Shape(ks[i])
    ensures (forall i :: 0 <= i < |ks| ==> NobodyStranded(ks[i]))
       <==> (forall i :: 0 <= i < |steps| ==> !KillsWaker(ks[i], steps[i]))
  {
    hide MidInv;
    hide Enabled;
    hide Next;
    hide NobodyStranded;
    hide KillsWaker;
    forall i | 0 <= i < |ks| ensures Shape(ks[i]) { RunKeeps(w, ks, steps, i); MidParts(ks[i]); }
    if forall i :: 0 <= i < |ks| ==> NobodyStranded(ks[i]) {
      forall i | 0 <= i < |steps| ensures !KillsWaker(ks[i], steps[i]) {
        RunKeeps(w, ks, steps, i);
        assert NobodyStranded(ks[i]) && NobodyStranded(ks[i + 1]);
        StepStrandsNobody(w, ks[i], steps[i]);
      }
    } else if forall i :: 0 <= i < |steps| ==> !KillsWaker(ks[i], steps[i]) {
      forall i | 0 <= i < |ks| ensures NobodyStranded(ks[i]) { NeverStranded(w, ks, steps, i); }
    }
  }

  lemma {:induction false} NeverStranded(w: nat, ks: seq<State>, steps: seq<Step>, i: nat)
    requires Run(w, ks, steps) && Inv(ks[0]) && i < |ks| && (forall n :: 0 <= n < |ks| ==> Shape(ks[n]))
    requires NobodyStranded(ks[0]) && forall n :: 0 <= n < |steps| ==> !KillsWaker(ks[n], steps[n])
    ensures NobodyStranded(ks[i])
  {
    hide Inv;
    hide Enabled;
    hide Next;
    hide NobodyStranded;
    hide KillsWaker;
    if i > 0 {
      NeverStranded(w, ks, steps, i - 1);
      RunKeeps(w, ks, steps, i - 1);
      StepStrandsNobody(w, ks[i - 1], steps[i - 1]);
    }
  }

  lemma BootedStrandsNobody(rs: seq<Region>, end: nat, ptr: nat)
    ensures NobodyStranded(Booted(rs, end, ptr))
  {
    var k := Booted(rs, end, ptr);
    forall t | 0 <= t < NPROC ensures !Stranded(k, t) { assert k.proc[t] == BootPcb(end, ptr, t); }
  }
}
