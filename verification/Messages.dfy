/**
  Messages: the slot of a process together with the senders queued behind it is a FIFO channel.
  What recv has returned so far, then the slot, then what the queued senders hold, is what was
  accepted for that process, in order; with recvnow the order may go, but no message does.
*/
module Messages {
  import opened Config
  import opened Queues
  import opened Types
  import opened Heaps
  import opened Kernel
  import opened KernelInv
  import opened KernelLife
  import opened KernelRuns

  // ----- the channel of a process -----

  /** What the processes of l wait to send. */
  ghost function Outgoing(k: State, l: seq<int>): seq<int>
    requires |k.proc| == NPROC
  {
    seq(|l|, i requires 0 <= i < |l| => if 0 <= l[i] < NPROC then k.proc[l[i]].msgout else EMPTY)
  }

  /** The messages on their way to r: the full slot, then the senders in order. */
  ghost function Pending(k: State, r: nat): seq<int>
    requires Shape(k) && r < NPROC
  {
    (if k.proc[r].hasMessage then [k.proc[r].msgin] else []) + Outgoing(k, k.queues[r])
  }

  /** What a step accepts for r: send and sendnow return OK for it. */
  ghost function Accepted(w: nat, k: State, s: Step, r: nat): seq<int>
    requires Enabled(w, k, s) && r < NPROC
  {
    match s
    case DoSend(_, pid, msg) => if pid == r && !IsBadPid(k, pid) then [msg] else []
    case DoSendNow(_, pid, msg) => if pid == r && !IsBadPid(k, pid) && !k.proc[pid].hasMessage then [msg] else []
    case _ => []
  }

  /** What a step hands to r: the result of recv or recvnow. */
  ghost function Received(w: nat, k: State, s: Step, r: nat): seq<int>
    requires Enabled(w, k, s) && r < NPROC
  {
    if k.cores[s.c].currpid != r then []
    else
      match s
      case DoRecv(_) => if k.proc[r].hasMessage then [k.proc[r].msgin] else []
      case DoCollect(_) => [k.proc[r].msgin]
      case DoRecvNow(_) => if k.proc[r].hasMessage then [k.proc[r].msgin] else []
      case _ => []
  }

  // ----- what a step does to the channel -----

  /** Messages come in at the end and go out at the front. */
  ghost predicate KeepsOrder(w: nat, k: State, s: Step, r: nat)
    requires Enabled(w, k, s) && r < NPROC && Shape(Next(w, k, s))
  {
    Pending(k, r) + Accepted(w, k, s, r) == Received(w, k, s, r) + Pending(Next(w, k, s), r)
  }

  /** No message is lost or made up. */
  ghost predicate KeepsMail(w: nat, k: State, s: Step, r: nat)
    requires Enabled(w, k, s) && r < NPROC && Shape(Next(w, k, s))
  {
    multiset(Pending(k, r)) + multiset(Accepted(w, k, s, r))
      == multiset(Received(w, k, s, r)) + multiset(Pending(Next(w, k, s), r))
  }

  /** A message is accepted into an empty slot past a sender that waits with a different one. */
  ghost predicate JumpsQueue(k: State, s: Step, r: nat)
    requires Shape(k) && r < NPROC
  {
    && (s.DoSend? || s.DoSendNow?) && s.pid == r && k.proc[r].state != PRFREE && !k.proc[r].hasMessage
    && exists i :: 0 <= i < |k.queues[r]| && Outgoing(k, k.queues[r])[i] != s.msg
  }

  /** A process is created in a slot whose last owner died with a message unread. */
  ghost predicate DropsMail(w: nat, k: State, s: Step, r: nat)
    requires Enabled(w, k, s) && r < NPROC
  {
    s.DoCreate? && Fills(w, k, s.c, s.ssize, r) && k.proc[r].hasMessage
  }

  // ----- steps that leave a channel alone -----

  ghost predicate SameChannel(k: State, k': State, r: nat)
    requires Shape(k) && r < NPROC
  {
    && Shape(k') && k'.queues[r] == k.queues[r]
    && k'.proc[r].hasMessage == k.proc[r].hasMessage && k'.proc[r].msgin == k.proc[r].msgin
    && forall x :: 0 <= x < NPROC && x in k.queues[r] ==> k'.proc[x].msgout == k.proc[x].msgout
  }

  lemma SamePending(k: State, k': State, r: nat)
    requires Shape(k) && r < NPROC && SameChannel(k, k', r)
    ensures Pending(k', r) == Pending(k, r)
  {
    assert Outgoing(k', k'.queues[r]) == Outgoing(k, k.queues[r]);
  }

  /** What a step is to be shown to do to the channel of r. */
  ghost predicate Flows(w: nat, k: State, s: Step, r: nat)
    requires Enabled(w, k, s) && r < NPROC
  {
    && Shape(Next(w, k, s))
    && (KeepsOrder(w, k, s, r) <==> !JumpsQueue(k, s, r) && !DropsMail(w, k, s, r))
    && (KeepsMail(w, k, s, r) <==> !DropsMail(w, k, s, r))
  }

  lemma SameFlows(w: nat, k: State, s: Step, r: nat)
    requires Enabled(w, k, s) && r < NPROC && SameChannel(k, Next(w, k, s), r)
    requires Accepted(w, k, s, r) == [] && Received(w, k, s, r) == []
    requires !JumpsQueue(k, s, r) && !DropsMail(w, k, s, r)
    ensures Flows(w, k, s, r)
  {
    hide Next;
    hide Pending;
    SamePending(k, Next(w, k, s), r);
    assert Pending(k, r) + [] == [] + Pending(k, r);
  }

  /** A step that takes the first message out, or none, and puts accepted ones at the end. */
  lemma OrderedFlows(w: nat, k: State, s: Step, r: nat)
    requires Enabled(w, k, s) && r < NPROC && Shape(Next(w, k, s)) && KeepsOrder(w, k, s, r)
    requires !JumpsQueue(k, s, r) && !DropsMail(w, k, s, r)
    ensures Flows(w, k, s, r)
  {
    hide Next;
    hide Pending;
    hide Accepted;
    hide Received;
    assert multiset(Pending(k, r) + Accepted(w, k, s, r)) == multiset(Pending(k, r)) + multiset(Accepted(w, k, s, r));
    assert multiset(Received(w, k, s, r) + Pending(Next(w, k, s), r))
        == multiset(Received(w, k, s, r)) + multiset(Pending(Next(w, k, s), r));
  }

  /** A sender that joins the queue of r. */
  lemma QueueFlows(k: State, k': State, r: nat, p: nat, msg: int)
    requires Shape(k) && Shape(k') && r < NPROC && p < NPROC && p !in k.queues[r]
    requires k'.queues[r] == k.queues[r] + [p] && k'.proc[p].msgout == msg
    requires k'.proc[r].hasMessage == k.proc[r].hasMessage && k'.proc[r].msgin == k.proc[r].msgin
    requires forall x :: 0 <= x < NPROC && x != p ==> k'.proc[x] == k.proc[x]
    ensures Pending(k', r) == Pending(k, r) + [msg]
  {
    var l := k.queues[r];
    forall i | 0 <= i < |l| ensures Outgoing(k', l + [p])[i] == (Outgoing(k, l) + [msg])[i] {
      assert l[i] in l;
    }
    assert Outgoing(k', l + [p]) == Outgoing(k, l) + [msg];
  }

  /** A message put into the empty slot of r. */
  lemma SlotFlows(k: State, k': State, r: nat, msg: int)
    requires Shape(k) && Shape(k') && r < NPROC && !k.proc[r].hasMessage && k'.queues[r] == k.queues[r]
    requires k'.proc[r].hasMessage && k'.proc[r].msgin == msg
    requires forall x :: 0 <= x < NPROC ==> k'.proc[x].msgout == k.proc[x].msgout
    ensures Pending(k', r) == [msg] + Pending(k, r)
  {
    assert Outgoing(k', k'.queues[r]) == Outgoing(k, k.queues[r]);
  }

  /** The message in the slot is taken and the first sender's message takes its place. */
  lemma AdmitFlows(k: State, k': State, r: nat, s: nat)
    requires Shape(k) && Shape(k') && r < NPROC && s < NPROC && k.proc[r].hasMessage && k'.proc[r].hasMessage
    requires k.queues[r] != [] && k.queues[r][0] == s && k'.queues[r] == k.queues[r][1..] && s !in k'.queues[r]
    requires k'.proc[r].msgin == k.proc[s].msgout
    requires forall x :: 0 <= x < NPROC && x != s ==> k'.proc[x].msgout == k.proc[x].msgout
    ensures Pending(k, r) == [k.proc[r].msgin] + Pending(k', r)
  {
    var l, l' := k.queues[r], k'.queues[r];
    forall i | 0 <= i < |l'| ensures Outgoing(k', l')[i] == Outgoing(k, l)[i + 1] {
      assert l'[i] in l' && l'[i] == l[i + 1];
    }
    assert Outgoing(k, l) == [k.proc[s].msgout] + Outgoing(k', l');
  }

  lemma TakeFlows(k: State, k': State, r: nat)
    requires Shape(k) && Shape(k') && r < NPROC && k.proc[r].hasMessage && !k'.proc[r].hasMessage
    requires k'.queues[r] == k.queues[r]
    requires forall x :: 0 <= x < NPROC ==> k'.proc[x].msgout == k.proc[x].msgout
    ensures Pending(k, r) == [k.proc[r].msgin] + Pending(k', r)
  {
    assert Outgoing(k', k'.queues[r]) == Outgoing(k, k.queues[r]);
  }

  lemma CollectFlows(k: State, p: nat, r: nat)
    requires Inv(k) && p < NPROC && r < NPROC && k.proc[p].state == PRCURR
    requires !k.proc[p].pc.Waking? && k.proc[p].hasMessage
    ensures var k' := Collect(k, p);
            && Shape(k')
            && (p == r ==> Pending(k, r) == [k.proc[r].msgin] + Pending(k', r) && InOrder(k', r))
            && (p != r ==> SameChannel(k, k', r))
  {
    hide MidInv;
    hide Collect;
    hide Placed;
    hide Pending;
    MidParts(k);
    var k' := Collect(k, p);
    if k.queues[p] == [] {
      CollectPlain(k, p);
      if p == r { TakeFlows(k, k', r); }
    } else {
      AdmitIs(k, p);
      if p == r {
        AdmitFlows(k, k', r, k.queues[r][0]);
      } else {
        AdmitElsewhere(k, p, r);
      }
    }
  }

  lemma AdmitElsewhere(k: State, p: nat, r: nat)
    requires Inv(k) && p < NPROC && r < NPROC && p != r && k.queues[p] != []
    requires k.proc[p].state == PRCURR && !k.proc[p].pc.Waking? && k.proc[p].hasMessage
    ensures SameChannel(k, Collect(k, p), r)
  {
    hide MidInv;
    hide Collect;
    MidParts(k);
    AdmitIs(k, p);
    var s := k.queues[p][0];
    assert s in k.queues[p];
    assert s !in k.queues[r];
  }

  lemma DepositFlows(k: State, p: nat, pid: nat, msg: int, r: nat)
    requires Inv(k) && p < NPROC && pid < NPROC && r < NPROC && k.proc[p].state == PRCURR && k.proc[p].pc == Idle
    requires k.proc[pid].state != PRFREE && !k.proc[pid].hasMessage
    ensures var k' := Deposit(k, p, pid, msg);
            && Shape(k')
            && (pid == r ==> Pending(k', r) == [msg] + Pending(k, r))
            && (pid != r ==> SameChannel(k, k', r))
  {
    hide MidInv;
    hide Deposit;
    hide Pending;
    MidParts(k);
    DepositIs(k, p, pid, msg);
    if pid == r { SlotFlows(k, Deposit(k, p, pid, msg), r, msg); }
  }

  lemma SendFlows(w: nat, k: State, s: Step, r: nat)
    requires Inv(k) && Enabled(w, k, s) && s.DoSend? && r < NPROC
    ensures Flows(w, k, s, r)
  {
    hide MidInv;
    hide Deposit;
    hide Pending;
    MidParts(k);
    var p, k' := k.cores[s.c].currpid, Next(w, k, s);
    AbsentUnlessQueued(k, p);
    if IsBadPid(k, s.pid) {
      SameFlows(w, k, s, r);
    } else if k.proc[s.pid].hasMessage {
      if s.pid == r {
        QueueFlows(k, k', r, p, s.msg);
        assert [] + Pending(k', r) == Pending(k', r);
        OrderedFlows(w, k, s, r);
      } else {
        SameFlows(w, k, s, r);
      }
    } else {
      DepositFlows(k, p, s.pid, s.msg, r);
      DepositedFlows(w, k, s, r);
    }
  }

  lemma SendNowFlows(w: nat, k: State, s: Step, r: nat)
    requires Inv(k) && Enabled(w, k, s) && s.DoSendNow? && r < NPROC
    ensures Flows(w, k, s, r)
  {
    hide MidInv;
    hide Deposit;
    hide Pending;
    MidParts(k);
    var p, k' := k.cores[s.c].currpid, Next(w, k, s);
    if IsBadPid(k, s.pid) || k.proc[s.pid].hasMessage {
      SameFlows(w, k, s, r);
    } else {
      DepositFlows(k, p, s.pid, s.msg, r);
      DepositedFlows(w, k, s, r);
    }
  }

  /** One more m at the end is one more in front exactly when there is nothing but m. */
  lemma SameEitherEnd(o: seq<int>, m: int)
    ensures o + [m] == [m] + o <==> forall i :: 0 <= i < |o| ==> o[i] == m
  {
    if forall i :: 0 <= i < |o| ==> o[i] == m { assert o + [m] == [m] + o; }
    if o + [m] == [m] + o {
      forall i | 0 <= i < |o| ensures o[i] == m { AllTheSame(o, m, i); }
    }
  }

  lemma {:induction false} AllTheSame(o: seq<int>, m: int, i: nat)
    requires o + [m] == [m] + o && i < |o|
    ensures o[i] == m
    decreases i
  {
    assert (o + [m])[i] == ([m] + o)[i];
    if i > 0 { AllTheSame(o, m, i - 1); }
  }

  lemma DepositedFlows(w: nat, k: State, s: Step, r: nat)
    requires Enabled(w, k, s) && (s.DoSend? || s.DoSendNow?) && r < NPROC && Shape(Next(w, k, s))
    requires !IsBadPid(k, s.pid) && !k.proc[s.pid].hasMessage
    requires s.pid == r ==> Pending(Next(w, k, s), r) == [s.msg] + Pending(k, r)
    requires s.pid != r ==> SameChannel(k, Next(w, k, s), r)
    ensures Flows(w, k, s, r)
  {
    hide Next;
    hide Pending;
    if s.pid == r {
      EmptySlot(k, r);
      SlotTaken(Outgoing(k, k.queues[r]), s.msg);
    } else {
      SameFlows(w, k, s, r);
    }
  }

  lemma EmptySlot(k: State, r: nat)
    requires Shape(k) && r < NPROC && !k.proc[r].hasMessage
    ensures Pending(k, r) == Outgoing(k, k.queues[r]) && |Outgoing(k, k.queues[r])| == |k.queues[r]|
  {
  }

  lemma SlotTaken(o: seq<int>, m: int)
    ensures o + [m] == [] + ([m] + o) <==> forall i :: 0 <= i < |o| ==> o[i] == m
    ensures multiset(o) + multiset([m]) == multiset([]) + multiset([m] + o)
  {
    SameEitherEnd(o, m);
    assert [] + ([m] + o) == [m] + o;
    assert multiset([m] + o) == multiset([m]) + multiset(o);
  }

  lemma RecvFlows(w: nat, k: State, s: Step, r: nat)
    requires Inv(k) && Enabled(w, k, s) && (s.DoRecv? || s.DoCollect?) && r < NPROC
    ensures Flows(w, k, s, r)
  {
    hide MidInv;
    hide Collect;
    hide Pending;
    MidParts(k);
    var p := k.cores[s.c].currpid;
    if s.DoCollect? { ResumedHasMessage(k, s.c); }
    if k.proc[p].hasMessage {
      CollectFlows(k, p, r);
      if p == r {
        assert Pending(k, r) + [] == Pending(k, r);
        OrderedFlows(w, k, s, r);
      } else {
        SameFlows(w, k, s, r);
      }
    } else {
      SameFlows(w, k, s, r);
    }
  }

  lemma RecvNowFlows(w: nat, k: State, s: Step, r: nat)
    requires Inv(k) && Enabled(w, k, s) && s.DoRecvNow? && r < NPROC
    ensures Flows(w, k, s, r)
  {
    hide MidInv;
    hide Pending;
    MidParts(k);
    var p, k' := k.cores[s.c].currpid, Next(w, k, s);
    if p == r && k.proc[r].hasMessage {
      TakeFlows(k, k', r);
      assert Pending(k, r) + [] == Pending(k, r);
      OrderedFlows(w, k, s, r);
    } else {
      SameFlows(w, k, s, r);
    }
  }

  // ----- steps that carry no message -----

  /** Only the state of processes changes, and no message queue or slot does. */
  ghost predicate SameMail(k: State, k': State) {
    && Shape(k) && Shape(k') && (forall q :: 0 <= q < NPROC ==> k'.queues[q] == k.queues[q])
    && forall x :: 0 <= x < NPROC ==> SameSlotMail(k.proc[x], k'.proc[x])
  }

  predicate SameSlotMail(b: Pcb, b': Pcb) {
    && b'.hasMessage == b.hasMessage && b'.msgin == b.msgin && b'.msgout == b.msgout
    && (b'.state == PRFREE <==> b.state == PRFREE)
  }

  lemma MailChannel(k: State, k': State, r: nat)
    requires SameMail(k, k') && r < NPROC
    ensures SameChannel(k, k', r)
  {
    assert SameSlotMail(k.proc[r], k'.proc[r]);
    forall x | 0 <= x < NPROC ensures k'.proc[x].msgout == k.proc[x].msgout {
      assert SameSlotMail(k.proc[x], k'.proc[x]);
    }
  }

  lemma MailThen(k: State, k1: State, k2: State)
    requires SameMail(k, k1) && SameMail(k1, k2)
    ensures SameMail(k, k2)
  {
    forall x | 0 <= x < NPROC ensures SameSlotMail(k.proc[x], k2.proc[x]) {
      assert SameSlotMail(k.proc[x], k1.proc[x]) && SameSlotMail(k1.proc[x], k2.proc[x]);
    }
  }

  lemma AgeMail(k: State, c: nat)
    requires Shape(k) && c < NCORES
    ensures SameMail(k, Age(k, c))
  {
  }

  lemma RequeueMail(k: State, c: nat)
    requires Shape(k) && c < NCORES
    ensures SameMail(k, Requeue(k, c))
  {
  }

  lemma ReschedMail(k: State, c: nat)
    requires MidInv(k) && c < NCORES && RunsAtHome(k, c)
    ensures SameMail(k, Resched(k, c))
  {
    hide MidInv;
    hide Age;
    hide Requeue;
    hide SameSlotMail;
    MidParts(k);
    AgeKeeps(k, c);
    var ka := Age(k, c);
    AgeMail(k, c);
    MidParts(ka);
    RequeueKeeps(ka, c);
    var kr := Requeue(ka, c);
    MidParts(kr);
    RequeueMail(ka, c);
    PickMail(kr, c);
    MailThen(k, ka, kr);
    MailThen(k, kr, Pick(kr, c));
  }

  lemma PickMail(k: State, c: nat)
    requires MidInv(k) && c < NCORES
    ensures SameMail(k, Pick(k, c))
  {
    hide MidInv;
    MidParts(k);
    if k.queues[ReadyQ(c, Level(k, c))] != [] { PickMembers(k, c); }
  }

  lemma TickMail(k: State, c: nat)
    requires Inv(k) && c < NCORES
    ensures SameMail(k, Tick(k, c))
  {
    hide MidInv;
    hide Resched;
    MidParts(k);
    TickMayResched(k, c);
    var k1 := k.(cores := k.cores[c := Ticked(k.cores[c])]);
    assert SameMail(k, k1);
    if k.cores[c].preempt == 1 {
      ReschedMail(k1, c);
      MailThen(k, k1, Resched(k1, c));
    }
  }

  lemma KillMail(w: nat, k: State, s: Step, r: nat)
    requires Inv(k) && Enabled(w, k, s) && s.DoKill? && r < NPROC
    ensures SameChannel(k, Next(w, k, s), r)
  {
    hide MidInv;
    hide Resched;
    hide FreeStack;
    MidParts(k);
    if !KillRefused(k, s.c, s.pid) {
      var k' := Buried(w, k, s.pid);
      BuriedRetires(w, k, s.pid);
      BuriedFits(w, k, s.c, s.pid);
      if k.proc[s.pid].state == PRREADY {
        assert QueueFits(k, r);
        assert s.pid in k.queues[r] ==> MemberFits(k, r, s.pid);
        MinusNone(k.queues[r], s.pid);
      }
      assert SameChannel(k, k', r);
      if k.proc[s.pid].state == PRCURR {
        ReschedMail(k', s.c);
        MailChannel(k', Resched(k', s.c), r);
      }
    }
  }

  /** kill touches no mail: what was pending for a process is pending for its slot. */
  lemma KillKeepsPending(w: nat, k: State, s: Step, r: nat)
    requires Inv(k) && Enabled(w, k, s) && s.DoKill? && r < NPROC
    ensures Shape(Next(w, k, s)) && Pending(Next(w, k, s), r) == Pending(k, r)
  {
    hide Inv;
    hide Next;
    KillMail(w, k, s, r);
    SamePending(k, Next(w, k, s), r);
  }

  /**
    A process created in slot r finds its predecessor's message gone, and what the predecessor's
    waiting senders hold still to come: nothing exactly when none waits.
  */
  lemma CreateInherits(w: nat, k: State, s: Step, r: nat)
    requires Inv(k) && Enabled(w, k, s) && s.DoCreate? && r < NPROC
    requires Fills(w, k, s.c, s.ssize, r)
    ensures Shape(Next(w, k, s)) && Pending(Next(w, k, s), r) == Outgoing(k, k.queues[r])
    ensures Pending(k, r) == (if k.proc[r].hasMessage then [k.proc[r].msgin] else []) + Pending(Next(w, k, s), r)
    ensures Pending(Next(w, k, s), r) != [] <==> k.queues[r] != []
  {
    hide MidInv;
    hide NewPid;
    hide GetMem;
    hide StackSize;
    hide GetsStack;
    MidParts(k);
    var k' := Create(w, k, s.c, s.ssize, s.priority).1;
    CreateSlot(w, k, s.c, s.ssize, s.priority);
    NewPidFree(k, k.nextpid, NPROC);
    assert ProcFits(k, r);
    AbsentUnlessQueued(k, r);
    var l := k.queues[r];
    forall i | 0 <= i < |l| ensures Outgoing(k', l)[i] == Outgoing(k, l)[i] { assert l[i] in l; }
    assert Outgoing(k', l) == Outgoing(k, l);
  }

  lemma CreateFlows(w: nat, k: State, s: Step, r: nat)
    requires Inv(k) && Enabled(w, k, s) && s.DoCreate? && r < NPROC
    ensures Flows(w, k, s, r)
  {
    hide MidInv;
    hide NewPid;
    hide GetMem;
    hide StackSize;
    hide Pending;
    hide GetsStack;
    MidParts(k);
    var (pid, k') := Create(w, k, s.c, s.ssize, s.priority);
    CreateSlot(w, k, s.c, s.ssize, s.priority);
    NewPidFree(k, k.nextpid, NPROC);
    if pid == Some(r) {
      CreateInherits(w, k, s, r);
      CreatedFlows(w, k, s, r);
    } else {
      if pid.Some? {
        assert ProcFits(k, pid.value);
        AbsentUnlessQueued(k, pid.value);
      }
      SameFlows(w, k, s, r);
    }
  }

  lemma CreatedFlows(w: nat, k: State, s: Step, r: nat)
    requires Enabled(w, k, s) && s.DoCreate? && r < NPROC && Shape(Next(w, k, s))
    requires Fills(w, k, s.c, s.ssize, r)
    requires Pending(k, r) == (if k.proc[r].hasMessage then [k.proc[r].msgin] else []) + Pending(Next(w, k, s), r)
    ensures Flows(w, k, s, r)
  {
    hide Next;
    hide Pending;
    var a, b := Pending(k, r), Pending(Next(w, k, s), r);
    assert a + [] == a && [] + b == b;
    assert |multiset(a)| == |a| && |multiset(b)| == |b|;
    if k.proc[r].hasMessage {
      assert |a| == |b| + 1;
    } else {
      assert a == b;
    }
  }

  /**
    Every step keeps the order of the messages to r if and only if it neither puts one in front of
    a waiting sender's nor creates a process over an unread one; and it loses or makes up none if
    and only if it does not do the latter.
  */
  lemma StepFlows(w: nat, k: State, s: Step, r: nat)
    requires Inv(k) && Enabled(w, k, s) && r < NPROC
    ensures Shape(Next(w, k, s))
    ensures KeepsOrder(w, k, s, r) <==> !JumpsQueue(k, s, r) && !DropsMail(w, k, s, r)
    ensures KeepsMail(w, k, s, r) <==> !DropsMail(w, k, s, r)
  {
    hide MidInv;
    hide Resched;
    hide Tick;
    hide WakeBody;
    hide Kill;
    hide Create;
    hide KeepsOrder;
    hide KeepsMail;
    MidParts(k);
    match s {
      case DoResched(c) => InvMayResched(k, c); ReschedMail(k, c); MailFlows(w, k, s, r);
      case DoTick(c) => TickMail(k, c); MailFlows(w, k, s, r);
      case DoSend(_, _, _) => SendFlows(w, k, s, r);
      case DoSendNow(_, _, _) => SendNowFlows(w, k, s, r);
      case DoRecv(_) => RecvFlows(w, k, s, r);
      case DoCollect(_) => RecvFlows(w, k, s, r);
      case DoRecvNow(_) => RecvNowFlows(w, k, s, r);
      case DoReturn(_) => MailFlows(w, k, s, r);
      case DoWake(c) => WakeMail(k, k.cores[c].currpid); MailFlows(w, k, s, r);
      case DoReady(_, pid, _) => MailFlows(w, k, s, r);
      case DoCreate(_, _, _) => CreateFlows(w, k, s, r);
      case DoKill(_, _) => KillMail(w, k, s, r); SameFlows(w, k, s, r);
    }
  }

  lemma MailFlows(w: nat, k: State, s: Step, r: nat)
    requires Enabled(w, k, s) && r < NPROC && SameMail(k, Next(w, k, s))
    requires s.DoResched? || s.DoTick? || s.DoReturn? || s.DoWake? || s.DoReady?
    ensures Flows(w, k, s, r)
  {
    hide Next;
    MailChannel(k, Next(w, k, s), r);
    SameFlows(w, k, s, r);
  }

  lemma WakeMail(k: State, p: nat)
    requires Inv(k) && p < NPROC && k.proc[p].state == PRCURR && k.proc[p].pc.Waking?
    ensures k.proc[p].pc.target < NPROC && SameMail(k, WakeBody(k, p))
  {
    hide MidInv;
    hide WakeBody;
    MidParts(k);
    if Owes(k, p) { WakeIs(k, p); } else { WakeStaleIs(k, p); }
  }

  // ----- runs -----

  ghost function AllAccepted(w: nat, ks: seq<State>, steps: seq<Step>, r: nat, n: nat): seq<int>
    requires Run(w, ks, steps) && r < NPROC && n <= |steps|
  {
    if n == 0 then [] else AllAccepted(w, ks, steps, r, n - 1) + Accepted(w, ks[n - 1], steps[n - 1], r)
  }

  ghost function AllReceived(w: nat, ks: seq<State>, steps: seq<Step>, r: nat, n: nat): seq<int>
    requires Run(w, ks, steps) && r < NPROC && n <= |steps|
  {
    if n == 0 then [] else AllReceived(w, ks, steps, r, n - 1) + Received(w, ks[n - 1], steps[n - 1], r)
  }

  /** After n steps: what r received, then what is pending, is what was pending and accepted, in order. */
  ghost predicate FifoAt(w: nat, ks: seq<State>, steps: seq<Step>, r: nat, n: nat)
    requires Run(w, ks, steps) && r < NPROC && n <= |steps| && Shape(ks[0]) && Shape(ks[n])
  {
    Pending(ks[0], r) + AllAccepted(w, ks, steps, r, n) == AllReceived(w, ks, steps, r, n) + Pending(ks[n], r)
  }

  ghost predicate BalancedAt(w: nat, ks: seq<State>, steps: seq<Step>, r: nat, n: nat)
    requires Run(w, ks, steps) && r < NPROC && n <= |steps| && Shape(ks[0]) && Shape(ks[n])
  {
    multiset(Pending(ks[0], r)) + multiset(AllAccepted(w, ks, steps, r, n))
      == multiset(AllReceived(w, ks, steps, r, n)) + multiset(Pending(ks[n], r))
  }

  ghost predicate JumpsAt(w: nat, ks: seq<State>, steps: seq<Step>, r: nat, i: nat)
    requires Run(w, ks, steps) && r < NPROC && i < |steps|
  {
    Enabled(w, ks[i], steps[i]) && JumpsQueue(ks[i], steps[i], r)
  }

  ghost predicate DropsAt(w: nat, ks: seq<State>, steps: seq<Step>, r: nat, i: nat)
    requires Run(w, ks, steps) && r < NPROC && i < |steps|
  {
    Enabled(w, ks[i], steps[i]) && DropsMail(w, ks[i], steps[i], r)
  }

  lemma InvShape(k: State)
    requires Inv(k)
    ensures Shape(k)
  {
  }

  lemma RunShapes(w: nat, ks: seq<State>, steps: seq<Step>)
    requires Run(w, ks, steps) && Inv(ks[0])
    ensures forall i :: 0 <= i < |ks| ==> Shape(ks[i])
  {
    hide Enabled;
    hide Next;
    hide Inv;
    forall i | 0 <= i < |ks| ensures Shape(ks[i]) {
      KernelRuns.RunKeeps(w, ks, steps, i);
      InvShape(ks[i]);
    }
  }

  /** If the order is right before a step, it is right after it exactly when the step keeps it. */
  lemma FifoStep(w: nat, ks: seq<State>, steps: seq<Step>, r: nat, n: nat)
    requires Run(w, ks, steps) && Inv(ks[0]) && r < NPROC && 0 < n <= |steps|
    requires Shape(ks[0]) && Shape(ks[n - 1]) && Shape(ks[n]) && FifoAt(w, ks, steps, r, n - 1)
    ensures FifoAt(w, ks, steps, r, n) <==> !JumpsAt(w, ks, steps, r, n - 1) && !DropsAt(w, ks, steps, r, n - 1)
  {
    hide Enabled;
    hide Inv;
    hide Pending;
    hide Next;
    hide JumpsQueue;
    hide DropsMail;
    var k, s := ks[n - 1], steps[n - 1];
    KernelRuns.RunKeeps(w, ks, steps, n - 1);
    StepFlows(w, k, s, r);
    Shift(Pending(ks[0], r), AllAccepted(w, ks, steps, r, n - 1), Accepted(w, k, s, r),
          AllReceived(w, ks, steps, r, n - 1), Received(w, k, s, r), Pending(k, r), Pending(ks[n], r));
  }

  lemma Shift(a: seq<int>, b: seq<int>, x: seq<int>, c: seq<int>, y: seq<int>, p: seq<int>, p': seq<int>)
    requires a + b == c + p
    ensures a + (b + x) == (c + y) + p' <==> p + x == y + p'
  {
    assert a + (b + x) == (a + b) + x == (c + p) + x == c + (p + x);
    assert (c + y) + p' == c + (y + p');
    if c + (p + x) == c + (y + p') {
      assert p + x == (c + (p + x))[|c|..] == (c + (y + p'))[|c|..] == y + p';
    }
  }

  /**
    FIFO, exactly: along a run the messages received by r, then those pending, are at every point
    those accepted, in order, if and only if no message of the run was put in front of a waiting
    sender's and no process was created over an unread one.
  */
  lemma FifoIff(w: nat, ks: seq<State>, steps: seq<Step>, r: nat)
    requires Run(w, ks, steps) && Inv(ks[0]) && r < NPROC
    ensures forall i :: 0 <= i < |ks| ==> Shape(ks[i])
    ensures (forall n :: 0 <= n <= |steps| ==> FifoAt(w, ks, steps, r, n))
       <==> (forall i :: 0 <= i < |steps| ==> !JumpsAt(w, ks, steps, r, i) && !DropsAt(w, ks, steps, r, i))
  {
    hide Enabled;
    hide Next;
    hide Inv;
    hide FifoAt;
    hide JumpsAt;
    hide DropsAt;
    RunShapes(w, ks, steps);
    if forall n :: 0 <= n <= |steps| ==> FifoAt(w, ks, steps, r, n) {
      forall i | 0 <= i < |steps| ensures !JumpsAt(w, ks, steps, r, i) && !DropsAt(w, ks, steps, r, i) {
        assert FifoAt(w, ks, steps, r, i) && FifoAt(w, ks, steps, r, i + 1);
        FifoStep(w, ks, steps, r, i + 1);
      }
    } else if forall i :: 0 <= i < |steps| ==> !JumpsAt(w, ks, steps, r, i) && !DropsAt(w, ks, steps, r, i) {
      forall n | 0 <= n <= |steps| ensures FifoAt(w, ks, steps, r, n) { FifoHolds(w, ks, steps, r, n); }
    }
  }

  lemma {:induction false} FifoHolds(w: nat, ks: seq<State>, steps: seq<Step>, r: nat, n: nat)
    requires Run(w, ks, steps) && Inv(ks[0]) && r < NPROC && n <= |steps|
    requires forall i :: 0 <= i < |ks| ==> Shape(ks[i])
    requires forall i :: 0 <= i < n ==> !JumpsAt(w, ks, steps, r, i) && !DropsAt(w, ks, steps, r, i)
    ensures FifoAt(w, ks, steps, r, n)
  {
    hide Enabled;
    hide Next;
    hide Inv;
    hide JumpsAt;
    hide DropsAt;
    if n == 0 {
      assert Pending(ks[0], r) + [] == [] + Pending(ks[0], r);
    } else {
      FifoHolds(w, ks, steps, r, n - 1);
      FifoStep(w, ks, steps, r, n);
    }
  }

  lemma BalanceStep(w: nat, ks: seq<State>, steps: seq<Step>, r: nat, n: nat)
    requires Run(w, ks, steps) && Inv(ks[0]) && r < NPROC && 0 < n <= |steps|
    requires Shape(ks[0]) && Shape(ks[n - 1]) && Shape(ks[n]) && BalancedAt(w, ks, steps, r, n - 1)
    ensures BalancedAt(w, ks, steps, r, n) <==> !DropsAt(w, ks, steps, r, n - 1)
  {
    hide Enabled;
    hide Inv;
    hide Pending;
    hide Next;
    hide DropsMail;
    var k, s := ks[n - 1], steps[n - 1];
    KernelRuns.RunKeeps(w, ks, steps, n - 1);
    StepFlows(w, k, s, r);
    Balance(Pending(ks[0], r), AllAccepted(w, ks, steps, r, n - 1), Accepted(w, k, s, r),
            AllReceived(w, ks, steps, r, n - 1), Received(w, k, s, r), Pending(k, r), Pending(ks[n], r));
  }

  lemma Balance(a: seq<int>, b: seq<int>, x: seq<int>, c: seq<int>, y: seq<int>, p: seq<int>, p': seq<int>)
    requires multiset(a) + multiset(b) == multiset(c) + multiset(p)
    ensures multiset(a) + multiset(b + x) == multiset(c + y) + multiset(p')
       <==> multiset(p) + multiset(x) == multiset(y) + multiset(p')
  {
    assert multiset(b + x) == multiset(b) + multiset(x);
    assert multiset(c + y) == multiset(c) + multiset(y);
    BagShift(multiset(a), multiset(b), multiset(x), multiset(c), multiset(y), multiset(p), multiset(p'));
  }

  lemma BagShift(a: multiset<int>, b: multiset<int>, x: multiset<int>, c: multiset<int>, y: multiset<int>,
                 p: multiset<int>, p': multiset<int>)
    requires a + b == c + p
    ensures a + (b + x) == (c + y) + p' <==> p + x == y + p'
  {
    forall m: int ensures (a + (b + x))[m] == ((c + y) + p')[m] <==> (p + x)[m] == (y + p')[m] {
      assert (a + b)[m] == (c + p)[m];
    }
    if a + (b + x) == (c + y) + p' {
      forall m: int ensures (p + x)[m] == (y + p')[m] { assert (a + (b + x))[m] == ((c + y) + p')[m]; }
    }
    if p + x == y + p' {
      forall m: int ensures (a + (b + x))[m] == ((c + y) + p')[m] { assert (p + x)[m] == (y + p')[m]; }
    }
  }

  /**
    With recvnow at any time the order may go; but at every point of a run what was accepted is
    what was received and what is pending, if and only if no process was created over an unread
    message.
  */
  lemma NoneLostIff(w: nat, ks: seq<State>, steps: seq<Step>, r: nat)
    requires Run(w, ks, steps) && Inv(ks[0]) && r < NPROC
    ensures forall i :: 0 <= i < |ks| ==> Shape(ks[i])
    ensures (forall n :: 0 <= n <= |steps| ==> BalancedAt(w, ks, steps, r, n))
       <==> (forall i :: 0 <= i < |steps| ==> !DropsAt(w, ks, steps, r, i))
  {
    hide Enabled;
    hide Next;
    hide Inv;
    hide BalancedAt;
    hide DropsAt;
    RunShapes(w, ks, steps);
    if forall n :: 0 <= n <= |steps| ==> BalancedAt(w, ks, steps, r, n) {
      forall i | 0 <= i < |steps| ensures !DropsAt(w, ks, steps, r, i) {
        assert BalancedAt(w, ks, steps, r, i) && BalancedAt(w, ks, steps, r, i + 1);
        BalanceStep(w, ks, steps, r, i + 1);
      }
    } else if forall i :: 0 <= i < |steps| ==> !DropsAt(w, ks, steps, r, i) {
      forall n | 0 <= n <= |steps| ensures BalancedAt(w, ks, steps, r, n) { BalanceHolds(w, ks, steps, r, n); }
    }
  }

  lemma {:induction false} BalanceHolds(w: nat, ks: seq<State>, steps: seq<Step>, r: nat, n: nat)
    requires Run(w, ks, steps) && Inv(ks[0]) && r < NPROC && n <= |steps|
    requires forall i :: 0 <= i < |ks| ==> Shape(ks[i])
    requires forall i :: 0 <= i < n ==> !DropsAt(w, ks, steps, r, i)
    ensures BalancedAt(w, ks, steps, r, n)
  {
    hide Enabled;
    hide Next;
    hide Inv;
    hide DropsAt;
    if n > 0 {
      BalanceHolds(w, ks, steps, r, n - 1);
      BalanceStep(w, ks, steps, r, n);
    }
  }

  // ----- calls that keep the order -----

  /** Nobody waits behind an empty slot. */
  ghost predicate InOrder(k: State, r: nat)
    requires Shape(k) && r < NPROC
  {
    k.queues[r] != [] ==> k.proc[r].hasMessage
  }

  /** A free slot of the process table holds no messages. */
  ghost predicate FreeIsEmpty(k: State, r: nat)
    requires Shape(k) && r < NPROC
  {
    k.proc[r].state == PRFREE ==> !k.proc[r].hasMessage && k.queues[r] == []
  }

  /** recvnow while senders wait. */
  ghost predicate Overtakes(k: State, s: Step, r: nat)
    requires Shape(k) && s.c < NCORES && r < NPROC
  {
    s.DoRecvNow? && k.cores[s.c].currpid == r && k.queues[r] != []
  }

  /** A kill of r while messages to it are pending. */
  ghost predicate KillsWithMail(k: State, s: Step, r: nat)
    requires Shape(k) && r < NPROC
  {
    s.DoKill? && s.pid == r && !KillRefused(k, s.c, s.pid) && Pending(k, r) != []
  }

  ghost predicate Orderly(w: nat, k: State, s: Step, r: nat)
    requires Enabled(w, k, s) && r < NPROC
  {
    !Overtakes(k, s, r) && !KillsWithMail(k, s, r)
  }

  lemma MailOrderly(k: State, k': State, r: nat)
    requires SameMail(k, k') && r < NPROC && InOrder(k, r) && FreeIsEmpty(k, r)
    ensures InOrder(k', r) && FreeIsEmpty(k', r)
  {
    assert SameSlotMail(k.proc[r], k'.proc[r]);
  }

  lemma KillOrderly(w: nat, k: State, s: Step, r: nat)
    requires Inv(k) && Enabled(w, k, s) && s.DoKill? && r < NPROC
    requires InOrder(k, r) && FreeIsEmpty(k, r) && !KillsWithMail(k, s, r)
    ensures Shape(Next(w, k, s)) && InOrder(Next(w, k, s), r) && FreeIsEmpty(Next(w, k, s), r)
  {
    hide MidInv;
    hide Resched;
    hide Drop;
    hide FreeStack;
    MidParts(k);
    KillMail(w, k, s, r);
    if !KillRefused(k, s.c, s.pid) && s.pid != r && k.proc[s.pid].state == PRCURR {
      BuriedFits(w, k, s.c, s.pid);
      var k' := Buried(w, k, s.pid);
      ReschedMail(k', s.c);
      assert SameSlotMail(k'.proc[r], Resched(k', s.c).proc[r]);
    }
    if k.queues[r] != [] { assert |Pending(k, r)| > 0; }
  }

  /** A step that is neither leaves nobody behind an empty slot and every free slot empty. */
  lemma StepOrderly(w: nat, k: State, s: Step, r: nat)
    requires Inv(k) && Enabled(w, k, s) && r < NPROC && InOrder(k, r) && FreeIsEmpty(k, r) && Orderly(w, k, s, r)
    ensures Shape(Next(w, k, s)) && InOrder(Next(w, k, s), r) && FreeIsEmpty(Next(w, k, s), r)
    ensures !JumpsQueue(k, s, r) && !DropsMail(w, k, s, r)
  {
    hide MidInv;
    hide Resched;
    hide Tick;
    hide WakeBody;
    hide Collect;
    hide SendBody;
    hide SendNowBody;
    hide Kill;
    hide NewPid;
    hide GetMem;
    hide StackSize;
    MidParts(k);
    var p, k' := k.cores[s.c].currpid, Next(w, k, s);
    NewPidFree(k, k.nextpid, NPROC);
    match s {
      case DoResched(c) => InvMayResched(k, c); ReschedMail(k, c); MailOrderly(k, k', r);
      case DoTick(c) => TickMail(k, c); MailOrderly(k, k', r);
      case DoSend(_, pid, msg) => SendOrderly(k, p, pid, msg, r);
      case DoSendNow(_, pid, msg) => SendOrderly(k, p, pid, msg, r);
      case DoRecv(_) => if k.proc[p].hasMessage { CollectOrderly(k, p, r); }
      case DoCollect(c) => ResumedHasMessage(k, c); CollectOrderly(k, p, r);
      case DoWake(c) => WakeMail(k, p); MailOrderly(k, k', r);
      case DoKill(_, _) => KillOrderly(w, k, s, r);
      case _ =>
    }
  }

  lemma SendOrderly(k: State, p: nat, pid: int, msg: int, r: nat)
    requires Inv(k) && p < NPROC && r < NPROC && InOrder(k, r) && FreeIsEmpty(k, r)
    requires k.proc[p].state == PRCURR && k.proc[p].pc == Idle
    ensures var k' := SendBody(k, p, pid, msg); Shape(k') && InOrder(k', r) && FreeIsEmpty(k', r)
    ensures var k' := SendNowBody(k, p, pid, msg); Shape(k') && InOrder(k', r) && FreeIsEmpty(k', r)
  {
    hide MidInv;
    hide Deposit;
    MidParts(k);
    if !IsBadPid(k, pid) && !k.proc[pid].hasMessage { DepositIs(k, p, pid, msg); }
  }

  lemma CollectOrderly(k: State, p: nat, r: nat)
    requires Inv(k) && p < NPROC && r < NPROC && InOrder(k, r) && FreeIsEmpty(k, r)
    requires k.proc[p].state == PRCURR && !k.proc[p].pc.Waking? && k.proc[p].hasMessage
    ensures Shape(Collect(k, p)) && InOrder(Collect(k, p), r) && FreeIsEmpty(Collect(k, p), r)
  {
    hide MidInv;
    hide Collect;
    hide Pending;
    MidParts(k);
    CollectFlows(k, p, r);
    if k.queues[p] == [] { CollectPlain(k, p); } else { AdmitIs(k, p); }
  }

  /**
    So FIFO holds along every run in which r calls recvnow only when no sender waits and is killed
    only with nothing pending, and waiting senders then always imply a full slot.
  */
  lemma Fifo(w: nat, ks: seq<State>, steps: seq<Step>, r: nat)
    requires Run(w, ks, steps) && Inv(ks[0]) && r < NPROC && Shape(ks[0])
    requires InOrder(ks[0], r) && FreeIsEmpty(ks[0], r)
    requires forall i :: 0 <= i < |steps| ==> Orderly(w, ks[i], steps[i], r)
    ensures forall i :: 0 <= i < |ks| ==> Shape(ks[i])
    ensures forall i :: 0 <= i < |ks| ==> InOrder(ks[i], r)
    ensures forall n :: 0 <= n <= |steps| ==> FifoAt(w, ks, steps, r, n)
  {
    hide Enabled;
    hide Next;
    hide Inv;
    hide FifoAt;
    hide Orderly;
    hide InOrder;
    RunShapes(w, ks, steps);
    forall i | 0 <= i < |ks| ensures InOrder(ks[i], r) { RunOrderly(w, ks, steps, r, i); }
    forall i | 0 <= i < |steps| ensures !JumpsAt(w, ks, steps, r, i) && !DropsAt(w, ks, steps, r, i) {
      RunOrderly(w, ks, steps, r, i);
      KernelRuns.RunKeeps(w, ks, steps, i);
      StepOrderly(w, ks[i], steps[i], r);
    }
    FifoIff(w, ks, steps, r);
  }

  lemma {:induction false} RunOrderly(w: nat, ks: seq<State>, steps: seq<Step>, r: nat, i: nat)
    requires Run(w, ks, steps) && Inv(ks[0]) && r < NPROC && i < |ks|
    requires forall j :: 0 <= j < |ks| ==> Shape(ks[j])
    requires InOrder(ks[0], r) && FreeIsEmpty(ks[0], r)
    requires forall j :: 0 <= j < |steps| ==> Orderly(w, ks[j], steps[j], r)
    ensures InOrder(ks[i], r) && FreeIsEmpty(ks[i], r)
  {
    hide Enabled;
    hide Next;
    hide Inv;
    hide Orderly;
    hide InOrder;
    hide FreeIsEmpty;
    if i > 0 {
      RunOrderly(w, ks, steps, r, i - 1);
      KernelRuns.RunKeeps(w, ks, steps, i - 1);
      StepOrderly(w, ks[i - 1], steps[i - 1], r);
    }
  }

  // ----- what recvnow past a waiting sender leads to -----

  /** recv blocks although mail is pending exactly when senders wait behind an empty slot. */
  lemma RecvBlocksIff(w: nat, k: State, c: nat, r: nat)
    requires Inv(k) && Enabled(w, k, DoRecv(c)) && r == k.cores[c].currpid
    ensures r < NPROC && Shape(Next(w, k, DoRecv(c)))
    ensures Next(w, k, DoRecv(c)).proc[r].state == PRRECV && Pending(k, r) != [] <==> !InOrder(k, r)
  {
    hide MidInv;
    hide Collect;
    MidParts(k);
    if k.proc[r].hasMessage {
      if k.queues[r] == [] { CollectPlain(k, r); } else { AdmitIs(k, r); }
    } else {
      assert |Pending(k, r)| == |k.queues[r]|;
    }
  }

  /**
    A message sent after such a recvnow is what the next recv returns, although the waiting one was
    accepted first; and the order is lost unless all those waiting are equal to it.
  */
  lemma Overtaken(w: nat, k: State, c: nat, d: nat, r: nat, msg: int)
    requires Inv(k) && Enabled(w, k, DoRecvNow(c)) && r == k.cores[c].currpid && NCORES <= r < NPROC
    requires k.proc[r].hasMessage && k.queues[r] != [] && Enabled(w, k, DoSendNow(d, r, msg)) && d != c
    ensures var k1 := Next(w, k, DoRecvNow(c));
            && Enabled(w, k1, DoSendNow(d, r, msg))
            && var k2 := Next(w, k1, DoSendNow(d, r, msg));
               && Shape(k2) && Pending(k2, r) == [msg] + Outgoing(k, k.queues[r])
               && Enabled(w, k2, DoRecv(c)) && Received(w, k2, DoRecv(c), r) == [msg]
               && (KeepsOrder(w, k1, DoSendNow(d, r, msg), r) <==>
                     forall i :: 0 <= i < |k.queues[r]| ==> Outgoing(k, k.queues[r])[i] == msg)
  {
    hide Inv;
    hide Next;
    hide KeepsOrder;
    OvertakenStates(w, k, c, d, r, msg);
    var s, k1 := DoSendNow(d, r, msg), Next(w, k, DoRecvNow(c));
    var k2, o := Next(w, k1, s), Outgoing(k, k.queues[r]);
    assert Outgoing(k2, k2.queues[r]) == o && Outgoing(k1, k1.queues[r]) == o;
    StepKeeps(w, k, DoRecvNow(c));
    StepFlows(w, k1, s, r);
    assert JumpsQueue(k1, s, r) <==> exists i :: 0 <= i < |k.queues[r]| && o[i] != msg;
  }

  lemma OvertakenStates(w: nat, k: State, c: nat, d: nat, r: nat, msg: int)
    requires Inv(k) && Enabled(w, k, DoRecvNow(c)) && r == k.cores[c].currpid && NCORES <= r < NPROC
    requires k.proc[r].hasMessage && Enabled(w, k, DoSendNow(d, r, msg)) && d != c
    ensures var k1 := Next(w, k, DoRecvNow(c));
            && k1 == k.(proc := k.proc[r := k.proc[r].(hasMessage := false)]) && Enabled(w, k1, DoSendNow(d, r, msg))
            && var b := k.proc[r].(msgin := msg, hasMessage := true);
               Next(w, k1, DoSendNow(d, r, msg)) == k.(proc := k.proc[r := b])
  {
    hide MidInv;
    hide CreateSafe;
    MidParts(k);
    assert CurrentFits(k, c) && CurrentFits(k, d);
    assert k.cores[d].currpid != r;
    var k1 := Next(w, k, DoRecvNow(c));
    assert At(k1, d, Idle);
    var k2 := Next(w, k1, DoSendNow(d, r, msg));
    assert k2.proc == k.proc[r := k.proc[r].(msgin := msg, hasMessage := true)];
  }

  /** At boot every channel is empty and in order. */
  lemma BootedChannels(rs: seq<Region>, end: nat, ptr: nat, r: nat)
    requires r < NPROC
    ensures var k := Booted(rs, end, ptr); Pending(k, r) == [] && InOrder(k, r) && FreeIsEmpty(k, r)
  {
    assert Booted(rs, end, ptr).proc[r] == BootPcb(end, ptr, r);
  }
}
