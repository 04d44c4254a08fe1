/**
  Spinlocks, instruction by instruction.  Any number of cores run lock_acquire and lock_release
  on any locks, their instructions interleaved in any order over one memory: with ldrex and
  strex on ARM, each core having an exclusive monitor, or with amoswap on RISC-V.
*/
module Spinlocks {
  import opened Types

  const LOCKED: nat := 1
  const UNLOCKED: nat := 0

  /** The next instruction of a core, with the lock its call is about. */
  datatype Pc =
    | Out                  // in neither call
    | Load(l: nat)         // ldrex, or lw
    | Test(l: nat)         // compare and branch back if locked
    | Store(l: nat)        // strex, or amoswap
    | Check(l: nat)        // branch back if the store failed, or if what was swapped out was locked
    | SetOwner(l: nat)     // locktab[l].core = getcpuid()
    | ClearOwner(l: nat)   // locktab[l].core = -1
    | Unlock(l: nat)       // str, or amoswap of zero

  /** loaded and status are the two registers; held is the set of locks the core has got and not given back. */
  datatype Cpu = Cpu(pc: Pc, loaded: nat, status: nat, monitor: Option<nat>, held: set<nat>)

  datatype State = State(lock: seq<nat>, owner: seq<int>, cpus: seq<Cpu>)

  datatype Isa = Arm | RiscV

  /** A core calls one of the two functions, runs its next instruction, or loses its reservation. */
  datatype Action = Acquire(l: nat) | Release(l: nat) | Instruction(spurious: bool) | Interrupt

  function PutCpu(s: State, c: nat, u: Cpu): State
    requires c < |s.cpus|
  {
    s.(cpus := s.cpus[c := u])
  }

  /** A write to word l takes away every reservation of it. */
  function Unreserve(s: State, l: nat): State {
    s.(cpus := seq(|s.cpus|, c requires 0 <= c < |s.cpus| =>
                     if s.cpus[c].monitor == Some(l) then s.cpus[c].(monitor := None) else s.cpus[c]))
  }

  function Write(s: State, l: nat, v: nat): State
    requires l < |s.lock|
  {
    Unreserve(s.(lock := s.lock[l := v]), l)
  }

  /** strex fails if the reservation is gone, and may fail for no reason. */
  function StoreExclusive(s: State, c: nat, l: nat, spurious: bool): State
    requires c < |s.cpus| && l < |s.lock|
  {
    var u := s.cpus[c];
    if u.monitor == Some(l) && !spurious
    then PutCpu(Write(s, l, LOCKED), c, u.(pc := Check(l), status := 0, monitor := None, held := u.held + {l}))
    else PutCpu(s, c, u.(pc := Check(l), status := 1, monitor := None))
  }

  /** amoswap stores in any case; it has taken the lock if what it swaps out is zero. */
  function Swap(s: State, c: nat, l: nat): State
    requires c < |s.cpus| && l < |s.lock|
  {
    var u := s.cpus[c];
    var held := if s.lock[l] == UNLOCKED then u.held + {l} else u.held;
    PutCpu(s.(lock := s.lock[l := LOCKED]), c, u.(pc := Check(l), status := s.lock[l], held := held))
  }

  function Run(isa: Isa, s: State, c: nat, spurious: bool): State
    requires Shape(s) && c < |s.cpus|
  {
    var u := s.cpus[c];
    match u.pc
    case Out => s
    case Load(l) =>
      PutCpu(s, c, u.(pc := Test(l), loaded := s.lock[l], monitor := if isa == Arm then Some(l) else None))
    case Test(l) =>
      var taken := if isa == Arm then u.loaded == LOCKED else u.loaded != UNLOCKED;
      PutCpu(s, c, u.(pc := if taken then Load(l) else Store(l)))
    case Store(l) => if isa == Arm then StoreExclusive(s, c, l, spurious) else Swap(s, c, l)
    case Check(l) => PutCpu(s, c, u.(pc := if u.status != 0 then Load(l) else SetOwner(l)))
    case SetOwner(l) => PutCpu(s.(owner := s.owner[l := c]), c, u.(pc := Out))
    case ClearOwner(l) => PutCpu(s.(owner := s.owner[l := -1]), c, u.(pc := Unlock(l)))
    case Unlock(l) =>
      var s1 := if isa == Arm then Write(s, l, UNLOCKED) else s.(lock := s.lock[l := UNLOCKED]);
      PutCpu(s1, c, s1.cpus[c].(pc := Out, held := u.held - {l}))
  }

  ghost predicate Shape(s: State) {
    && |s.owner| == |s.lock|
    && forall c :: 0 <= c < |s.cpus| ==> (s.cpus[c].pc != Out ==> s.cpus[c].pc.l < |s.lock|)
  }

  /** Only a core that holds a lock releases it; it may try to acquire any. */
  ghost predicate Enabled(s: State, c: nat, a: Action) {
    && Shape(s) && c < |s.cpus|
    && match a
       case Acquire(l) => s.cpus[c].pc == Out && l < |s.lock|
       case Release(l) => s.cpus[c].pc == Out && l < |s.lock| && l in s.cpus[c].held
       case Instruction(_) => s.cpus[c].pc != Out
       case Interrupt => true
  }

  function Next(isa: Isa, s: State, c: nat, a: Action): State
    requires Shape(s) && c < |s.cpus|
  {
    var u := s.cpus[c];
    match a
    case Acquire(l) => PutCpu(s, c, u.(pc := Load(l)))
    case Release(l) => PutCpu(s, c, u.(pc := ClearOwner(l)))
    case Instruction(spurious) => Run(isa, s, c, spurious)
    case Interrupt => PutCpu(s, c, u.(monitor := None))
  }

  // ----- the invariant -----

  /** What a core knows: a reservation still in place means the word is as it was loaded. */
  ghost predicate CpuOk(isa: Isa, s: State, c: nat)
    requires Shape(s) && c < |s.cpus|
  {
    var u := s.cpus[c];
    && (forall l :: l in u.held ==> l < |s.lock| && s.lock[l] == LOCKED)
    && (u.monitor.Some? ==> isa == Arm)
    && (u.pc.Test? && u.monitor == Some(u.pc.l) ==> u.loaded == s.lock[u.pc.l])
    && (u.pc.Store? && u.monitor == Some(u.pc.l) ==> s.lock[u.pc.l] == UNLOCKED)
    && (u.pc.Check? && u.status == 0 ==> u.pc.l in u.held)
    && (u.pc.SetOwner? || u.pc.ClearOwner? || u.pc.Unlock? ==> u.pc.l in u.held)
  }

  /** Lock l is locked exactly when some core holds it, and only one does. */
  ghost predicate LockOk(s: State, l: nat)
    requires Shape(s) && l < |s.lock|
  {
    && (s.lock[l] == LOCKED || s.lock[l] == UNLOCKED)
    && (s.lock[l] == LOCKED ==> exists c :: Holds(s, c, l))
    && (forall c, d :: Holds(s, c, l) && Holds(s, d, l) ==> c == d)
    && (s.owner[l] != -1 ==> Holds(s, s.owner[l], l))
    && (forall c :: Holds(s, c, l) && !Between(s.cpus[c].pc, s.cpus[c].status, l) ==> s.owner[l] == c)
    && (forall c :: Holds(s, c, l) && Between(s.cpus[c].pc, s.cpus[c].status, l) ==> s.owner[l] == -1)
  }

  ghost predicate Holds(s: State, c: int, l: nat) {
    0 <= c < |s.cpus| && l in s.cpus[c].held
  }

  /** Holding the lock but not yet, or no longer, entered as its owner. */
  predicate Between(pc: Pc, status: nat, l: nat) {
    (pc == Check(l) && status == 0) || pc == SetOwner(l) || pc == Unlock(l)
  }

  ghost predicate Inv(isa: Isa, s: State) {
    && Shape(s)
    && (forall c :: 0 <= c < |s.cpus| ==> CpuOk(isa, s, c))
    && (forall l :: 0 <= l < |s.lock| ==> LockOk(s, l))
  }

  /** platforminit: every lock unlocked and without an owner. */
  function Initial(nlock: nat, ncores: nat): State {
    State(seq(nlock, _ => UNLOCKED), seq(nlock, _ => -1), seq(ncores, _ => Cpu(Out, 0, 0, None, {})))
  }

  lemma InitialInv(isa: Isa, nlock: nat, ncores: nat)
    ensures Inv(isa, Initial(nlock, ncores))
  {
    var s := Initial(nlock, ncores);
    forall c | 0 <= c < |s.cpus| ensures CpuOk(isa, s, c) { }
    forall l | 0 <= l < |s.lock| ensures LockOk(s, l) { }
  }

  // ----- what a step can change -----

  /** Core c alone changes, but for reservations, and no lock word or owner does. */
  lemma LocalKeeps(isa: Isa, s: State, s': State, c: nat)
    requires Inv(isa, s) && Shape(s') && c < |s.cpus| && |s'.cpus| == |s.cpus|
    requires s'.lock == s.lock && s'.owner == s.owner
    requires forall d :: 0 <= d < |s.cpus| && d != c ==> s'.cpus[d] == s.cpus[d]
    requires s'.cpus[c].held == s.cpus[c].held && CpuOk(isa, s', c)
    requires forall l :: l in s.cpus[c].held ==>
               Between(s'.cpus[c].pc, s'.cpus[c].status, l) == Between(s.cpus[c].pc, s.cpus[c].status, l)
    ensures Inv(isa, s')
  {
    forall d | 0 <= d < |s.cpus| ensures CpuOk(isa, s', d) { assert CpuOk(isa, s, d); }
    forall l | 0 <= l < |s.lock| ensures LockOk(s', l) {
      assert LockOk(s, l);
      assert forall d :: Holds(s', d, l) <==> Holds(s, d, l);
      if s.lock[l] == LOCKED {
        var d :| Holds(s, d, l);
        assert Holds(s', d, l);
      }
    }
  }

  lemma CheckKeeps(isa: Isa, s: State, c: nat)
    requires Inv(isa, s) && c < |s.cpus| && s.cpus[c].pc.Check?
    ensures Inv(isa, Run(isa, s, c, false))
  {
    assert CpuOk(isa, s, c);
    LocalKeeps(isa, s, Run(isa, s, c, false), c);
  }

  /** The lock is free and core c takes it. */
  lemma TakeKeeps(isa: Isa, s: State, s': State, c: nat, l: nat)
    requires Inv(isa, s) && Shape(s') && c < |s.cpus| && l < |s.lock| && |s'.cpus| == |s.cpus|
    requires s.lock[l] == UNLOCKED && s'.lock == s.lock[l := LOCKED] && s'.owner == s.owner
    requires s.cpus[c].pc == Store(l)
    requires forall d :: 0 <= d < |s.cpus| && d != c ==>
               && s'.cpus[d] == s.cpus[d].(monitor := s'.cpus[d].monitor)
               && (s'.cpus[d].monitor.Some? ==> s'.cpus[d].monitor == s.cpus[d].monitor && s.cpus[d].monitor != Some(l))
    requires s'.cpus[c] == s.cpus[c].(pc := Check(l), status := 0, monitor := None, held := s.cpus[c].held + {l})
    ensures Inv(isa, s')
  {
    assert LockOk(s, l);
    forall d | 0 <= d < |s.cpus| ensures l !in s.cpus[d].held { assert CpuOk(isa, s, d); }
    forall d | 0 <= d < |s.cpus| ensures CpuOk(isa, s', d) { assert CpuOk(isa, s, d); }
    forall m | 0 <= m < |s.lock| ensures LockOk(s', m) {
      assert LockOk(s, m);
      assert forall d :: Holds(s', d, m) <==> Holds(s, d, m) || (d == c && m == l);
      assert Holds(s', c, l);
      if s.lock[m] == LOCKED {
        var d :| Holds(s, d, m);
        assert Holds(s', d, m);
      }
    }
  }

  /** amoswap on a lock that is taken changes nothing but the core's own registers. */
  lemma SwapKeeps(s: State, c: nat, l: nat)
    requires Inv(RiscV, s) && c < |s.cpus| && s.cpus[c].pc == Store(l)
    ensures Inv(RiscV, Swap(s, c, l))
  {
    assert CpuOk(RiscV, s, c) && LockOk(s, l);
    var s' := Swap(s, c, l);
    if s.lock[l] == UNLOCKED {
      forall d | 0 <= d < |s.cpus| ensures s.cpus[d].monitor == None { assert CpuOk(RiscV, s, d); }
      TakeKeeps(RiscV, s, s', c, l);
    } else {
      assert s'.lock == s.lock;
      LocalKeeps(RiscV, s, s', c);
    }
  }

  lemma StoreKeeps(s: State, c: nat, l: nat, spurious: bool)
    requires Inv(Arm, s) && c < |s.cpus| && s.cpus[c].pc == Store(l)
    ensures Inv(Arm, StoreExclusive(s, c, l, spurious))
  {
    assert CpuOk(Arm, s, c);
    var s' := StoreExclusive(s, c, l, spurious);
    if s.cpus[c].monitor == Some(l) && !spurious {
      TakeKeeps(Arm, s, s', c, l);
    } else {
      LocalKeeps(Arm, s, s', c);
    }
  }

  lemma OwnerKeeps(isa: Isa, s: State, c: nat)
    requires Inv(isa, s) && c < |s.cpus| && (s.cpus[c].pc.SetOwner? || s.cpus[c].pc.ClearOwner?)
    ensures Inv(isa, Run(isa, s, c, false))
  {
    var s', l := Run(isa, s, c, false), s.cpus[c].pc.l;
    assert CpuOk(isa, s, c) && Holds(s, c, l);
    forall d | 0 <= d < |s.cpus| ensures CpuOk(isa, s', d) { assert CpuOk(isa, s, d); }
    forall m | 0 <= m < |s.lock| ensures LockOk(s', m) {
      assert LockOk(s, m) && LockOk(s, l);
      assert forall d :: Holds(s', d, m) <==> Holds(s, d, m);
      if s.lock[m] == LOCKED {
        var d :| Holds(s, d, m);
        assert Holds(s', d, m);
      }
    }
  }

  /** Core c, which holds the lock and is no longer entered as its owner, gives it back. */
  lemma GiveKeeps(isa: Isa, s: State, s': State, c: nat, l: nat)
    requires Inv(isa, s) && Shape(s') && c < |s.cpus| && l < |s.lock| && |s'.cpus| == |s.cpus|
    requires s.cpus[c].pc == Unlock(l) && s'.lock == s.lock[l := UNLOCKED] && s'.owner == s.owner
    requires forall d :: 0 <= d < |s.cpus| && d != c ==>
               && s'.cpus[d] == s.cpus[d].(monitor := s'.cpus[d].monitor)
               && (s'.cpus[d].monitor.Some? ==> s'.cpus[d].monitor == s.cpus[d].monitor && s.cpus[d].monitor != Some(l))
    requires s'.cpus[c].pc == Out && s'.cpus[c].held == s.cpus[c].held - {l}
    requires s'.cpus[c].monitor.Some? ==> isa == Arm
    ensures Inv(isa, s')
  {
    assert CpuOk(isa, s, c) && LockOk(s, l) && Holds(s, c, l);
    forall d | 0 <= d < |s.cpus| && d != c ensures l !in s.cpus[d].held { assert Holds(s, d, l) ==> d == c; }
    forall d | 0 <= d < |s.cpus| ensures CpuOk(isa, s', d) { assert CpuOk(isa, s, d); }
    forall m | 0 <= m < |s.lock| ensures LockOk(s', m) {
      assert LockOk(s, m);
      assert forall d :: Holds(s', d, m) <==> Holds(s, d, m) && m != l;
      if s'.lock[m] == LOCKED {
        var d :| Holds(s, d, m);
        assert Holds(s', d, m);
      }
    }
  }

  lemma UnlockKeeps(isa: Isa, s: State, c: nat)
    requires Inv(isa, s) && c < |s.cpus| && s.cpus[c].pc.Unlock?
    ensures Inv(isa, Run(isa, s, c, false))
  {
    forall d | 0 <= d < |s.cpus| ensures s.cpus[d].monitor.Some? ==> isa == Arm { assert CpuOk(isa, s, d); }
    GiveKeeps(isa, s, Run(isa, s, c, false), c, s.cpus[c].pc.l);
  }

  lemma RunKeeps(isa: Isa, s: State, c: nat, spurious: bool)
    requires Inv(isa, s) && c < |s.cpus|
    ensures Inv(isa, Run(isa, s, c, spurious))
  {
    assert CpuOk(isa, s, c);
    match s.cpus[c].pc {
      case Out =>
      case Load(l) => LocalKeeps(isa, s, Run(isa, s, c, spurious), c);
      case Test(l) => assert LockOk(s, l); LocalKeeps(isa, s, Run(isa, s, c, spurious), c);
      case Store(l) => if isa == Arm { StoreKeeps(s, c, l, spurious); } else { SwapKeeps(s, c, l); }
      case Check(l) => CheckKeeps(isa, s, c);
      case SetOwner(l) => OwnerKeeps(isa, s, c);
      case ClearOwner(l) => OwnerKeeps(isa, s, c);
      case Unlock(l) => UnlockKeeps(isa, s, c);
    }
  }

  lemma StepKeeps(isa: Isa, s: State, c: nat, a: Action)
    requires Inv(isa, s) && Enabled(s, c, a)
    ensures Inv(isa, Next(isa, s, c, a))
  {
    hide Run;
    assert CpuOk(isa, s, c);
    match a {
      case Instruction(spurious) => RunKeeps(isa, s, c, spurious);
      case _ => LocalKeeps(isa, s, Next(isa, s, c, a), c);
    }
  }

  // ----- runs -----

  ghost predicate IsRun(isa: Isa, ss: seq<State>, who: seq<nat>, acts: seq<Action>) {
    && |ss| == |acts| + 1 && |who| == |acts|
    && forall i :: 0 <= i < |acts| ==> Enabled(ss[i], who[i], acts[i]) && ss[i + 1] == Next(isa, ss[i], who[i], acts[i])
  }

  /**
    Mutual exclusion: in every state of every run of either instruction set, at most one core
    holds a lock; the word is locked exactly when one does; and the core field is that core's
    number or, while it is being entered or taken back, -1.
  */
  lemma {:induction false} MutualExclusion(isa: Isa, ss: seq<State>, who: seq<nat>, acts: seq<Action>, i: nat)
    requires IsRun(isa, ss, who, acts) && Inv(isa, ss[0]) && i < |ss|
    ensures Inv(isa, ss[i])
    ensures forall l, c, d :: 0 <= l < |ss[i].lock| && Holds(ss[i], c, l) && Holds(ss[i], d, l) ==> c == d
    ensures forall l :: 0 <= l < |ss[i].lock| ==> (ss[i].lock[l] == LOCKED <==> exists c :: Holds(ss[i], c, l))
    ensures forall l :: 0 <= l < |ss[i].lock| ==> (ss[i].owner[l] == -1 || Holds(ss[i], ss[i].owner[l], l))
  {
    if i > 0 {
      MutualExclusion(isa, ss, who, acts, i - 1);
      StepKeeps(isa, ss[i - 1], who[i - 1], acts[i - 1]);
    }
    forall l | 0 <= l < |ss[i].lock|
      ensures ss[i].lock[l] == LOCKED <==> exists c :: Holds(ss[i], c, l)
    {
      assert LockOk(ss[i], l);
      if c :| Holds(ss[i], c, l) { assert CpuOk(isa, ss[i], c); }
    }
    forall l, c, d | 0 <= l < |ss[i].lock| && Holds(ss[i], c, l) && Holds(ss[i], d, l) ensures c == d {
      assert LockOk(ss[i], l);
    }
    forall l | 0 <= l < |ss[i].lock| ensures ss[i].owner[l] == -1 || Holds(ss[i], ss[i].owner[l], l) {
      assert LockOk(ss[i], l);
    }
  }

  /** A core that returns from lock_acquire has the lock, alone, and is entered as its owner. */
  lemma AcquiredAlone(isa: Isa, s: State, c: nat)
    requires Inv(isa, s) && c < |s.cpus| && s.cpus[c].pc.SetOwner?
    ensures var l, s' := s.cpus[c].pc.l, Next(isa, s, c, Instruction(false));
            && s'.cpus[c].pc == Out && s'.owner[l] == c && s'.lock[l] == LOCKED
            && forall d :: Holds(s', d, l) <==> d == c
  {
    var l, s' := s.cpus[c].pc.l, Next(isa, s, c, Instruction(false));
    assert CpuOk(isa, s, c) && LockOk(s, l) && Holds(s, c, l);
    forall d ensures Holds(s', d, l) <==> d == c { assert Holds(s', d, l) <==> Holds(s, d, l); }
  }

  /** Two cores may both load a lock as free, but the store of only one of them succeeds. */
  lemma OneStoreWins(s: State, c: nat, d: nat, l: nat)
    requires Inv(Arm, s) && c < |s.cpus| && d < |s.cpus| && c != d
    requires s.cpus[c].pc == Store(l) && s.cpus[d].pc == Store(l) && s.cpus[c].monitor == Some(l)
    ensures var s' := Next(Arm, s, c, Instruction(false));
            && Shape(s') && |s'.cpus| == |s.cpus| && s'.cpus[c].status == 0
            && Next(Arm, s', d, Instruction(false)).cpus[d].status == 1
  {
    assert CpuOk(Arm, s, c);
    StepKeeps(Arm, s, c, Instruction(false));
  }

  // ----- who may release -----

  /** lock_release(l) by core c, from call to return, with no other core in between. */
  function Released(isa: Isa, s: State, c: nat, l: nat): State
    requires Shape(s) && c < |s.cpus| && l < |s.lock|
  {
    var s1 := s.(owner := s.owner[l := -1]);
    var s2 := if isa == Arm then Write(s1, l, UNLOCKED) else s1.(lock := s1.lock[l := UNLOCKED]);
    PutCpu(s2, c, s2.cpus[c].(pc := Out, held := s.cpus[c].held - {l}))
  }

  lemma ReleasedIs(isa: Isa, s: State, c: nat, l: nat)
    requires Shape(s) && c < |s.cpus| && l < |s.lock| && s.cpus[c].pc == Out
    ensures var s1 := PutCpu(s, c, s.cpus[c].(pc := ClearOwner(l)));
            && Shape(s1) && Shape(Run(isa, s1, c, false)) && |Run(isa, s1, c, false).cpus| == |s.cpus|
            && Run(isa, Run(isa, s1, c, false), c, false) == Released(isa, s, c, l)
  {
    var s1 := PutCpu(s, c, s.cpus[c].(pc := ClearOwner(l)));
    var s3 := Run(isa, Run(isa, s1, c, false), c, false);
    assert s3.cpus == Released(isa, s, c, l).cpus;
  }

  lemma ReleaseByHolder(isa: Isa, s: State, c: nat, l: nat)
    requires Inv(isa, s) && c < |s.cpus| && l < |s.lock| && s.cpus[c].pc == Out && l in s.cpus[c].held
    ensures Inv(isa, Released(isa, s, c, l))
  {
    hide Run;
    var s1 := Next(isa, s, c, Release(l));
    StepKeeps(isa, s, c, Release(l));
    ReleasedIs(isa, s, c, l);
    RunKeeps(isa, s1, c, false);
    RunKeeps(isa, Run(isa, s1, c, false), c, false);
  }

  /** Losing reservations harms nothing. */
  lemma QuietKeeps(isa: Isa, s: State, s': State)
    requires Inv(isa, s) && s'.lock == s.lock && s'.owner == s.owner && |s'.cpus| == |s.cpus|
    requires forall d :: 0 <= d < |s.cpus| ==>
               && s'.cpus[d] == s.cpus[d].(monitor := s'.cpus[d].monitor)
               && (s'.cpus[d].monitor == None || s'.cpus[d].monitor == s.cpus[d].monitor)
    ensures Inv(isa, s')
  {
    forall d | 0 <= d < |s.cpus| ensures CpuOk(isa, s', d) { assert CpuOk(isa, s, d); }
    forall m | 0 <= m < |s.lock| ensures LockOk(s', m) {
      assert LockOk(s, m);
      assert forall d :: Holds(s', d, m) <==> Holds(s, d, m);
      if s.lock[m] == LOCKED {
        var d :| Holds(s, d, m);
        assert Holds(s', d, m);
      }
    }
  }

  lemma ReleaseOfFree(isa: Isa, s: State, c: nat, l: nat)
    requires Inv(isa, s) && c < |s.cpus| && l < |s.lock| && s.cpus[c].pc == Out
    requires forall d :: !Holds(s, d, l)
    ensures Inv(isa, Released(isa, s, c, l))
  {
    var s' := Released(isa, s, c, l);
    assert LockOk(s, l);
    assert s'.lock == s.lock && s'.owner == s.owner;
    assert l !in s.cpus[c].held by { assert !Holds(s, c, l); }
    QuietKeeps(isa, s, s');
  }

  /** A release keeps the locks sound if and only if no other core holds the lock. */
  lemma ReleaseIff(isa: Isa, s: State, c: nat, l: nat)
    requires Inv(isa, s) && c < |s.cpus| && l < |s.lock| && s.cpus[c].pc == Out
    ensures Inv(isa, Released(isa, s, c, l)) <==> forall d :: Holds(s, d, l) ==> d == c
  {
    if forall d :: Holds(s, d, l) ==> d == c {
      if l in s.cpus[c].held {
        ReleaseByHolder(isa, s, c, l);
      } else {
        ReleaseOfFree(isa, s, c, l);
      }
    } else {
      var d :| Holds(s, d, l) && d != c;
      var s' := Released(isa, s, c, l);
      assert l in s'.cpus[d].held && s'.lock[l] == UNLOCKED;
      assert Shape(s') ==> !CpuOk(isa, s', d);
    }
  }

  /** Core c as if it were in neither call. */
  function Aside(s: State, c: nat): State
    requires c < |s.cpus|
  {
    PutCpu(s, c, s.cpus[c].(pc := Out))
  }

  /**
    The two instructions of a release by a core that does not hold the lock, other cores running
    before, between and after: taking the owner out does no harm if and only if none is entered.
  */
  lemma StrayClearIff(isa: Isa, s: State, c: nat, l: nat)
    requires Shape(s) && c < |s.cpus| && s.cpus[c].pc == ClearOwner(l) && l !in s.cpus[c].held && Inv(isa, Aside(s, c))
    ensures Inv(isa, Aside(Run(isa, s, c, false), c)) <==> s.owner[l] == -1
  {
    var s0, s' := Aside(s, c), Aside(Run(isa, s, c, false), c);
    assert LockOk(s0, l);
    assert s'.cpus == s0.cpus;
    if s.owner[l] == -1 {
      assert s'.owner == s0.owner;
      assert s' == s0;
    } else {
      var d := s.owner[l];
      assert Holds(s0, d, l) && Holds(s', d, l) && s'.owner[l] == -1;
      assert Inv(isa, s') ==> LockOk(s', l);
    }
  }

  /** And its store does no harm if and only if no core holds the lock at that moment. */
  lemma StrayUnlockIff(isa: Isa, s: State, c: nat, l: nat)
    requires Shape(s) && c < |s.cpus| && s.cpus[c].pc == Unlock(l) && l !in s.cpus[c].held && Inv(isa, Aside(s, c))
    ensures Inv(isa, Run(isa, s, c, false)) <==> forall d :: !Holds(s, d, l)
  {
    var s0, s' := Aside(s, c), Run(isa, s, c, false);
    assert LockOk(s0, l);
    assert forall d :: Holds(s0, d, l) <==> Holds(s, d, l);
    if d :| Holds(s, d, l) {
      assert l in s'.cpus[d].held && s'.lock[l] == UNLOCKED;
      assert Shape(s') ==> !CpuOk(isa, s', d);
    } else {
      assert s'.lock == s0.lock && s'.owner == s0.owner;
      QuietKeeps(isa, s0, s');
    }
  }

  /** Two cores and one lock: the states through which the first acquires it. */
  function Acquiring(isa: Isa, i: int): State {
    var u := Cpu(Out, 0, 0, None, {});
    var mon: Option<nat> := if isa == Arm then Some(0) else None;
    if i == 0 then State([UNLOCKED], [-1], [u, u])
    else if i == 1 then State([UNLOCKED], [-1], [u.(pc := Load(0)), u])
    else if i == 2 then State([UNLOCKED], [-1], [u.(pc := Test(0), monitor := mon), u])
    else if i == 3 then State([UNLOCKED], [-1], [u.(pc := Store(0), monitor := mon), u])
    else if i == 4 then State([LOCKED], [-1], [u.(pc := Check(0), held := {0}), u])
    else if i == 5 then State([LOCKED], [-1], [u.(pc := SetOwner(0), held := {0}), u])
    else State([LOCKED], [0], [u.(held := {0}), u])
  }

  function AcquireAction(i: int): Action {
    if i == 0 then Acquire(0) else Instruction(false)
  }

  lemma AcquiringStep(isa: Isa, i: nat)
    requires i < 6
    ensures var s := Acquiring(isa, i);
            Enabled(s, 0, AcquireAction(i)) && Acquiring(isa, i + 1) == Next(isa, s, 0, AcquireAction(i))
  {
    var s, s1 := Acquiring(isa, i), Acquiring(isa, i + 1);
    var n := Next(isa, s, 0, AcquireAction(i));
    if i == 3 {
      assert s1.cpus[0] == n.cpus[0] && s1.cpus[1] == n.cpus[1];
      assert s1.cpus == n.cpus;
    }
  }

  /** The state in which core 0 holds the lock is reached, and there a release by core 1 breaks the lock. */
  lemma StrayRelease(isa: Isa) returns (ss: seq<State>, s: State)
    ensures IsRun(isa, ss, seq(6, _ => 0), seq(6, i => AcquireAction(i))) && ss[0] == Initial(1, 2) && ss[6] == s
    ensures |s.cpus| == 2 && |s.lock| == 1 && Inv(isa, s) && !Inv(isa, Released(isa, s, 1, 0))
    ensures Holds(Released(isa, s, 1, 0), 0, 0) && Released(isa, s, 1, 0).lock[0] == UNLOCKED
  {
    hide Inv;
    ss := seq(7, i => Acquiring(isa, i));
    s := ss[6];
    assert ss[0].cpus == Initial(1, 2).cpus && ss[0].lock == Initial(1, 2).lock && ss[0].owner == Initial(1, 2).owner;
    forall i | 0 <= i < 6
      ensures Enabled(ss[i], 0, AcquireAction(i)) && ss[i + 1] == Next(isa, ss[i], 0, AcquireAction(i))
    {
      AcquiringStep(isa, i);
    }
    InitialInv(isa, 1, 2);
    MutualExclusion(isa, ss, seq(6, _ => 0), seq(6, i => AcquireAction(i)), 6);
    assert Holds(s, 0, 0);
    ReleaseIff(isa, s, 1, 0);
  }

  // ----- a core that is left alone -----

  /** The state after core c has run n instructions with no other core in between. */
  ghost function Steps(isa: Isa, s: State, c: nat, n: nat): State
    decreases n
  {
    if n == 0 || !Shape(s) || c >= |s.cpus| then s else Steps(isa, Run(isa, s, c, false), c, n - 1)
  }

  /** Every other core is as it was, but for reservations of l. */
  ghost predicate OthersKept(s: State, s': State, c: nat, l: nat) {
    && |s'.cpus| == |s.cpus|
    && forall d :: 0 <= d < |s.cpus| && d != c ==>
         && s'.cpus[d] == s.cpus[d].(monitor := s'.cpus[d].monitor)
         && (s'.cpus[d].monitor == s.cpus[d].monitor || (s.cpus[d].monitor == Some(l) && s'.cpus[d].monitor == None))
  }

  /** amoswap stores in any case, and takes the lock exactly if it was free. */
  lemma SwapIs(s: State, c: nat, l: nat, spurious: bool)
    requires Shape(s) && c < |s.cpus| && s.cpus[c].pc == Store(l)
    ensures var s', u := Run(RiscV, s, c, spurious), s.cpus[c];
            && s'.lock == s.lock[l := 1] && s'.owner == s.owner && s'.cpus == s.cpus[c := s'.cpus[c]]
            && s'.cpus[c]
               == Cpu(Check(l), u.loaded, s.lock[l], u.monitor, if s.lock[l] == 0 then u.held + {l} else u.held)
  {
  }

  /** strex stores and takes the lock exactly with its reservation in place; otherwise it reports that it did not. */
  lemma StoreIs(s: State, c: nat, l: nat, spurious: bool)
    requires Shape(s) && c < |s.cpus| && s.cpus[c].pc == Store(l)
    ensures var s', u := Run(Arm, s, c, spurious), s.cpus[c];
            && s'.owner == s.owner && OthersKept(s, s', c, l)
            && if u.monitor == Some(l) && !spurious
               then s'.lock == s.lock[l := 1] && s'.cpus[c] == Cpu(Check(l), u.loaded, 0, None, u.held + {l})
               else s'.lock == s.lock && s'.cpus[c] == Cpu(Check(l), u.loaded, 1, None, u.held)
  {
  }

  /** The instructions that touch no lock word, but for the last of a release. */
  lemma PlainIs(isa: Isa, s: State, c: nat)
    requires Shape(s) && c < |s.cpus|
    ensures var s', u := Run(isa, s, c, false), s.cpus[c];
            match u.pc
            case Out => s' == s
            case Load(l) =>
              var mon: Option<nat> := if isa == Arm then Some(l) else None;
              s' == s.(cpus := s.cpus[c := Cpu(Test(l), s.lock[l], u.status, mon, u.held)])
            case Test(l) =>
              (u.loaded == 0 ==> s' == s.(cpus := s.cpus[c := u.(pc := Store(l))]))
              && (u.loaded == 1 ==> s' == s.(cpus := s.cpus[c := u.(pc := Load(l))]))
            case Store(l) => true
            case Check(l) => s' == s.(cpus := s.cpus[c := u.(pc := if u.status == 0 then SetOwner(l) else Load(l))])
            case SetOwner(l) => s' == s.(owner := s.owner[l := c], cpus := s.cpus[c := u.(pc := Out)])
            case ClearOwner(l) => s' == s.(owner := s.owner[l := -1], cpus := s.cpus[c := u.(pc := Unlock(l))])
            case Unlock(l) =>
              && s'.lock == s.lock[l := 0] && s'.owner == s.owner && OthersKept(s, s', c, l)
              && s'.cpus[c].pc == Out && s'.cpus[c].held == u.held - {l}
  {
  }

  lemma MoreSteps(isa: Isa, s: State, c: nat, n: nat)
    requires Shape(s) && c < |s.cpus| && n > 0
    ensures Steps(isa, s, c, n) == Steps(isa, Run(isa, s, c, false), c, n - 1)
  {
  }

  lemma NoSteps(isa: Isa, s: State, c: nat)
    ensures Steps(isa, s, c, 0) == s
  {
  }

  /** lock_acquire of a free lock by a core that is left alone returns with the lock held and the core its owner. */
  lemma AcquireFree(isa: Isa, s: State, c: nat, l: nat)
    requires Shape(s) && c < |s.cpus| && s.cpus[c].pc == Out && l < |s.lock| && s.lock[l] == 0
    ensures Enabled(s, c, Acquire(l))
    ensures var s' := Steps(isa, Next(isa, s, c, Acquire(l)), c, 5);
            && s'.lock == s.lock[l := 1] && s'.owner == s.owner[l := c] && OthersKept(s, s', c, l)
            && s'.cpus[c].pc == Out && s'.cpus[c].held == s.cpus[c].held + {l}
  {
    hide Steps;
    hide Run;
    var u := s.cpus[c];
    var s0 := s.(cpus := s.cpus[c := u.(pc := Load(l))]);
    assert Next(isa, s, c, Acquire(l)) == s0;
    var mon: Option<nat> := if isa == Arm then Some(l) else None;
    var s2 := s.(cpus := s.cpus[c := Cpu(Store(l), 0, u.status, mon, u.held)]);
    LoadTest(isa, s, c, l);
    if isa == Arm { StoreIs(s2, c, l, false); } else { SwapIs(s2, c, l, false); }
    var s3 := Run(isa, s2, c, false);
    MoreSteps(isa, s2, c, 3);
    EnterOwner(isa, s3, c, l);
  }

  /** The load and the test of a free lock. */
  lemma LoadTest(isa: Isa, s: State, c: nat, l: nat)
    requires Shape(s) && c < |s.cpus| && l < |s.lock| && s.lock[l] == 0
    ensures var u := s.cpus[c]; var mon: Option<nat> := if isa == Arm then Some(l) else None;
            Steps(isa, s.(cpus := s.cpus[c := u.(pc := Load(l))]), c, 5)
            == Steps(isa, s.(cpus := s.cpus[c := Cpu(Store(l), 0, u.status, mon, u.held)]), c, 3)
  {
    hide Steps;
    hide Run;
    var u := s.cpus[c];
    var mon: Option<nat> := if isa == Arm then Some(l) else None;
    var s0 := s.(cpus := s.cpus[c := u.(pc := Load(l))]);
    var s1 := s.(cpus := s.cpus[c := Cpu(Test(l), 0, u.status, mon, u.held)]);
    PlainIs(isa, s0, c);
    assert Run(isa, s0, c, false) == s1;
    PlainIs(isa, s1, c);
    MoreSteps(isa, s0, c, 5);
    MoreSteps(isa, s1, c, 4);
    assert Run(isa, s1, c, false) == s.(cpus := s.cpus[c := Cpu(Store(l), 0, u.status, mon, u.held)]);
  }

  /** A store that succeeded is followed by the entry of the owner. */
  lemma EnterOwner(isa: Isa, s: State, c: nat, l: nat)
    requires Shape(s) && c < |s.cpus| && s.cpus[c].pc == Check(l) && s.cpus[c].status == 0
    ensures Steps(isa, s, c, 2) == s.(owner := s.owner[l := c], cpus := s.cpus[c := s.cpus[c].(pc := Out)])
  {
    hide Steps;
    hide Run;
    PlainIs(isa, s, c);
    var s1 := s.(cpus := s.cpus[c := s.cpus[c].(pc := SetOwner(l))]);
    PlainIs(isa, s1, c);
    MoreSteps(isa, s, c, 2);
    MoreSteps(isa, s1, c, 1);
    NoSteps(isa, Run(isa, s1, c, false), c);
    assert Run(isa, s1, c, false).cpus == s.cpus[c := s.cpus[c].(pc := Out)];
  }

  /** On a lock that is taken it goes round: back at the load, with nothing changed but its own registers. */
  lemma AcquireTaken(isa: Isa, s: State, c: nat, l: nat)
    requires Shape(s) && c < |s.cpus| && s.cpus[c].pc == Out && l < |s.lock| && s.lock[l] == 1
    ensures var s' := Steps(isa, Next(isa, s, c, Acquire(l)), c, 2);
            && s'.lock == s.lock && s'.owner == s.owner && s'.cpus == s.cpus[c := s'.cpus[c]]
            && s'.cpus[c].pc == Load(l) && s'.cpus[c].held == s.cpus[c].held
  {
    hide Steps;
    hide Run;
    var u := s.cpus[c];
    var mon: Option<nat> := if isa == Arm then Some(l) else None;
    var s0 := Next(isa, s, c, Acquire(l));
    var s1 := s.(cpus := s.cpus[c := Cpu(Test(l), 1, u.status, mon, u.held)]);
    PlainIs(isa, s0, c);
    assert Run(isa, s0, c, false) == s1;
    PlainIs(isa, s1, c);
    MoreSteps(isa, s0, c, 2);
    MoreSteps(isa, s1, c, 1);
    NoSteps(isa, Run(isa, s1, c, false), c);
  }

  /** A store that came too late, or failed, is followed by another load. */
  lemma TriesAgain(isa: Isa, s: State, c: nat, l: nat)
    requires Shape(s) && c < |s.cpus| && s.cpus[c].pc == Check(l) && s.cpus[c].status != 0
    ensures Steps(isa, s, c, 1) == s.(cpus := s.cpus[c := s.cpus[c].(pc := Load(l))])
  {
    hide Run;
    PlainIs(isa, s, c);
  }

  /** lock_release by a core that is left alone frees the lock and takes the owner out. */
  lemma ReleaseAlone(isa: Isa, s: State, c: nat, l: nat)
    requires Shape(s) && c < |s.cpus| && s.cpus[c].pc == Out && l < |s.lock|
    ensures l in s.cpus[c].held ==> Enabled(s, c, Release(l))
    ensures var s' := Steps(isa, Next(isa, s, c, Release(l)), c, 2);
            && s'.lock == s.lock[l := 0] && s'.owner == s.owner[l := -1] && OthersKept(s, s', c, l)
            && s'.cpus[c].pc == Out && s'.cpus[c].held == s.cpus[c].held - {l}
  {
    hide Steps;
    hide Run;
    var u := s.cpus[c];
    var s0 := Next(isa, s, c, Release(l));
    var s1 := s.(owner := s.owner[l := -1], cpus := s.cpus[c := u.(pc := Unlock(l))]);
    PlainIs(isa, s0, c);
    assert Run(isa, s0, c, false) == s1;
    PlainIs(isa, s1, c);
    MoreSteps(isa, s0, c, 2);
    MoreSteps(isa, s1, c, 1);
    NoSteps(isa, Run(isa, s1, c, false), c);
  }
}
