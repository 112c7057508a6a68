/**
  The three kinds of step that leave the process table alone: taking a lock,
  dropping a lock, and plain control flow.
*/
module KernelLocks {
  import opened KernelState
  import opened KernelSteps
  import opened KernelInv

  // ---------- replacing one CPU

  lemma CpuLock(owner: map<Lock, nat>, cpus: seq<Cpu>, c: nat, k': Cpu)
    requires LockInv(owner, cpus) && c < |cpus|
    requires forall x :: Holds(k', x) <==> Holds(cpus[c], x)
    ensures LockInv(owner, cpus[c := k'])
  {
  }

  // Mutual exclusion.
  lemma Exclusive(owner: map<Lock, nat>, cpus: seq<Cpu>, c: nat, d: nat, x: Lock)
    requires LockInv(owner, cpus) && c < |cpus| && d < |cpus|
    requires Holds(cpus[c], x) && Holds(cpus[d], x)
    ensures c == d
  {
    assert x in owner && owner[x] == c;
  }

  lemma CpuLockTake(owner: map<Lock, nat>, cpus: seq<Cpu>, c: nat, k': Cpu, w: Lock)
    requires LockInv(owner, cpus) && c < |cpus| && w !in owner
    requires forall x :: Holds(k', x) <==> Holds(cpus[c], x) || x == w
    ensures LockInv(owner[w := c], cpus[c := k'])
  {
    var owner', cpus' := owner[w := c], cpus[c := k'];
    forall d, x | 0 <= d < |cpus'| && Holds(cpus'[d], x) ensures x in owner' && owner'[x] == d {
      if d == c && x == w {
      } else {
        assert Holds(cpus[d], x);
      }
    }
    forall x | x in owner' ensures owner'[x] < |cpus'| && Holds(cpus'[owner'[x]], x) {
      if x != w { assert Holds(cpus[owner[x]], x); }
    }
  }

  lemma CpuLockDrop(owner: map<Lock, nat>, cpus: seq<Cpu>, c: nat, k': Cpu, w: Lock)
    requires LockInv(owner, cpus) && c < |cpus| && Holds(cpus[c], w)
    requires forall x :: Holds(k', x) <==> Holds(cpus[c], x) && x != w
    ensures LockInv(owner - {w}, cpus[c := k'])
  {
    var owner', cpus' := owner - {w}, cpus[c := k'];
    assert w in owner && owner[w] == c;
    forall d, x | 0 <= d < |cpus'| && Holds(cpus'[d], x) ensures x in owner' && owner'[x] == d {
      assert Holds(cpus[d], x);
      assert x in owner && owner[x] == d;
    }
    forall x | x in owner' ensures owner'[x] < |cpus'| && Holds(cpus'[owner'[x]], x) {
      assert Holds(cpus[owner[x]], x);
    }
  }

  lemma CpuTok(procs: seq<Proc>, cpus: seq<Cpu>, queue: seq<nat>, c: nat, k': Cpu)
    requires TokInv(procs, cpus, queue) && c < |cpus| && TokCpu(procs, c, k')
    requires CodeProc(k'.code) == CodeProc(cpus[c].code) && Pushing(k') == Pushing(cpus[c])
    ensures TokInv(procs, cpus[c := k'], queue)
  {
    var cpus' := cpus[c := k'];
    forall p | 0 <= p < |procs| ensures TokProc(procs, cpus', queue, p) {
      assert TokProc(procs, cpus, queue, p);
    }
  }

  // A CPU that keeps its sweep and does not start falling asleep.
  lemma CpuSweep(procs: seq<Proc>, cpus: seq<Cpu>, c: nat, k': Cpu)
    requires SweepInv(procs, cpus) && c < |cpus|
    requires SweepOf(k', |procs|) == SweepOf(cpus[c], |procs|) || SweepOf(k', |procs|).NoSweep?
    requires k'.code == cpus[c].code || !(k'.code.Thread? && k'.code.pc.SleepSet?)
    ensures SweepInv(procs, cpus[c := k'])
  {
    var cpus' := cpus[c := k'];
    forall d | 0 <= d < |cpus| ensures SweepOk(procs, cpus', cpus'[d]) {
      assert SweepOk(procs, cpus, cpus[d]);
    }
  }

  // A sweep over channel ch holds the lock that protects the sleepers on ch.
  lemma SweepHolds(procs: seq<Proc>, k: Cpu)
    requires TreeCode(procs, k) && SweepOf(k, |procs|).Sweep?
    ensures SweepOf(k, |procs|).ch == ConsChan ==> Holds(k, ConsLock)
    ensures SweepOf(k, |procs|).ch.ProcChan? ==> Holds(k, WaitLock)
  {
  }

  // ---------- tables

  lemma HoldsDeep(code: Code, x: Lock)
    requires CodeHolds(code, x)
    ensures CodeDepth(code) > 0
  {
  }

  lemma TakenHolds(k: Cpu, n: nat)
    requires Wants(k, n).Some?
    ensures forall x :: Holds(Taken(k), x) <==> Holds(k, x) || x == Wants(k, n).value
  {
    hide PcHolds, PcWants, PcTaken;
    if k.trap.NoTrap? && k.code.Thread? {
      forall x ensures PcHolds(k.code.me, PcTaken(k.code.pc), x) <==> PcHolds(k.code.me, k.code.pc, x) || x == Wants(k, n).value {
        TakenOne(k.code.me, k.code.pc, n, x);
      }
    }
  }

  lemma TakenOne(me: nat, pc: Pc, n: nat, x: Lock)
    requires PcWants(me, pc, n).Some?
    ensures PcHolds(me, PcTaken(pc), x) <==> PcHolds(me, pc, x) || x == PcWants(me, pc, n).value
  {
  }

  lemma TakenDepth(k: Cpu, n: nat)
    requires Wants(k, n).Some?
    ensures Depth(Taken(k)) == Depth(k) + 1
  {
    hide Holds, CodeHolds, PcHolds;
  }

  lemma DroppedHolds(k: Cpu, procs: seq<Proc>)
    requires Drops(k).Some? && TreeCode(procs, k)
    ensures Holds(k, Drops(k).value)
    ensures forall x :: Holds(Dropped(k, procs), x) <==> Holds(k, x) && x != Drops(k).value
  {
    hide Depth, CodeDepth, TrapDepth, PcDepth;
    if k.trap.NoTrap? && k.code.Thread? { DroppedPc(k.code.me, k.code.pc); }
  }

  lemma DroppedPc(me: nat, pc: Pc)
    requires PcDrops(me, pc).Some? && (pc.ForkDropC? ==> pc.np != me)
    requires (pc.WaitSkip? || pc.WaitFreed? || pc.ExitRepDrop?) ==> pc.i != me
    ensures PcHolds(me, pc, PcDrops(me, pc).value)
    ensures forall x :: PcHolds(me, PcDropped(pc), x) <==> PcHolds(me, pc, x) && x != PcDrops(me, pc).value
  {
    hide PcHolds, PcDrops, PcDropped;
    forall x ensures PcHolds(me, PcDropped(pc), x) <==> PcHolds(me, pc, x) && x != PcDrops(me, pc).value {
      DroppedOne(me, pc, x);
    }
    DroppedOne(me, pc, PcDrops(me, pc).value);
  }

  lemma DroppedOne(me: nat, pc: Pc, x: Lock)
    requires PcDrops(me, pc).Some? && (pc.ForkDropC? ==> pc.np != me)
    requires (pc.WaitSkip? || pc.WaitFreed? || pc.ExitRepDrop?) ==> pc.i != me
    ensures x == PcDrops(me, pc).value ==> PcHolds(me, pc, x)
    ensures PcHolds(me, PcDropped(pc), x) <==> PcHolds(me, pc, x) && x != PcDrops(me, pc).value
  {
  }

  lemma DroppedDepth(k: Cpu, procs: seq<Proc>)
    requires Drops(k).Some? && TreeCode(procs, k)
    ensures Depth(Dropped(k, procs)) == Depth(k) - 1
  {
    hide Holds, CodeHolds, PcHolds;
  }

  lemma TakenTok(procs: seq<Proc>, c: nat, k: Cpu, irq: Irq)
    requires Wants(k, |procs|).Some? && TokCpu(procs, c, k)
    ensures TokCpu(procs, c, Taken(k).(irq := irq))
    ensures CodeProc(Taken(k).code) == CodeProc(k.code)
    ensures Pushing(Taken(k).(irq := irq)) == Pushing(k)
  {
  }

  lemma DroppedTok(procs: seq<Proc>, c: nat, k: Cpu, irq: Irq)
    requires Drops(k).Some? && TokCpu(procs, c, k)
    ensures TokCpu(procs, c, Dropped(k, procs).(irq := irq))
    ensures CodeProc(Dropped(k, procs).code) == CodeProc(k.code)
    ensures Pushing(Dropped(k, procs).(irq := irq)) == Pushing(k)
  {
  }

  lemma TakenIrq(procs: seq<Proc>, k: Cpu)
    requires Wants(k, |procs|).Some? && IrqOk(procs, k)
    ensures IrqOk(procs, Taken(k).(irq := PushOff(k.irq)))
  {
    TakenDepth(k, |procs|);
  }

  lemma DroppedIrq(procs: seq<Proc>, k: Cpu)
    requires Drops(k).Some? && IrqOk(procs, k) && TreeCode(procs, k)
    ensures IrqOk(procs, Dropped(k, procs).(irq := PopOff(k.irq)))
  {
    DroppedDepth(k, procs);
  }

  lemma TakenTree(procs: seq<Proc>, k: Cpu, irq: Irq)
    requires Wants(k, |procs|).Some? && TreeCode(procs, k)
    ensures TreeCode(procs, Taken(k).(irq := irq))
  {
  }

  lemma DroppedTree(procs: seq<Proc>, k: Cpu, irq: Irq)
    requires Drops(k).Some? && TreeCode(procs, k) && RootOk(procs)
    ensures TreeCode(procs, Dropped(k, procs).(irq := irq))
  {
  }

  lemma TakenScan(procs: seq<Proc>, k: Cpu)
    requires Wants(k, |procs|).Some? && ScanCode(procs, k.code)
    ensures ScanCode(procs, Taken(k).code)
  {
  }

  lemma TakenSweep(k: Cpu, n: nat, irq: Irq)
    requires Wants(k, n).Some?
    ensures SweepOf(Taken(k).(irq := irq), n) == SweepOf(k, n)
    ensures Taken(k).code == k.code || !(Taken(k).code.Thread? && Taken(k).code.pc.SleepSet?)
  {
  }

  lemma DroppedSweep(k: Cpu, procs: seq<Proc>, irq: Irq)
    requires Drops(k).Some? && !(k.trap.NoTrap? && k.code.Thread? && k.code.pc.SleepHeld?)
    ensures var k' := Dropped(k, procs).(irq := irq);
      && SweepOf(k', |procs|) == SweepOf(k, |procs|)
      && (k'.code == k.code || !(k'.code.Thread? && k'.code.pc.SleepSet?))
  {
  }

  lemma DroppedScan(procs: seq<Proc>, k: Cpu)
    requires Drops(k).Some? && ScanCode(procs, k.code)
    requires k.code.Thread? ==> k.code.me < |procs| && ParentOk(procs, k.code.me)
    ensures ScanCode(procs, Dropped(k, procs).code)
  {
  }

  // ---------- acquire

  lemma AcquireLock(s: State, s': State, c: nat)
    requires LockInv(s.owner, s.cpus) && c < |s.cpus| && Acquire(s, s', c)
    ensures LockInv(s'.owner, s'.cpus)
  {
    TakenHolds(s.cpus[c], |s.procs|);
    CpuLockTake(s.owner, s.cpus, c, s'.cpus[c], Wants(s.cpus[c], |s.procs|).value);
  }

  lemma AcquireBase(s: State, s': State, c: nat)
    requires Base(s) && c < |s.cpus| && Acquire(s, s', c)
    ensures Base(s')
  {
    var k := s.cpus[c];
    AcquireLock(s, s', c);
    assert IrqInv(s'.procs, s'.cpus) by { TakenIrq(s.procs, k); }
    assert TokInv(s'.procs, s'.cpus, s'.queue) by {
      TakenTok(s.procs, c, k, PushOff(k.irq));
      CpuTok(s.procs, s.cpus, s.queue, c, s'.cpus[c]);
    }
  }

  lemma AcquireCons(s: State, s': State, c: nat)
    requires c < |s.cpus| && Acquire(s, s', c) && ConsInv(s.procs, s.cpus, s.owner, s.data)
    ensures ConsInv(s'.procs, s'.cpus, s'.owner, s'.data)
  {
    forall r | 0 <= r < |s.procs| && Coming(s.cpus, s.owner, r) ensures Coming(s'.cpus, s'.owner, r) {
    }
  }

  lemma AcquireInv(s: State, s': State, c: nat)
    requires Inv(s) && c < |s.cpus| && Acquire(s, s', c)
    ensures Inv(s')
  {
    var k := s.cpus[c];
    AcquireBase(s, s', c);
    AcquireCons(s, s', c);
    TakenTree(s.procs, k, PushOff(k.irq));
    TakenScan(s.procs, k);
    TakenSweep(k, |s.procs|, PushOff(k.irq));
    CpuSweep(s.procs, s.cpus, c, s'.cpus[c]);
  }

  // ---------- release

  lemma ReleaseLock(s: State, s': State, c: nat)
    requires LockInv(s.owner, s.cpus) && c < |s.cpus| && Release(s, s', c) && TreeCode(s.procs, s.cpus[c])
    ensures LockInv(s'.owner, s'.cpus)
  {
    DroppedHolds(s.cpus[c], s.procs);
    CpuLockDrop(s.owner, s.cpus, c, s'.cpus[c], Drops(s.cpus[c]).value);
  }

  lemma ReleaseBase(s: State, s': State, c: nat)
    requires Base(s) && c < |s.cpus| && Release(s, s', c) && TreeCode(s.procs, s.cpus[c])
    ensures Base(s')
  {
    var k := s.cpus[c];
    ReleaseLock(s, s', c);
    assert IrqInv(s'.procs, s'.cpus) by { DroppedIrq(s.procs, k); }
    assert TokInv(s'.procs, s'.cpus, s'.queue) by {
      DroppedTok(s.procs, c, k, PopOff(k.irq));
      CpuTok(s.procs, s.cpus, s.queue, c, s'.cpus[c]);
    }
  }

  lemma DroppedOwner(owner: map<Lock, nat>, cpus: seq<Cpu>, c: nat, procs: seq<Proc>)
    requires LockInv(owner, cpus) && c < |cpus| && Drops(cpus[c]).Some? && TreeCode(procs, cpus[c])
    ensures Drops(cpus[c]).value in owner && owner[Drops(cpus[c]).value] == c
  {
    DroppedHolds(cpus[c], procs);
  }

  // The interrupt that is on its way to a sleeping reader keeps cons.lock.
  lemma ReleaseComing(s: State, s': State, c: nat, r: nat)
    requires c < |s.cpus| && Release(s, s', c) && Coming(s.cpus, s.owner, r)
    requires HoldsLock(s, c, Drops(s.cpus[c]).value)
    ensures Coming(s'.cpus, s'.owner, r)
  {
    hide PcDrops, PcDropped;
  }

  lemma ReleaseConsCode(s: State, s': State, c: nat, d: nat)
    requires c < |s.cpus| && d < |s.cpus| && Release(s, s', c) && ConsCode(s.cpus, s.owner, s.cpus[d].code)
    requires HoldsLock(s, c, Drops(s.cpus[c]).value)
    ensures d < |s'.cpus| && ConsCode(s'.cpus, s'.owner, s'.cpus[d].code)
  {
    hide Coming;
    forall r: nat | Coming(s.cpus, s.owner, r) ensures Coming(s'.cpus, s'.owner, r) {
      ReleaseComing(s, s', c, r);
    }
  }

  lemma ReleaseCons(s: State, s': State, c: nat)
    requires c < |s.cpus| && Release(s, s', c) && ConsInv(s.procs, s.cpus, s.owner, s.data)
    requires LockInv(s.owner, s.cpus) && TreeCode(s.procs, s.cpus[c])
    ensures ConsInv(s'.procs, s'.cpus, s'.owner, s'.data)
  {
    hide Coming, ConsCode, TreeCode, LockInv;
    DroppedOwner(s.owner, s.cpus, c, s.procs);
    forall r: nat | Coming(s.cpus, s.owner, r) ensures Coming(s'.cpus, s'.owner, r) {
      ReleaseComing(s, s', c, r);
    }
    if s.data {
      forall d | 0 <= d < |s.cpus| ensures ConsCode(s'.cpus, s'.owner, s'.cpus[d].code) {
        ReleaseConsCode(s, s', c, d);
      }
    }
  }

  // A thread that lets go of its condition lock while it owns its own: no wakeup
  // on its channel is under way.
  lemma ReleaseSweep(s: State, s': State, c: nat)
    requires c < |s.cpus| && Release(s, s', c) && SweepInv(s.procs, s.cpus)
    requires LockInv(s.owner, s.cpus) && TreeCodeInv(s.procs, s.cpus)
    ensures SweepInv(s'.procs, s'.cpus)
  {
    var k := s.cpus[c];
    if k.trap.NoTrap? && k.code.Thread? && k.code.pc.SleepHeld? {
      var w := k.code.pc.w;
      assert Holds(k, LockOf(w));
      forall d | 0 <= d < |s.cpus| ensures SweepOk(s'.procs, s'.cpus, s'.cpus[d]) {
        assert SweepOk(s.procs, s.cpus, s.cpus[d]);
        if d != c && SweepOf(s.cpus[d], |s.procs|).Sweep? {
          SweepHolds(s.procs, s.cpus[d]);
          if Holds(s.cpus[d], LockOf(w)) { Exclusive(s.owner, s.cpus, c, d, LockOf(w)); }
        }
      }
    } else {
      DroppedSweep(k, s.procs, PopOff(k.irq));
      CpuSweep(s.procs, s.cpus, c, s'.cpus[c]);
    }
  }

  lemma ReleaseInv(s: State, s': State, c: nat)
    requires Inv(s) && c < |s.cpus| && Release(s, s', c)
    ensures Inv(s')
  {
    var k := s.cpus[c];
    assert TreeCode(s.procs, k);
    ReleaseBase(s, s', c);
    ReleaseCons(s, s', c);
    ReleaseSweep(s, s', c);
    DroppedTree(s.procs, k, PopOff(k.irq));
    if k.code.Thread? { assert ProcTree(s.procs, s.nextPid, s.dead, k.code.me); }
    DroppedScan(s.procs, k);
  }

  // ---------- control flow

  lemma GotoLocal(s: State, s': State, c: nat)
    requires c < |s.cpus| && Goto(s, s', c)
    ensures var k := s.cpus[c]; var k' := s'.cpus[c];
      && Depth(k') == Depth(k) && k'.irq == k.irq && k'.trap.NoTrap? == k.trap.NoTrap?
      && CodeProc(k'.code) == CodeProc(k.code) && Pushing(k') == Pushing(k)
  {
    hide Holds;
  }

  lemma GotoHolds(s: State, s': State, c: nat)
    requires c < |s.cpus| && Goto(s, s', c)
    ensures forall x :: Holds(s'.cpus[c], x) <==> Holds(s.cpus[c], x)
  {
    hide Depth;
  }

  lemma GotoTok(s: State, s': State, c: nat)
    requires c < |s.cpus| && Goto(s, s', c) && TokCpu(s.procs, c, s.cpus[c])
    ensures TokCpu(s'.procs, c, s'.cpus[c])
  {
  }

  lemma GotoIrq(s: State, s': State, c: nat)
    requires c < |s.cpus| && Goto(s, s', c) && IrqOk(s.procs, s.cpus[c])
    ensures IrqOk(s'.procs, s'.cpus[c])
  {
    GotoLocal(s, s', c);
  }

  lemma GotoTree(s: State, s': State, c: nat)
    requires c < |s.cpus| && Goto(s, s', c) && TreeCode(s.procs, s.cpus[c]) && RootOk(s.procs)
    ensures TreeCode(s'.procs, s'.cpus[c])
  {
  }

  lemma GotoScan(s: State, s': State, c: nat)
    requires c < |s.cpus| && Goto(s, s', c) && ScanCode(s.procs, s.cpus[c].code)
    ensures ScanCode(s'.procs, s'.cpus[c].code)
  {
  }

  lemma GotoBase(s: State, s': State, c: nat)
    requires Base(s) && c < |s.cpus| && Goto(s, s', c)
    ensures Base(s')
  {
    GotoLocal(s, s', c);
    GotoHolds(s, s', c);
    CpuLock(s.owner, s.cpus, c, s'.cpus[c]);
    assert IrqInv(s'.procs, s'.cpus) by { GotoIrq(s, s', c); }
    assert TokInv(s'.procs, s'.cpus, s'.queue) by {
      GotoTok(s, s', c);
      CpuTok(s.procs, s.cpus, s.queue, c, s'.cpus[c]);
    }
  }

  // The wakeup loop passes slot i: it holds the slot's lock, so nobody there is
  // between dropping its condition lock and being marked SLEEPING.
  lemma NotFalling(s: State, c: nat, d: nat, i: nat)
    requires LockInv(s.owner, s.cpus) && IrqInv(s.procs, s.cpus)
    requires c < |s.cpus| && d < |s.cpus| && Holds(s.cpus[c], ProcLock(i))
    requires s.cpus[d].code.Thread? && s.cpus[d].code.me == i && s.cpus[d].code.pc.SleepSet?
    ensures c == d && s.cpus[c].trap.NoTrap?
  {
    assert IrqOk(s.procs, s.cpus[d]);
    assert Holds(s.cpus[d], ProcLock(i));
    Exclusive(s.owner, s.cpus, c, d, ProcLock(i));
  }

  // The sweep of a CPU moves on only past a slot whose lock it holds and which does
  // not sleep on the channel.
  lemma GotoSweep(s: State, s': State, c: nat)
    requires c < |s.cpus| && Goto(s, s', c) && TreeCode(s.procs, s.cpus[c])
    ensures var k := s.cpus[c]; var k' := s'.cpus[c]; var n := |s.procs|;
      && (k'.code == k.code || !(k'.code.Thread? && k'.code.pc.SleepSet?))
      && (SweepOf(k', n) == SweepOf(k, n) || SweepOf(k', n).NoSweep? || SweepOf(k', n).upto == 0
          || exists i: nat :: i < n && SweepOf(k', n).upto == i + 1 && SweepOf(k, n) == SweepOf(k', n).(upto := i)
                              && Holds(k, ProcLock(i)) && !Asleep(s.procs[i], SweepOf(k, n).ch))
  {
    var k := s.cpus[c];
    if SweepOf(k, |s.procs|).Sweep? && SweepOf(k, |s.procs|).upto < |s.procs| {
      var i := SweepOf(k, |s.procs|).upto;
      assert i < |s.procs|;
    }
  }

  lemma GotoSweepOk(s: State, s': State, c: nat)
    requires c < |s.cpus| && Goto(s, s', c) && SweepOk(s.procs, s.cpus, s.cpus[c])
    requires LockInv(s.owner, s.cpus) && IrqInv(s.procs, s.cpus) && TreeCode(s.procs, s.cpus[c])
    ensures SweepOk(s'.procs, s'.cpus, s'.cpus[c])
    ensures s'.cpus[c].code == s.cpus[c].code || !(s'.cpus[c].code.Thread? && s'.cpus[c].code.pc.SleepSet?)
  {
    GotoSweep(s, s', c);
    var w := SweepOf(s'.cpus[c], |s.procs|);
    if w.Sweep? && w != SweepOf(s.cpus[c], |s.procs|) && w.upto > 0 {
      var i: nat := w.upto - 1;
      forall d | 0 <= d < |s.cpus| && s'.cpus[d].code.Thread? && s'.cpus[d].code.me < w.upto
        ensures !Falling(s'.cpus[d].code, s'.cpus[d].code.me, w.ch)
      {
        if d != c && s.cpus[d].code.me == i && s.cpus[d].code.pc.SleepSet? { NotFalling(s, c, d, i); }
      }
    }
  }

  lemma GotoCons(s: State, s': State, c: nat)
    requires c < |s.cpus| && Goto(s, s', c) && ConsInv(s.procs, s.cpus, s.owner, s.data)
    requires LockInv(s.owner, s.cpus) && IrqInv(s.procs, s.cpus)
    requires TreeCode(s.procs, s.cpus[c]) && SweepOk(s'.procs, s'.cpus, s'.cpus[c])
    ensures ConsInv(s'.procs, s'.cpus, s'.owner, s'.data)
  {
    if s.data {
      forall r | 0 <= r < |s.procs| && Asleep(s.procs[r], ConsChan) ensures Coming(s'.cpus, s'.owner, r) {
      }
      forall d | 0 <= d < |s.cpus| ensures ConsCode(s'.cpus, s'.owner, s'.cpus[d].code) {
        assert ConsCode(s.cpus, s.owner, s.cpus[d].code);
        assert IrqOk(s.procs, s.cpus[d]);
      }
    }
  }

  lemma GotoInv(s: State, s': State, c: nat)
    requires Inv(s) && c < |s.cpus| && Goto(s, s', c)
    ensures Inv(s')
  {
    GotoBase(s, s', c);
    GotoTree(s, s', c);
    GotoScan(s, s', c);
    assert SweepOk(s.procs, s.cpus, s.cpus[c]);
    GotoSweepOk(s, s', c);
    forall d | 0 <= d < |s.cpus| && d != c ensures SweepOk(s'.procs, s'.cpus, s'.cpus[d]) {
      assert SweepOk(s.procs, s.cpus, s.cpus[d]);
    }
    GotoCons(s, s', c);
  }
}
