/**
  The steps between which a wakeup could be lost: falling asleep, committing a
  console line, and waking one sleeper.
*/
module KernelSleep {
  import opened KernelState
  import opened KernelSteps
  import opened KernelInv
  import opened KernelLocks
  import opened KernelQuiet

  // ---------- swtch into the scheduler

  lemma SwitchLocal(s: State, s': State, c: nat)
    requires c < |s.cpus| && Switch(s, s', c)
    requires IrqOk(s.procs, s.cpus[c])
    ensures |s'.cpus| == |s.cpus|
    ensures forall x :: Holds(s'.cpus[c], x) <==> Holds(s.cpus[c], x)
    ensures IrqOk(s'.procs, s'.cpus[c])
  {
  }

  lemma SwitchTok(s: State, s': State, c: nat)
    requires c < |s.cpus| && Switch(s, s', c) && IrqOk(s.procs, s.cpus[c]) && TokCpu(s.procs, c, s.cpus[c])
    ensures |s'.cpus| == |s.cpus| && TokCpu(s'.procs, c, s'.cpus[c])
  {
    hide Holds;
  }

  lemma SwitchBase(s: State, s': State, c: nat)
    requires c < |s.cpus| && Switch(s, s', c) && Base(s)
    ensures Base(s')
  {
    hide Holds, IrqOk;
    var me := s.cpus[c].code.me;
    assert IrqOk(s.procs, s.cpus[c]) && TokCpu(s.procs, c, s.cpus[c]) && TokProc(s.procs, s.cpus, s.queue, me);
    SwitchLocal(s, s', c);
    SwitchTok(s, s', c);
    CpuLock(s.owner, s.cpus, c, s'.cpus[c]);
    IrqUpdate(s, s', c, me);
    TokUpdate(s, s', c, me);
  }

  lemma SwitchSweep(s: State, s': State, c: nat)
    requires c < |s.cpus| && Switch(s, s', c) && SweepInv(s.procs, s.cpus)
    requires TokCpu(s.procs, c, s.cpus[c])
    ensures SweepInv(s'.procs, s'.cpus)
  {
    forall d | 0 <= d < |s.cpus| ensures SweepOk(s'.procs, s'.cpus, s'.cpus[d]) {
      assert SweepOk(s.procs, s.cpus, s.cpus[d]);
    }
  }

  lemma SwitchCons(s: State, s': State, c: nat)
    requires c < |s.cpus| && Switch(s, s', c) && ConsInv(s.procs, s.cpus, s.owner, s.data)
    ensures ConsInv(s'.procs, s'.cpus, s'.owner, s'.data)
  {
    forall r | 0 <= r < |s.procs| && Coming(s.cpus, s.owner, r) ensures Coming(s'.cpus, s'.owner, r) {
    }
    if s.data {
      forall d | 0 <= d < |s.cpus| ensures ConsCode(s'.cpus, s'.owner, s'.cpus[d].code) {
        assert ConsCode(s.cpus, s.owner, s.cpus[d].code);
      }
      assert ConsCode(s.cpus, s.owner, s.cpus[c].code);
    }
  }

  lemma SwitchScan(s: State, s': State, c: nat)
    requires c < |s.cpus| && Switch(s, s', c) && ScanInv(s.procs, s.cpus) && TokCpu(s.procs, c, s.cpus[c])
    ensures ScanInv(s'.procs, s'.cpus)
  {
    var me := s.cpus[c].code.me;
    assert forall p, o: nat, pid: int :: 0 <= p < |s.procs| ==> Matches(s'.procs[p], o, pid) == Matches(s.procs[p], o, pid);
    assert ScanCode(s.procs, s.cpus[c].code);
    forall d | 0 <= d < |s.cpus| ensures ScanCode(s'.procs, s'.cpus[d].code) {
      assert ScanCode(s.procs, s.cpus[d].code);
    }
    forall p | 0 <= p < |s.procs| ensures ScanProc(s'.procs, p) {
      assert ScanProc(s.procs, p);
    }
  }

  lemma SwitchInv(s: State, s': State, c: nat)
    requires Inv(s) && c < |s.cpus| && Switch(s, s', c)
    ensures Inv(s')
  {
    var me := s.cpus[c].code.me;
    var p' := s'.procs[me];
    assert TokCpu(s.procs, c, s.cpus[c]);
    SwitchBase(s, s', c);
    TreeUpdate(s.procs, me, p', s.nextPid, s.dead, s.reaped);
    forall d | 0 <= d < |s.cpus| ensures TreeCode(s'.procs, s'.cpus[d]) {
      assert TreeCode(s.procs, s.cpus[d]);
      TreeCodeUpdate(s.procs, me, p', s'.cpus[d]);
    }
    SwitchSweep(s, s', c);
    SwitchCons(s, s', c);
    SwitchScan(s, s', c);
  }

  // ---------- the interrupt commits a line

  lemma CommitLocal(s: State, s': State, c: nat)
    requires c < |s.cpus| && Commit(s, s', c)
    requires IrqOk(s.procs, s.cpus[c]) && TokCpu(s.procs, c, s.cpus[c]) && TreeCode(s.procs, s.cpus[c])
    ensures |s'.cpus| == |s.cpus|
    ensures forall x :: Holds(s'.cpus[c], x) <==> Holds(s.cpus[c], x)
    ensures IrqOk(s.procs, s'.cpus[c]) && TokCpu(s.procs, c, s'.cpus[c]) && TreeCode(s.procs, s'.cpus[c])
  {
  }

  // While an interrupt holds cons.lock no reader is on its way to sleep.
  lemma NoReaderFalls(s: State, c: nat, d: nat)
    requires c < |s.cpus| && d < |s.cpus| && LockInv(s.owner, s.cpus) && IrqInv(s.procs, s.cpus)
    requires s.cpus[c].trap.TrapHeld? && s.cpus[d].code.Thread?
    ensures s.cpus[d].code.pc != SleepAcq(InRead) && s.cpus[d].code.pc != SleepHeld(InRead)
  {
    hide IrqOk, ThreadIrq;
    if CodeHolds(s.cpus[d].code, ConsLock) {
      HoldsDeep(s.cpus[d].code, ConsLock);
      TrapShallow(s.procs, s.cpus[d]);
      assert Holds(s.cpus[d], ConsLock) && Holds(s.cpus[c], ConsLock);
      TrapShallow(s.procs, s.cpus[c]);
      Exclusive(s.owner, s.cpus, c, d, ConsLock);
    }
  }

  lemma TrapShallow(procs: seq<Proc>, k: Cpu)
    requires IrqOk(procs, k)
    ensures k.trap.NoTrap? || CodeDepth(k.code) == 0
  {
  }

  lemma CommitCons(s: State, s': State, c: nat)
    requires c < |s.cpus| && Commit(s, s', c) && LockInv(s.owner, s.cpus) && IrqInv(s.procs, s.cpus)
    ensures ConsInv(s'.procs, s'.cpus, s'.owner, s'.data)
  {
    assert Holds(s.cpus[c], ConsLock);
    assert forall r: nat :: Coming(s'.cpus, s'.owner, r);
    forall d | 0 <= d < |s.cpus| ensures ConsCode(s'.cpus, s'.owner, s'.cpus[d].code) {
      if s.cpus[d].code.Thread? { NoReaderFalls(s, c, d); }
    }
  }

  lemma CommitInv(s: State, s': State, c: nat)
    requires Inv(s) && c < |s.cpus| && Commit(s, s', c)
    ensures Inv(s')
  {
    assert IrqOk(s.procs, s.cpus[c]) && TokCpu(s.procs, c, s.cpus[c]) && TreeCode(s.procs, s.cpus[c]);
    CommitLocal(s, s', c);
    assert LockInv(s'.owner, s'.cpus) by { CpuLock(s.owner, s.cpus, c, s'.cpus[c]); }
    assert TokInv(s'.procs, s'.cpus, s'.queue) by { CpuTok(s.procs, s.cpus, s.queue, c, s'.cpus[c]); }
    CommitCons(s, s', c);
    forall d | 0 <= d < |s.cpus| ensures SweepOk(s'.procs, s'.cpus, s'.cpus[d]) {
      assert SweepOk(s.procs, s.cpus, s.cpus[d]);
    }
  }

  // ---------- wakeup finds a sleeper

  lemma WakeOneRests(s: State, c: nat)
    requires c < |s.cpus| && Base(s) && Looking(s.cpus[c]).Some?
    requires Looking(s.cpus[c]).value.i < |s.procs| && s.procs[Looking(s.cpus[c]).value.i].state == Sleeping
    ensures s.procs[Looking(s.cpus[c]).value.i].at.Nowhere?
  {
    var i := Looking(s.cpus[c]).value.i;
    assert TokProc(s.procs, s.cpus, s.queue, i) && IrqOk(s.procs, s.cpus[c]);
    if s.procs[i].at.OnCpu? {
      var d := s.procs[i].at.c;
      assert TokCpu(s.procs, d, s.cpus[d]) && IrqOk(s.procs, s.cpus[d]);
      assert s.cpus[d].code == Sched(Back(i));
      assert Holds(s.cpus[c], ProcLock(i)) && Holds(s.cpus[d], ProcLock(i));
      Exclusive(s.owner, s.cpus, c, d, ProcLock(i));
    }
  }

  lemma WakeOneLocal(s: State, s': State, c: nat)
    requires c < |s.cpus| && WakeOne(s, s', c)
    requires IrqOk(s.procs, s.cpus[c]) && TreeCode(s.procs, s.cpus[c])
    requires s.procs[Looking(s.cpus[c]).value.i].at.Nowhere?
    ensures |s'.cpus| == |s.cpus|
    ensures forall x :: Holds(s'.cpus[c], x) <==> Holds(s.cpus[c], x)
    ensures IrqOk(s'.procs, s'.cpus[c]) && TreeCode(s.procs, s'.cpus[c])
    ensures CodeProc(s'.cpus[c].code) == CodeProc(s.cpus[c].code) && s'.cpus[c].proc == s.cpus[c].proc
    ensures Pushing(s.cpus[c]).None? && Pushing(s'.cpus[c]) == Some(Looking(s.cpus[c]).value.i)
  {
  }

  lemma WakeOneTok(s: State, s': State, c: nat)
    requires c < |s.cpus| && WakeOne(s, s', c) && Base(s) && TreeCode(s.procs, s.cpus[c])
    ensures TokInv(s'.procs, s'.cpus, s'.queue)
  {
    var i := Looking(s.cpus[c]).value.i;
    WakeOneRests(s, c);
    assert IrqOk(s.procs, s.cpus[c]) && TokCpu(s.procs, c, s.cpus[c]) && TokProc(s.procs, s.cpus, s.queue, i);
    WakeOneLocal(s, s', c);
    assert CodeProc(s.cpus[c].code) != Some(i);
    TokUpdate(s, s', c, i);
  }

  lemma WakeOneBase(s: State, s': State, c: nat)
    requires c < |s.cpus| && WakeOne(s, s', c) && Base(s) && TreeCode(s.procs, s.cpus[c])
    ensures Base(s')
  {
    var i := Looking(s.cpus[c]).value.i;
    WakeOneRests(s, c);
    assert IrqOk(s.procs, s.cpus[c]);
    WakeOneLocal(s, s', c);
    assert LockInv(s'.owner, s'.cpus) by { CpuLock(s.owner, s.cpus, c, s'.cpus[c]); }
    WakeOneTok(s, s', c);
    assert IrqInv(s'.procs, s'.cpus) by { IrqUpdate(s, s', c, i); }
  }

  lemma WakeOneSweepOf(k: Cpu, n: nat)
    requires Looking(k).Some?
    ensures var l := Looking(k).value;
      && SweepOf(k, n) == Sweep(l.chan, l.i) && SweepOf(Found(k), n) == Sweep(l.chan, l.i + 1)
      && Holds(k, ProcLock(l.i))
      && (k.code == Found(k).code || !SleepPc(Found(k).code))
  {
  }

  lemma WakeOneSweep(s: State, s': State, c: nat)
    requires c < |s.cpus| && WakeOne(s, s', c) && SweepInv(s.procs, s.cpus)
    requires LockInv(s.owner, s.cpus) && IrqInv(s.procs, s.cpus)
    ensures SweepInv(s'.procs, s'.cpus)
  {
    WakeOneSweepOf(s.cpus[c], |s.procs|);
    var i := Looking(s.cpus[c]).value.i;
    forall d | 0 <= d < |s.cpus| ensures SweepOk(s'.procs, s'.cpus, s'.cpus[d]) {
      assert SweepOk(s.procs, s.cpus, s.cpus[d]);
      if d == c {
        forall e | 0 <= e < |s.cpus| && s'.cpus[e].code.Thread? && s'.cpus[e].code.me < i + 1
          ensures !Falling(s'.cpus[e].code, s'.cpus[e].code.me, Looking(s.cpus[c]).value.chan)
        {
          if s'.cpus[e].code.me == i && s'.cpus[e].code.pc.SleepSet? { NotFalling(s, c, e, i); }
        }
      }
    }
  }

  lemma WakeOneCons(s: State, s': State, c: nat)
    requires c < |s.cpus| && WakeOne(s, s', c) && ConsInv(s.procs, s.cpus, s.owner, s.data)
    requires LockInv(s.owner, s.cpus) && IrqInv(s.procs, s.cpus)
    ensures ConsInv(s'.procs, s'.cpus, s'.owner, s'.data)
  {
    WakeOneSweepOf(s.cpus[c], |s.procs|);
    var i := Looking(s.cpus[c]).value.i;
    forall r | 0 <= r < |s.procs| && r != i && Coming(s.cpus, s.owner, r) ensures Coming(s'.cpus, s'.owner, r) {
    }
    if s.data {
      forall d | 0 <= d < |s.cpus| ensures ConsCode(s'.cpus, s'.owner, s'.cpus[d].code) {
        assert ConsCode(s.cpus, s.owner, s.cpus[d].code);
        var code := s'.cpus[d].code;
        if code.Thread? && code.pc.SleepSet? {
          assert IrqOk(s.procs, s.cpus[d]);
          if code.me == i { NotFalling(s, c, d, i); }
        }
      }
    }
  }

  lemma WakeOneInv(s: State, s': State, c: nat)
    requires Inv(s) && c < |s.cpus| && WakeOne(s, s', c)
    ensures Inv(s')
  {
    hide LockInv, TokInv, SweepInv, ConsInv, TreeInv, Holds;
    var i := Looking(s.cpus[c]).value.i;
    var p' := s'.procs[i];
    assert IrqOk(s.procs, s.cpus[c]) && TreeCode(s.procs, s.cpus[c]) && ScanCode(s.procs, s.cpus[c].code);
    WakeOneRests(s, c);
    WakeOneLocal(s, s', c);
    WakeOneBase(s, s', c);
    WakeOneSweep(s, s', c);
    WakeOneCons(s, s', c);
    TreeUpdate(s.procs, i, p', s.nextPid, s.dead, s.reaped);
    forall d | 0 <= d < |s.cpus| ensures TreeCode(s'.procs, s'.cpus[d]) {
      TreeCodeUpdate(s.procs, i, p', s'.cpus[d]);
    }
    assert ScanInv(s.procs, s'.cpus);
    ScanUpdate(s.procs, s'.cpus, i, p');
  }
}
