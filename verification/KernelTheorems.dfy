/**
  Every state of every run satisfies the invariant, and what follows.
*/
module KernelTheorems {
  import opened KernelState
  import opened KernelSteps
  import opened KernelInv
  import opened KernelLocks
  import opened KernelQuiet
  import opened KernelSched
  import opened KernelSleep
  import opened KernelTree

  // ---------- no assertion of the protocol fails

  lemma WantsFree(procs: seq<Proc>, k: Cpu)
    requires TreeCode(procs, k) && Wants(k, |procs|).Some?
    ensures !Holds(k, Wants(k, |procs|).value)
  {
  }

  // Acquire never asks for a lock this CPU holds; release always finds its lock,
  // and its pop_off never panics.
  lemma LocksGood(s: State, c: nat)
    requires Inv(s) && c < |s.cpus|
    ensures Wants(s.cpus[c], |s.procs|).Some? ==> !HoldsLock(s, c, Wants(s.cpus[c], |s.procs|).value)
    ensures Drops(s.cpus[c]).Some? ==>
      HoldsLock(s, c, Drops(s.cpus[c]).value) && !PopOffPanics(s.cpus[c].irq, !s.cpus[c].trap.NoTrap?)
  {
    hide TokInv, TreeInv, SweepInv, ConsInv, ScanInv;
    var k := s.cpus[c];
    assert TreeCode(s.procs, k) && IrqOk(s.procs, k);
    if Drops(k).Some? { DroppedHolds(k, s.procs); }
    if Wants(k, |s.procs|).Some? { WantsFree(s.procs, k); }
  }

  // A set of numbers below n has at most n elements.
  lemma {:induction false} Below(xs: set<nat>, n: nat)
    requires forall x :: x in xs ==> x < n
    ensures |xs| <= n
  {
    if n == 0 {
      assert xs == {};
    } else {
      Below(xs - {n - 1}, n - 1);
    }
  }

  function Elements(q: seq<nat>): set<nat> { set x | x in q }

  lemma {:induction false} DistinctCount(q: seq<nat>)
    requires forall i, j :: 0 <= i < j < |q| ==> q[i] != q[j]
    ensures |Elements(q)| == |q|
  {
    if q == [] {
      assert Elements(q) == {};
    } else {
      var t := q[..|q| - 1];
      DistinctCount(t);
      assert q == t + [q[|q| - 1]];
      assert Elements(q) == Elements(t) + {q[|q| - 1]};
      assert q[|q| - 1] !in Elements(t);
    }
  }

  // The task queue never holds all NPROC processes when one more is pushed.
  lemma QueueRoom(s: State, q: nat)
    requires QueueInv(s.procs, s.queue) && q < |s.procs| && !s.procs[q].at.InQueue?
    ensures |s.queue| < |s.procs|
  {
    DistinctCount(s.queue);
    assert q !in Elements(s.queue);
    Below(Elements(s.queue) + {q}, |s.procs|);
  }

  lemma PushGood(s: State, c: nat)
    requires Inv(s) && c < |s.cpus| && Pushing(s.cpus[c]).Some?
    ensures Pushing(s.cpus[c]).value < |s.procs| && |s.queue| < |s.procs|
  {
    assert TokCpu(s.procs, c, s.cpus[c]);
    QueueRoom(s, Pushing(s.cpus[c]).value);
  }

  lemma CodeGood(s: State, c: nat)
    requires Inv(s) && c < |s.cpus| && s.cpus[c].trap.NoTrap? && s.cpus[c].code.Sched?
    ensures match s.cpus[c].code.sp
      case ProbeOut(alive) => alive && !PopOffPanics(s.cpus[c].irq, false)
      case Got(p) => p < |s.procs| && s.procs[p].state == Runnable
      case Back(p) => s.cpus[c].proc == Some(p) && !s.cpus[c].irq.on && HoldsLock(s, c, ProcLock(p))
      case _ => true
  {
    var k := s.cpus[c];
    assert TreeCode(s.procs, k) && IrqOk(s.procs, k) && TokCpu(s.procs, c, k);
    if k.code.sp.Back? { assert Holds(k, ProcLock(k.code.sp.p)); }
  }

  lemma ThreadGood(s: State, c: nat)
    requires Inv(s) && c < |s.cpus| && s.cpus[c].trap.NoTrap? && s.cpus[c].code.Thread?
    ensures var k := s.cpus[c]; var me := k.code.me; var pc := k.code.pc;
      && k.proc == Some(me) && me < |s.procs| && !pc.ExitDead?
      && (AtSwitch(pc) ==> HoldsLock(s, c, ProcLock(me)) && k.irq.noff == 1 && !k.irq.on)
      && (pc.ExitSched? ==> s.procs[me].state == Zombie)
      && (pc.Trapped? || pc.Served? || pc.Ret? ==> !k.irq.on)
      && (pc.YieldSw? || pc.SleepSw? ==> HoldsLock(s, c, ProcLock(me)))
      && (pc.ForkSlot? || pc.WaitLook? ==> HoldsLock(s, c, ProcLock(pc.i)))
  {
    hide LockInv, QueueInv, TokProc, TreeInv, TreeCodeInv, SweepInv, ConsInv, ScanInv, HoldsLock;
    var k := s.cpus[c];
    assert Base(s) && IrqOk(s.procs, k) && TokCpu(s.procs, c, k);
    ThreadLocks(s, c);
  }

  // Where the source asserts that it holds a process lock, it does.
  lemma ThreadLocks(s: State, c: nat)
    requires c < |s.cpus| && LockInv(s.owner, s.cpus) && s.cpus[c].trap.NoTrap? && s.cpus[c].code.Thread?
    ensures var me := s.cpus[c].code.me; var pc := s.cpus[c].code.pc;
      && (AtSwitch(pc) || pc.YieldSw? || pc.SleepSw? ==> HoldsLock(s, c, ProcLock(me)))
      && (pc.ForkSlot? || pc.WaitLook? ==> HoldsLock(s, c, ProcLock(pc.i)))
  {
    var k := s.cpus[c];
    assert forall x :: Holds(k, x) ==> HoldsLock(s, c, x);
    var me := k.code.me;
    assert AtSwitch(k.code.pc) || k.code.pc.YieldSw? || k.code.pc.SleepSw? ==> Holds(k, ProcLock(me));
    if k.code.pc.ForkSlot? || k.code.pc.WaitLook? { assert Holds(k, ProcLock(k.code.pc.i)); }
  }

  lemma NothingFails(s: State, c: nat)
    requires Inv(s) && c < |s.cpus|
    ensures !Bad(s, c)
  {
    var k := s.cpus[c];
    LocksGood(s, c);
    assert IrqOk(s.procs, k);
    if Pushing(k).Some? { PushGood(s, c); }
    if k.trap.NoTrap? {
      if k.code.Sched? { CodeGood(s, c); } else { ThreadGood(s, c); }
    }
  }

  // ---------- every step, every run

  lemma StepInv(s: State, s': State)
    requires Inv(s) && Next(s, s')
    ensures Inv(s')
  {
    hide Inv, Bad, Acquire, Release, Goto, TrapEnter, TrapExit, IrqSet, Commit, Consume, ProbeIn, ProbeLeave, WfiEnd;
    hide Pop, Dispatch, Switch, Return, AddTask, Restore, ExecMark, ForkTake, ForkLink, Reap, WakeOne, Reparent, Die;
    var c: nat :| c < |s.cpus| && CpuNext(s, s', c);
    NothingFails(s, c);
    if Full(s, s', c) || Exhausted(s, s', c) { PanicInv(s, s', c); }
    else if Acquire(s, s', c) { AcquireInv(s, s', c); }
    else if Release(s, s', c) { ReleaseInv(s, s', c); }
    else if Goto(s, s', c) { GotoInv(s, s', c); }
    else if CpuStep(s, s', c) { CpuStepInv(s, s', c); }
    else if OwnStep(s, s', c) { OwnStepInv(s, s', c); }
    else if TokenStep(s, s', c) { TokenStepInv(s, s', c); }
    else if Commit(s, s', c) { CommitInv(s, s', c); }
    else if Switch(s, s', c) { SwitchInv(s, s', c); }
    else if WakeOne(s, s', c) { WakeOneInv(s, s', c); }
    else if TreeStep(s, s', c) { TreeStepInv(s, s', c); }
  }

  lemma PanicInv(s: State, s': State, c: nat)
    requires Inv(s) && c < |s.cpus| && (Full(s, s', c) || Exhausted(s, s', c))
    ensures Inv(s')
  {
  }

  lemma RunStarts(r: seq<State>)
    requires IsRun(r)
    ensures |r| > 0 && Init(r[0])
  {
    hide Init, Next;
  }

  lemma RunNext(r: seq<State>, i: nat)
    requires IsRun(r) && i + 1 < |r|
    ensures Next(r[i], r[i + 1])
  {
    hide Init, Next;
  }

  lemma {:induction false} RunInv(r: seq<State>, i: nat)
    requires IsRun(r) && i < |r|
    ensures Inv(r[i])
  {
    hide Init, IsRun, Next, Inv;
    RunStarts(r);
    if i == 0 {
      InitInv(r[0]);
    } else {
      RunInv(r, i - 1);
      RunNext(r, i - 1);
      StepInv(r[i - 1], r[i]);
    }
  }

  // In no run does an assertion or a panic listed in Bad fail, or is about to.
  lemma NoAssertionFails(r: seq<State>, i: nat, c: nat)
    requires IsRun(r) && i < |r| && c < |r[i].cpus|
    ensures r[i].panic != Assertion && !Bad(r[i], c)
  {
    hide IsRun, Bad;
    RunInv(r, i);
    NothingFails(r[i], c);
  }
}
