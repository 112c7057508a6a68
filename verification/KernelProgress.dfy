/**
  No CPU is ever stuck: one that does not spin on a lock held by another has a step, and
  some CPU always has one (os/sched.c:50-137, os/proc.c:135-303, os/trap.c:84-190).
*/
module KernelProgress {
  import opened KernelState
  import opened KernelSteps
  import opened KernelInv
  import opened KernelTheorems
  import opened KernelSafety

  // CPU c can go on without an interrupt and without failing an assertion.
  ghost predicate Proceeds(s: State, c: nat)
    requires c < |s.cpus|
  {
    exists s' :: CpuNext(s, s', c) && !TrapEnter(s, s', c) && s'.panic != Assertion
  }

  // It waits in acquire.
  ghost predicate Spins(s: State, c: nat)
    requires c < |s.cpus|
  {
    Wants(s.cpus[c], |s.procs|).Some? && Wants(s.cpus[c], |s.procs|).value in s.owner
  }

  lemma By(s: State, s': State, c: nat)
    requires c < |s.cpus| && CpuNext(s, s', c) && c < |s'.cpus| && s'.panic != Assertion
    requires s'.cpus[c].trap.NoTrap? || !s.cpus[c].trap.NoTrap?
    ensures Proceeds(s, c)
  {
    assert !TrapEnter(s, s', c);
  }

  lemma Locks(s: State, c: nat)
    requires c < |s.cpus| && s.panic != Assertion && !Spins(s, c)
    requires Wants(s.cpus[c], |s.procs|).Some? || Drops(s.cpus[c]).Some?
    ensures Proceeds(s, c)
  {
    var k := s.cpus[c];
    if Wants(k, |s.procs|).Some? {
      var t := s.(cpus := s.cpus[c := Taken(k).(irq := PushOff(k.irq))], owner := s.owner[Wants(k, |s.procs|).value := c]);
      assert Acquire(s, t, c);
      By(s, t, c);
    } else {
      var t := s.(cpus := s.cpus[c := Dropped(k, s.procs).(irq := PopOff(k.irq))], owner := s.owner - {Drops(k).value});
      assert Release(s, t, c);
      By(s, t, c);
    }
  }

  lemma Goes(s: State, c: nat, pc': Pc)
    requires c < |s.cpus| && s.panic != Assertion && s.cpus[c].trap.NoTrap? && s.cpus[c].code.Thread?
    requires PcGoto(s.procs, s.data, s.cpus[c].code.me, s.cpus[c].code.pc, pc')
    ensures Proceeds(s, c)
  {
    hide PcGoto;
    var k := s.cpus[c];
    var t := s.(cpus := s.cpus[c := k.(code := Thread(k.code.me, pc'))]);
    assert t.cpus[c].code.pc == pc';
    assert Goto(s, t, c);
    By(s, t, c);
  }

  lemma Pushes(s: State, c: nat)
    requires c < |s.cpus| && s.panic != Assertion && Pushing(s.cpus[c]).Some? && Pushing(s.cpus[c]).value < |s.procs|
    ensures Proceeds(s, c)
  {
    var k := s.cpus[c];
    var q := Pushing(k).value;
    var t := s.(cpus := s.cpus[c := Pushed(k)], queue := s.queue + [q], procs := s.procs[q := s.procs[q].(at := InQueue)]);
    assert AddTask(s, t, c);
    By(s, t, c);
  }

  lemma Wakes(s: State, c: nat)
    requires c < |s.cpus| && s.panic != Assertion && Looking(s.cpus[c]).Some? && Looking(s.cpus[c]).value.i < |s.procs|
    ensures Proceeds(s, c)
  {
    var k := s.cpus[c];
    var l := Looking(k).value;
    if Asleep(s.procs[l.i], l.chan) {
      var t := s.(cpus := s.cpus[c := Found(k)], procs := s.procs[l.i := s.procs[l.i].(state := Runnable, at := Waking(c))]);
      assert WakeOne(s, t, c);
      By(s, t, c);
    } else if k.trap.NoTrap? {
      Goes(s, c, ExitWake(k.code.pc.code, l.(ph := Drop)));
    } else {
      Traps(s, c, TrapWake(l.(ph := Drop)));
    }
  }

  lemma Traps(s: State, c: nat, t': Trap)
    requires c < |s.cpus| && s.panic != Assertion && !s.cpus[c].trap.NoTrap? && TrapGoto(s.procs, s.cpus[c].trap, t')
    ensures Proceeds(s, c)
  {
    var t := s.(cpus := s.cpus[c := s.cpus[c].(trap := t')]);
    assert Goto(s, t, c);
    By(s, t, c);
  }

  // ---------- in an interrupt

  lemma InTrap(s: State, c: nat)
    requires c < |s.cpus| && s.panic != Assertion && TreeCode(s.procs, s.cpus[c]) && !s.cpus[c].trap.NoTrap? && !Spins(s, c)
    ensures Proceeds(s, c)
  {
    hide CpuNext, Proceeds, TreePc;
    var k := s.cpus[c];
    match k.trap
    case TrapAcq => Locks(s, c);
    case TrapDrop => Locks(s, c);
    case TrapHeld => Traps(s, c, TrapDrop);
    case TrapWake(l) =>
      match l.ph
      case Want => if l.i < |s.procs| { Locks(s, c); } else { Traps(s, c, TrapDrop); }
      case Look => Wakes(s, c);
      case Push => Pushes(s, c);
      case Drop => Locks(s, c);
  }

  // ---------- in the scheduler

  lemma InSched(s: State, c: nat)
    requires c < |s.cpus| && s.panic != Assertion && TreeCode(s.procs, s.cpus[c]) && TokCpu(s.procs, c, s.cpus[c]) && |s.procs| > 0
    requires s.cpus[c].trap.NoTrap? && s.cpus[c].code.Sched? && !Spins(s, c) && (s.queue != [] ==> s.queue[0] < |s.procs|)
    ensures Proceeds(s, c)
  {
    hide CpuNext, Proceeds;
    var k := s.cpus[c];
    match k.code.sp
    case Fetch => Fetches(s, c);
    case ProbeWant(i) => Locks(s, c);
    case ProbeLook(i) => Locks(s, c);
    case ProbeOut(alive) => Idles(s, c);
    case Wfi => Idles(s, c);
    case Popped(p) => Locks(s, c);
    case Got(p) => Runs(s, c);
    case Back(p) => Runs(s, c);
    case Enq(p) => Pushes(s, c);
    case Rel(p) => Locks(s, c);
  }

  lemma Fetches(s: State, c: nat)
    requires c < |s.cpus| && s.panic != Assertion && s.cpus[c].trap.NoTrap? && s.cpus[c].code == Sched(Fetch)
    requires s.queue != [] ==> s.queue[0] < |s.procs|
    ensures Proceeds(s, c)
  {
    var k := s.cpus[c];
    if s.queue == [] {
      var t := s.(cpus := s.cpus[c := k.(code := Sched(ProbeWant(0)), irq := PushOff(k.irq))]);
      assert ProbeIn(s, t, c);
      By(s, t, c);
    } else {
      var p := s.queue[0];
      var t := s.(cpus := s.cpus[c := k.(code := Sched(Popped(p)))], queue := s.queue[1..], procs := s.procs[p := s.procs[p].(at := OnCpu(c))]);
      assert Pop(s, t, c);
      By(s, t, c);
    }
  }

  lemma Idles(s: State, c: nat)
    requires c < |s.cpus| && s.panic != Assertion && s.cpus[c].trap.NoTrap? && s.cpus[c].code in {Sched(ProbeOut(true)), Sched(Wfi)}
    ensures Proceeds(s, c)
  {
    var k := s.cpus[c];
    if k.code == Sched(Wfi) {
      var t := s.(cpus := s.cpus[c := k.(code := Sched(Fetch), irq := k.irq.(on := false))]);
      assert WfiEnd(s, t, c);
      By(s, t, c);
    } else {
      var t := s.(cpus := s.cpus[c := k.(code := Sched(Wfi), irq := PopOff(k.irq).(on := true))]);
      assert ProbeLeave(s, t, c);
      By(s, t, c);
    }
  }

  lemma Runs(s: State, c: nat)
    requires c < |s.cpus| && s.panic != Assertion && TokCpu(s.procs, c, s.cpus[c])
    requires s.cpus[c].trap.NoTrap? && s.cpus[c].code.Sched? && (s.cpus[c].code.sp.Got? || s.cpus[c].code.sp.Back?)
    ensures Proceeds(s, c)
  {
    var k := s.cpus[c];
    var p := k.code.sp.p;
    if k.code.sp.Got? {
      var t := s.(cpus := s.cpus[c := k.(proc := Some(p), code := Thread(p, s.procs[p].ctx))], procs := s.procs[p := s.procs[p].(state := Running)]);
      assert Dispatch(s, t, c);
      By(s, t, c);
    } else {
      var again := s.procs[p].state == Runnable;
      var t := s.(cpus := s.cpus[c := k.(proc := None, code := Sched(if again then Enq(p) else Rel(p)))],
                  procs := s.procs[p := s.procs[p].(at := if again then Waking(c) else Nowhere)]);
      assert Return(s, t, c);
      By(s, t, c);
    }
  }

  // ---------- in a thread

  // Thread me runs on CPU c, outside interrupts.
  ghost predicate On(s: State, c: nat, me: nat, pc: Pc) {
    && c < |s.cpus| && s.panic != Assertion && s.cpus[c].trap.NoTrap? && s.cpus[c].code == Thread(me, pc)
    && me < |s.procs| && TreePc(s.procs, me, pc) && !pc.ExitDead? && !Spins(s, c)
  }

  lemma Owns(s: State, c: nat, me: nat, pc: Pc)
    requires On(s, c, me, pc) && (Turns(pc) || AtSwitch(pc) || pc.YieldSw? || pc.SleepSw? || pc.ExecHeld?)
    ensures Proceeds(s, c)
  {
    var k := s.cpus[c];
    var p := s.procs[me];
    if Turns(pc) {
      var t := s.(cpus := s.cpus[c := k.(code := Thread(me, Turned(pc)), irq := k.irq.(on := TurnsOn(pc)))], procs := s.procs[me := p.(base := TurnsOn(pc))]);
      assert IrqSet(s, t, c);
      By(s, t, c);
    } else if AtSwitch(pc) {
      var t := s.(cpus := s.cpus[c := k.(code := Sched(Back(me)))], procs := s.procs[me := Parked(p, me, pc, k.irq.saved)]);
      assert Switch(s, t, c);
      By(s, t, c);
    } else if pc.ExecHeld? {
      var t := s.(cpus := s.cpus[c := k.(code := Thread(me, ExecEnd))], procs := s.procs[me := p.(state := Runnable)]);
      assert ExecMark(s, t, c);
      By(s, t, c);
    } else {
      var t := s.(cpus := s.cpus[c := k.(code := Thread(me, if pc.YieldSw? then YieldEnd(pc.f) else SleepEnd(pc.w)), irq := k.irq.(saved := p.savedOn))],
                  procs := s.procs[me := if pc.YieldSw? then p else p.(chan := NoChan)]);
      assert Restore(s, t, c);
      By(s, t, c);
    }
  }

  lemma Forks(s: State, c: nat, me: nat, pc: Pc)
    requires On(s, c, me, pc) && (pc.ForkSlot? || pc.ForkBoth? || (pc.ForkScan? && pc.i == |s.procs|))
    ensures Proceeds(s, c)
  {
    var k := s.cpus[c];
    if pc.ForkScan? {
      var t := s.(panic := OutOfProcs);
      assert Full(s, t, c);
      By(s, t, c);
    } else if pc.ForkBoth? {
      var np := pc.np;
      var t := s.(cpus := s.cpus[c := k.(code := Thread(me, ForkPush(np, pc.k)))],
                  procs := s.procs[np := s.procs[np].(parent := Some(me), state := Runnable, at := Waking(c))]);
      assert ForkLink(s, t, c);
      By(s, t, c);
    } else if s.procs[pc.i].state == Unused {
      var i := pc.i;
      var q := s.procs[i].(state := Used, pid := s.nextPid, parent := None, exitCode := 0, ctx := FirstRet);
      var t := s.(cpus := s.cpus[c := k.(code := Thread(me, ForkSelf(i, s.nextPid)))], procs := s.procs[i := q], nextPid := s.nextPid + 1);
      assert ForkTake(s, t, c);
      By(s, t, c);
    } else {
      Goes(s, c, ForkSkip(pc.i));
    }
  }

  lemma Scans(s: State, c: nat, me: nat, pc: Pc)
    requires On(s, c, me, pc) && (pc.WaitLook? || (pc.WaitScan? && (pc.i == |s.procs| || pc.i == me)))
    ensures Proceeds(s, c)
  {
    var k := s.cpus[c];
    if pc.WaitScan? {
      Goes(s, c, if pc.i == |s.procs| then if pc.kids then SleepAcq(InWait(pc.pid)) else WaitDone(-1) else WaitScan(pc.pid, pc.i + 1, pc.kids));
    } else if Matches(s.procs[pc.i], me, pc.pid) {
      var p := s.procs[pc.i];
      var q := p.(state := Unused, pid := -1, exitCode := 0xdeadbeef, chan := NoChan, parent := None);
      var t := s.(cpus := s.cpus[c := k.(code := Thread(me, WaitFreed(pc.i, p.pid)))], procs := s.procs[pc.i := q], reaped := s.reaped + [(p.pid, p.exitCode)]);
      assert Reap(s, t, c);
      By(s, t, c);
    } else {
      Goes(s, c, WaitSkip(pc.pid, pc.i, pc.kids || s.procs[pc.i].parent == Some(me)));
    }
  }

  lemma Exits(s: State, c: nat, me: nat, pc: Pc)
    requires On(s, c, me, pc) && (pc.ExitStart? || pc.ExitRepLook? || (pc.ExitRep? && (pc.i == |s.procs| || pc.i == me)))
    ensures Proceeds(s, c)
  {
    hide NoChildBelow;
    var k := s.cpus[c];
    var p := s.procs[me];
    if pc.ExitStart? {
      Goes(s, c, ExitWake(pc.code, Loop(ParentChan(p.parent), 0, Want)));
    } else if pc.ExitRepLook? {
      var q := s.procs[pc.i];
      var t := s.(cpus := s.cpus[c := k.(code := Thread(me, ExitRepDrop(pc.code, pc.ch, pc.i)))],
                  procs := s.procs[pc.i := if q.parent == Some(me) then q.(parent := Some(0)) else q]);
      assert Reparent(s, t, c);
      By(s, t, c);
    } else if pc.i == me {
      Goes(s, c, ExitRep(pc.code, pc.ch, pc.i + 1));
    } else {
      var t := s.(cpus := s.cpus[c := k.(code := Thread(me, ExitDrop))],
                  procs := s.procs[me := p.(exitCode := pc.code, state := Zombie, under := p.parent)], dead := s.dead[p.pid := pc.code]);
      assert Die(s, t, c);
      By(s, t, c);
    }
  }

  lemma WakeLoop(s: State, c: nat, me: nat, pc: Pc)
    requires On(s, c, me, pc) && pc.ExitWake?
    ensures Proceeds(s, c)
  {
    hide CpuNext, Proceeds;
    match pc.l.ph
    case Want => if pc.l.i < |s.procs| { Locks(s, c); } else { Goes(s, c, ExitSelf(pc.code, pc.l.chan)); }
    case Look => Wakes(s, c);
    case Push => Pushes(s, c);
    case Drop => Locks(s, c);
  }

  // At an acquire or a release.
  predicate LockPc(me: nat, pc: Pc, n: nat) { PcWants(me, pc, n).Some? || PcDrops(me, pc).Some? }

  // Every other counter is one of these.
  lemma Others(procs: seq<Proc>, me: nat, pc: Pc)
    requires me < |procs| && TreePc(procs, me, pc) && !LockPc(me, pc, |procs|) && !pc.ExitDead? && !pc.ExitWake?
    ensures || (Turns(pc) || AtSwitch(pc) || pc.YieldSw? || pc.SleepSw? || pc.ExecHeld?)
            || (pc.ForkSlot? || pc.ForkBoth? || (pc.ForkScan? && pc.i == |procs|))
            || (pc.WaitLook? || (pc.WaitScan? && (pc.i == |procs| || pc.i == me)))
            || (pc.ExitStart? || pc.ExitRepLook? || (pc.ExitRep? && (pc.i == |procs| || pc.i == me)))
            || pc.Served? || pc.ReadHeld? || pc.ForkRet? || pc.ForkPush?
  {
    hide NoChildBelow;
  }

  lemma InThread(s: State, c: nat, me: nat, pc: Pc)
    requires On(s, c, me, pc)
    ensures Proceeds(s, c)
  {
    hide CpuNext, Proceeds, PcWants, PcDrops, TreePc, Turns, AtSwitch;
    var n := |s.procs|;
    if pc.ExitWake? {
      WakeLoop(s, c, me, pc);
    } else if LockPc(me, pc, n) {
      Locks(s, c);
    } else {
      Others(s.procs, me, pc);
      if Turns(pc) || AtSwitch(pc) || pc.YieldSw? || pc.SleepSw? || pc.ExecHeld? {
        Owns(s, c, me, pc);
      } else if pc.ForkSlot? || pc.ForkBoth? || pc.ForkScan? {
        Forks(s, c, me, pc);
      } else if pc.WaitLook? || pc.WaitScan? {
        Scans(s, c, me, pc);
      } else if pc.ExitStart? || pc.ExitRepLook? || pc.ExitRep? {
        Exits(s, c, me, pc);
      } else {
        Rests(s, c, me, pc);
      }
    }
  }

  lemma Rests(s: State, c: nat, me: nat, pc: Pc)
    requires On(s, c, me, pc) && (pc.Served? || pc.ReadHeld? || pc.ForkRet? || pc.ForkPush?)
    ensures Proceeds(s, c)
  {
    hide CpuNext, Proceeds;
    if pc.ForkPush? { Pushes(s, c); } else { Goes(s, c, if pc.Served? then Ret else if pc.ReadHeld? then ReadEnd else Syscall); }
  }

  // ---------- every CPU, every run

  lemma NoneStuck(s: State, c: nat)
    requires Inv(s) && c < |s.cpus| && !Spins(s, c)
    ensures Proceeds(s, c)
  {
    hide LockInv, IrqInv, TokProc, SweepInv, ConsInv, ScanInv, PidsInv, LogInv, ProcTree, Spins, Proceeds, CpuNext;
    var k := s.cpus[c];
    assert TokCpu(s.procs, c, k) && TreeCode(s.procs, k) && |s.procs| > 0;
    hide TokInv, TreeInv, TreeCodeInv, Inv;
    if !k.trap.NoTrap? {
      InTrap(s, c);
    } else if k.code.Sched? {
      InSched(s, c);
    } else {
      InThread(s, c, k.code.me, k.code.pc);
    }
  }

  // In every reachable state every CPU either waits in acquire for a lock that another CPU
  // holds, or has a step of its own, without an interrupt, that fails no assertion; and
  // until a panic of fork some CPU has one.
  lemma NeverStuck(r: seq<State>, i: nat, c: nat)
    requires IsRun(r) && i < |r| && c < |r[i].cpus|
    ensures Spins(r[i], c) || Proceeds(r[i], c)
    ensures r[i].panic.NoPanic? ==> exists s' :: Next(r[i], s') && s'.panic != Assertion
  {
    hide IsRun, Inv, Spins, Proceeds;
    RunInv(r, i);
    if !Spins(r[i], c) { NoneStuck(r[i], c); }
    if r[i].panic.NoPanic? { SomeStep(r[i], c); }
  }

  lemma SomeStep(s: State, c: nat)
    requires Inv(s) && c < |s.cpus| && s.panic.NoPanic?
    ensures exists s' :: Next(s, s') && s'.panic != Assertion
  {
    hide Inv, CpuNext;
    var d := c;
    if Spins(s, c) {
      SomeoneRuns(s, c);
      d :| 0 <= d < |s.cpus| && (Wants(s.cpus[d], |s.procs|).None? || Wants(s.cpus[d], |s.procs|).value !in s.owner);
    }
    NoneStuck(s, d);
    var s' :| CpuNext(s, s', d) && s'.panic != Assertion;
    assert Next(s, s');
  }
}
