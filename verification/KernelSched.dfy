/**
  The quiet steps one by one: interrupts, all_dead and wfi, the scheduler loop,
  add_task, and the ends of yield, sleep and exec.
*/
module KernelSched {
  import opened KernelState
  import opened KernelSteps
  import opened KernelInv
  import opened KernelLocks
  import opened KernelQuiet

  // Steps that only replace a CPU record.
  ghost predicate CpuStep(s: State, s': State, c: nat)
    requires c < |s.cpus|
  {
    TrapEnter(s, s', c) || TrapExit(s, s', c) || ProbeIn(s, s', c) || ProbeLeave(s, s', c) || WfiEnd(s, s', c) || Consume(s, s', c)
  }

  lemma CpuStepHoldsTrap(s: State, s': State, c: nat)
    requires c < |s.cpus| && (TrapEnter(s, s', c) || TrapExit(s, s', c) || Consume(s, s', c)) && IrqOk(s.procs, s.cpus[c])
    ensures |s'.cpus| == |s.cpus|
    ensures forall x :: Holds(s'.cpus[c], x) <==> Holds(s.cpus[c], x)
  {
  }

  lemma CpuStepHoldsProbe(s: State, s': State, c: nat)
    requires c < |s.cpus| && (ProbeIn(s, s', c) || ProbeLeave(s, s', c) || WfiEnd(s, s', c)) && IrqOk(s.procs, s.cpus[c])
    ensures |s'.cpus| == |s.cpus|
    ensures forall x :: Holds(s'.cpus[c], x) <==> Holds(s.cpus[c], x)
  {
  }

  lemma CpuStepHolds(s: State, s': State, c: nat)
    requires c < |s.cpus| && CpuStep(s, s', c) && IrqOk(s.procs, s.cpus[c])
    ensures |s'.cpus| == |s.cpus|
    ensures forall x :: Holds(s'.cpus[c], x) <==> Holds(s.cpus[c], x)
  {
    hide Consume, ProbeIn, ProbeLeave, TrapEnter, TrapExit, WfiEnd;
    if TrapEnter(s, s', c) || TrapExit(s, s', c) || Consume(s, s', c) {
      CpuStepHoldsTrap(s, s', c);
    } else {
      CpuStepHoldsProbe(s, s', c);
    }
  }

  lemma TrapStepTok(s: State, s': State, c: nat)
    requires c < |s.cpus| && (TrapEnter(s, s', c) || TrapExit(s, s', c))
    requires CodeDepth(s.cpus[c].code) == 0 && TokCpu(s.procs, c, s.cpus[c])
    ensures |s'.cpus| == |s.cpus|
    ensures var k := s.cpus[c]; var k' := s'.cpus[c];
      TokCpu(s.procs, c, k') && CodeProc(k'.code) == CodeProc(k.code) && Pushing(k') == Pushing(k)
  {
  }

  lemma CpuStepTok(s: State, s': State, c: nat)
    requires c < |s.cpus| && CpuStep(s, s', c) && IrqOk(s.procs, s.cpus[c]) && TokCpu(s.procs, c, s.cpus[c])
    ensures |s'.cpus| == |s.cpus|
    ensures var k := s.cpus[c]; var k' := s'.cpus[c];
      TokCpu(s.procs, c, k') && CodeProc(k'.code) == CodeProc(k.code) && Pushing(k') == Pushing(k)
  {
    if TrapEnter(s, s', c) || TrapExit(s, s', c) { TrapStepTok(s, s', c); }
  }

  lemma TrapStepIrq(s: State, s': State, c: nat)
    requires c < |s.cpus| && (TrapEnter(s, s', c) || TrapExit(s, s', c)) && IrqOk(s.procs, s.cpus[c])
    ensures |s'.cpus| == |s.cpus| && IrqOk(s.procs, s'.cpus[c])
  {
    hide CodeHolds, TrapHolds;
  }

  lemma ConsumeIrq(s: State, s': State, c: nat)
    requires c < |s.cpus| && Consume(s, s', c) && IrqOk(s.procs, s.cpus[c])
    ensures |s'.cpus| == |s.cpus| && IrqOk(s.procs, s'.cpus[c])
  {
  }

  lemma ProbeIrq(s: State, s': State, c: nat)
    requires c < |s.cpus| && (ProbeIn(s, s', c) || ProbeLeave(s, s', c) || WfiEnd(s, s', c)) && IrqOk(s.procs, s.cpus[c])
    ensures |s'.cpus| == |s.cpus| && IrqOk(s.procs, s'.cpus[c])
  {
  }

  lemma CpuStepIrq(s: State, s': State, c: nat)
    requires c < |s.cpus| && CpuStep(s, s', c) && IrqOk(s.procs, s.cpus[c])
    ensures |s'.cpus| == |s.cpus| && IrqOk(s.procs, s'.cpus[c])
  {
    hide Consume, ProbeIn, ProbeLeave, TrapEnter, TrapExit, WfiEnd, IrqOk;
    if TrapEnter(s, s', c) || TrapExit(s, s', c) {
      TrapStepIrq(s, s', c);
    } else if Consume(s, s', c) {
      ConsumeIrq(s, s', c);
    } else {
      ProbeIrq(s, s', c);
    }
  }

  // What a step that only replaces a CPU record owes the tree, the scans, the sweeps
  // and the sleepers.
  ghost predicate CpuRest(procs: seq<Proc>, k: Cpu, k': Cpu) {
    && TreeCode(procs, k') && ScanCode(procs, k'.code)
    && (SweepOf(k', |procs|) == SweepOf(k, |procs|) || SweepOf(k', |procs|).NoSweep?)
    && TrapKeeps(k.trap, k'.trap)
    && (k'.code == k.code || !SleepPc(k'.code))
  }

  lemma TrapStepRest(s: State, s': State, c: nat)
    requires c < |s.cpus| && (TrapEnter(s, s', c) || TrapExit(s, s', c))
    requires CodeDepth(s.cpus[c].code) == 0 && TreeCode(s.procs, s.cpus[c]) && ScanCode(s.procs, s.cpus[c].code)
    ensures |s'.cpus| == |s.cpus| && CpuRest(s.procs, s.cpus[c], s'.cpus[c])
  {
  }

  lemma ProbeRest(s: State, s': State, c: nat)
    requires c < |s.cpus| && (Consume(s, s', c) || ProbeIn(s, s', c) || ProbeLeave(s, s', c) || WfiEnd(s, s', c))
    requires TreeCode(s.procs, s.cpus[c]) && ScanCode(s.procs, s.cpus[c].code)
    ensures |s'.cpus| == |s.cpus| && CpuRest(s.procs, s.cpus[c], s'.cpus[c])
  {
  }

  lemma CpuStepRest(s: State, s': State, c: nat)
    requires c < |s.cpus| && CpuStep(s, s', c)
    requires CodeDepth(s.cpus[c].code) == 0 || !(TrapEnter(s, s', c) || TrapExit(s, s', c))
    requires TreeCode(s.procs, s.cpus[c]) && ScanCode(s.procs, s.cpus[c].code)
    ensures |s'.cpus| == |s.cpus| && CpuRest(s.procs, s.cpus[c], s'.cpus[c])
  {
    hide Consume, ProbeIn, ProbeLeave, TrapEnter, TrapExit, WfiEnd, CpuRest, TreeCode, ScanCode;
    if TrapEnter(s, s', c) || TrapExit(s, s', c) {
      TrapStepRest(s, s', c);
    } else {
      ProbeRest(s, s', c);
    }
  }

  lemma CpuStepFrame(s: State, s': State, c: nat)
    requires c < |s.cpus| && CpuStep(s, s', c) && |s.procs| > 0
    ensures QuietFrame(s, s', c, 0) && s'.procs == s.procs && s'.queue == s.queue
  {
    assert s.procs == s.procs[0 := s.procs[0]];
  }

  lemma CpuStepBase(s: State, s': State, c: nat)
    requires Base(s) && c < |s.cpus| && CpuStep(s, s', c) && |s.procs| > 0
    ensures Base(s')
  {
    assert IrqOk(s.procs, s.cpus[c]) && TokCpu(s.procs, c, s.cpus[c]);
    CpuStepHolds(s, s', c);
    CpuStepIrq(s, s', c);
    CpuStepTok(s, s', c);
    CpuStepFrame(s, s', c);
    CpuLock(s.owner, s.cpus, c, s'.cpus[c]);
    CpuTok(s.procs, s.cpus, s.queue, c, s'.cpus[c]);
  }

  lemma CpuStepInv(s: State, s': State, c: nat)
    requires Inv(s) && c < |s.cpus| && CpuStep(s, s', c)
    ensures Inv(s')
  {
    assert IrqOk(s.procs, s.cpus[c]) && TreeCode(s.procs, s.cpus[c]) && ScanCode(s.procs, s.cpus[c].code);
    CpuStepBase(s, s', c);
    CpuStepRest(s, s', c);
    CpuStepFrame(s, s', c);
    QuietInv(s, s', c, 0);
  }

  // ---------- steps on the CPU's own process

  ghost predicate OwnStep(s: State, s': State, c: nat)
    requires c < |s.cpus|
  {
    IrqSet(s, s', c) || Restore(s, s', c) || ExecMark(s, s', c) || Dispatch(s, s', c)
  }

  // The process of CPU c stays with it, and only that slot and that CPU change.
  ghost predicate OwnKept(s: State, s': State, c: nat)
    requires c < |s.cpus|
  {
    && |s'.cpus| == |s.cpus| && s'.cpus == s.cpus[c := s'.cpus[c]] && s'.queue == s.queue
    && CodeProc(s.cpus[c].code).Some? && CodeProc(s'.cpus[c].code) == CodeProc(s.cpus[c].code)
    && Pushing(s'.cpus[c]).None? && Pushing(s.cpus[c]).None?
    && (var q := CodeProc(s.cpus[c].code).value;
        q < |s.procs| && |s'.procs| == |s.procs| && s'.procs == s.procs[q := s'.procs[q]] && s'.procs[q].at == OnCpu(c))
    && TokCpu(s'.procs, c, s'.cpus[c])
  }

  lemma IrqStepCpu(s: State, s': State, c: nat)
    requires c < |s.cpus| && (IrqSet(s, s', c) || Restore(s, s', c)) && TokCpu(s.procs, c, s.cpus[c])
    ensures OwnKept(s, s', c)
  {
  }

  lemma RunStepCpu(s: State, s': State, c: nat)
    requires c < |s.cpus| && (ExecMark(s, s', c) || Dispatch(s, s', c)) && TokCpu(s.procs, c, s.cpus[c])
    ensures OwnKept(s, s', c)
  {
  }

  lemma OwnStepCpu(s: State, s': State, c: nat)
    requires c < |s.cpus| && OwnStep(s, s', c) && TokCpu(s.procs, c, s.cpus[c])
    ensures OwnKept(s, s', c)
  {
    hide Dispatch, IrqSet, Restore, ExecMark, TokCpu, OwnKept;
    if IrqSet(s, s', c) || Restore(s, s', c) { IrqStepCpu(s, s', c); } else { RunStepCpu(s, s', c); }
  }

  lemma OwnStepTok(s: State, s': State, c: nat)
    requires c < |s.cpus| && OwnStep(s, s', c) && TokInv(s.procs, s.cpus, s.queue)
    ensures TokInv(s'.procs, s'.cpus, s'.queue)
  {
    assert TokCpu(s.procs, c, s.cpus[c]);
    OwnStepCpu(s, s', c);
    var q := CodeProc(s.cpus[c].code).value;
    assert TokProc(s.procs, s.cpus, s.queue, q);
    TokUpdate(s, s', c, q);
  }

  lemma DispatchIrq(s: State, s': State, c: nat)
    requires c < |s.cpus| && Dispatch(s, s', c) && IrqOk(s.procs, s.cpus[c]) && TokCpu(s.procs, c, s.cpus[c])
    ensures |s'.cpus| == |s.cpus| && IrqOk(s'.procs, s'.cpus[c])
    ensures forall x :: Holds(s'.cpus[c], x) <==> Holds(s.cpus[c], x)
  {
    assert Resumable(s.procs[s.cpus[c].code.sp.p]);
  }

  lemma IrqStepIrq(s: State, s': State, c: nat)
    requires c < |s.cpus| && (IrqSet(s, s', c) || Restore(s, s', c)) && IrqOk(s.procs, s.cpus[c]) && TokCpu(s.procs, c, s.cpus[c])
    ensures |s'.cpus| == |s.cpus| && IrqOk(s'.procs, s'.cpus[c])
    ensures forall x :: Holds(s'.cpus[c], x) <==> Holds(s.cpus[c], x)
  {
  }

  lemma ExecMarkIrq(s: State, s': State, c: nat)
    requires c < |s.cpus| && ExecMark(s, s', c) && IrqOk(s.procs, s.cpus[c]) && TokCpu(s.procs, c, s.cpus[c])
    ensures |s'.cpus| == |s.cpus| && IrqOk(s'.procs, s'.cpus[c])
    ensures forall x :: Holds(s'.cpus[c], x) <==> Holds(s.cpus[c], x)
  {
  }

  lemma OwnStepIrq(s: State, s': State, c: nat)
    requires c < |s.cpus| && OwnStep(s, s', c) && IrqOk(s.procs, s.cpus[c]) && TokCpu(s.procs, c, s.cpus[c])
    ensures |s'.cpus| == |s.cpus| && IrqOk(s'.procs, s'.cpus[c])
    ensures forall x :: Holds(s'.cpus[c], x) <==> Holds(s.cpus[c], x)
  {
    hide Dispatch, IrqSet, Restore, ExecMark, IrqOk, TokCpu, Holds;
    if Dispatch(s, s', c) {
      DispatchIrq(s, s', c);
    } else if ExecMark(s, s', c) {
      ExecMarkIrq(s, s', c);
    } else {
      IrqStepIrq(s, s', c);
    }
  }

  lemma OwnStepRestIrq(s: State, s': State, c: nat)
    requires c < |s.cpus| && (IrqSet(s, s', c) || Restore(s, s', c)) && TokCpu(s.procs, c, s.cpus[c])
    requires TreeCode(s.procs, s.cpus[c]) && ScanCode(s.procs, s.cpus[c].code)
    ensures QuietFrame(s, s', c, CodeProc(s.cpus[c].code).value)
    ensures var k := s.cpus[c]; var k' := s'.cpus[c]; var n := |s.procs|;
      && TreeCode(s.procs, k') && ScanCode(s.procs, k'.code)
      && (SweepOf(k', n) == SweepOf(k, n) || SweepOf(k', n).NoSweep?)
      && TrapKeeps(k.trap, k'.trap)
      && (k'.code == k.code || !SleepPc(k'.code))
  {
  }

  lemma OwnStepRestExec(s: State, s': State, c: nat)
    requires c < |s.cpus| && ExecMark(s, s', c) && TokCpu(s.procs, c, s.cpus[c])
    requires TreeCode(s.procs, s.cpus[c]) && ScanCode(s.procs, s.cpus[c].code)
    ensures QuietFrame(s, s', c, CodeProc(s.cpus[c].code).value)
    ensures var k := s.cpus[c]; var k' := s'.cpus[c]; var n := |s.procs|;
      && TreeCode(s.procs, k') && ScanCode(s.procs, k'.code)
      && (SweepOf(k', n) == SweepOf(k, n) || SweepOf(k', n).NoSweep?)
      && TrapKeeps(k.trap, k'.trap)
      && (k'.code == k.code || !SleepPc(k'.code))
  {
  }

  lemma OwnStepRestDispatch(s: State, s': State, c: nat)
    requires c < |s.cpus| && Dispatch(s, s', c) && TokCpu(s.procs, c, s.cpus[c])
    requires TreeCode(s.procs, s.cpus[c]) && ScanCode(s.procs, s.cpus[c].code)
    ensures QuietFrame(s, s', c, CodeProc(s.cpus[c].code).value)
    ensures var k := s.cpus[c]; var k' := s'.cpus[c]; var n := |s.procs|;
      && TreeCode(s.procs, k') && ScanCode(s.procs, k'.code)
      && (SweepOf(k', n) == SweepOf(k, n) || SweepOf(k', n).NoSweep?)
      && TrapKeeps(k.trap, k'.trap)
      && (k'.code == k.code || !SleepPc(k'.code))
  {
  }

  lemma OwnStepRest(s: State, s': State, c: nat)
    requires c < |s.cpus| && OwnStep(s, s', c) && TokCpu(s.procs, c, s.cpus[c])
    requires TreeCode(s.procs, s.cpus[c]) && ScanCode(s.procs, s.cpus[c].code)
    ensures QuietFrame(s, s', c, CodeProc(s.cpus[c].code).value)
    ensures var k := s.cpus[c]; var k' := s'.cpus[c]; var n := |s.procs|;
      && TreeCode(s.procs, k') && ScanCode(s.procs, k'.code)
      && (SweepOf(k', n) == SweepOf(k, n) || SweepOf(k', n).NoSweep?)
      && TrapKeeps(k.trap, k'.trap)
      && (k'.code == k.code || !SleepPc(k'.code))
  {
    hide Dispatch, ExecMark, IrqSet, Restore;
    if IrqSet(s, s', c) || Restore(s, s', c) {
      OwnStepRestIrq(s, s', c);
    } else if ExecMark(s, s', c) {
      OwnStepRestExec(s, s', c);
    } else {
      OwnStepRestDispatch(s, s', c);
    }
  }

  lemma OwnStepInv(s: State, s': State, c: nat)
    requires Inv(s) && c < |s.cpus| && OwnStep(s, s', c)
    ensures Inv(s')
  {
    assert IrqOk(s.procs, s.cpus[c]) && TokCpu(s.procs, c, s.cpus[c]);
    assert TreeCode(s.procs, s.cpus[c]) && ScanCode(s.procs, s.cpus[c].code);
    var q := CodeProc(s.cpus[c].code).value;
    OwnStepTok(s, s', c);
    OwnStepRest(s, s', c);
    OwnStepIrq(s, s', c);
    assert LockInv(s'.owner, s'.cpus) by { CpuLock(s.owner, s.cpus, c, s'.cpus[c]); }
    assert IrqInv(s'.procs, s'.cpus) by { IrqUpdate(s, s', c, q); }
    QuietInv(s, s', c, q);
  }

  // ---------- steps that move a run token

  ghost predicate TokenStep(s: State, s': State, c: nat)
    requires c < |s.cpus|
  {
    Pop(s, s', c) || Return(s, s', c) || AddTask(s, s', c)
  }

  function TokenOf(s: State, c: nat): nat
    requires c < |s.cpus|
  {
    var k := s.cpus[c];
    if k.trap.NoTrap? && k.code == Sched(Fetch) && s.queue != [] then s.queue[0]
    else if Pushing(k).Some? then Pushing(k).value
    else if CodeProc(k.code).Some? then CodeProc(k.code).value
    else 0
  }

  lemma PushedTable(k: Cpu, procs: seq<Proc>)
    requires Pushing(k).Some?
    ensures var k' := Pushed(k); var n := |procs|;
      && (forall x :: Holds(k', x) <==> Holds(k, x)) && Depth(k') == Depth(k)
      && k'.irq == k.irq && k'.proc == k.proc && CodeProc(k'.code) == CodeProc(k.code) && Pushing(k').None?
      && SweepOf(k', n) == SweepOf(k, n) && TrapKeeps(k.trap, k'.trap)
      && (k'.code == k.code || !SleepPc(k'.code)) && ScanCode(procs, k'.code) == ScanCode(procs, k.code)
  {
  }

  lemma PushedTree(k: Cpu, procs: seq<Proc>)
    requires Pushing(k).Some? && TreeCode(procs, k)
    ensures TreeCode(procs, Pushed(k))
  {
  }

  lemma PushedIrq(k: Cpu, procs: seq<Proc>)
    requires Pushing(k).Some? && IrqOk(procs, k)
    ensures IrqOk(procs, Pushed(k))
  {
    PushedTable(k, procs);
  }

  lemma TokenStepLocal(s: State, s': State, c: nat)
    requires c < |s.cpus| && TokenStep(s, s', c) && TokInv(s.procs, s.cpus, s.queue)
    ensures var q := TokenOf(s, c);
      && QuietFrame(s, s', c, q) && Near(s.procs[q].at, c)
      && s'.procs[q] == s.procs[q].(at := s'.procs[q].at)
  {
    assert TokCpu(s.procs, c, s.cpus[c]);
    assert TokProc(s.procs, s.cpus, s.queue, TokenOf(s, c));
  }

  lemma TokenStepQueue(s: State, s': State, c: nat)
    requires c < |s.cpus| && TokenStep(s, s', c) && TokInv(s.procs, s.cpus, s.queue)
    ensures QueueInv(s'.procs, s'.queue)
    ensures forall p :: p in s.queue && p != TokenOf(s, c) ==> p in s'.queue
  {
    assert TokCpu(s.procs, c, s.cpus[c]);
  }

  lemma TokenStepCpuPop(s: State, s': State, c: nat)
    requires c < |s.cpus| && Pop(s, s', c) && TokInv(s.procs, s.cpus, s.queue)
    ensures TokenOf(s, c) < |s.procs| && |s'.cpus| == |s.cpus| && |s'.procs| == |s.procs|
    ensures var q := TokenOf(s, c);
      && TokCpu(s'.procs, c, s'.cpus[c]) && TokProc(s'.procs, s'.cpus, s'.queue, q)
      && (CodeProc(s'.cpus[c].code) == CodeProc(s.cpus[c].code) || CodeProc(s.cpus[c].code) in {None, Some(q)})
      && (Pushing(s'.cpus[c]) == Pushing(s.cpus[c]) || Pushing(s.cpus[c]) in {None, Some(q)})
  {
    var q := TokenOf(s, c);
    TokenStepLocal(s, s', c);
    assert TokCpu(s.procs, c, s.cpus[c]) && TokProc(s.procs, s.cpus, s.queue, q);
  }

  lemma TokenStepCpuReturn(s: State, s': State, c: nat)
    requires c < |s.cpus| && Return(s, s', c) && TokInv(s.procs, s.cpus, s.queue)
    ensures TokenOf(s, c) < |s.procs| && |s'.cpus| == |s.cpus| && |s'.procs| == |s.procs|
    ensures var q := TokenOf(s, c);
      && TokCpu(s'.procs, c, s'.cpus[c]) && TokProc(s'.procs, s'.cpus, s'.queue, q)
      && (CodeProc(s'.cpus[c].code) == CodeProc(s.cpus[c].code) || CodeProc(s.cpus[c].code) in {None, Some(q)})
      && (Pushing(s'.cpus[c]) == Pushing(s.cpus[c]) || Pushing(s.cpus[c]) in {None, Some(q)})
  {
    var q := TokenOf(s, c);
    TokenStepLocal(s, s', c);
    assert TokCpu(s.procs, c, s.cpus[c]) && TokProc(s.procs, s.cpus, s.queue, q);
  }

  lemma TokenStepCpuAdd(s: State, s': State, c: nat)
    requires c < |s.cpus| && AddTask(s, s', c) && TokInv(s.procs, s.cpus, s.queue)
    ensures TokenOf(s, c) < |s.procs| && |s'.cpus| == |s.cpus| && |s'.procs| == |s.procs|
    ensures var q := TokenOf(s, c);
      && TokCpu(s'.procs, c, s'.cpus[c]) && TokProc(s'.procs, s'.cpus, s'.queue, q)
      && (CodeProc(s'.cpus[c].code) == CodeProc(s.cpus[c].code) || CodeProc(s.cpus[c].code) in {None, Some(q)})
      && (Pushing(s'.cpus[c]) == Pushing(s.cpus[c]) || Pushing(s.cpus[c]) in {None, Some(q)})
  {
    var q := TokenOf(s, c);
    TokenStepLocal(s, s', c);
    assert TokCpu(s.procs, c, s.cpus[c]) && TokProc(s.procs, s.cpus, s.queue, q);
    if Pushing(s.cpus[c]).Some? { PushedTable(s.cpus[c], s.procs); }
  }

  lemma TokenStepCpu(s: State, s': State, c: nat)
    requires c < |s.cpus| && TokenStep(s, s', c) && TokInv(s.procs, s.cpus, s.queue)
    ensures TokenOf(s, c) < |s.procs| && |s'.cpus| == |s.cpus| && |s'.procs| == |s.procs|
    ensures var q := TokenOf(s, c);
      && TokCpu(s'.procs, c, s'.cpus[c]) && TokProc(s'.procs, s'.cpus, s'.queue, q)
      && (CodeProc(s'.cpus[c].code) == CodeProc(s.cpus[c].code) || CodeProc(s.cpus[c].code) in {None, Some(q)})
      && (Pushing(s'.cpus[c]) == Pushing(s.cpus[c]) || Pushing(s.cpus[c]) in {None, Some(q)})
  {
    hide AddTask, Pop, Return;
    if Pop(s, s', c) {
      TokenStepCpuPop(s, s', c);
    } else if Return(s, s', c) {
      TokenStepCpuReturn(s, s', c);
    } else {
      TokenStepCpuAdd(s, s', c);
    }
  }

  lemma TokenStepTok(s: State, s': State, c: nat)
    requires c < |s.cpus| && TokenStep(s, s', c) && TokInv(s.procs, s.cpus, s.queue)
    ensures TokInv(s'.procs, s'.cpus, s'.queue)
  {
    TokenStepLocal(s, s', c);
    TokenStepQueue(s, s', c);
    TokenStepCpu(s, s', c);
    TokUpdate(s, s', c, TokenOf(s, c));
  }

  lemma TokenStepHolds(s: State, s': State, c: nat)
    requires c < |s.cpus| && TokenStep(s, s', c)
    ensures |s'.cpus| == |s.cpus| && Depth(s'.cpus[c]) == Depth(s.cpus[c])
    ensures forall x :: Holds(s'.cpus[c], x) <==> Holds(s.cpus[c], x)
  {
    if Pushing(s.cpus[c]).Some? { PushedTable(s.cpus[c], s.procs); }
  }

  lemma TokenStepIrq(s: State, s': State, c: nat)
    requires c < |s.cpus| && TokenStep(s, s', c) && IrqOk(s.procs, s.cpus[c])
    ensures |s'.cpus| == |s.cpus| && IrqOk(s'.procs, s'.cpus[c])
  {
    if Pushing(s.cpus[c]).Some? { PushedIrq(s.cpus[c], s.procs); }
  }

  lemma TokenStepRest(s: State, s': State, c: nat)
    requires c < |s.cpus| && TokenStep(s, s', c)
    requires TreeCode(s.procs, s.cpus[c]) && ScanCode(s.procs, s.cpus[c].code)
    ensures |s'.cpus| == |s.cpus|
    ensures var k := s.cpus[c]; var k' := s'.cpus[c]; var n := |s.procs|;
      && TreeCode(s.procs, k') && ScanCode(s.procs, k'.code)
      && (SweepOf(k', n) == SweepOf(k, n) || SweepOf(k', n).NoSweep?)
      && TrapKeeps(k.trap, k'.trap)
      && (k'.code == k.code || !SleepPc(k'.code))
  {
    if Pushing(s.cpus[c]).Some? { PushedTable(s.cpus[c], s.procs); PushedTree(s.cpus[c], s.procs); }
  }

  lemma TokenStepInv(s: State, s': State, c: nat)
    requires Inv(s) && c < |s.cpus| && TokenStep(s, s', c)
    ensures Inv(s')
  {
    assert IrqOk(s.procs, s.cpus[c]);
    assert TreeCode(s.procs, s.cpus[c]) && ScanCode(s.procs, s.cpus[c].code);
    TokenStepLocal(s, s', c);
    TokenStepTok(s, s', c);
    TokenStepRest(s, s', c);
    assert LockInv(s'.owner, s'.cpus) by { TokenStepHolds(s, s', c); CpuLock(s.owner, s.cpus, c, s'.cpus[c]); }
    assert IrqInv(s'.procs, s'.cpus) by { TokenStepIrq(s, s', c); IrqUpdate(s, s', c, TokenOf(s, c)); }
    QuietInv(s, s', c, TokenOf(s, c));
  }
}
