/**
  The panic of fork for want of a process slot (os/proc.c:75-85, 174-179): when it
  comes, and that it does.
*/
module KernelFull {
  import opened KernelState
  import opened KernelSteps
  import opened KernelInv
  import opened KernelQuiet
  import opened KernelSched
  import opened KernelTree
  import opened KernelTheorems
  import opened KernelSafety
  import opened KernelPaths

  predicate InScan(pc: Pc) { pc.ForkScan? || pc.ForkSlot? || pc.ForkSkip? }

  // How the scan for a free slot moves on.
  predicate ScanEdge(procs: seq<Proc>, pc: Pc, pc': Pc) {
    match pc'
    case ForkScan(i) => i == 0 || pc == ForkSkip(i - 1)
    case ForkSlot(i) => pc == ForkScan(i)
    case ForkSkip(i) => pc == ForkSlot(i) && i < |procs| && procs[i].state != Unused
    case _ => true
  }

  ghost predicate ScanCame(s: State, s': State, d: nat)
    requires d < |s.cpus| && d < |s'.cpus|
  {
    var code, code' := s.cpus[d].code, s'.cpus[d].code;
    code'.Thread? && InScan(code'.pc) ==>
      code' == code || code'.pc == ForkScan(0) || (code.Thread? && code.me == code'.me && ScanEdge(s.procs, code.pc, code'.pc))
  }

  lemma LockCame(s: State, s': State, c: nat)
    requires c < |s.cpus| && (Acquire(s, s', c) || Release(s, s', c) || Goto(s, s', c))
    ensures |s'.cpus| == |s.cpus| && ScanCame(s, s', c)
  {
  }

  lemma QuietCame(s: State, s': State, c: nat)
    requires c < |s.cpus| && (CpuStep(s, s', c) || Commit(s, s', c))
    ensures |s'.cpus| == |s.cpus| && ScanCame(s, s', c)
  {
  }

  lemma TokenCame(s: State, s': State, c: nat)
    requires c < |s.cpus| && (TokenStep(s, s', c) || WakeOne(s, s', c))
    ensures |s'.cpus| == |s.cpus| && ScanCame(s, s', c)
  {
  }

  lemma OwnCame(s: State, s': State, c: nat)
    requires c < |s.cpus| && (IrqSet(s, s', c) || Restore(s, s', c) || Switch(s, s', c))
    ensures |s'.cpus| == |s.cpus| && ScanCame(s, s', c)
  {
  }

  lemma RunCame(s: State, s': State, c: nat)
    requires c < |s.cpus| && (ExecMark(s, s', c) || Dispatch(s, s', c)) && TokCpu(s.procs, c, s.cpus[c])
    ensures |s'.cpus| == |s.cpus| && ScanCame(s, s', c)
  {
  }

  lemma TreeCame(s: State, s': State, c: nat)
    requires c < |s.cpus| && TreeStep(s, s', c)
    ensures |s'.cpus| == |s.cpus| && ScanCame(s, s', c)
  {
    TreeStepFrame(s, s', c);
  }

  lemma StepCame(s: State, s': State, d: nat)
    requires Inv(s) && Next(s, s') && d < |s.cpus|
    ensures |s'.cpus| == |s.cpus| && ScanCame(s, s', d)
  {
    hide ScanCame, Acquire, Release, Goto, TrapEnter, TrapExit, IrqSet, Commit, Consume, ProbeIn, ProbeLeave, WfiEnd;
    hide Pop, Dispatch, Switch, Return, AddTask, Restore, ExecMark, ForkTake, ForkLink, Reap, WakeOne, Reparent, Die, Full, Exhausted, Fails;
    var c: nat :| c < |s.cpus| && CpuNext(s, s', c);
    StepEffect(s, s', c);
    if d != c {
      SameCame(s, s', d);
    } else if Acquire(s, s', c) || Release(s, s', c) || Goto(s, s', c) {
      LockCame(s, s', c);
    } else if CpuStep(s, s', c) || Commit(s, s', c) {
      QuietCame(s, s', c);
    } else if TokenStep(s, s', c) || WakeOne(s, s', c) {
      TokenCame(s, s', c);
    } else if IrqSet(s, s', c) || Restore(s, s', c) || Switch(s, s', c) {
      OwnCame(s, s', c);
    } else if ExecMark(s, s', c) || Dispatch(s, s', c) {
      assert TokCpu(s.procs, c, s.cpus[c]);
      RunCame(s, s', c);
    } else if TreeStep(s, s', c) {
      TreeCame(s, s', c);
    } else {
      PanicCame(s, s', c);
    }
  }

  lemma SameCame(s: State, s': State, d: nat)
    requires d < |s.cpus| && d < |s'.cpus| && s'.cpus[d] == s.cpus[d]
    ensures ScanCame(s, s', d)
  {
  }

  lemma PanicCame(s: State, s': State, c: nat)
    requires c < |s.cpus| && (Full(s, s', c) || Exhausted(s, s', c) || Fails(s, s', c))
    ensures |s'.cpus| == |s.cpus| && ScanCame(s, s', c)
  {
    hide Bad;
  }

  predicate Scans(s: State, c: nat, me: nat, pc: Pc) { c < |s.cpus| && s.cpus[c].code == Thread(me, pc) }

  // CPU c looks at slot q under its lock, and the slot is in use.
  predicate Sees(s: State, c: nat, me: nat, q: nat) {
    Scans(s, c, me, ForkSlot(q)) && q < |s.procs| && s.procs[q].state != Unused
  }

  ghost predicate SawBetween(r: seq<State>, m: nat, j: nat, c: nat, me: nat, q: nat)
    requires j < |r|
  {
    exists k: nat :: m <= k <= j && Sees(r[k], c, me, q)
  }

  // Since state m, where the call of fork began its scan, CPU c has found every slot below
  // `upto` in use.
  ghost predicate SawAll(r: seq<State>, m: nat, j: nat, c: nat, me: nat, upto: nat)
    requires j < |r|
  {
    m <= j && Scans(r[m], c, me, ForkScan(0)) && forall q: nat :: q < upto ==> SawBetween(r, m, j, c, me, q)
  }

  lemma SawLater(r: seq<State>, m: nat, j: nat, c: nat, me: nat, upto: nat)
    requires j + 1 < |r| && SawAll(r, m, j, c, me, upto)
    ensures SawAll(r, m, j + 1, c, me, upto)
  {
    hide Scans, Sees;
    var j' := j + 1;
    forall q: nat | q < upto ensures SawBetween(r, m, j', c, me, q) {
      assert SawBetween(r, m, j, c, me, q);
    }
  }

  lemma SawOneMore(r: seq<State>, m: nat, j: nat, c: nat, me: nat, q: nat)
    requires j + 1 < |r| && SawAll(r, m, j, c, me, q) && Sees(r[j], c, me, q)
    ensures SawAll(r, m, j + 1, c, me, q + 1)
  {
    hide Scans, Sees;
    SawLater(r, m, j, c, me, q);
    assert SawBetween(r, m, j + 1, c, me, q);
  }

  function Upto(pc: Pc): nat
    requires InScan(pc)
  {
    if pc.ForkSkip? then pc.i + 1 else pc.i
  }

  lemma {:induction false} ScanSaw(r: seq<State>, j: nat, c: nat, me: nat, pc: Pc)
    requires IsRun(r) && j < |r| && InScan(pc) && Scans(r[j], c, me, pc)
    ensures exists m: nat :: m <= j && SawAll(r, m, j, c, me, Upto(pc))
  {
    hide IsRun, Inv, Init, Next, ScanCame;
    if pc == ForkScan(0) {
      assert Upto(pc) == 0;
      assert SawAll(r, j, j, c, me, Upto(pc));
    } else if j == 0 {
      RunStarts(r);
      StartsIdle(r[0], c);
    } else {
      RunInv(r, j - 1);
      RunNext(r, j - 1);
      CpusStay(r[j - 1], r[j]);
      StepCame(r[j - 1], r[j], c);
      var pc0 := CameFrom(r[j - 1], r[j], c, me, pc);
      ScanSaw(r, j - 1, c, me, pc0);
      var m: nat :| m <= j - 1 && SawAll(r, m, j - 1, c, me, Upto(pc0));
      if Upto(pc) != Upto(pc0) { SawOneMore(r, m, j - 1, c, me, pc0.i); } else { SawLater(r, m, j - 1, c, me, Upto(pc0)); }
    }
  }

  lemma StartsIdle(s: State, c: nat)
    requires Init(s) && c < |s.cpus|
    ensures s.cpus[c].code.Sched?
  {
  }

  lemma CpusStay(s: State, s': State)
    requires Inv(s) && Next(s, s')
    ensures |s'.cpus| == |s.cpus|
  {
    hide CpuNext;
    var c: nat :| c < |s.cpus| && CpuNext(s, s', c);
    StepEffect(s, s', c);
  }

  // The program counter before the step, on the same thread.
  lemma CameFrom(s: State, s': State, c: nat, me: nat, pc: Pc) returns (pc0: Pc)
    requires c < |s.cpus| && c < |s'.cpus| && ScanCame(s, s', c) && InScan(pc) && pc != ForkScan(0) && Scans(s', c, me, pc)
    ensures InScan(pc0) && Scans(s, c, me, pc0)
    ensures Upto(pc) == Upto(pc0) || (pc.ForkSkip? && pc0.ForkSlot? && Upto(pc) == Upto(pc0) + 1 && Sees(s, c, me, pc0.i))
  {
    pc0 := s.cpus[c].code.pc;
  }

  // fork panics for want of a slot only when, since this call began its scan, it has found
  // every slot in use under the slot's lock.
  lemma FullOnlyThen(r: seq<State>, j: nat, c: nat)
    requires IsRun(r) && j + 1 < |r| && c < |r[j].cpus| && Full(r[j], r[j + 1], c)
    ensures r[j].cpus[c].code.Thread?
    ensures exists m: nat :: m <= j && SawAll(r, m, j, c, r[j].cpus[c].code.me, |r[j].procs|)
  {
    hide IsRun, SawAll;
    ScanSaw(r, j, c, r[j].cpus[c].code.me, r[j].cpus[c].code.pc);
  }

  // A call of fork in a state with every slot in use and no lock held comes to that panic,
  // when no other CPU moves.
  lemma FullThen(s: State, c: nat, me: nat)
    requires Runs(s, c, Syscall) && s.cpus[c] == In(me, Syscall, 0).(irq := Irq(true, 0, s.cpus[c].irq.saved))
    requires s.owner == map[] && |s.procs| > 0 && forall q :: 0 <= q < |s.procs| ==> s.procs[q].state != Unused
    ensures exists t :: Leads(s, t) && t.panic == OutOfProcs
  {
    hide Leads;
    var n := |s.procs|;
    Go(s, c, Syscall, ForkScan(0));
    var a := Went(s, c, ForkScan(0));
    ForkPasses(a, c, me, 0, n);
    var b := Set(a, c, In(me, ForkScan(n), 0));
    Then(s, a, b);
    var t := b.(panic := OutOfProcs);
    ByFull(b, t, c);
    Then(s, b, t);
  }

  lemma ByFull(s: State, t: State, c: nat)
    requires c < |s.cpus| && s.panic.NoPanic? && Full(s, t, c)
    ensures Leads(s, t)
  {
    hide Full;
    Step(s, t, c);
  }
}
