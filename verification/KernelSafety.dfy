/**
  What the invariant means: one run token per process, lock discipline, freedom
  from deadlock, the process tree, exit statuses and interrupt state, for every
  state of every run.
*/
module KernelSafety {
  import opened KernelState
  import opened KernelSteps
  import opened KernelInv
  import opened KernelLocks
  import opened KernelQuiet
  import opened KernelSched
  import opened KernelSleep
  import opened KernelTree
  import opened KernelTheorems

  // ---------- run tokens

  // No process is on two CPUs, or on a CPU and in the queue, or twice in the
  // queue, and queued processes are RUNNABLE with a saved context.
  ghost predicate TokensApart(s: State) {
    && (forall c, d, p :: 0 <= c < |s.cpus| && 0 <= d < |s.cpus| && OnCpuNow(s, c, p) && OnCpuNow(s, d, p) ==> c == d)
    && (forall c, j :: 0 <= c < |s.cpus| && 0 <= j < |s.queue| ==> !OnCpuNow(s, c, s.queue[j]))
    && (forall j, k :: 0 <= j < k < |s.queue| ==> s.queue[j] != s.queue[k])
    && (forall j :: 0 <= j < |s.queue| ==> s.queue[j] < |s.procs| && Ready(s.procs[s.queue[j]]))
  }

  // CPU c has popped p, runs it, or has just switched away from it.
  predicate OnCpuNow(s: State, c: nat, p: nat)
    requires c < |s.cpus|
  {
    CodeProc(s.cpus[c].code) == Some(p)
  }

  // Every RUNNABLE process is queued, on a CPU, or about to be queued by a CPU.
  ghost predicate NoneForgotten(s: State) {
    forall p :: 0 <= p < |s.procs| && s.procs[p].state == Runnable ==>
      p in s.queue || exists c :: 0 <= c < |s.cpus| && (OnCpuNow(s, c, p) || Pushing(s.cpus[c]) == Some(p))
  }

  lemma TokenFacts(s: State)
    requires TokInv(s.procs, s.cpus, s.queue)
    ensures TokensApart(s) && NoneForgotten(s)
  {
    forall c: nat, p: nat | c < |s.cpus| && OnCpuNow(s, c, p) ensures p < |s.procs| && s.procs[p].at == OnCpu(c) {
      assert TokCpu(s.procs, c, s.cpus[c]);
    }
    forall j | 0 <= j < |s.queue| ensures s.queue[j] < |s.procs| && Ready(s.procs[s.queue[j]]) {
      assert TokProc(s.procs, s.cpus, s.queue, s.queue[j]);
    }
    forall p | 0 <= p < |s.procs| && s.procs[p].state == Runnable && p !in s.queue
      ensures exists c :: 0 <= c < |s.cpus| && (OnCpuNow(s, c, p) || Pushing(s.cpus[c]) == Some(p))
    {
      assert TokProc(s.procs, s.cpus, s.queue, p);
      assert OnCpuNow(s, s.procs[p].at.c, p) || Pushing(s.cpus[s.procs[p].at.c]) == Some(p);
    }
  }

  lemma OneToken(r: seq<State>, i: nat)
    requires IsRun(r) && i < |r|
    ensures TokensApart(r[i]) && NoneForgotten(r[i])
  {
    RunInv(r, i);
    TokenFacts(r[i]);
  }

  // ---------- what one step of CPU c can do

  predicate SameFields(q: Proc, q': Proc) {
    q'.state == q.state && q'.pid == q.pid && q'.parent == q.parent && q'.chan == q.chan && q'.exitCode == q.exitCode
  }

  // The shared fields of a slot are written under its lock; nobody falls asleep
  // but through swtch; only a thread itself sets the interrupt state to come back
  // to; and only fork, wait and exit change the tree.
  ghost predicate ProcEffect(s: State, s': State, c: nat, p: nat)
    requires c < |s.cpus| && p < |s.procs| && p < |s'.procs|
  {
    var q := s.procs[p];
    var q' := s'.procs[p];
    && (SameFields(q, q') || Holds(s.cpus[c], ProcLock(p)))
    && (Calm(q, q') || Switch(s, s', c))
    && (q'.base == q.base || (IrqSet(s, s', c) && s.cpus[c].code.me == p))
    && (TreeSame(q, q') || TreeStep(s, s', c))
  }

  // sleep enters its last stretch only by dropping the condition lock.
  predicate FallsFrom(k: Cpu, k': Cpu) {
    k'.code.Thread? && k'.code.pc.SleepSet? ==>
      k'.code == k.code || k.code == Thread(k'.code.me, SleepHeld(k'.code.pc.w))
  }

  // all_dead pushes once on top of the lock it holds.
  function Probing(k: Cpu): nat {
    if k.code.Sched? && (k.code.sp.ProbeWant? || k.code.sp.ProbeLook? || k.code.sp.ProbeOut?) then 1 else 0
  }

  ghost predicate Effect(s: State, s': State, c: nat)
    requires c < |s.cpus|
  {
    && |s'.cpus| == |s.cpus| && (forall d :: 0 <= d < |s.cpus| && d != c ==> s'.cpus[d] == s.cpus[d])
    && |s'.procs| == |s.procs| && (forall p :: 0 <= p < |s.procs| ==> ProcEffect(s, s', c, p))
    && FallsFrom(s.cpus[c], s'.cpus[c])
    && ((s'.dead == s.dead && s'.reaped == s.reaped) || TreeStep(s, s', c))
    && ((s'.owner == s.owner && s'.cpus[c].irq.noff - Probing(s'.cpus[c]) == s.cpus[c].irq.noff - Probing(s.cpus[c]))
        || Acquire(s, s', c) || Release(s, s', c))
  }

  lemma LockEffect(s: State, s': State, c: nat)
    requires c < |s.cpus| && (Acquire(s, s', c) || Release(s, s', c) || Goto(s, s', c))
    ensures Effect(s, s', c)
  {
  }

  lemma TrapEffect(s: State, s': State, c: nat)
    requires c < |s.cpus| && (TrapEnter(s, s', c) || TrapExit(s, s', c) || Consume(s, s', c))
    ensures Effect(s, s', c)
  {
    hide TreeStep, Acquire, Release;
  }

  lemma ProbeEffect(s: State, s': State, c: nat)
    requires c < |s.cpus| && (ProbeIn(s, s', c) || ProbeLeave(s, s', c) || WfiEnd(s, s', c))
    ensures Effect(s, s', c)
  {
    hide TreeStep, Acquire, Release;
  }

  lemma CpuEffect(s: State, s': State, c: nat)
    requires c < |s.cpus| && CpuStep(s, s', c)
    ensures Effect(s, s', c)
  {
    hide Effect, TrapEnter, TrapExit, Consume, ProbeIn, ProbeLeave, WfiEnd;
    if ProbeIn(s, s', c) || ProbeLeave(s, s', c) || WfiEnd(s, s', c) { ProbeEffect(s, s', c); } else { TrapEffect(s, s', c); }
  }

  lemma PanicEffect(s: State, s': State, c: nat)
    requires c < |s.cpus| && (Full(s, s', c) || Exhausted(s, s', c) || Fails(s, s', c) || Commit(s, s', c))
    ensures Effect(s, s', c)
  {
    assert s'.procs == s.procs;
  }

  lemma IrqEffect(s: State, s': State, c: nat)
    requires c < |s.cpus| && (IrqSet(s, s', c) || Restore(s, s', c)) && TokCpu(s.procs, c, s.cpus[c])
    ensures Effect(s, s', c)
  {
  }

  lemma RunEffect(s: State, s': State, c: nat)
    requires c < |s.cpus| && (ExecMark(s, s', c) || Dispatch(s, s', c)) && TokCpu(s.procs, c, s.cpus[c])
    ensures Effect(s, s', c)
  {
  }

  lemma SwitchEffect(s: State, s': State, c: nat)
    requires c < |s.cpus| && Switch(s, s', c) && TokCpu(s.procs, c, s.cpus[c])
    ensures Effect(s, s', c)
  {
  }

  lemma TokenEffect(s: State, s': State, c: nat)
    requires c < |s.cpus| && TokenStep(s, s', c) && TokInv(s.procs, s.cpus, s.queue)
    ensures Effect(s, s', c)
  {
    TokenStepLocal(s, s', c);
    if Pushing(s.cpus[c]).Some? { PushedTable(s.cpus[c], s.procs); }
  }

  lemma WakeEffect(s: State, s': State, c: nat)
    requires c < |s.cpus| && WakeOne(s, s', c)
    ensures Effect(s, s', c)
  {
    WakeOneSweepOf(s.cpus[c], |s.procs|);
  }

  lemma TreeEffect(s: State, s': State, c: nat)
    requires c < |s.cpus| && TreeStep(s, s', c)
    ensures Effect(s, s', c)
  {
    TreeStepFrame(s, s', c);
    EdgeHolds(s.cpus[c], s'.cpus[c]);
  }

  lemma StepEffect(s: State, s': State, c: nat)
    requires c < |s.cpus| && CpuNext(s, s', c) && TokInv(s.procs, s.cpus, s.queue)
    ensures Effect(s, s', c)
  {
    assert TokCpu(s.procs, c, s.cpus[c]);
    if IrqSet(s, s', c) || Restore(s, s', c) { IrqEffect(s, s', c); }
    else if ExecMark(s, s', c) || Dispatch(s, s', c) { RunEffect(s, s', c); }
    else if Switch(s, s', c) { SwitchEffect(s, s', c); }
    else if TokenStep(s, s', c) { TokenEffect(s, s', c); }
    else if WakeOne(s, s', c) { WakeEffect(s, s', c); }
    else if TreeStep(s, s', c) { TreeEffect(s, s', c); }
    else if Acquire(s, s', c) || Release(s, s', c) || Goto(s, s', c) { LockEffect(s, s', c); }
    else if CpuStep(s, s', c) { CpuEffect(s, s', c); }
    else { PanicEffect(s, s', c); }
  }

  // ---------- lock discipline

  // Every change of state, pid, parent, channel or exit status is made by a CPU
  // that holds the lock of the slot.
  lemma LockedWrites(r: seq<State>, i: nat, p: nat)
    requires IsRun(r) && i + 1 < |r| && p < |r[i].procs|
    ensures |r[i + 1].procs| == |r[i].procs|
    ensures SameFields(r[i].procs[p], r[i + 1].procs[p]) || exists c :: 0 <= c < |r[i].cpus| && HoldsLock(r[i], c, ProcLock(p))
  {
    hide IsRun, Init, Next, SameFields, HoldsLock;
    RunInv(r, i);
    RunNext(r, i);
    LockedNext(r[i], r[i + 1], p);
  }

  lemma LockedNext(s: State, s': State, p: nat)
    requires Base(s) && Next(s, s') && p < |s.procs|
    ensures |s'.procs| == |s.procs|
    ensures SameFields(s.procs[p], s'.procs[p]) || exists c :: 0 <= c < |s.cpus| && HoldsLock(s, c, ProcLock(p))
  {
    var c: nat :| c < |s.cpus| && CpuNext(s, s', c);
    StepEffect(s, s', c);
    LockedEffect(s, s', c, p);
  }

  lemma LockedEffect(s: State, s': State, c: nat, p: nat)
    requires LockInv(s.owner, s.cpus) && c < |s.cpus| && Effect(s, s', c) && p < |s.procs|
    ensures |s'.procs| == |s.procs| && (SameFields(s.procs[p], s'.procs[p]) || HoldsLock(s, c, ProcLock(p)))
  {
    assert ProcEffect(s, s', c, p);
    if Holds(s.cpus[c], ProcLock(p)) { assert HoldsLock(s, c, ProcLock(p)); }
  }

  // ---------- deadlock freedom

  // CPU c spins on a lock that CPU d holds.
  ghost predicate WaitsFor(s: State, c: nat, d: nat) {
    && c < |s.cpus| && d < |s.cpus|
    && Wants(s.cpus[c], |s.procs|).Some?
    && HoldsLock(s, d, Wants(s.cpus[c], |s.procs|).value)
  }

  // Condition locks come before process locks, and those before the lock of an address
  // space; the process lock exit takes while
  // it holds its own comes before the one fork takes while it holds its child's.
  function Rank(k: Cpu, n: nat): nat {
    match Wants(k, n)
    case None => 4
    case Some(WaitLock) => 0
    case Some(ConsLock) => 0
    case Some(MmLock(_)) => 3
    case Some(ProcLock(_)) =>
      if k.trap.NoTrap? && k.code.Thread? && k.code.pc.ForkSelf? then 3
      else if k.trap.NoTrap? && k.code.Thread? && k.code.pc.ExitRep? then 2
      else 1
  }

  lemma RankRises(s: State, c: nat, d: nat)
    requires Inv(s) && WaitsFor(s, c, d)
    ensures Rank(s.cpus[c], |s.procs|) < Rank(s.cpus[d], |s.procs|)
  {
    var n := |s.procs|;
    var w := Wants(s.cpus[c], n).value;
    assert Holds(s.cpus[d], w);
    assert TreeCode(s.procs, s.cpus[d]) && IrqOk(s.procs, s.cpus[d]);
    if w.ProcLock? { RankProc(s, c, d); } else if w.MmLock? { RankSpace(s.cpus[d], w, n); } else { RankCond(s.cpus[d], w, n); }
  }

  lemma RankCond(k: Cpu, w: Lock, n: nat)
    requires Holds(k, w) && (w.WaitLock? || w.ConsLock?)
    ensures Rank(k, n) > 0
  {
  }

  // Nobody asks for a lock while it holds the lock of an address space.
  lemma RankSpace(k: Cpu, w: Lock, n: nat)
    requires Holds(k, w) && w.MmLock?
    ensures Rank(k, n) == 4
  {
  }

  lemma RankPair(kc: Cpu, kd: Cpu, n: nat, w: Lock)
    requires Wants(kc, n) == Some(w) && w.ProcLock? && Holds(kd, w)
    requires kc.trap.NoTrap? && kc.code.Thread? && kc.code.pc.ForkSelf? ==>
      !(kd.code.Thread? && (kd.code.me == kc.code.me || (kd.code.pc.ForkSelf? && kd.code.pc.np == kc.code.me)))
    requires !(kc.code.Thread? && kd.code.Thread? && kc.code.pc.ExitRep? && kd.code.pc.ExitRep?) || !kc.trap.NoTrap?
    ensures Rank(kc, n) < Rank(kd, n)
  {
    if Wants(kd, n).Some? { HoldingAndWaiting(kd, n, w); }
  }

  // A forking thread spins on its own lock only behind threads that do not spin.
  lemma ForkBehind(s: State, c: nat, d: nat)
    requires Inv(s) && c < |s.cpus| && d < |s.cpus| && c != d
    requires s.cpus[c].code.Thread? && s.cpus[d].code.Thread? && s.cpus[c].code.pc.ForkSelf?
    ensures s.cpus[d].code.me != s.cpus[c].code.me
    ensures s.cpus[d].code.pc.ForkSelf? ==> s.cpus[d].code.pc.np != s.cpus[c].code.me
  {
    hide LockInv, IrqInv, TreeInv, SweepInv, ConsInv, ScanInv;
    assert TokCpu(s.procs, c, s.cpus[c]) && TokCpu(s.procs, d, s.cpus[d]);
    assert TreeCode(s.procs, s.cpus[d]);
  }

  // exit holds wait_lock all through its reparent loop.
  lemma RepHolds(procs: seq<Proc>, k: Cpu)
    requires IrqOk(procs, k) && k.code.Thread? && k.code.pc.ExitRep?
    ensures Holds(k, WaitLock)
  {
  }

  lemma RankProc(s: State, c: nat, d: nat)
    requires Inv(s) && WaitsFor(s, c, d) && Wants(s.cpus[c], |s.procs|).value.ProcLock?
    ensures Rank(s.cpus[c], |s.procs|) < Rank(s.cpus[d], |s.procs|)
  {
    hide TokInv, TreeInv, SweepInv, ConsInv, ScanInv, TreeCodeInv;
    var kc, kd := s.cpus[c], s.cpus[d];
    var w := Wants(kc, |s.procs|).value;
    assert Holds(kd, w);
    LocksGood(s, c);
    hide Rank;
    if kc.trap.NoTrap? && kc.code.Thread? && kd.code.Thread? {
      if kc.code.pc.ForkSelf? { ForkBehind(s, c, d); }
      if kc.code.pc.ExitRep? && kd.code.pc.ExitRep? {
        assert IrqOk(s.procs, kc) && IrqOk(s.procs, kd);
        RepHolds(s.procs, kc);
        RepHolds(s.procs, kd);
        Exclusive(s.owner, s.cpus, c, d, WaitLock);
      }
    }
    RankPair(kc, kd, |s.procs|, w);
  }

  // Only exit, fork and the users of mm->lock ask for a lock while they hold a process
  // lock.
  lemma HoldingAndWaiting(k: Cpu, n: nat, w: Lock)
    requires Holds(k, w) && w.ProcLock? && Wants(k, n).Some?
    ensures k.trap.NoTrap? && k.code.Thread?
    ensures (k.code.pc.ExitRep? && w == ProcLock(k.code.me)) || (k.code.pc.ForkSelf? && w == ProcLock(k.code.pc.np))
            || ((k.code.pc.CopySelf? || k.code.pc.PeekSelf?) && w == ProcLock(k.code.me))
  {
  }

  // A chain of CPUs, each spinning on a lock the next one holds.
  ghost predicate WaitChain(s: State, path: seq<nat>) {
    forall j :: 0 <= j < |path| - 1 ==> WaitsFor(s, path[j], path[j + 1])
  }

  lemma {:induction false} ChainRises(s: State, path: seq<nat>)
    requires Inv(s) && |path| > 1 && WaitChain(s, path)
    ensures path[0] < |s.cpus| && path[|path| - 1] < |s.cpus|
    ensures Rank(s.cpus[path[0]], |s.procs|) + |path| - 1 <= Rank(s.cpus[path[|path| - 1]], |s.procs|)
  {
    var n := |path|;
    assert WaitsFor(s, path[n - 2], path[n - 2 + 1]);
    RankRises(s, path[n - 2], path[n - 1]);
    if n > 2 {
      var front := path[..n - 1];
      assert WaitChain(s, front) by {
        forall j | 0 <= j < |front| - 1 ensures WaitsFor(s, front[j], front[j + 1]) {
          assert WaitsFor(s, path[j], path[j + 1]);
        }
      }
      ChainRises(s, front);
    }
  }

  // No reachable state has a cycle of waiting CPUs, and no chain has more than
  // four waiting CPUs.
  lemma NoDeadlock(r: seq<State>, i: nat, path: seq<nat>)
    requires IsRun(r) && i < |r| && |path| > 1 && WaitChain(r[i], path)
    ensures path[0] != path[|path| - 1]
    ensures |path| <= 5
  {
    hide IsRun, Inv, Init, WaitChain;
    RunInv(r, i);
    ChainRises(r[i], path);
  }

  // Behind every spinning CPU there is one that holds a lock and is not spinning.
  lemma {:induction false} SomeoneRuns(s: State, c: nat)
    requires Inv(s) && c < |s.cpus| && Wants(s.cpus[c], |s.procs|).Some?
    requires Wants(s.cpus[c], |s.procs|).value in s.owner
    ensures exists d :: 0 <= d < |s.cpus| && (Wants(s.cpus[d], |s.procs|).None? || Wants(s.cpus[d], |s.procs|).value !in s.owner)
                        && exists x :: HoldsLock(s, d, x)
    decreases 4 - Rank(s.cpus[c], |s.procs|)
  {
    var w := Wants(s.cpus[c], |s.procs|).value;
    var d := s.owner[w];
    assert HoldsLock(s, d, w) && WaitsFor(s, c, d);
    RankRises(s, c, d);
    if Wants(s.cpus[d], |s.procs|).Some? && Wants(s.cpus[d], |s.procs|).value in s.owner {
      SomeoneRuns(s, d);
    }
  }
}
