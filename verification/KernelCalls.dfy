/**
  The counter of one thread, wherever it runs or sleeps, and how a step of any CPU moves
  it through a call of wait or exit (os/proc.c:221-303).
*/
module KernelCalls {
  import opened KernelState
  import opened KernelSteps
  import opened KernelInv
  import opened KernelQuiet
  import opened KernelSched
  import opened KernelTree
  import opened KernelTheorems
  import opened KernelSafety

  // The program counter of a thread: on the CPU that runs it, or in its saved context.
  function PcOf(s: State, me: nat): Pc
    requires me < |s.procs|
  {
    var at := s.procs[me].at;
    if at.OnCpu? && at.c < |s.cpus| && s.cpus[at.c].code.Thread? && s.cpus[at.c].code.me == me then s.cpus[at.c].code.pc
    else s.procs[me].ctx
  }

  // The call a thread is in, with the argument it was given, until its outcome is known.
  datatype Call = WaitFor(pid: int) | ExitWith(code: int)

  function CallOf(pc: Pc): Option<Call> {
    match pc
    case PeekAcq(pid) => Some(WaitFor(pid))
    case PeekSelf(pid) => Some(WaitFor(pid))
    case PeekMm(pid) => Some(WaitFor(pid))
    case PeekEnd(pid) => Some(WaitFor(pid))
    case WaitAcq(pid) => Some(WaitFor(pid))
    case WaitScan(pid, _, _) => Some(WaitFor(pid))
    case WaitLook(pid, _, _) => Some(WaitFor(pid))
    case WaitSkip(pid, _, _) => Some(WaitFor(pid))
    case SleepAcq(w) => SleepCall(w)
    case SleepHeld(w) => SleepCall(w)
    case SleepSet(w) => SleepCall(w)
    case SleepSw(w) => SleepCall(w)
    case SleepEnd(w) => SleepCall(w)
    case SleepRe(w) => SleepCall(w)
    case ExitAcq(code) => Some(ExitWith(code))
    case ExitStart(code) => Some(ExitWith(code))
    case ExitWake(code, _) => Some(ExitWith(code))
    case ExitSelf(code, _) => Some(ExitWith(code))
    case ExitRep(code, _, _) => Some(ExitWith(code))
    case ExitRepLook(code, _, _) => Some(ExitWith(code))
    case ExitRepDrop(code, _, _) => Some(ExitWith(code))
    case _ => None
  }

  function SleepCall(w: Site): Option<Call> { if w.InWait? then Some(WaitFor(w.pid)) else None }

  // Where the system calls wait and exit begin.
  predicate Begins(pc: Pc) { pc.PeekAcq? || pc.ExitAcq? }

  // wait has its result.
  function ResultOf(pc: Pc): Option<int> {
    match pc
    case WaitFreed(_, ret) => Some(ret)
    case WaitDone(ret) => Some(ret)
    case _ => None
  }

  // The child that a call of wait(pid) by `me` finds, and what becomes of it.
  ghost predicate Finds(s: State, s': State, me: nat, pid: int, i: nat, ret: int) {
    && i < |s.procs| && i < |s'.procs|
    && s.procs[i].parent == Some(me) && s.procs[i].state == Zombie && (pid <= 0 || s.procs[i].pid == pid)
    && ret == s.procs[i].pid && s'.procs[i].state == Unused && s'.reaped == s.reaped + [(ret, s.procs[i].exitCode)]
  }

  // ---------- one step of a thread

  predicate PcCame(n: nat, pc: Pc, pc': Pc) {
    match pc'
    case WaitDone(ret) => (pc.WaitFreed? && pc.ret == ret) || (ret == -1 && pc.WaitScan? && pc.i == n && !pc.kids)
    case _ => CallOf(pc').None? || Begins(pc') || CallOf(pc') == CallOf(pc)
  }

  ghost predicate Came(s: State, s': State, me: nat, pc: Pc, pc': Pc) {
    || pc' == pc
    || (if pc'.WaitFreed? then pc.WaitLook? && pc.i == pc'.i && Finds(s, s', me, pc.pid, pc'.i, pc'.ret) else PcCame(|s.procs|, pc, pc'))
  }

  // What CPU c's step does to the thread it runs, or stops or starts to run.
  ghost predicate CpuCame(s: State, s': State, c: nat)
    requires c < |s.cpus| && c < |s'.cpus|
  {
    var code, code' := s.cpus[c].code, s'.cpus[c].code;
    if code'.Thread? then
      if code.Thread? then code'.me == code.me && Came(s, s', code.me, code.pc, code'.pc)
      else code == Sched(Got(code'.me)) && code'.me < |s.procs| && code'.pc == s.procs[code'.me].ctx
    else
      code.Thread? ==> code.me < |s'.procs| && Came(s, s', code.me, code.pc, s'.procs[code.me].ctx)
  }

  // A saved context is written by swtch and by allocproc.
  ghost predicate CtxCame(s: State, s': State, c: nat, p: nat)
    requires c < |s.cpus| && c < |s'.cpus| && p < |s.procs| && p < |s'.procs|
  {
    var q, q' := s.procs[p], s'.procs[p];
    && (q'.ctx == q.ctx || q'.ctx == FirstRet || (s.cpus[c].code.Thread? && s.cpus[c].code.me == p && !s'.cpus[c].code.Thread?))
    && (q'.state != Unused && q.state == Unused ==> q'.ctx == FirstRet)
  }

  // The counters of wait's scan, and of its sleep while it holds wait_lock.
  predicate Scanning(pc: Pc) {
    pc.WaitScan? || pc.WaitLook? || pc.WaitSkip? || ((pc.SleepAcq? || pc.SleepHeld?) && pc.w.InWait?)
  }

  predicate ScansOn(code: Code, code': Code) { code' == code || !(code'.Thread? && Scanning(code'.pc)) }

  lemma TakenWithin(n: nat, pc: Pc)
    requires CallOf(pc).Some?
    ensures var pc' := PcTaken(pc); pc' == pc || (!pc'.WaitFreed? && PcCame(n, pc, pc'))
  {
  }

  lemma TakenOutside(n: nat, pc: Pc)
    requires CallOf(pc).None?
    ensures var pc' := PcTaken(pc); pc' == pc || (!pc'.WaitFreed? && PcCame(n, pc, pc'))
  {
  }

  lemma TakenCame(n: nat, pc: Pc)
    ensures var pc' := PcTaken(pc); pc' == pc || (!pc'.WaitFreed? && PcCame(n, pc, pc'))
  {
    hide PcTaken, CallOf, PcCame;
    if CallOf(pc).Some? { TakenWithin(n, pc); } else { TakenOutside(n, pc); }
  }

  lemma DroppedWithin(n: nat, pc: Pc)
    requires CallOf(pc).Some?
    ensures var pc' := PcDropped(pc); pc' == pc || (!pc'.WaitFreed? && PcCame(n, pc, pc'))
  {
  }

  lemma DroppedOutside(n: nat, pc: Pc)
    requires CallOf(pc).None?
    ensures var pc' := PcDropped(pc); pc' == pc || (!pc'.WaitFreed? && PcCame(n, pc, pc'))
  {
  }

  lemma DroppedCame(n: nat, pc: Pc)
    ensures var pc' := PcDropped(pc); pc' == pc || (!pc'.WaitFreed? && PcCame(n, pc, pc'))
  {
    hide PcDropped, CallOf, PcCame;
    if CallOf(pc).Some? { DroppedWithin(n, pc); } else { DroppedOutside(n, pc); }
  }

  lemma GotoWithin(procs: seq<Proc>, data: bool, me: nat, pc: Pc, pc': Pc)
    requires PcGoto(procs, data, me, pc, pc') && CallOf(pc).Some?
    ensures !pc'.WaitFreed? && PcCame(|procs|, pc, pc')
  {
  }

  lemma GotoOutside(procs: seq<Proc>, data: bool, me: nat, pc: Pc, pc': Pc)
    requires PcGoto(procs, data, me, pc, pc') && CallOf(pc).None?
    ensures !pc'.WaitFreed? && PcCame(|procs|, pc, pc')
  {
  }

  lemma GotoCame(procs: seq<Proc>, data: bool, me: nat, pc: Pc, pc': Pc)
    requires PcGoto(procs, data, me, pc, pc')
    ensures !pc'.WaitFreed? && PcCame(|procs|, pc, pc')
  {
    hide PcGoto, CallOf, PcCame;
    if CallOf(pc).Some? { GotoWithin(procs, data, me, pc, pc'); } else { GotoOutside(procs, data, me, pc, pc'); }
  }

  lemma LockCame(s: State, s': State, c: nat)
    requires c < |s.cpus| && (Acquire(s, s', c) || Release(s, s', c) || Goto(s, s', c))
    ensures |s'.cpus| == |s.cpus| && s'.procs == s.procs && CpuCame(s, s', c)
  {
    hide PcTaken, PcDropped, PcGoto, PcCame, PcWants, PcDrops, Finds, TrapGoto;
    var code, code' := s.cpus[c].code, s'.cpus[c].code;
    if code.Thread? {
      TakenCame(|s.procs|, code.pc);
      DroppedCame(|s.procs|, code.pc);
      if PcGoto(s.procs, s.data, code.me, code.pc, code'.pc) { GotoCame(s.procs, s.data, code.me, code.pc, code'.pc); }
    }
  }

  lemma TrapCame(s: State, s': State, c: nat)
    requires c < |s.cpus| && (TrapEnter(s, s', c) || TrapExit(s, s', c))
    ensures |s'.cpus| == |s.cpus| && CpuCame(s, s', c) && ScansOn(s.cpus[c].code, s'.cpus[c].code) && s'.procs == s.procs
  {
    hide Finds;
  }

  lemma ProbeCame(s: State, s': State, c: nat)
    requires c < |s.cpus| && (ProbeIn(s, s', c) || ProbeLeave(s, s', c) || WfiEnd(s, s', c))
    ensures |s'.cpus| == |s.cpus| && CpuCame(s, s', c) && ScansOn(s.cpus[c].code, s'.cpus[c].code) && s'.procs == s.procs
  {
    hide Came;
  }

  lemma ConsCame(s: State, s': State, c: nat)
    requires c < |s.cpus| && (Consume(s, s', c) || Commit(s, s', c))
    ensures |s'.cpus| == |s.cpus| && CpuCame(s, s', c) && ScansOn(s.cpus[c].code, s'.cpus[c].code) && s'.procs == s.procs
  {
    hide Finds;
  }

  lemma QuietCame(s: State, s': State, c: nat)
    requires c < |s.cpus| && (CpuStep(s, s', c) || Commit(s, s', c))
    ensures |s'.cpus| == |s.cpus| && CpuCame(s, s', c) && ScansOn(s.cpus[c].code, s'.cpus[c].code) && s'.procs == s.procs
  {
    hide CpuCame, ScansOn, TrapEnter, TrapExit, ProbeIn, ProbeLeave, WfiEnd, Consume, Commit;
    if TrapEnter(s, s', c) || TrapExit(s, s', c) {
      TrapCame(s, s', c);
    } else if Consume(s, s', c) || Commit(s, s', c) {
      ConsCame(s, s', c);
    } else {
      ProbeCame(s, s', c);
    }
  }

  lemma PushCame(s: State, s': State, c: nat)
    requires c < |s.cpus| && AddTask(s, s', c)
    ensures |s'.cpus| == |s.cpus| && CpuCame(s, s', c) && ScansOn(s.cpus[c].code, s'.cpus[c].code)
    ensures |s'.procs| == |s.procs| && forall p :: 0 <= p < |s.procs| ==> CtxCame(s, s', c, p)
  {
    hide Finds;
  }

  lemma FoundCame(s: State, s': State, c: nat)
    requires c < |s.cpus| && WakeOne(s, s', c)
    ensures |s'.cpus| == |s.cpus| && CpuCame(s, s', c) && ScansOn(s.cpus[c].code, s'.cpus[c].code)
    ensures |s'.procs| == |s.procs| && forall p :: 0 <= p < |s.procs| ==> CtxCame(s, s', c, p)
  {
    hide Finds;
  }

  lemma SchedCame(s: State, s': State, c: nat)
    requires c < |s.cpus| && (Pop(s, s', c) || Return(s, s', c))
    ensures |s'.cpus| == |s.cpus| && CpuCame(s, s', c) && ScansOn(s.cpus[c].code, s'.cpus[c].code)
    ensures |s'.procs| == |s.procs| && forall p :: 0 <= p < |s.procs| ==> CtxCame(s, s', c, p)
  {
    hide Came;
  }

  lemma TokenCame(s: State, s': State, c: nat)
    requires c < |s.cpus| && (TokenStep(s, s', c) || WakeOne(s, s', c))
    ensures |s'.cpus| == |s.cpus| && CpuCame(s, s', c) && ScansOn(s.cpus[c].code, s'.cpus[c].code)
    ensures |s'.procs| == |s.procs| && forall p :: 0 <= p < |s.procs| ==> CtxCame(s, s', c, p)
  {
    hide CpuCame, CtxCame, ScansOn, Pop, Return, AddTask, WakeOne;
    if AddTask(s, s', c) {
      PushCame(s, s', c);
    } else if WakeOne(s, s', c) {
      FoundCame(s, s', c);
    } else {
      SchedCame(s, s', c);
    }
  }

  lemma IrqCame(s: State, s': State, c: nat)
    requires c < |s.cpus| && IrqSet(s, s', c)
    ensures |s'.cpus| == |s.cpus| && CpuCame(s, s', c) && ScansOn(s.cpus[c].code, s'.cpus[c].code)
    ensures |s'.procs| == |s.procs| && forall p :: 0 <= p < |s.procs| ==> CtxCame(s, s', c, p)
  {
    hide Finds;
  }

  lemma RestoreCame(s: State, s': State, c: nat)
    requires c < |s.cpus| && Restore(s, s', c)
    ensures |s'.cpus| == |s.cpus| && CpuCame(s, s', c) && ScansOn(s.cpus[c].code, s'.cpus[c].code)
    ensures |s'.procs| == |s.procs| && forall p :: 0 <= p < |s.procs| ==> CtxCame(s, s', c, p)
  {
    hide Finds;
  }

  lemma SwitchCame(s: State, s': State, c: nat)
    requires c < |s.cpus| && Switch(s, s', c) && TokCpu(s.procs, c, s.cpus[c])
    ensures |s'.cpus| == |s.cpus| && CpuCame(s, s', c) && ScansOn(s.cpus[c].code, s'.cpus[c].code)
    ensures |s'.procs| == |s.procs| && forall p :: 0 <= p < |s.procs| ==> CtxCame(s, s', c, p)
  {
    hide Finds;
  }

  lemma ExecCame(s: State, s': State, c: nat)
    requires c < |s.cpus| && ExecMark(s, s', c) && TokCpu(s.procs, c, s.cpus[c])
    ensures |s'.cpus| == |s.cpus| && CpuCame(s, s', c) && ScansOn(s.cpus[c].code, s'.cpus[c].code)
    ensures |s'.procs| == |s.procs| && forall p :: 0 <= p < |s.procs| ==> CtxCame(s, s', c, p)
  {
    hide Finds;
  }

  lemma DispatchCame(s: State, s': State, c: nat)
    requires c < |s.cpus| && Dispatch(s, s', c) && TokCpu(s.procs, c, s.cpus[c])
    ensures |s'.cpus| == |s.cpus| && CpuCame(s, s', c) && ScansOn(s.cpus[c].code, s'.cpus[c].code)
    ensures |s'.procs| == |s.procs| && forall p :: 0 <= p < |s.procs| ==> CtxCame(s, s', c, p)
  {
    hide Finds;
  }

  lemma EdgeCame(n: nat, pc: Pc, pc': Pc)
    requires Edge(pc, pc') && !pc.WaitLook?
    ensures !pc'.WaitFreed? && !Scanning(pc') && PcCame(n, pc, pc')
  {
  }

  lemma ForkCtx(s: State, s': State, c: nat)
    requires c < |s.cpus| && (ForkTake(s, s', c) || ForkLink(s, s', c)) && TreeCode(s.procs, s.cpus[c])
    ensures |s'.cpus| == |s.cpus| && |s'.procs| == |s.procs| && forall p :: 0 <= p < |s.procs| ==> CtxCame(s, s', c, p)
  {
    hide NoChildBelow;
  }

  lemma ExitCtx(s: State, s': State, c: nat)
    requires c < |s.cpus| && (Reap(s, s', c) || Reparent(s, s', c) || Die(s, s', c)) && TokCpu(s.procs, c, s.cpus[c])
    ensures |s'.cpus| == |s.cpus| && |s'.procs| == |s.procs| && forall p :: 0 <= p < |s.procs| ==> CtxCame(s, s', c, p)
  {
  }

  // The steps of fork and exit.
  lemma TreeCame(s: State, s': State, c: nat)
    requires c < |s.cpus| && TreeStep(s, s', c) && !s.cpus[c].code.pc.WaitLook?
    ensures |s'.cpus| == |s.cpus| && CpuCame(s, s', c) && ScansOn(s.cpus[c].code, s'.cpus[c].code)
  {
    TreeStepFrame(s, s', c);
    hide TreeStep, Edge, PcCame, Finds, Scanning;
    EdgeCame(|s.procs|, s.cpus[c].code.pc, s'.cpus[c].code.pc);
  }

  lemma ReapCame(s: State, s': State, c: nat)
    requires c < |s.cpus| && Reap(s, s', c)
    ensures |s'.cpus| == |s.cpus| && CpuCame(s, s', c) && ScansOn(s.cpus[c].code, s'.cpus[c].code)
  {
    hide PcCame;
  }

  lemma PanicCame(s: State, s': State, c: nat)
    requires c < |s.cpus| && (Full(s, s', c) || Exhausted(s, s', c) || Fails(s, s', c))
    ensures |s'.cpus| == |s.cpus| && CpuCame(s, s', c) && ScansOn(s.cpus[c].code, s'.cpus[c].code) && s'.procs == s.procs
  {
    hide Bad, Finds;
  }

  lemma TreeStepCame(s: State, s': State, c: nat)
    requires c < |s.cpus| && TreeStep(s, s', c) && TokCpu(s.procs, c, s.cpus[c]) && TreeCode(s.procs, s.cpus[c])
    ensures |s'.cpus| == |s.cpus| && CpuCame(s, s', c) && ScansOn(s.cpus[c].code, s'.cpus[c].code)
    ensures |s'.procs| == |s.procs| && forall p :: 0 <= p < |s.procs| ==> CtxCame(s, s', c, p)
  {
    AtTree(s, s', c);
    hide ForkTake, ForkLink, Reap, Reparent, Die, TokCpu, TreeCode, CpuCame, CtxCame, ScansOn;
    if ForkTake(s, s', c) || ForkLink(s, s', c) { ForkCtx(s, s', c); } else { ExitCtx(s, s', c); }
    if Reap(s, s', c) { ReapCame(s, s', c); } else { TreeCame(s, s', c); }
  }

  lemma AtTree(s: State, s': State, c: nat)
    requires c < |s.cpus| && TreeStep(s, s', c)
    ensures s.cpus[c].code.Thread? && (s.cpus[c].code.pc.WaitLook? ==> Reap(s, s', c))
  {
  }

  // Every step at its own CPU.
  lemma StepCame(s: State, s': State, c: nat)
    requires Inv(s) && c < |s.cpus| && CpuNext(s, s', c)
    ensures |s'.cpus| == |s.cpus| && |s'.procs| == |s.procs| && CpuCame(s, s', c)
    ensures ScansOn(s.cpus[c].code, s'.cpus[c].code) || Acquire(s, s', c) || Release(s, s', c) || Goto(s, s', c)
    ensures forall p :: 0 <= p < |s.procs| ==> CtxCame(s, s', c, p)
  {
    assert TokCpu(s.procs, c, s.cpus[c]) && TreeCode(s.procs, s.cpus[c]);
    hide Inv, TokCpu, TreeCode, CpuCame, CtxCame, ScansOn, Acquire, Release, Goto, TrapEnter, TrapExit, IrqSet, Commit, Consume, ProbeIn, ProbeLeave, WfiEnd;
    hide Pop, Dispatch, Switch, Return, AddTask, Restore, ExecMark, ForkTake, ForkLink, Reap, WakeOne, Reparent, Die, Full, Exhausted, Fails;
    if Acquire(s, s', c) || Release(s, s', c) || Goto(s, s', c) {
      LockCame(s, s', c);
      SameCtx(s, s', c);
    } else if CpuStep(s, s', c) || Commit(s, s', c) {
      QuietCame(s, s', c);
      SameCtx(s, s', c);
    } else if TokenStep(s, s', c) || WakeOne(s, s', c) {
      TokenCame(s, s', c);
    } else if IrqSet(s, s', c) {
      IrqCame(s, s', c);
    } else if Restore(s, s', c) {
      RestoreCame(s, s', c);
    } else if Switch(s, s', c) {
      SwitchCame(s, s', c);
    } else if ExecMark(s, s', c) {
      ExecCame(s, s', c);
    } else if Dispatch(s, s', c) {
      DispatchCame(s, s', c);
    } else if TreeStep(s, s', c) {
      TreeStepCame(s, s', c);
    } else {
      PanicCame(s, s', c);
      SameCtx(s, s', c);
    }
  }

  lemma SameCtx(s: State, s': State, c: nat)
    requires c < |s.cpus| && c < |s'.cpus| && s'.procs == s.procs
    ensures forall p :: 0 <= p < |s.procs| ==> CtxCame(s, s', c, p)
  {
  }

  // ---------- a step, seen from one thread

  // A counter of a call, or one with wait's result.
  predicate Tracked(pc: Pc) { CallOf(pc).Some? || ResultOf(pc).Some? }

  ghost predicate Moves(s: State, s': State, me: nat)
    requires me < |s.procs| && me < |s'.procs|
  {
    s'.procs[me].state != Unused && Tracked(PcOf(s', me)) ==>
      s.procs[me].state != Unused && Came(s, s', me, PcOf(s, me), PcOf(s', me))
  }

  // A thread that runs is where its CPU is.
  lemma RunsAt(s: State, d: nat)
    requires TokInv(s.procs, s.cpus, s.queue) && d < |s.cpus| && s.cpus[d].code.Thread?
    ensures var me := s.cpus[d].code.me;
      me < |s.procs| && s.procs[me].state != Unused && s.procs[me].at == OnCpu(d) && PcOf(s, me) == s.cpus[d].code.pc
  {
    assert TokCpu(s.procs, d, s.cpus[d]);
  }

  lemma GotAt(s: State, d: nat, p: nat)
    requires TokInv(s.procs, s.cpus, s.queue) && d < |s.cpus| && s.cpus[d].code == Sched(Got(p))
    ensures p < |s.procs| && s.procs[p].state != Unused && PcOf(s, p) == s.procs[p].ctx
  {
    assert TokCpu(s.procs, d, s.cpus[d]);
  }

  // The CPU that runs thread me, if one does.
  predicate RunBy(s: State, me: nat, d: nat) { d < |s.cpus| && s.cpus[d].code.Thread? && s.cpus[d].code.me == me }

  lemma RestsAt(s: State, me: nat)
    requires me < |s.procs| && forall d: nat :: !RunBy(s, me, d)
    ensures PcOf(s, me) == s.procs[me].ctx
  {
    if s.procs[me].at.OnCpu? { assert !RunBy(s, me, s.procs[me].at.c); }
  }

  // me runs after the step.
  lemma MovesRunning(s: State, s': State, c: nat, me: nat, d: nat)
    requires Inv(s) && Inv(s') && c < |s.cpus| && |s'.cpus| == |s.cpus| && |s'.procs| == |s.procs| && me < |s.procs|
    requires (forall e :: 0 <= e < |s.cpus| && e != c ==> s'.cpus[e] == s.cpus[e]) && CpuCame(s, s', c)
    requires RunBy(s', me, d)
    ensures Moves(s, s', me)
  {
    hide CallOf, ResultOf, PcCame, Finds, TreeInv, TreeCodeInv, SweepInv, ConsInv, ScanInv, LockInv, IrqInv, PcOf, TokInv;
    RunsAt(s', d);
    if s.cpus[d].code.Thread? { RunsAt(s, d); } else { GotAt(s, d, me); }
  }

  // me is stopped by the step.
  lemma MovesStopped(s: State, s': State, c: nat, me: nat)
    requires Inv(s) && c < |s.cpus| && |s'.cpus| == |s.cpus| && |s'.procs| == |s.procs| && me < |s.procs|
    requires CpuCame(s, s', c) && RunBy(s, me, c) && forall d: nat :: !RunBy(s', me, d)
    ensures Moves(s, s', me)
  {
    hide CallOf, ResultOf, PcCame, Finds, TreeInv, TreeCodeInv, SweepInv, ConsInv, ScanInv, LockInv, IrqInv, PcOf, TokInv;
    RunsAt(s, c);
    RestsAt(s', me);
    assert !RunBy(s', me, c);
  }

  // me rests before and after.
  lemma MovesResting(s: State, s': State, c: nat, me: nat)
    requires c < |s.cpus| && |s'.cpus| == |s.cpus| && |s'.procs| == |s.procs| && me < |s.procs|
    requires CtxCame(s, s', c, me) && (forall d: nat :: !RunBy(s, me, d)) && (forall d: nat :: !RunBy(s', me, d))
    ensures Moves(s, s', me)
  {
    hide PcCame, Finds, PcOf;
    RestsAt(s, me);
    RestsAt(s', me);
    assert !RunBy(s, me, c);
  }

  lemma InvTok(s: State)
    requires Inv(s)
    ensures TokInv(s.procs, s.cpus, s.queue)
  {
    hide LockInv, IrqInv, TokInv, TreeInv, TreeCodeInv, SweepInv, ConsInv, ScanInv;
  }

  // The step keeps every other CPU.
  lemma OthersKept(s: State, s': State, c: nat)
    requires Inv(s) && c < |s.cpus| && CpuNext(s, s', c)
    ensures |s'.cpus| == |s.cpus| && forall e :: 0 <= e < |s.cpus| && e != c ==> s'.cpus[e] == s.cpus[e]
  {
    hide Inv, CpuNext, TreeStep, Acquire, Release;
    InvTok(s);
    StepEffect(s, s', c);
  }

  lemma StepMoves(s: State, s': State, c: nat, me: nat)
    requires Inv(s) && Inv(s') && c < |s.cpus| && CpuNext(s, s', c) && me < |s.procs|
    ensures |s'.procs| == |s.procs| && Moves(s, s', me)
  {
    hide CpuNext, Inv, CpuCame, CtxCame, Moves, ScansOn, Acquire, Release, Goto;
    StepCame(s, s', c);
    OthersKept(s, s', c);
    if d: nat :| RunBy(s', me, d) {
      MovesRunning(s, s', c, me, d);
    } else if RunBy(s, me, c) {
      MovesStopped(s, s', c, me);
    } else {
      forall d: nat ensures !RunBy(s, me, d) { assert !RunBy(s', me, d); }
      MovesResting(s, s', c, me);
    }
  }

  lemma NextMoves(s: State, s': State, me: nat)
    requires Inv(s) && Next(s, s') && me < |s.procs|
    ensures |s'.procs| == |s.procs| && Moves(s, s', me)
  {
    hide CpuNext, Inv, Moves;
    StepInv(s, s');
    var c: nat :| c < |s.cpus| && CpuNext(s, s', c);
    StepMoves(s, s', c, me);
  }
}
