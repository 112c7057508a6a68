/**
  What wait returns, and that the status it delivers is the argument of the child's own
  call of exit (os/proc.c:221-303), for every run.
*/
module KernelWait {
  import opened KernelState
  import opened KernelSteps
  import opened KernelInv
  import opened KernelLocks
  import opened KernelQuiet
  import opened KernelSched
  import opened KernelTree
  import opened KernelTheorems
  import opened KernelSafety
  import opened KernelFamily
  import opened KernelCalls

  // ---------- havekids

  // A slot below i other than `me` is a child of `me`.
  ghost predicate KidBelow(procs: seq<Proc>, me: nat, i: nat) {
    exists q: nat :: q < i && q < |procs| && q != me && procs[q].parent == Some(me)
  }

  ghost predicate KidPc(procs: seq<Proc>, me: nat, pc: Pc) {
    match pc
    case WaitScan(_, i, kids) => kids <==> KidBelow(procs, me, i)
    case WaitLook(_, i, kids) => kids <==> KidBelow(procs, me, i)
    case WaitSkip(_, i, kids) => kids <==> KidBelow(procs, me, i + 1)
    case SleepAcq(w) => w.InWait? ==> KidBelow(procs, me, |procs|)
    case SleepHeld(w) => w.InWait? ==> KidBelow(procs, me, |procs|)
    case _ => true
  }

  ghost predicate KidCode(procs: seq<Proc>, code: Code) { code.Thread? ==> KidPc(procs, code.me, code.pc) }

  // The flag of wait's scan says whether a child has been seen, and only who has one sleeps.
  ghost predicate KidInv(s: State) { forall c :: 0 <= c < |s.cpus| ==> KidCode(s.procs, s.cpus[c].code) }

  lemma KidSame(procs: seq<Proc>, procs': seq<Proc>, code: Code)
    requires KidCode(procs, code) && |procs'| == |procs|
    requires code.Thread? && Scanning(code.pc) ==> forall q :: 0 <= q < |procs| ==> (procs'[q].parent == Some(code.me) <==> procs[q].parent == Some(code.me))
    ensures KidCode(procs', code)
  {
    if code.Thread? && Scanning(code.pc) {
      assert forall i: nat :: KidBelow(procs', code.me, i) <==> KidBelow(procs, code.me, i);
    }
  }

  lemma KidMore(procs: seq<Proc>, me: nat, i: nat)
    requires i < |procs|
    ensures KidBelow(procs, me, i + 1) <==> KidBelow(procs, me, i) || (i != me && procs[i].parent == Some(me))
  {
  }

  lemma KidGoto(procs: seq<Proc>, data: bool, me: nat, pc: Pc, pc': Pc)
    requires KidPc(procs, me, pc) && PcGoto(procs, data, me, pc, pc') && me < |procs| && TreePc(procs, me, pc)
    ensures KidPc(procs, me, pc')
  {
    hide KidBelow, NoChildBelow;
    if (pc.WaitScan? || pc.WaitLook?) && pc.i < |procs| { KidMore(procs, me, pc.i); }
  }

  lemma KidTaken(procs: seq<Proc>, me: nat, pc: Pc)
    requires KidPc(procs, me, pc)
    ensures KidPc(procs, me, PcTaken(pc))
  {
  }

  lemma KidDropped(procs: seq<Proc>, me: nat, pc: Pc)
    requires KidPc(procs, me, pc)
    ensures KidPc(procs, me, PcDropped(pc))
  {
  }

  lemma KidLock(s: State, s': State, c: nat)
    requires c < |s.cpus| && (Acquire(s, s', c) || Release(s, s', c) || Goto(s, s', c))
    requires KidCode(s.procs, s.cpus[c].code) && TreeCode(s.procs, s.cpus[c])
    ensures |s'.cpus| == |s.cpus| && KidCode(s'.procs, s'.cpus[c].code)
  {
    hide PcTaken, PcDropped, PcGoto, PcWants, PcDrops, TrapGoto, KidPc, TreePc;
    var code, code' := s.cpus[c].code, s'.cpus[c].code;
    if code.Thread? {
      KidTaken(s.procs, code.me, code.pc);
      KidDropped(s.procs, code.me, code.pc);
      if PcGoto(s.procs, s.data, code.me, code.pc, code'.pc) { KidGoto(s.procs, s.data, code.me, code.pc, code'.pc); }
    }
  }

  lemma ScansLocked(me: nat, pc: Pc)
    requires Scanning(pc)
    ensures PcHolds(me, pc, WaitLock)
  {
  }

  // Nobody else changes who the children of a scanning thread are.
  lemma KidsKept(s: State, s': State, c: nat, d: nat, q: nat)
    requires Base(s) && TreeInv(s.procs, s.nextPid, s.dead, s.reaped) && TreeCodeInv(s.procs, s.cpus)
    requires c < |s.cpus| && d < |s.cpus| && c != d && Effect(s, s', c) && q < |s.procs|
    requires s.cpus[d].code.Thread? && Scanning(s.cpus[d].code.pc)
    ensures |s'.procs| == |s.procs| && (s'.procs[q].parent == Some(s.cpus[d].code.me) <==> s.procs[q].parent == Some(s.cpus[d].code.me))
  {
    assert ProcEffect(s, s', c, q) && TreeCode(s.procs, s.cpus[c]);
    hide Base, TreeInv, TreeCodeInv, TreeStep, TreeCode, Effect, PcHolds, Scanning, Calm, Holds;
    if TreeStep(s, s', c) {
      TreeStepApart(s, s', c, d);
      ScansLocked(s.cpus[d].code.me, s.cpus[d].code.pc);
      KidsTree(s, s', c, s.cpus[d].code.me, q);
    }
  }

  lemma KidsTree(s: State, s': State, c: nat, o: nat, q: nat)
    requires TreeInv(s.procs, s.nextPid, s.dead, s.reaped) && c < |s.cpus| && TreeStep(s, s', c) && TreeCode(s.procs, s.cpus[c])
    requires !CodeHolds(s.cpus[c].code, WaitLock) && s.cpus[c].code.me != o && q < |s.procs|
    ensures |s'.procs| == |s.procs| && (s'.procs[q].parent == Some(o) <==> s.procs[q].parent == Some(o))
  {
    hide PidsInv, LogInv, NoChildBelow;
    assert ProcTree(s.procs, s.nextPid, s.dead, q);
  }

  // The step's own CPU.
  lemma KidOwn(s: State, s': State, c: nat)
    requires Inv(s) && c < |s.cpus| && CpuNext(s, s', c) && KidCode(s.procs, s.cpus[c].code)
    ensures |s'.cpus| == |s.cpus| && KidCode(s'.procs, s'.cpus[c].code)
  {
    StepCame(s, s', c);
    StepEffect(s, s', c);
    assert TreeCode(s.procs, s.cpus[c]);
    hide CpuNext, Inv, TreeCode, CpuCame, CtxCame, Acquire, Release, Goto;
    if Acquire(s, s', c) || Release(s, s', c) || Goto(s, s', c) {
      KidLock(s, s', c);
    } else if s'.cpus[c].code == s.cpus[c].code {
      forall q | 0 <= q < |s.procs| ensures s'.procs[q].parent == s.procs[q].parent {
        assert ProcEffect(s, s', c, q);
        if TreeStep(s, s', c) { TreeMoves(s, s', c); }
      }
      KidSame(s.procs, s'.procs, s.cpus[c].code);
    }
  }

  lemma TreeMoves(s: State, s': State, c: nat)
    requires c < |s.cpus| && TreeStep(s, s', c)
    ensures |s'.cpus| == |s.cpus| && s'.cpus[c].code != s.cpus[c].code
  {
  }

  lemma KidStep(s: State, s': State)
    requires Inv(s) && Next(s, s') && KidInv(s)
    ensures KidInv(s')
  {
    var c: nat :| c < |s.cpus| && CpuNext(s, s', c);
    StepEffect(s, s', c);
    assert Base(s) && TreeInv(s.procs, s.nextPid, s.dead, s.reaped) && TreeCodeInv(s.procs, s.cpus);
    assert |s'.cpus| == |s.cpus| && |s'.procs| == |s.procs| && forall d :: 0 <= d < |s.cpus| && d != c ==> s'.cpus[d] == s.cpus[d];
    hide CpuNext, Inv, KidCode, Next, Base, TreeInv, TreeCodeInv, Effect, Scanning;
    forall d | 0 <= d < |s'.cpus| ensures KidCode(s'.procs, s'.cpus[d].code) {
      if d == c {
        KidOwn(s, s', c);
      } else {
        if s.cpus[d].code.Thread? && Scanning(s.cpus[d].code.pc) {
          forall q | 0 <= q < |s.procs|
            ensures s'.procs[q].parent == Some(s.cpus[d].code.me) <==> s.procs[q].parent == Some(s.cpus[d].code.me)
          {
            KidsKept(s, s', c, d, q);
          }
        }
        KidSame(s.procs, s'.procs, s.cpus[d].code);
      }
    }
  }

  lemma {:induction false} RunKids(r: seq<State>, i: nat)
    requires IsRun(r) && i < |r|
    ensures KidInv(r[i])
  {
    hide IsRun, Next, Inv, KidInv;
    RunStarts(r);
    if i == 0 {
      StartKids(r[0]);
    } else {
      RunKids(r, i - 1);
      RunInv(r, i - 1);
      RunNext(r, i - 1);
      KidStep(r[i - 1], r[i]);
    }
  }

  lemma StartKids(s: State)
    requires Init(s)
    ensures KidInv(s)
  {
  }

  // ---------- calls

  // The process `who`, in slot me, is in this call.
  predicate InCall(s: State, me: nat, who: int, call: Call) {
    me < |s.procs| && s.procs[me].state != Unused && s.procs[me].pid == who && CallOf(PcOf(s, me)) == Some(call)
  }

  // From state m to state k it is in one call, which begins in state m.
  ghost predicate Within(r: seq<State>, m: nat, k: nat, me: nat, who: int, call: Call) {
    && m <= k < |r| && (forall l :: m <= l <= k ==> InCall(r[l], me, who, call)) && Begins(PcOf(r[m], me))
  }

  // A slot in use before and after a step holds the same process.
  lemma PidKept(s: State, s': State, me: nat)
    requires Inv(s) && Next(s, s') && me < |s.procs| && s.procs[me].state != Unused
    ensures |s'.procs| == |s.procs| && (s'.procs[me].state != Unused ==> s'.procs[me].pid == s.procs[me].pid)
  {
    hide CpuNext, LockInv, IrqInv, TreeInv, TreeCodeInv, SweepInv, ConsInv, ScanInv;
    var c: nat :| c < |s.cpus| && CpuNext(s, s', c);
    StepEffect(s, s', c);
    assert ProcEffect(s, s', c, me);
    if TreeStep(s, s', c) { PidTree(s, s', c, me); }
  }

  lemma PidTree(s: State, s': State, c: nat, me: nat)
    requires c < |s.cpus| && TreeStep(s, s', c) && me < |s.procs| && s.procs[me].state != Unused
    ensures |s'.procs| == |s.procs| && (s'.procs[me].state != Unused ==> s'.procs[me].pid == s.procs[me].pid)
  {
  }

  lemma StartsOutside(s: State, me: nat)
    requires Init(s) && me < |s.procs| && s.procs[me].state != Unused
    ensures !Tracked(PcOf(s, me))
  {
  }

  lemma WithinMore(r: seq<State>, m: nat, k: nat, me: nat, who: int, call: Call)
    requires k + 1 < |r| && Within(r, m, k, me, who, call) && InCall(r[k + 1], me, who, call)
    ensures Within(r, m, k + 1, me, who, call)
  {
    hide InCall, Begins;
  }

  // The step before state j + 1, for one thread.
  lemma Before(r: seq<State>, j: nat, me: nat)
    requires IsRun(r) && j + 1 < |r| && me < |r[j + 1].procs|
    ensures me < |r[j].procs| && Moves(r[j], r[j + 1], me)
    ensures r[j].procs[me].state != Unused && r[j + 1].procs[me].state != Unused ==> r[j + 1].procs[me].pid == r[j].procs[me].pid
  {
    hide IsRun, Inv, Next, Moves;
    RunInv(r, j);
    RunNext(r, j);
    SlotsStay(r[j], r[j + 1]);
    NextMoves(r[j], r[j + 1], me);
    if r[j].procs[me].state != Unused { PidKept(r[j], r[j + 1], me); }
  }

  lemma SlotsStay(s: State, s': State)
    requires Inv(s) && Next(s, s')
    ensures |s'.procs| == |s.procs|
  {
    hide CpuNext;
    var c: nat :| c < |s.cpus| && CpuNext(s, s', c);
    StepEffect(s, s', c);
  }

  // Every thread in a call of wait or exit came from the beginning of that call, with the
  // argument unchanged.
  lemma {:induction false} CallBegan(r: seq<State>, j: nat, me: nat, who: int, call: Call)
    requires IsRun(r) && j < |r| && InCall(r[j], me, who, call)
    ensures exists m: nat :: Within(r, m, j, me, who, call)
  {
    hide IsRun, Init, CallOf, ResultOf, PcOf, Moves;
    if Begins(PcOf(r[j], me)) {
      assert Within(r, j, j, me, who, call);
    } else if j == 0 {
      RunStarts(r);
      StartsNoCall(r[0], me, who, call);
    } else {
      Before(r, j - 1, me);
      CameWithin(r[j - 1], r[j], me, who, call);
      CallBegan(r, j - 1, me, who, call);
      var m: nat :| Within(r, m, j - 1, me, who, call);
      WithinMore(r, m, j - 1, me, who, call);
    }
  }

  lemma StartsNoCall(s: State, me: nat, who: int, call: Call)
    requires Init(s)
    ensures !InCall(s, me, who, call)
  {
    hide Init, CallOf, ResultOf, PcOf;
    if InCall(s, me, who, call) { StartsOutside(s, me); }
  }

  lemma CameWithin(s: State, s': State, me: nat, who: int, call: Call)
    requires me < |s.procs| && me < |s'.procs| && Moves(s, s', me) && InCall(s', me, who, call) && !Begins(PcOf(s', me))
    requires s.procs[me].state != Unused ==> s'.procs[me].pid == s.procs[me].pid
    ensures InCall(s, me, who, call)
  {
    hide PcOf, Finds;
  }

  // ---------- wait

  // The scan has passed every slot, and nobody is a child of the caller.
  ghost predicate FindsNone(s: State, me: nat, pid: int) {
    && me < |s.procs| && PcOf(s, me) == WaitScan(pid, |s.procs|, false)
    && forall q :: 0 <= q < |s.procs| ==> s.procs[q].parent != Some(me)
  }

  // The scan looks at a zombie child that wait(pid) accepts, which the step frees and logs.
  ghost predicate FindsOne(s: State, s': State, me: nat, pid: int, ret: int) {
    && me < |s.procs| && PcOf(s, me).WaitLook? && PcOf(s, me).pid == pid && ret > 0
    && Finds(s, s', me, pid, PcOf(s, me).i, ret)
  }

  ghost predicate Outcome(s: State, s': State, me: nat, pid: int, ret: int) {
    if ret == -1 then FindsNone(s, me, pid) else FindsOne(s, s', me, pid, ret)
  }

  predicate HasResult(s: State, me: nat, who: int, ret: int) {
    me < |s.procs| && s.procs[me].state != Unused && s.procs[me].pid == who && ResultOf(PcOf(s, me)) == Some(ret)
  }

  // A call of wait(pid) that began in state m had its outcome in the step after state k,
  // and has carried it since.
  ghost predicate Returned(r: seq<State>, m: nat, k: nat, j: nat, me: nat, who: int, pid: int, ret: int) {
    && k < j < |r| && Within(r, m, k, me, who, WaitFor(pid)) && Outcome(r[k], r[k + 1], me, pid, ret)
    && forall l :: k < l <= j ==> HasResult(r[l], me, who, ret)
  }

  // The step in which the call of wait has its outcome.
  ghost predicate Decides(s: State, s': State, me: nat, who: int, pid: int, ret: int) {
    InCall(s, me, who, WaitFor(pid)) && Outcome(s, s', me, pid, ret)
  }

  ghost predicate Decided(s: State, s': State, me: nat, who: int, ret: int) { exists pid: int :: Decides(s, s', me, who, pid, ret) }

  // Only a thread that runs is in wait's scan.
  lemma ScanRuns(s: State, me: nat)
    requires TokInv(s.procs, s.cpus, s.queue) && me < |s.procs| && s.procs[me].state != Unused && (PcOf(s, me).WaitScan? || PcOf(s, me).WaitLook?)
    ensures exists d: nat :: d < |s.cpus| && s.cpus[d].code == Thread(me, PcOf(s, me))
  {
    assert TokProc(s.procs, s.cpus, s.queue, me);
    if s.procs[me].at.OnCpu? {
      var d := s.procs[me].at.c;
      assert TokCpu(s.procs, d, s.cpus[d]);
    }
  }

  lemma NoneFound(s: State, me: nat, pid: int)
    requires Inv(s) && KidInv(s) && me < |s.procs| && s.procs[me].state != Unused && PcOf(s, me) == WaitScan(pid, |s.procs|, false)
    ensures FindsNone(s, me, pid)
  {
    hide LockInv, IrqInv, TokInv, TreeCodeInv, SweepInv, ConsInv, ScanInv, PidsInv, LogInv, PcOf;
    ScanRuns(s, me);
    var d: nat :| d < |s.cpus| && s.cpus[d].code == Thread(me, PcOf(s, me));
    assert KidCode(s.procs, s.cpus[d].code);
    assert ProcTree(s.procs, s.nextPid, s.dead, me);
  }

  // What a counter with a result came from.
  lemma ResultCame(s: State, s': State, me: nat, who: int, ret: int)
    requires Inv(s) && KidInv(s) && me < |s.procs| && me < |s'.procs| && Moves(s, s', me) && HasResult(s', me, who, ret)
    requires s.procs[me].state != Unused ==> s'.procs[me].pid == s.procs[me].pid
    ensures HasResult(s, me, who, ret) || Decided(s, s', me, who, ret)
  {
    hide LockInv, IrqInv, TokInv, TreeCodeInv, SweepInv, ConsInv, ScanInv, PidsInv, LogInv, PcOf, FindsNone, KidInv;
    if !HasResult(s, me, who, ret) {
      var pid := PcOf(s, me).pid;
      assert InCall(s, me, who, WaitFor(pid));
      if PcOf(s, me).WaitScan? {
        NoneFound(s, me, pid);
      } else {
        assert ProcTree(s.procs, s.nextPid, s.dead, PcOf(s, me).i);
      }
      assert Decides(s, s', me, who, pid, ret);
    }
  }

  lemma {:induction false} ResultBegan(r: seq<State>, j: nat, me: nat, who: int, ret: int)
    requires IsRun(r) && j < |r| && HasResult(r[j], me, who, ret)
    ensures exists m: nat, k: nat, pid :: Returned(r, m, k, j, me, who, pid, ret)
  {
    hide IsRun, Init, Inv, KidInv, HasResult, InCall, Within, Outcome, Moves;
    if j == 0 {
      RunStarts(r);
      StartsNoResult(r[0], me, who, ret);
    } else {
      ResultAt(r, j, me, who, ret);
      if HasResult(r[j - 1], me, who, ret) {
        ResultBegan(r, j - 1, me, who, ret);
        var m: nat, k: nat, pid :| Returned(r, m, k, j - 1, me, who, pid, ret);
        assert Returned(r, m, k, j, me, who, pid, ret);
      } else {
        var pid :| Decides(r[j - 1], r[j], me, who, pid, ret);
        CallBegan(r, j - 1, me, who, WaitFor(pid));
        var m: nat :| Within(r, m, j - 1, me, who, WaitFor(pid));
        assert Returned(r, m, j - 1, j, me, who, pid, ret);
      }
    }
  }

  lemma StartsNoResult(s: State, me: nat, who: int, ret: int)
    requires Init(s)
    ensures !HasResult(s, me, who, ret)
  {
    hide Init;
    if HasResult(s, me, who, ret) { StartsOutside(s, me); }
  }

  lemma ResultAt(r: seq<State>, j: nat, me: nat, who: int, ret: int)
    requires IsRun(r) && 0 < j < |r| && HasResult(r[j], me, who, ret)
    ensures HasResult(r[j - 1], me, who, ret) || Decided(r[j - 1], r[j], me, who, ret)
  {
    hide IsRun, Inv, KidInv, Decided, Moves, ResultOf, PcOf;
    Before(r, j - 1, me);
    RunInv(r, j - 1);
    RunKids(r, j - 1);
    ResultCame(r[j - 1], r[j], me, who, ret);
  }

  // A CPU about to return `ret` from wait is in a call wait(pid) that, wherever it slept
  // and ran since it began, either completed a scan while nobody was a child of the
  // caller, and ret is -1; or found a zombie child of the caller with the pid asked for,
  // if one was: ret is its pid, and the step freed the slot and delivered its status.
  lemma WaitReturns(r: seq<State>, j: nat, c: nat)
    requires IsRun(r) && j < |r| && c < |r[j].cpus| && r[j].cpus[c].code.Thread?
    requires r[j].cpus[c].code.pc.WaitFreed? || r[j].cpus[c].code.pc.WaitDone?
    ensures var (me, ret) := (r[j].cpus[c].code.me, r[j].cpus[c].code.pc.ret);
      me < |r[j].procs| && exists m: nat, k: nat, pid :: Returned(r, m, k, j, me, r[j].procs[me].pid, pid, ret)
  {
    hide IsRun, Inv, PcOf, Returned;
    RunInv(r, j);
    AtResult(r[j], c);
    var me := r[j].cpus[c].code.me;
    ResultBegan(r, j, me, r[j].procs[me].pid, r[j].cpus[c].code.pc.ret);
  }

  lemma AtResult(s: State, c: nat)
    requires Inv(s) && c < |s.cpus| && s.cpus[c].code.Thread? && (s.cpus[c].code.pc.WaitFreed? || s.cpus[c].code.pc.WaitDone?)
    ensures var me := s.cpus[c].code.me; me < |s.procs| && HasResult(s, me, s.procs[me].pid, s.cpus[c].code.pc.ret)
  {
    hide LockInv, IrqInv, TokInv, TreeInv, TreeCodeInv, SweepInv, ConsInv, ScanInv, PcOf;
    RunsAt(s, c);
  }

  // Who goes to sleep in wait(pid) has a child, but no zombie child with the pid asked for,
  // if one was.
  lemma SleepsForChild(r: seq<State>, j: nat, c: nat)
    requires IsRun(r) && j < |r| && c < |r[j].cpus| && r[j].cpus[c].code.Thread?
    requires (r[j].cpus[c].code.pc.SleepAcq? || r[j].cpus[c].code.pc.SleepHeld?) && r[j].cpus[c].code.pc.w.InWait?
    ensures exists q: nat :: q < |r[j].procs| && r[j].procs[q].parent == Some(r[j].cpus[c].code.me)
    ensures forall q: nat :: q < |r[j].procs| && r[j].procs[q].parent == Some(r[j].cpus[c].code.me) && r[j].procs[q].state == Zombie ==>
      r[j].cpus[c].code.pc.w.pid > 0 && r[j].procs[q].pid != r[j].cpus[c].code.pc.w.pid
  {
    hide IsRun, Inv, KidInv;
    RunKids(r, j);
    RunInv(r, j);
    KidSeen(r[j], c);
    NoneAccepted(r[j], c);
  }

  lemma KidSeen(s: State, c: nat)
    requires KidInv(s) && c < |s.cpus| && s.cpus[c].code.Thread?
    requires (s.cpus[c].code.pc.SleepAcq? || s.cpus[c].code.pc.SleepHeld?) && s.cpus[c].code.pc.w.InWait?
    ensures exists q: nat :: q < |s.procs| && s.procs[q].parent == Some(s.cpus[c].code.me)
  {
    assert KidCode(s.procs, s.cpus[c].code);
    var q: nat :| q < |s.procs| && q != s.cpus[c].code.me && s.procs[q].parent == Some(s.cpus[c].code.me);
  }

  lemma NoneAccepted(s: State, c: nat)
    requires Inv(s) && c < |s.cpus| && s.cpus[c].code.Thread?
    requires (s.cpus[c].code.pc.SleepAcq? || s.cpus[c].code.pc.SleepHeld?) && s.cpus[c].code.pc.w.InWait?
    ensures var (me, pid) := (s.cpus[c].code.me, s.cpus[c].code.pc.w.pid);
      forall q :: 0 <= q < |s.procs| && s.procs[q].parent == Some(me) && s.procs[q].state == Zombie ==> pid > 0 && s.procs[q].pid != pid
  {
    hide LockInv, IrqInv, TokProc, TreeCodeInv, SweepInv, ConsInv, PidsInv, LogInv, QueueInv;
    var me := s.cpus[c].code.me;
    assert ScanCode(s.procs, s.cpus[c].code);
    forall q | 0 <= q < |s.procs| && s.procs[q].parent == Some(me) && s.procs[q].state == Zombie
      ensures !Matches(s.procs[q], me, s.cpus[c].code.pc.w.pid)
    {
      assert ProcTree(s.procs, s.nextPid, s.dead, q);
    }
  }

  // ---------- exit

  // The process with this pid has called exit(code) before state j.
  ghost predicate Exited(r: seq<State>, j: nat, who: int, code: int) {
    exists m: nat, k: nat, q: nat :: k < j && Within(r, m, k, q, who, ExitWith(code))
  }

  ghost predicate Recorded(s: State, s': State, who: int)
    requires who in s'.dead
  {
    || (who in s.dead && s'.dead[who] == s.dead[who])
    || exists q: nat :: InCall(s, q, who, ExitWith(s'.dead[who]))
  }

  lemma DeadCame(s: State, s': State, who: int)
    requires Inv(s) && Next(s, s') && who in s'.dead
    ensures Recorded(s, s', who)
  {
    hide CpuNext, LockInv, IrqInv, TreeInv, TreeCodeInv, SweepInv, ConsInv, ScanInv, PcOf, TokInv, InCall;
    var c: nat :| c < |s.cpus| && CpuNext(s, s', c);
    StepEffect(s, s', c);
    if TreeStep(s, s', c) {
      if s.cpus[c].code.Thread? { RunsAt(s, c); }
      DeadTree(s, s', c, who);
    }
  }

  lemma DeadTree(s: State, s': State, c: nat, who: int)
    requires c < |s.cpus| && TreeStep(s, s', c) && who in s'.dead
    requires s.cpus[c].code.Thread? ==>
      var me := s.cpus[c].code.me; me < |s.procs| && s.procs[me].state != Unused && PcOf(s, me) == s.cpus[c].code.pc
    ensures Recorded(s, s', who)
  {
    hide PcOf;
    if Die(s, s', c) && s.procs[s.cpus[c].code.me].pid == who {
      assert InCall(s, s.cpus[c].code.me, who, ExitWith(s'.dead[who]));
    }
  }

  lemma {:induction false} DeadExited(r: seq<State>, j: nat, who: int)
    requires IsRun(r) && j < |r| && who in r[j].dead
    ensures Exited(r, j, who, r[j].dead[who])
  {
    hide IsRun, Inv, Next, InCall, Within;
    if j == 0 {
      RunStarts(r);
    } else {
      hide Init;
      RunInv(r, j - 1);
      RunNext(r, j - 1);
      DeadCame(r[j - 1], r[j], who);
      var code := r[j].dead[who];
      if who in r[j - 1].dead && code == r[j - 1].dead[who] {
        DeadExited(r, j - 1, who);
        var m: nat, k: nat, q: nat :| k < j - 1 && Within(r, m, k, q, who, ExitWith(code));
        assert k < j && Within(r, m, k, q, who, ExitWith(code));
      } else {
        var q: nat :| InCall(r[j - 1], q, who, ExitWith(code));
        CallBegan(r, j - 1, q, who, ExitWith(code));
        var m: nat :| Within(r, m, j - 1, q, who, ExitWith(code));
        assert Within(r, m, j - 1, q, who, ExitWith(code));
      }
    }
  }

  // The status a wait delivered with a pid is the argument with which the process of that
  // pid called exit.
  lemma StatusDelivered(r: seq<State>, j: nat, i: nat)
    requires IsRun(r) && j < |r| && i < |r[j].reaped|
    ensures Exited(r, j, r[j].reaped[i].0, r[j].reaped[i].1)
  {
    hide IsRun, Exited;
    DeliveredOnce(r, j);
    DeadExited(r, j, r[j].reaped[i].0);
  }
}
