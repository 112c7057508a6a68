/**
  The steps of fork, wait and exit that change the process tree.
*/
module KernelTree {
  import opened KernelState
  import opened KernelSteps
  import opened KernelInv
  import opened KernelLocks
  import opened KernelQuiet

  ghost predicate TreeStep(s: State, s': State, c: nat)
    requires c < |s.cpus|
  {
    ForkTake(s, s', c) || ForkLink(s, s', c) || Reap(s, s', c) || Reparent(s, s', c) || Die(s, s', c)
  }

  // The slot the step writes.
  function SlotOf(k: Cpu): nat {
    match k.code
    case Thread(_, ForkSlot(i)) => i
    case Thread(_, ForkBoth(np, _)) => np
    case Thread(_, WaitLook(_, i, _)) => i
    case Thread(_, ExitRepLook(_, _, i)) => i
    case Thread(me, ExitRep(_, _, _)) => me
    case _ => 0
  }

  // How the five steps move the program counter.
  predicate Edge(pc: Pc, pc': Pc) {
    match pc
    case ForkSlot(i) => pc'.ForkSelf? && pc'.np == i
    case ForkBoth(np, k) => pc' == ForkPush(np, k)
    case WaitLook(_, i, _) => pc'.WaitFreed? && pc'.i == i
    case ExitRepLook(code, ch, i) => pc' == ExitRepDrop(code, ch, i)
    case ExitRep(_, _, _) => pc' == ExitDrop
    case _ => false
  }

  ghost predicate CodeEdge(k: Cpu, k': Cpu) {
    k.trap.NoTrap? && k.code.Thread? && k'.code.Thread? && k' == k.(code := Thread(k.code.me, k'.code.pc)) && Edge(k.code.pc, k'.code.pc)
  }

  lemma TreeStepFrame(s: State, s': State, c: nat)
    requires c < |s.cpus| && TreeStep(s, s', c)
    ensures |s'.cpus| == |s.cpus| && s'.cpus == s.cpus[c := s'.cpus[c]]
    ensures CodeEdge(s.cpus[c], s'.cpus[c])
    ensures SlotOf(s.cpus[c]) < |s.procs| && |s'.procs| == |s.procs|
    ensures s'.procs == s.procs[SlotOf(s.cpus[c]) := s'.procs[SlotOf(s.cpus[c])]]
    ensures s'.owner == s.owner && s'.queue == s.queue && s'.data == s.data && s'.panic == s.panic
    ensures var p := s.procs[SlotOf(s.cpus[c])]; var p' := s'.procs[SlotOf(s.cpus[c])];
      Calm(p, p') && p'.base == p.base && p'.savedOn == p.savedOn
  {
  }

  lemma EdgeHolds(k: Cpu, k': Cpu)
    requires CodeEdge(k, k')
    ensures Holds(k, ProcLock(SlotOf(k))) && Depth(k') == Depth(k)
    ensures forall x :: Holds(k', x) <==> Holds(k, x)
  {
  }

  lemma EdgeSweep(k: Cpu, k': Cpu, n: nat)
    requires CodeEdge(k, k')
    ensures SweepOf(k', n) == SweepOf(k, n) || SweepOf(k', n).NoSweep?
    ensures !SleepPc(k'.code)
    ensures Pushing(k).None? && Pushing(k') == if k.code.pc.ForkBoth? then Some(SlotOf(k)) else None
  {
  }

  lemma EdgeIrq(procs: seq<Proc>, i: nat, p': Proc, k: Cpu, k': Cpu)
    requires CodeEdge(k, k') && IrqOk(procs, k) && i < |procs| && p'.base == procs[i].base && p'.savedOn == procs[i].savedOn
    ensures IrqOk(procs[i := p'], k')
  {
    EdgeHolds(k, k');
  }

  // A slot whose lock this CPU holds is not on any other CPU.
  lemma SlotAt(s: State, c: nat, i: nat)
    requires c < |s.cpus| && Base(s) && i < |s.procs| && Holds(s.cpus[c], ProcLock(i))
    requires s.cpus[c].trap.NoTrap? && s.cpus[c].code.Thread? && s.cpus[c].code.me != i
    requires s.procs[i].state == Unused || s.procs[i].state == Used || s.procs[i].state == Zombie
    ensures s.procs[i].at.Nowhere?
    ensures forall d :: 0 <= d < |s.cpus| ==> CodeProc(s.cpus[d].code) != Some(i)
  {
    assert TokProc(s.procs, s.cpus, s.queue, i);
    forall d | 0 <= d < |s.cpus| ensures CodeProc(s.cpus[d].code) != Some(i) {
      if CodeProc(s.cpus[d].code) == Some(i) {
        assert TokCpu(s.procs, d, s.cpus[d]) && IrqOk(s.procs, s.cpus[d]);
        assert CodeHolds(s.cpus[d].code, ProcLock(i)) && CodeDepth(s.cpus[d].code) > 0;
        Exclusive(s.owner, s.cpus, c, d, ProcLock(i));
      }
    }
  }

  lemma TreeStepSlot(s: State, s': State, c: nat)
    requires c < |s.cpus| && TreeStep(s, s', c) && Base(s) && TreeCode(s.procs, s.cpus[c])
    ensures SlotOf(s.cpus[c]) < |s.procs|
    ensures var i := SlotOf(s.cpus[c]);
      if Die(s, s', c) then i == s.cpus[c].code.me && s.procs[i].at == OnCpu(c)
      else i != s.cpus[c].code.me && (Reparent(s, s', c) || s.procs[i].at.Nowhere?)
  {
    assert TokCpu(s.procs, c, s.cpus[c]);
    var i := SlotOf(s.cpus[c]);
    if !Die(s, s', c) && !Reparent(s, s', c) { SlotAt(s, c, i); }
  }

  lemma TreeStepTokCpu(s: State, s': State, c: nat)
    requires c < |s.cpus| && TreeStep(s, s', c) && TokCpu(s.procs, c, s.cpus[c])
    requires SlotOf(s.cpus[c]) == s.cpus[c].code.me ==> Die(s, s', c)
    ensures |s'.cpus| == |s.cpus| && TokCpu(s'.procs, c, s'.cpus[c])
  {
    TreeStepFrame(s, s', c);
    EdgeSweep(s.cpus[c], s'.cpus[c], 0);
  }

  lemma ReparentStepTok(s: State, s': State, c: nat)
    requires c < |s.cpus| && Reparent(s, s', c) && Base(s) && TreeCode(s.procs, s.cpus[c])
    ensures TokInv(s'.procs, s'.cpus, s'.queue)
  {
    hide LockInv, IrqInv, TokInv, TokProc, NoChildBelow, Holds, IrqOk;
    var i := SlotOf(s.cpus[c]);
    TreeStepSlot(s, s', c);
    TokAt(s, c);
    TreeStepTokCpu(s, s', c);
    TreeStepFrame(s, s', c);
    EdgeSweep(s.cpus[c], s'.cpus[c], 0);
    ReparentTok(s.procs, s.cpus, s.queue, i, s'.procs[i]);
    CpuTok(s'.procs, s.cpus, s.queue, c, s'.cpus[c]);
  }

  lemma TokAt(s: State, c: nat)
    requires c < |s.cpus| && TokInv(s.procs, s.cpus, s.queue)
    ensures TokCpu(s.procs, c, s.cpus[c])
  {
  }

  lemma WriteSlotTok(s: State, s': State, c: nat)
    requires c < |s.cpus| && TreeStep(s, s', c) && !Reparent(s, s', c) && Base(s) && TreeCode(s.procs, s.cpus[c])
    ensures SlotOf(s.cpus[c]) < |s.procs| && |s'.procs| == |s.procs|
    ensures Near(s.procs[SlotOf(s.cpus[c])].at, c) && TokProc(s'.procs, s'.cpus, s'.queue, SlotOf(s.cpus[c]))
    ensures QueueInv(s'.procs, s'.queue)
  {
    hide LockInv, IrqInv, NoChildBelow, Holds, Reparent;
    var i := SlotOf(s.cpus[c]);
    TreeStepSlot(s, s', c);
    TreeStepFrame(s, s', c);
    assert TokCpu(s.procs, c, s.cpus[c]) && TokProc(s.procs, s.cpus, s.queue, i);
  }

  lemma WriteStepTok(s: State, s': State, c: nat)
    requires c < |s.cpus| && TreeStep(s, s', c) && !Reparent(s, s', c) && Base(s) && TreeCode(s.procs, s.cpus[c])
    ensures TokInv(s'.procs, s'.cpus, s'.queue)
  {
    hide LockInv, IrqInv, TokInv, NoChildBelow, Holds, Near, TokProc, QueueInv, TreeCode;
    hide ForkTake, ForkLink, Reap, Reparent;
    var i := SlotOf(s.cpus[c]);
    TreeStepSlot(s, s', c);
    WriteSlotTok(s, s', c);
    TokAt(s, c);
    TreeStepTokCpu(s, s', c);
    TreeStepFrame(s, s', c);
    EdgeSweep(s.cpus[c], s'.cpus[c], 0);
    TokUpdate(s, s', c, i);
  }

  lemma TreeStepTok(s: State, s': State, c: nat)
    requires c < |s.cpus| && TreeStep(s, s', c) && Base(s) && TreeCode(s.procs, s.cpus[c])
    ensures TokInv(s'.procs, s'.cpus, s'.queue)
  {
    hide Base, TokInv, TreeCode, ForkTake, ForkLink, Reap, Reparent, Die;
    if Reparent(s, s', c) { ReparentStepTok(s, s', c); } else { WriteStepTok(s, s', c); }
  }

  lemma ReparentTok(procs: seq<Proc>, cpus: seq<Cpu>, queue: seq<nat>, i: nat, p': Proc)
    requires TokInv(procs, cpus, queue) && i < |procs| && p' == procs[i].(parent := p'.parent)
    ensures TokInv(procs[i := p'], cpus, queue)
  {
    var procs' := procs[i := p'];
    forall p | 0 <= p < |procs| ensures TokProc(procs', cpus, queue, p) {
      assert TokProc(procs, cpus, queue, p);
    }
    forall d | 0 <= d < |cpus| ensures TokCpu(procs', d, cpus[d]) {
      assert TokCpu(procs, d, cpus[d]);
    }
  }

  lemma IrqFrame(procs: seq<Proc>, cpus: seq<Cpu>, i: nat, p': Proc)
    requires IrqInv(procs, cpus) && i < |procs| && p'.base == procs[i].base && p'.savedOn == procs[i].savedOn
    ensures IrqInv(procs[i := p'], cpus)
  {
    forall d | 0 <= d < |cpus| ensures IrqOk(procs[i := p'], cpus[d]) {
      assert IrqOk(procs, cpus[d]);
    }
  }

  lemma TreeStepIrqInv(s: State, s': State, c: nat)
    requires c < |s.cpus| && TreeStep(s, s', c) && IrqInv(s.procs, s.cpus)
    ensures IrqInv(s'.procs, s'.cpus)
  {
    var i := SlotOf(s.cpus[c]);
    TreeStepFrame(s, s', c);
    IrqFrame(s.procs, s.cpus, i, s'.procs[i]);
    assert IrqOk(s.procs, s.cpus[c]);
    EdgeIrq(s.procs, i, s'.procs[i], s.cpus[c], s'.cpus[c]);
  }

  lemma TreeStepBase(s: State, s': State, c: nat)
    requires c < |s.cpus| && TreeStep(s, s', c) && Base(s) && TreeCode(s.procs, s.cpus[c])
    ensures Base(s')
  {
    TreeStepTok(s, s', c);
    TreeStepIrqInv(s, s', c);
    TreeStepFrame(s, s', c);
    EdgeHolds(s.cpus[c], s'.cpus[c]);
    CpuLock(s.owner, s.cpus, c, s'.cpus[c]);
  }

  // ---------- the tree: the five ways a slot changes

  lemma Born(procs: seq<Proc>, i: nat, p': Proc, nextPid: int, dead: map<int, int>, reaped: seq<(int, int)>)
    requires i < |procs| && TreeInv(procs, nextPid, dead, reaped)
    requires procs[i].state == Unused && p'.state == Used && p'.pid == nextPid && p'.parent.None?
    ensures TreeInv(procs[i := p'], nextPid + 1, dead, reaped)
  {
    var procs' := procs[i := p'];
    var next := nextPid + 1;
    forall p | 0 <= p < |procs| ensures ProcTree(procs', next, dead, p) {
      assert ProcTree(procs, nextPid, dead, p);
    }
    forall p, q | 0 <= p < q < |procs| && procs'[p].state != Unused && procs'[q].state != Unused
      ensures procs'[p].pid != procs'[q].pid
    {
      assert ProcTree(procs, nextPid, dead, p) && ProcTree(procs, nextPid, dead, q);
    }
  }

  lemma Linked(procs: seq<Proc>, i: nat, p': Proc, me: nat, nextPid: int, dead: map<int, int>, reaped: seq<(int, int)>)
    requires i < |procs| && me < |procs| && me != i && TreeInv(procs, nextPid, dead, reaped)
    requires procs[i].state == Used && p'.state == Runnable && p'.pid == procs[i].pid && p'.parent == Some(me)
    requires procs[me].state in {Running, Runnable} && procs[me].pid < p'.pid
    ensures TreeInv(procs[i := p'], nextPid, dead, reaped)
  {
    var procs' := procs[i := p'];
    forall p | 0 <= p < |procs| ensures ProcTree(procs', nextPid, dead, p) {
      assert ProcTree(procs, nextPid, dead, p);
    }
  }

  lemma Freed(procs: seq<Proc>, i: nat, p': Proc, nextPid: int, dead: map<int, int>, reaped: seq<(int, int)>)
    requires i < |procs| && TreeInv(procs, nextPid, dead, reaped)
    requires procs[i].state == Zombie && procs[i].parent.Some? && p'.state == Unused && p'.parent.None?
    ensures TreeInv(procs[i := p'], nextPid, dead, reaped + [(procs[i].pid, procs[i].exitCode)])
  {
    var procs' := procs[i := p'];
    forall p | 0 <= p < |procs| ensures ProcTree(procs', nextPid, dead, p) {
      assert ProcTree(procs, nextPid, dead, p) && ProcTree(procs, nextPid, dead, i);
    }
    assert ProcTree(procs, nextPid, dead, i);
  }

  lemma Moved(procs: seq<Proc>, i: nat, p': Proc, me: nat, nextPid: int, dead: map<int, int>, reaped: seq<(int, int)>)
    requires i < |procs| && TreeInv(procs, nextPid, dead, reaped)
    requires p' == if procs[i].parent == Some(me) then procs[i].(parent := Some(0)) else procs[i]
    ensures TreeInv(procs[i := p'], nextPid, dead, reaped)
  {
    var procs' := procs[i := p'];
    forall p | 0 <= p < |procs| ensures ProcTree(procs', nextPid, dead, p) {
      assert ProcTree(procs, nextPid, dead, p) && ProcTree(procs, nextPid, dead, i);
    }
  }

  lemma Died(procs: seq<Proc>, i: nat, p': Proc, nextPid: int, dead: map<int, int>, reaped: seq<(int, int)>)
    requires i < |procs| && TreeInv(procs, nextPid, dead, reaped)
    requires procs[i].state in {Running, Runnable} && NoChildBelow(procs, i, |procs|)
    requires p' == procs[i].(exitCode := p'.exitCode, state := Zombie, under := procs[i].parent)
    ensures TreeInv(procs[i := p'], nextPid, dead[p'.pid := p'.exitCode], reaped)
  {
    var procs' := procs[i := p'];
    var dead' := dead[p'.pid := p'.exitCode];
    assert ProcTree(procs, nextPid, dead, i);
    forall p | 0 <= p < |procs| ensures ProcTree(procs', nextPid, dead', p) {
      assert ProcTree(procs, nextPid, dead, p);
    }
  }

  lemma TreeStepTree(s: State, s': State, c: nat)
    requires c < |s.cpus| && TreeStep(s, s', c) && TreeInv(s.procs, s.nextPid, s.dead, s.reaped)
    requires TokCpu(s.procs, c, s.cpus[c]) && TreeCode(s.procs, s.cpus[c])
    ensures TreeInv(s'.procs, s'.nextPid, s'.dead, s'.reaped)
  {
    var i := SlotOf(s.cpus[c]);
    var me := s.cpus[c].code.me;
    TreeStepFrame(s, s', c);
    var p' := s'.procs[i];
    if ForkTake(s, s', c) {
      Born(s.procs, i, p', s.nextPid, s.dead, s.reaped);
    } else if ForkLink(s, s', c) {
      Linked(s.procs, i, p', me, s.nextPid, s.dead, s.reaped);
    } else if Reap(s, s', c) {
      Freed(s.procs, i, p', s.nextPid, s.dead, s.reaped);
    } else if Reparent(s, s', c) {
      Moved(s.procs, i, p', me, s.nextPid, s.dead, s.reaped);
    } else {
      Died(s.procs, i, p', s.nextPid, s.dead, s.reaped);
    }
  }

  // ---------- what the other threads know

  lemma ForkCode(s: State, s': State, c: nat)
    requires c < |s.cpus| && (ForkTake(s, s', c) || ForkLink(s, s', c)) && TreeCode(s.procs, s.cpus[c])
    requires s.cpus[c].code.me < |s.procs| && s.procs[s.cpus[c].code.me].pid < s.nextPid
    requires ForkTake(s, s', c) ==> s.procs[s.cpus[c].code.pc.i].at.Nowhere? && s.cpus[c].code.pc.i != s.cpus[c].code.me
    ensures |s'.cpus| == |s.cpus| && TreeCode(s'.procs, s'.cpus[c])
  {
  }

  lemma WaitExitCode(s: State, s': State, c: nat)
    requires c < |s.cpus| && (Reap(s, s', c) || Reparent(s, s', c) || Die(s, s', c)) && TreeCode(s.procs, s.cpus[c])
    ensures |s'.cpus| == |s.cpus| && TreeCode(s'.procs, s'.cpus[c])
  {
    if Reparent(s, s', c) { ReparentBelow(s, s', c); }
  }

  lemma ReparentBelow(s: State, s': State, c: nat)
    requires c < |s.cpus| && Reparent(s, s', c) && TreeCode(s.procs, s.cpus[c])
    ensures NoChildBelow(s'.procs, s.cpus[c].code.me, s.cpus[c].code.pc.i + 1)
  {
  }

  // Two threads never write one slot, and never scan for children together.
  lemma TreeStepApart(s: State, s': State, c: nat, d: nat)
    requires c < |s.cpus| && d < |s.cpus| && c != d && TreeStep(s, s', c) && Base(s)
    requires s.cpus[d].code.Thread?
    ensures s.cpus[d].code.me < |s.procs| && s.cpus[d].code.me != s.cpus[c].code.me
    ensures !CodeHolds(s.cpus[d].code, ProcLock(SlotOf(s.cpus[c])))
    ensures CodeHolds(s.cpus[c].code, WaitLock) ==> !CodeHolds(s.cpus[d].code, WaitLock)
    ensures var o := s.cpus[d].code.me;
      && s.procs[o].state != Unused && s.procs[o].state != Used
      && (s.procs[o].state == Zombie ==> CodeHolds(s.cpus[d].code, ProcLock(o)))
  {
    TreeStepFrame(s, s', c);
    EdgeHolds(s.cpus[c], s'.cpus[c]);
    assert TokCpu(s.procs, d, s.cpus[d]) && TokCpu(s.procs, c, s.cpus[c]) && IrqOk(s.procs, s.cpus[d]);
    var x := ProcLock(SlotOf(s.cpus[c]));
    if CodeHolds(s.cpus[d].code, x) {
      HoldsDeep(s.cpus[d].code, x);
      Exclusive(s.owner, s.cpus, c, d, x);
    }
    if CodeHolds(s.cpus[c].code, WaitLock) && CodeHolds(s.cpus[d].code, WaitLock) {
      HoldsDeep(s.cpus[d].code, WaitLock);
      Exclusive(s.owner, s.cpus, c, d, WaitLock);
    }
  }

  // What thread o knows survives a write to slot i, when o does not hold that slot.
  lemma TreePcFrame(procs: seq<Proc>, i: nat, p': Proc, o: nat, pc: Pc)
    requires i < |procs| && o < |procs| && TreePc(procs, o, pc)
    requires !PcHolds(o, pc, ProcLock(i))
    requires procs[i].parent == Some(o) ==> p'.state != Unused && p'.pid == procs[i].pid && (p'.parent == Some(o) || o == i)
    requires o == i ==> p'.pid == procs[i].pid && (p'.parent == procs[i].parent || !PcHolds(o, pc, WaitLock))
    requires p'.parent == Some(o) ==> procs[i].parent == Some(o) || o == 0
    ensures TreePc(procs[i := p'], o, pc)
  {
  }

  lemma TreeStepWrites(s: State, s': State, c: nat, o: nat)
    requires c < |s.cpus| && TreeStep(s, s', c) && o < |s.procs|
    requires TreeInv(s.procs, s.nextPid, s.dead, s.reaped) && o != s.cpus[c].code.me && TreeCode(s.procs, s.cpus[c])
    requires s.procs[o].state == Unused || s.procs[o].state == Used || s.procs[o].state == Zombie ==>
      o != SlotOf(s.cpus[c]) || Reparent(s, s', c)
    ensures SlotOf(s.cpus[c]) < |s.procs| && |s'.procs| == |s.procs|
    ensures var i := SlotOf(s.cpus[c]); var p := s.procs[i]; var p' := s'.procs[i];
      && (p.parent == Some(o) ==> p'.state != Unused && p'.pid == p.pid && p'.parent == Some(o))
      && (o == i ==> p'.pid == p.pid && (p'.parent == p.parent || Reparent(s, s', c)))
      && (p'.parent == Some(o) ==> p.parent == Some(o) || o == 0)
  {
    hide PidsInv, LogInv, NoChildBelow, Holds;
    TreeStepFrame(s, s', c);
    assert ProcTree(s.procs, s.nextPid, s.dead, SlotOf(s.cpus[c]));
  }

  lemma TreeStepOther(s: State, s': State, c: nat, d: nat)
    requires c < |s.cpus| && d < |s.cpus| && c != d && TreeStep(s, s', c) && Base(s)
    requires TreeCode(s.procs, s.cpus[c]) && TreeCode(s.procs, s.cpus[d]) && TreeInv(s.procs, s.nextPid, s.dead, s.reaped)
    ensures TreeCode(s'.procs, s.cpus[d])
  {
    TreeStepFrame(s, s', c);
    if s.cpus[d].code.Thread? {
      var i := SlotOf(s.cpus[c]);
      var o := s.cpus[d].code.me;
      TreeStepApart(s, s', c, d);
      assert TokCpu(s.procs, d, s.cpus[d]);
      TreeStepWrites(s, s', c, o);
      TreePcFrame(s.procs, i, s'.procs[i], o, s.cpus[d].code.pc);
    }
  }

  // ---------- wait does not miss a child that exits under its own parent

  lemma DieUnseen(s: State, s': State, c: nat, d: nat)
    requires c < |s.cpus| && d < |s.cpus| && Die(s, s', c) && Inv(s) && c != d
    requires s.cpus[d].code.Thread?
    ensures ScanCode(s'.procs, s.cpus[d].code)
  {
    hide LockInv, IrqInv, TokInv, ConsInv, PidsInv, LogInv, ProcTree, NoMatchBelow, ThreadIrq;
    var me := s.cpus[c].code.me;
    TreeStepApart(s, s', c, d);
    assert ScanCode(s.procs, s.cpus[d].code);
    assert SweepOk(s.procs, s.cpus, s.cpus[c]) && TreeCode(s.procs, s.cpus[c]);
    var w := SweepOf(s.cpus[c], |s.procs|);
    assert w == Sweep(ParentChan(s.procs[me].parent), |s.procs|);
    assert !Falling(s.cpus[d].code, s.cpus[d].code.me, w.ch);
    assert forall p, o: nat, pid: int :: 0 <= p < |s.procs| && p != me ==> Matches(s'.procs[p], o, pid) == Matches(s.procs[p], o, pid);
  }

  lemma DieAsleep(s: State, s': State, c: nat, p: nat)
    requires c < |s.cpus| && Die(s, s', c) && Inv(s) && p < |s.procs|
    ensures |s'.procs| == |s.procs| && ScanProc(s'.procs, p)
  {
    hide LockInv, IrqInv, ConsInv, QueueInv, PidsInv, LogInv, ProcTree;
    var me := s.cpus[c].code.me;
    assert ScanProc(s.procs, p);
    assert TokProc(s.procs, s.cpus, s.queue, p);
    if s.procs[p].at.OnCpu? { assert TokCpu(s.procs, s.procs[p].at.c, s.cpus[s.procs[p].at.c]); }
    assert SweepOk(s.procs, s.cpus, s.cpus[c]) && TreeCode(s.procs, s.cpus[c]);
    var w := SweepOf(s.cpus[c], |s.procs|);
    assert w == Sweep(ParentChan(s.procs[me].parent), |s.procs|);
    assert !Asleep(s.procs[p], w.ch);
    assert forall q, o: nat, pid: int :: 0 <= q < |s.procs| && q != me ==> Matches(s'.procs[q], o, pid) == Matches(s.procs[q], o, pid);
  }

  lemma DieScan(s: State, s': State, c: nat)
    requires c < |s.cpus| && Die(s, s', c) && Inv(s)
    ensures ScanInv(s'.procs, s'.cpus)
  {
    forall d | 0 <= d < |s.cpus| ensures ScanCode(s'.procs, s'.cpus[d].code) {
      if d != c && s.cpus[d].code.Thread? { DieUnseen(s, s', c, d); }
    }
    forall p | 0 <= p < |s.procs| ensures ScanProc(s'.procs, p) {
      DieAsleep(s, s', c, p);
    }
  }

  // The other four steps make no process a zombie; Reparent may hand one to slot 0.
  lemma OtherMatches(s: State, s': State, c: nat, p: nat, o: nat, pid: int)
    requires c < |s.cpus| && TreeStep(s, s', c) && !Die(s, s', c) && p < |s.procs|
    requires TreeInv(s.procs, s.nextPid, s.dead, s.reaped)
    ensures |s'.procs| == |s.procs| && s'.procs[p].under == s.procs[p].under
    ensures Matches(s'.procs[p], o, pid) ==>
      Matches(s.procs[p], o, pid) || (Reparent(s, s', c) && o == 0 && s.procs[p].under != Some(0))
  {
    assert ProcTree(s.procs, s.nextPid, s.dead, p);
  }

  lemma OtherUnseen(s: State, s': State, c: nat, d: nat)
    requires c < |s.cpus| && d < |s.cpus| && TreeStep(s, s', c) && !Die(s, s', c) && Inv(s) && c != d
    requires s.cpus[d].code.Thread?
    ensures ScanCode(s'.procs, s.cpus[d].code)
  {
    TreeStepFrame(s, s', c);
    TreeStepApart(s, s', c, d);
    assert ScanCode(s.procs, s.cpus[d].code);
    forall p, o: nat, pid: int | 0 <= p < |s.procs|
      ensures s'.procs[p].under == s.procs[p].under
      ensures Matches(s'.procs[p], o, pid) ==>
        Matches(s.procs[p], o, pid) || (Reparent(s, s', c) && o == 0 && s.procs[p].under != Some(0))
    {
      OtherMatches(s, s', c, p, o, pid);
    }
  }

  lemma OtherScanSelf(s: State, s': State, c: nat)
    requires c < |s.cpus| && TreeStep(s, s', c)
    ensures |s'.cpus| == |s.cpus| && ScanCode(s'.procs, s'.cpus[c].code)
  {
  }

  lemma OtherScan(s: State, s': State, c: nat)
    requires c < |s.cpus| && TreeStep(s, s', c) && !Die(s, s', c) && Inv(s)
    ensures ScanInv(s'.procs, s'.cpus)
  {
    hide LockInv, ConsInv, SweepInv, PidsInv, LogInv, NoMatchBelow;
    TreeStepFrame(s, s', c);
    OtherScanSelf(s, s', c);
    forall d | 0 <= d < |s.cpus| ensures ScanCode(s'.procs, s'.cpus[d].code) {
      if d != c && s.cpus[d].code.Thread? { OtherUnseen(s, s', c, d); }
    }
    forall p | 0 <= p < |s.procs| ensures ScanProc(s'.procs, p) {
      assert ScanProc(s.procs, p);
      if s'.procs[p].state == Sleeping && s'.procs[p].ctx.SleepSw? && s'.procs[p].ctx.w.InWait? {
        forall q | 0 <= q < |s.procs| && Matches(s'.procs[q], p, s'.procs[p].ctx.w.pid) ensures s'.procs[q].under != Some(p) {
          OtherMatches(s, s', c, q, p, s'.procs[p].ctx.w.pid);
        }
      }
    }
  }

  // ---------- all of it

  lemma TreeStepCodes(s: State, s': State, c: nat)
    requires Inv(s) && c < |s.cpus| && TreeStep(s, s', c)
    ensures TreeCodeInv(s'.procs, s'.cpus)
  {
    TreeStepFrame(s, s', c);
    TreeStepSlot(s, s', c);
    assert ProcTree(s.procs, s.nextPid, s.dead, s.cpus[c].code.me);
    forall d | 0 <= d < |s.cpus| ensures TreeCode(s'.procs, s'.cpus[d]) {
      assert TreeCode(s.procs, s.cpus[d]);
      if d == c {
        if ForkTake(s, s', c) || ForkLink(s, s', c) { ForkCode(s, s', c); } else { WaitExitCode(s, s', c); }
      } else { TreeStepOther(s, s', c, d); }
    }
  }

  lemma TreeStepSleep(s: State, s': State, c: nat)
    requires c < |s.cpus| && TreeStep(s, s', c) && SweepInv(s.procs, s.cpus)
    requires ConsInv(s.procs, s.cpus, s.owner, s.data)
    ensures SweepInv(s'.procs, s'.cpus) && ConsInv(s'.procs, s'.cpus, s'.owner, s'.data)
  {
    var i := SlotOf(s.cpus[c]);
    TreeStepFrame(s, s', c);
    EdgeSweep(s.cpus[c], s'.cpus[c], |s.procs|);
    CpuSweep(s.procs, s.cpus, c, s'.cpus[c]);
    SweepUpdate(s.procs, s'.cpus, i, s'.procs[i]);
    ConsUpdate(s, s', c);
  }

  lemma TreeStepInv(s: State, s': State, c: nat)
    requires Inv(s) && c < |s.cpus| && TreeStep(s, s', c)
    ensures Inv(s')
  {
    assert TokCpu(s.procs, c, s.cpus[c]) && TreeCode(s.procs, s.cpus[c]);
    TreeStepBase(s, s', c);
    TreeStepTree(s, s', c);
    TreeStepCodes(s, s', c);
    TreeStepSleep(s, s', c);
    if Die(s, s', c) { DieScan(s, s', c); } else { OtherScan(s, s', c); }
    TreeStepFrame(s, s', c);
  }
}
