/**
  Steps that touch at most one slot and leave the process tree, the process ids
  and the exit statuses alone: interrupts, the scheduler, and the ends of yield,
  sleep and exec.
*/
module KernelQuiet {
  import opened KernelState
  import opened KernelSteps
  import opened KernelInv
  import opened KernelLocks

  // ---------- replacing one CPU and one slot

  predicate Near(at: Where, c: nat) { at.Nowhere? || at.InQueue? || at == OnCpu(c) || at == Waking(c) }

  lemma TokUpdate(s: State, s': State, c: nat, q: nat)
    requires TokInv(s.procs, s.cpus, s.queue)
    requires c < |s.cpus| && |s'.cpus| == |s.cpus| && s'.cpus == s.cpus[c := s'.cpus[c]]
    requires q < |s.procs| && |s'.procs| == |s.procs| && s'.procs == s.procs[q := s'.procs[q]]
    requires Near(s.procs[q].at, c)
    requires TokCpu(s'.procs, c, s'.cpus[c]) && TokProc(s'.procs, s'.cpus, s'.queue, q)
    requires CodeProc(s'.cpus[c].code) == CodeProc(s.cpus[c].code) || CodeProc(s.cpus[c].code) in {None, Some(q)}
    requires Pushing(s'.cpus[c]) == Pushing(s.cpus[c]) || Pushing(s.cpus[c]) in {None, Some(q)}
    requires forall p :: p in s.queue && p != q ==> p in s'.queue
    requires QueueInv(s'.procs, s'.queue)
    ensures TokInv(s'.procs, s'.cpus, s'.queue)
  {
    forall p | 0 <= p < |s.procs| ensures TokProc(s'.procs, s'.cpus, s'.queue, p) {
      assert TokProc(s.procs, s.cpus, s.queue, p);
    }
    forall d | 0 <= d < |s.cpus| ensures TokCpu(s'.procs, d, s'.cpus[d]) {
      assert TokCpu(s.procs, d, s.cpus[d]);
    }
  }

  lemma IrqUpdate(s: State, s': State, c: nat, q: nat)
    requires IrqInv(s.procs, s.cpus) && TokInv(s.procs, s.cpus, s.queue)
    requires c < |s.cpus| && |s'.cpus| == |s.cpus| && s'.cpus == s.cpus[c := s'.cpus[c]]
    requires q < |s.procs| && |s'.procs| == |s.procs| && s'.procs == s.procs[q := s'.procs[q]]
    requires Near(s.procs[q].at, c) && IrqOk(s'.procs, s'.cpus[c])
    ensures IrqInv(s'.procs, s'.cpus)
  {
    forall d | 0 <= d < |s.cpus| ensures IrqOk(s'.procs, s'.cpus[d]) {
      assert IrqOk(s.procs, s.cpus[d]) && TokCpu(s.procs, d, s.cpus[d]);
    }
  }

  // What the tree, the pids and the logs see of a process.
  predicate TreeSame(p: Proc, p': Proc) {
    && p'.pid == p.pid && p'.parent == p.parent && p'.exitCode == p.exitCode && p'.under == p.under
    && (p'.state == p.state || (p.state in {Sleeping, Runnable, Running} && p'.state in {Sleeping, Runnable, Running}))
    && (p.state == Used ==> p'.at == p.at)
  }

  lemma TreeUpdate(procs: seq<Proc>, q: nat, p': Proc, nextPid: int, dead: map<int, int>, reaped: seq<(int, int)>)
    requires q < |procs| && TreeSame(procs[q], p') && TreeInv(procs, nextPid, dead, reaped)
    ensures TreeInv(procs[q := p'], nextPid, dead, reaped)
  {
    var procs' := procs[q := p'];
    forall p | 0 <= p < |procs| ensures ProcTree(procs', nextPid, dead, p) {
      assert ProcTree(procs, nextPid, dead, p);
    }
  }

  lemma TreeCodeUpdate(procs: seq<Proc>, q: nat, p': Proc, k: Cpu)
    requires q < |procs| && TreeSame(procs[q], p') && TreeCode(procs, k)
    ensures TreeCode(procs[q := p'], k)
  {
  }

  // The process did not fall asleep in this step, or slept already.
  predicate Calm(p: Proc, p': Proc) {
    p'.state == Sleeping ==> p.state == Sleeping && p'.chan == p.chan && p'.ctx == p.ctx
  }

  lemma ScanUpdate(procs: seq<Proc>, cpus: seq<Cpu>, q: nat, p': Proc)
    requires q < |procs| && TreeSame(procs[q], p') && Calm(procs[q], p') && ScanInv(procs, cpus)
    ensures ScanInv(procs[q := p'], cpus)
  {
    var procs' := procs[q := p'];
    assert forall p, me: nat, pid: int :: 0 <= p < |procs| ==> Matches(procs'[p], me, pid) == Matches(procs[p], me, pid);
    forall c | 0 <= c < |cpus| ensures ScanCode(procs', cpus[c].code) {
      assert ScanCode(procs, cpus[c].code);
    }
    forall p | 0 <= p < |procs| ensures ScanProc(procs', p) {
      assert ScanProc(procs, p);
    }
  }

  lemma SweepUpdate(procs: seq<Proc>, cpus: seq<Cpu>, q: nat, p': Proc)
    requires q < |procs| && Calm(procs[q], p') && SweepInv(procs, cpus)
    ensures SweepInv(procs[q := p'], cpus)
  {
    var procs' := procs[q := p'];
    forall c | 0 <= c < |cpus| ensures SweepOk(procs', cpus, cpus[c]) {
      assert SweepOk(procs, cpus, cpus[c]);
    }
  }

  // The trap of a CPU keeps its place in a wakeup loop.
  predicate TrapKeeps(t: Trap, t': Trap) {
    t.TrapWake? ==> t'.TrapWake? && LoopUpto(t'.l) == LoopUpto(t.l)
  }

  predicate SleepPc(code: Code) { code.Thread? && (code.pc.SleepAcq? || code.pc.SleepHeld? || code.pc.SleepSet?) }

  lemma ConsUpdate(s: State, s': State, c: nat)
    requires ConsInv(s.procs, s.cpus, s.owner, s.data) && s'.owner == s.owner && (s'.data ==> s.data)
    requires c < |s.cpus| && |s'.cpus| == |s.cpus| && s'.cpus == s.cpus[c := s'.cpus[c]]
    requires |s'.procs| == |s.procs| && forall p :: 0 <= p < |s.procs| ==> Calm(s.procs[p], s'.procs[p])
    requires TrapKeeps(s.cpus[c].trap, s'.cpus[c].trap)
    requires s'.cpus[c].code == s.cpus[c].code || !SleepPc(s'.cpus[c].code)
    ensures ConsInv(s'.procs, s'.cpus, s'.owner, s'.data)
  {
    forall r | 0 <= r < |s.procs| && Coming(s.cpus, s.owner, r) ensures Coming(s'.cpus, s'.owner, r) {
    }
    if s'.data {
      forall d | 0 <= d < |s.cpus| ensures ConsCode(s'.cpus, s'.owner, s'.cpus[d].code) {
        assert ConsCode(s.cpus, s.owner, s.cpus[d].code);
      }
    }
  }

  ghost predicate QuietFrame(s: State, s': State, c: nat, q: nat) {
    && c < |s.cpus| && |s'.cpus| == |s.cpus| && s'.cpus == s.cpus[c := s'.cpus[c]]
    && q < |s.procs| && |s'.procs| == |s.procs| && s'.procs == s.procs[q := s'.procs[q]]
    && s'.owner == s.owner && s'.nextPid == s.nextPid && s'.panic == s.panic && (s'.data ==> s.data)
    && s'.dead == s.dead && s'.reaped == s.reaped
    && TreeSame(s.procs[q], s'.procs[q]) && Calm(s.procs[q], s'.procs[q])
  }

  lemma QuietInv(s: State, s': State, c: nat, q: nat)
    requires Inv(s) && QuietFrame(s, s', c, q) && Base(s')
    requires TreeCode(s.procs, s'.cpus[c]) && ScanCode(s.procs, s'.cpus[c].code)
    requires SweepOf(s'.cpus[c], |s.procs|) == SweepOf(s.cpus[c], |s.procs|) || SweepOf(s'.cpus[c], |s.procs|).NoSweep?
    requires TrapKeeps(s.cpus[c].trap, s'.cpus[c].trap)
    requires s'.cpus[c].code == s.cpus[c].code || !SleepPc(s'.cpus[c].code)
    ensures Inv(s')
  {
    var p' := s'.procs[q];
    TreeUpdate(s.procs, q, p', s.nextPid, s.dead, s.reaped);
    forall d | 0 <= d < |s.cpus| ensures TreeCode(s'.procs, s'.cpus[d]) {
      TreeCodeUpdate(s.procs, q, p', s'.cpus[d]);
    }
    CpuSweep(s.procs, s.cpus, c, s'.cpus[c]);
    SweepUpdate(s.procs, s'.cpus, q, p');
    assert ScanInv(s.procs, s'.cpus);
    ScanUpdate(s.procs, s'.cpus, q, p');
    ConsUpdate(s, s', c);
  }
}
