/**
  What callers of sleep, wakeup, wait, exit and fork rely on, for every run.
*/
module KernelOutcomes {
  import opened KernelState
  import opened KernelSteps
  import opened KernelInv
  import opened KernelLocks
  import opened KernelQuiet
  import opened KernelSched
  import opened KernelSleep
  import opened KernelTree
  import opened KernelTheorems
  import opened KernelSafety

  // ---------- no wakeup is lost

  // Process p has dropped its condition lock in sleep and has not been woken.
  ghost predicate Down(s: State, p: nat, ch: Chan) {
    || (p < |s.procs| && Asleep(s.procs[p], ch))
    || exists d :: 0 <= d < |s.cpus| && Falling(s.cpus[d].code, p, ch)
  }

  // The only step open to a thread between dropping its condition lock and swtch.
  lemma FallingStep(s: State, s': State, c: nat)
    requires c < |s.cpus| && CpuNext(s, s', c) && !Bad(s, c)
    requires s.cpus[c].trap.NoTrap? && !s.cpus[c].irq.on && s.cpus[c].code.Thread? && s.cpus[c].code.pc.SleepSet?
    ensures Switch(s, s', c)
  {
  }

  lemma FallingStays(s: State, s': State, p: nat, ch: Chan, c: nat, d: nat)
    requires Inv(s) && c < |s.cpus| && CpuNext(s, s', c)
    requires d < |s.cpus| && Falling(s.cpus[d].code, p, ch)
    ensures Down(s', p, ch)
  {
    assert IrqOk(s.procs, s.cpus[d]);
    if c == d {
      NothingFails(s, c);
      FallingStep(s, s', c);
    } else {
      StepEffect(s, s', c);
    }
  }

  // A sleeping process keeps sleeping until wakeup makes it RUNNABLE.
  lemma AsleepStays(s: State, s': State, p: nat, ch: Chan, c: nat)
    requires Inv(s) && c < |s.cpus| && CpuNext(s, s', c) && p < |s.procs| && Asleep(s.procs[p], ch)
    ensures |s'.procs| == |s.procs|
    ensures Asleep(s'.procs[p], ch) || (s'.procs[p].state == Runnable && s'.procs[p].at == Waking(c))
  {
    StepEffect(s, s', c);
    assert ProcEffect(s, s', c, p) && TokCpu(s.procs, c, s.cpus[c]) && TreeCode(s.procs, s.cpus[c]);
    if Holds(s.cpus[c], ProcLock(p)) && !WakeOne(s, s', c) { AsleepKept(s, s', c, p); }
  }

  lemma AsleepKept(s: State, s': State, c: nat, p: nat)
    requires c < |s.cpus| && CpuNext(s, s', c) && !WakeOne(s, s', c) && p < |s.procs| && s.procs[p].state == Sleeping
    requires TokInv(s.procs, s.cpus, s.queue) && TreeCode(s.procs, s.cpus[c])
    ensures |s'.procs| == |s.procs| && s'.procs[p].state == Sleeping && s'.procs[p].chan == s.procs[p].chan
  {
    assert TokCpu(s.procs, c, s.cpus[c]);
    if OwnStep(s, s', c) || Switch(s, s', c) {
      AsleepNotOwn(s, s', c, p);
    } else if TreeStep(s, s', c) {
      AsleepNotTree(s, s', c, p);
    } else if TokenStep(s, s', c) {
      TokenStepLocal(s, s', c);
    }
  }

  lemma AsleepNotOwn(s: State, s': State, c: nat, p: nat)
    requires c < |s.cpus| && (OwnStep(s, s', c) || Switch(s, s', c)) && TokCpu(s.procs, c, s.cpus[c])
    requires p < |s.procs| && s.procs[p].state == Sleeping
    ensures |s'.procs| == |s.procs| && s'.procs[p] == s.procs[p]
  {
  }

  lemma AsleepNotFork(s: State, s': State, c: nat, p: nat)
    requires c < |s.cpus| && (ForkTake(s, s', c) || ForkLink(s, s', c) || Reap(s, s', c)) && TreeCode(s.procs, s.cpus[c])
    requires p < |s.procs| && s.procs[p].state == Sleeping
    ensures |s'.procs| == |s.procs| && s'.procs[p] == s.procs[p]
  {
    hide NoChildBelow;
  }

  lemma AsleepNotExit(s: State, s': State, c: nat, p: nat)
    requires c < |s.cpus| && (Reparent(s, s', c) || Die(s, s', c)) && TokCpu(s.procs, c, s.cpus[c])
    requires p < |s.procs| && s.procs[p].state == Sleeping
    ensures |s'.procs| == |s.procs| && s'.procs[p].state == Sleeping && s'.procs[p].chan == s.procs[p].chan
  {
  }

  lemma AsleepNotTree(s: State, s': State, c: nat, p: nat)
    requires c < |s.cpus| && TreeStep(s, s', c) && TokCpu(s.procs, c, s.cpus[c]) && TreeCode(s.procs, s.cpus[c])
    requires p < |s.procs| && s.procs[p].state == Sleeping
    ensures |s'.procs| == |s.procs| && s'.procs[p].state == Sleeping && s'.procs[p].chan == s.procs[p].chan
  {
    hide ForkTake, ForkLink, Reap, Reparent, Die, TokCpu, TreeCode;
    if Reparent(s, s', c) || Die(s, s', c) { AsleepNotExit(s, s', c, p); } else { AsleepNotFork(s, s', c, p); }
  }

  // A CPU has just made p RUNNABLE and is about to queue it.
  ghost predicate WokenAt(s: State, p: nat) {
    p < |s.procs| && s.procs[p].state == Runnable && s.procs[p].at.Waking?
  }

  lemma DownStep(s: State, s': State, p: nat, ch: Chan)
    requires Inv(s) && Next(s, s') && Down(s, p, ch)
    ensures Down(s', p, ch) || WokenAt(s', p)
  {
    var c: nat :| c < |s.cpus| && CpuNext(s, s', c);
    if p < |s.procs| && Asleep(s.procs[p], ch) {
      AsleepStays(s, s', p, ch, c);
    } else {
      var d: nat :| d < |s.cpus| && Falling(s.cpus[d].code, p, ch);
      FallingStays(s, s', p, ch, c, d);
    }
  }

  // The loop of some wakeup(ch) has passed slot p while its caller holds the
  // condition lock.
  ghost predicate Passed(s: State, p: nat, ch: Chan) {
    exists c :: 0 <= c < |s.cpus| && PassedBy(s, c, p, ch)
  }

  predicate PassedBy(s: State, c: nat, p: nat, ch: Chan)
    requires c < |s.cpus|
  {
    var w := SweepOf(s.cpus[c], |s.procs|);
    w.Sweep? && w.ch == ch && p < w.upto
  }

  lemma PassedNotDown(s: State, p: nat, ch: Chan)
    requires Inv(s) && Passed(s, p, ch) && p < |s.procs|
    ensures !Down(s, p, ch)
  {
    var c: nat :| c < |s.cpus| && PassedBy(s, c, p, ch);
    assert SweepOk(s.procs, s.cpus, s.cpus[c]);
  }

  // If p went to sleep on ch at some time i, and at some later time j a wakeup(ch)
  // has passed p, then somewhere in between p was made RUNNABLE by a CPU that is
  // about to queue it.  No interleaving loses the wakeup.
  lemma {:induction false} NoLostWakeup(r: seq<State>, i: nat, j: nat, p: nat, ch: Chan)
    requires IsRun(r) && i <= j < |r| && p < |r[j].procs|
    requires Down(r[i], p, ch) && Passed(r[j], p, ch)
    ensures exists m :: i < m <= j && WokenAt(r[m], p)
    decreases j - i
  {
    hide Inv, Init, IsRun, Next, Down, Passed, WokenAt;
    RunInv(r, i);
    RunInv(r, j);
    PassedNotDown(r[j], p, ch);
    RunNext(r, i);
    DownStep(r[i], r[i + 1], p, ch);
    if Down(r[i + 1], p, ch) {
      NoLostWakeup(r, i + 1, j, p, ch);
    } else {
      assert WokenAt(r[i + 1], p);
    }
  }

  // A reader never sleeps over committed input once cons.lock is free.
  lemma ReaderNotStuck(r: seq<State>, i: nat, p: nat)
    requires IsRun(r) && i < |r| && ConsLock !in r[i].owner && r[i].data
    ensures !Down(r[i], p, ConsChan)
  {
    RunInv(r, i);
    var s := r[i];
    assert forall d :: 0 <= d < |s.cpus| ==> ConsCode(s.cpus, s.owner, s.cpus[d].code);
  }

  // ---------- wait and exit

  // Process p sleeps in wait(pid), or has dropped wait_lock on the way to sleep.
  ghost predicate WaitsIn(s: State, p: nat, pid: int) {
    || (p < |s.procs| && s.procs[p].state == Sleeping && s.procs[p].ctx == SleepSw(InWait(pid)))
    || exists d :: 0 <= d < |s.cpus| && s.cpus[d].code == Thread(p, SleepSet(InWait(pid)))
  }

  // A zombie child that wait(pid) would return, while p sleeps in it.
  ghost predicate Missed(s: State, p: nat, pid: int, q: nat) {
    WaitsIn(s, p, pid) && q < |s.procs| && Matches(s.procs[q], p, pid)
  }

  lemma MissedIsInherited(s: State, p: nat, pid: int, q: nat)
    requires Inv(s) && Missed(s, p, pid, q)
    ensures p == 0 && s.procs[q].under != Some(p)
  {
    hide LockInv, IrqInv, TokInv, SweepInv, ConsInv, TreeCodeInv, PidsInv, LogInv;
    assert ProcTree(s.procs, s.nextPid, s.dead, q);
    if p < |s.procs| && s.procs[p].state == Sleeping && s.procs[p].ctx == SleepSw(InWait(pid)) {
      assert ScanProc(s.procs, p);
    } else {
      var d: nat :| d < |s.cpus| && s.cpus[d].code == Thread(p, SleepSet(InWait(pid)));
      assert ScanCode(s.procs, s.cpus[d].code);
    }
  }

  // Nobody sleeps in wait over a child that exited while being its child.  The
  // only sleeper with a matching zombie is init, over one that it inherited.
  lemma WaitMissesNoExit(r: seq<State>, i: nat, p: nat, pid: int, q: nat)
    requires IsRun(r) && i < |r| && Missed(r[i], p, pid, q)
    ensures p == 0 && r[i].procs[q].under != Some(p)
  {
    RunInv(r, i);
    MissedIsInherited(r[i], p, pid, q);
  }

  // CPU c, in exit, hands the zombie q of the exiting process to init.
  ghost predicate HandsOver(s: State, s': State, c: nat, q: nat, pid: int)
    requires c < |s.cpus|
  {
    && Reparent(s, s', c) && s.cpus[c].code.pc.i == q && s.cpus[c].code.me != 0
    && q < |s.procs| && s.procs[q].parent == Some(s.cpus[c].code.me) && s.procs[q].state == Zombie
    && (pid <= 0 || s.procs[q].pid == pid)
  }

  lemma AsleepBefore(s: State, s': State, c: nat, p: nat, pid: int)
    requires c < |s.cpus| && Effect(s, s', c) && p < |s.procs| && (s.cpus[c].code.Thread? ==> s.cpus[c].code.me < |s.procs|)
    requires s'.procs[p].state == Sleeping && s'.procs[p].ctx == SleepSw(InWait(pid))
    ensures WaitsIn(s, p, pid)
  {
    assert ProcEffect(s, s', c, p);
    if Switch(s, s', c) {
      assert s.cpus[c].code == Thread(p, SleepSet(InWait(pid))) || s'.procs[p] == s.procs[p];
    }
  }

  // A process found in wait's sleep was there before, or has just dropped wait_lock
  // after a scan that found nothing.
  lemma WaitsBefore(s: State, s': State, c: nat, p: nat, pid: int)
    requires c < |s.cpus| && Effect(s, s', c) && WaitsIn(s', p, pid) && ScanCode(s.procs, s.cpus[c].code)
    requires s.cpus[c].code.Thread? ==> s.cpus[c].code.me < |s.procs|
    ensures WaitsIn(s, p, pid) || (s.cpus[c].code == Thread(p, SleepHeld(InWait(pid))) && NoMatchBelow(s.procs, p, pid, |s.procs|))
  {
    if p < |s'.procs| && s'.procs[p].state == Sleeping && s'.procs[p].ctx == SleepSw(InWait(pid)) {
      AsleepBefore(s, s', c, p, pid);
    } else {
      var d: nat :| d < |s'.cpus| && s'.cpus[d].code == Thread(p, SleepSet(InWait(pid)));
    }
  }

  // A process found as a matching zombie was one before, or has just exited, or has
  // just been handed over.
  lemma MatchesBefore(s: State, s': State, c: nat, q: nat, pid: int)
    requires Inv(s) && c < |s.cpus| && CpuNext(s, s', c) && q < |s'.procs| && Matches(s'.procs[q], 0, pid)
    ensures q < |s.procs|
    ensures Matches(s.procs[q], 0, pid) || HandsOver(s, s', c, q, pid) || s'.procs[q].under == Some(0)
  {
    StepEffect(s, s', c);
    assert ProcEffect(s, s', c, q);
    if TreeStep(s, s', c) { MatchesTree(s, s', c, q, pid); }
  }

  lemma MatchesTree(s: State, s': State, c: nat, q: nat, pid: int)
    requires TreeInv(s.procs, s.nextPid, s.dead, s.reaped) && c < |s.cpus| && TreeStep(s, s', c)
    requires q < |s.procs| && q < |s'.procs| && Matches(s'.procs[q], 0, pid)
    ensures Matches(s.procs[q], 0, pid) || HandsOver(s, s', c, q, pid) || s'.procs[q].under == Some(0)
  {
    TreeStepFrame(s, s', c);
    if !Die(s, s', c) { OtherMatches(s, s', c, q, 0, pid); }
    assert Matches(s.procs[q], 0, pid) || Die(s, s', c) || Reparent(s, s', c);
  }

  lemma HandOverMisses(s: State, s': State, c: nat, pid: int, q: nat)
    requires Inv(s) && c < |s.cpus| && WaitsIn(s, 0, pid) && HandsOver(s, s', c, q, pid)
    ensures Missed(s', 0, pid, q)
  {
    hide TokInv, LockInv, SweepInv, ConsInv, ScanInv;
    assert TreeCode(s.procs, s.cpus[c]);
    if 0 < |s.procs| && s.procs[0].state == Sleeping && s.procs[0].ctx == SleepSw(InWait(pid)) {
      assert s'.procs[0].state == Sleeping && s'.procs[0].ctx == SleepSw(InWait(pid));
    } else {
      var d: nat :| d < |s.cpus| && s.cpus[d].code == Thread(0, SleepSet(InWait(pid)));
      assert s'.cpus[d].code == Thread(0, SleepSet(InWait(pid)));
    }
  }

  lemma MissedOnlyThen(s: State, s': State, c: nat, pid: int, q: nat)
    requires Inv(s) && c < |s.cpus| && CpuNext(s, s', c)
    requires !Missed(s, 0, pid, q) && Missed(s', 0, pid, q) && s'.procs[q].under != Some(0)
    ensures WaitsIn(s, 0, pid) && HandsOver(s, s', c, q, pid)
  {
    MatchesBefore(s, s', c, q, pid);
    StepEffect(s, s', c);
    assert ScanCode(s.procs, s.cpus[c].code) && IrqOk(s.procs, s.cpus[c]);
    WaitsBefore(s, s', c, 0, pid);
    if s.cpus[c].code == Thread(0, SleepHeld(InWait(pid))) { NotMatchedBelow(s, q, pid); }
  }

  lemma NotMatchedBelow(s: State, q: nat, pid: int)
    requires Inv(s) && q < |s.procs| && NoMatchBelow(s.procs, 0, pid, |s.procs|)
    ensures !Matches(s.procs[q], 0, pid)
  {
  }

  // Exactly when init comes to sleep over a matching zombie child: when the
  // reparent loop of an exit hands it one.  exit(2) wakes only its own parent.
  lemma MissedExactly(s: State, s': State, pid: int, q: nat)
    requires Inv(s) && Next(s, s') && !Missed(s, 0, pid, q)
    ensures Missed(s', 0, pid, q) <==>
      WaitsIn(s, 0, pid) && exists c: nat :: c < |s.cpus| && HandsOver(s, s', c, q, pid)
  {
    if Missed(s', 0, pid, q) {
      var c: nat :| c < |s.cpus| && CpuNext(s, s', c);
      assert s'.procs[q].under != Some(0) by {
        StepInv(s, s');
        MissedIsInherited(s', 0, pid, q);
      }
      MissedOnlyThen(s, s', c, pid, q);
    }
    if c: nat :| c < |s.cpus| && WaitsIn(s, 0, pid) && HandsOver(s, s', c, q, pid) {
      HandOverMisses(s, s', c, pid, q);
    }
  }
}
