/**
  What passes through the run queue (os/queue.c, os/sched.c:17-29), what the console
  interrupt hands to readers (os/console.c:110-115, 164-187), and the state exec leaves
  (os/proc.c:202-219), for every run.
*/
module KernelFlow {
  import opened KernelState
  import opened KernelSteps
  import opened KernelInv
  import opened KernelQuiet
  import opened KernelSched
  import opened KernelTree
  import opened KernelTheorems

  // ---------- the run queue

  // The head left, or something came to the end, or nothing happened.
  ghost predicate QueueMoved(q: seq<nat>, q': seq<nat>) {
    || q' == q
    || (q != [] && q' == q[1..])
    || (|q'| == |q| + 1 && q' == q + [q'[|q|]])
  }

  // A reader takes a committed byte.
  predicate Takes(s: State, s': State, d: nat) {
    && d < |s.cpus| && d < |s'.cpus| && s.cpus[d].code.Thread? && s.cpus[d].code.pc == ReadHeld && s.data
    && s'.cpus[d].code.Thread? && s'.cpus[d].code.pc in {CopyAcq(InReading), ReadEnd}
  }

  // An interrupt has stored a byte that completes a line.
  predicate Completes(s: State, s': State, c: nat) {
    c < |s.cpus| && c < |s'.cpus| && s.cpus[c].trap.TrapHeld? && s'.cpus[c].trap.TrapWake?
  }

  ghost predicate Flows(s: State, s': State, c: nat) {
    && |s'.cpus| == |s.cpus| && (forall d :: 0 <= d < |s.cpus| && d != c ==> s'.cpus[d] == s.cpus[d])
    && QueueMoved(s.queue, s'.queue)
    && (Completes(s, s', c) ==> s'.data)
    && (s.data && !s'.data ==> Takes(s, s', c))
    && (!s.data && s'.data ==> Completes(s, s', c))
  }

  lemma TreeFlow(s: State, s': State, c: nat)
    requires c < |s.cpus| && TreeStep(s, s', c)
    ensures Flows(s, s', c)
  {
    TreeStepFrame(s, s', c);
  }

  lemma LockFlow(s: State, s': State, c: nat)
    requires c < |s.cpus| && (Acquire(s, s', c) || Release(s, s', c) || Goto(s, s', c))
    ensures Flows(s, s', c)
  {
    hide PcTaken, PcDropped, PcGoto, PcWants, PcDrops;
  }

  lemma CpuFlow(s: State, s': State, c: nat)
    requires c < |s.cpus| && (CpuStep(s, s', c) || Commit(s, s', c) || Full(s, s', c) || Exhausted(s, s', c) || Fails(s, s', c))
    ensures Flows(s, s', c)
  {
    hide Bad;
  }

  lemma TokenFlow(s: State, s': State, c: nat)
    requires c < |s.cpus| && (TokenStep(s, s', c) || WakeOne(s, s', c))
    ensures Flows(s, s', c)
  {
  }

  lemma OwnFlow(s: State, s': State, c: nat)
    requires c < |s.cpus| && (OwnStep(s, s', c) || Switch(s, s', c))
    ensures Flows(s, s', c)
  {
  }

  lemma StepFlow(s: State, s': State, c: nat)
    requires c < |s.cpus| && CpuNext(s, s', c)
    ensures Flows(s, s', c)
  {
    hide Acquire, Release, Goto, TrapEnter, TrapExit, IrqSet, Commit, Consume, ProbeIn, ProbeLeave, WfiEnd, Flows;
    hide Pop, Dispatch, Switch, Return, AddTask, Restore, ExecMark, ForkTake, ForkLink, Reap, WakeOne, Reparent, Die, Full, Exhausted, Fails;
    if Acquire(s, s', c) || Release(s, s', c) || Goto(s, s', c) { LockFlow(s, s', c); }
    else if TokenStep(s, s', c) || WakeOne(s, s', c) { TokenFlow(s, s', c); }
    else if OwnStep(s, s', c) || Switch(s, s', c) { OwnFlow(s, s', c); }
    else if TreeStep(s, s', c) { TreeFlow(s, s', c); }
    else { CpuFlow(s, s', c); }
  }

  ghost predicate SomeTakes(s: State, s': State) { exists d: nat :: Takes(s, s', d) }

  ghost predicate SomeCompletes(s: State, s': State) { exists c: nat :: Completes(s, s', c) }

  lemma NextFlow(s: State, s': State)
    requires Next(s, s')
    ensures QueueMoved(s.queue, s'.queue)
    ensures SomeCompletes(s, s') ==> s'.data
    ensures s.data && !s'.data ==> SomeTakes(s, s')
    ensures !s.data && s'.data ==> SomeCompletes(s, s')
  {
    hide CpuNext, QueueMoved;
    var c: nat :| c < |s.cpus| && CpuNext(s, s', c);
    StepFlow(s, s', c);
    if d: nat :| Completes(s, s', d) { assert d == c; }
  }

  // First come, first served: as long as a process stays in the run queue, in front of it
  // are only processes that were in front of it before, in the same order.
  lemma {:induction false} NotOvertaken(r: seq<State>, i: nat, j: nat, a: nat)
    requires IsRun(r) && i <= j < |r| && a < |r[i].queue|
    requires forall m :: i <= m <= j ==> r[i].queue[a] in r[m].queue
    ensures exists k: nat :: Ahead(r[i].queue, r[j].queue, a, k)
    decreases j - i
  {
    hide IsRun, Inv, Init, Next, QueueMoved;
    if i == j {
      assert Ahead(r[i].queue, r[i].queue, a, 0);
    } else {
      RunInv(r, i);
      RunNext(r, i);
      NextFlow(r[i], r[i + 1]);
      assert r[i].queue[a] in r[i + 1].queue;
      var b := MovedUp(r[i], r[i + 1].queue, a);
      NotOvertaken(r, i + 1, j, b);
      var k: nat :| Ahead(r[i + 1].queue, r[j].queue, b, k);
      FurtherUp(r[i].queue, r[i + 1].queue, r[j].queue, a, b, k);
    }
  }

  // The first k of the a in front of an entry have left, and the rest are in front still.
  ghost predicate Ahead(q: seq<nat>, q': seq<nat>, a: nat, k: nat) {
    k <= a < |q| && a - k < |q'| && q'[..a - k + 1] == q[k..a + 1]
  }

  lemma MovedUp(s: State, q': seq<nat>, a: nat) returns (b: nat)
    requires Inv(s) && QueueMoved(s.queue, q') && a < |s.queue| && s.queue[a] in q'
    ensures b <= a && b < |q'| && q'[b] == s.queue[a] && Ahead(s.queue, q', a, a - b)
  {
    hide LockInv, IrqInv, TreeInv, TreeCodeInv, SweepInv, ConsInv, ScanInv, TokProc, TokCpu;
    var q := s.queue;
    if q != [] && q' == q[1..] {
      assert a > 0;
      b := a - 1;
      assert q'[..b + 1] == q[1..a + 1];
    } else {
      b := a;
      assert q'[..a + 1] == q[0..a + 1];
    }
  }

  lemma FurtherUp(q: seq<nat>, q1: seq<nat>, q2: seq<nat>, a: nat, b: nat, k: nat)
    requires b <= a && Ahead(q, q1, a, a - b) && Ahead(q1, q2, b, k)
    ensures Ahead(q, q2, a, a - b + k)
  {
    assert q1[k..b + 1] == q1[..b + 1][k..] == q[a - b..a + 1][k..] == q[a - b + k..a + 1];
  }

  // ---------- committed input

  // A line that has been completed is there until a reader takes a byte.
  lemma {:induction false} InputKept(r: seq<State>, i: nat, j: nat)
    requires IsRun(r) && i < j < |r| && SomeCompletes(r[i], r[i + 1])
    ensures r[j].data || exists m: nat :: i < m < j && SomeTakes(r[m], r[m + 1])
    decreases j
  {
    hide IsRun, Init, Next, SomeTakes, SomeCompletes;
    RunNext(r, j - 1);
    NextFlow(r[j - 1], r[j]);
    if j > i + 1 {
      InputKept(r, i, j - 1);
      if r[j - 1].data && !r[j].data { assert i < j - 1 < j && SomeTakes(r[j - 1], r[j - 1 + 1]); }
    }
  }

  // And nothing is there for a reader but what the interrupt completed.
  lemma {:induction false} InputTyped(r: seq<State>, j: nat)
    requires IsRun(r) && j < |r| && r[j].data
    ensures exists m: nat :: m < j && SomeCompletes(r[m], r[m + 1])
  {
    hide IsRun, Next, SomeTakes, SomeCompletes;
    if j == 0 {
      RunStarts(r);
    } else {
      hide Init;
      RunNext(r, j - 1);
      NextFlow(r[j - 1], r[j]);
      if r[j - 1].data {
        InputTyped(r, j - 1);
        var m: nat :| m < j - 1 && SomeCompletes(r[m], r[m + 1]);
        assert m < j && SomeCompletes(r[m], r[m + 1]);
      } else {
        assert SomeCompletes(r[j - 1], r[j - 1 + 1]);
      }
    }
  }

  // ---------- exec

  // A process that has loaded a new program runs, and is RUNNABLE while it does.
  lemma ExecLeavesRunnable(r: seq<State>, i: nat, c: nat)
    requires IsRun(r) && i < |r| && c < |r[i].cpus| && r[i].cpus[c].code.Thread? && r[i].cpus[c].code.pc.ExecEnd?
    ensures var me := r[i].cpus[c].code.me;
      me < |r[i].procs| && r[i].procs[me].state == Runnable && r[i].procs[me].at == OnCpu(c) && me !in r[i].queue
  {
    hide IsRun, LockInv, IrqInv, TreeInv, TreeCodeInv, SweepInv, ConsInv, ScanInv, TokProc;
    RunInv(r, i);
    assert TokCpu(r[i].procs, c, r[i].cpus[c]);
  }
}
