/**
  The process tree, exit statuses, the result of fork and the interrupt state,
  for every state of every run.
*/
module KernelFamily {
  import opened KernelState
  import opened KernelSteps
  import opened KernelInv
  import opened KernelLocks
  import opened KernelQuiet
  import opened KernelSched
  import opened KernelSleep
  import opened KernelTree
  import opened KernelTheorems
  import opened KernelSafety

  // ---------- the tree

  // Every slot of the path is a child of the next one.
  ghost predicate Lineage(procs: seq<Proc>, path: seq<nat>) {
    && |path| > 0 && (forall j :: 0 <= j < |path| ==> path[j] < |procs|)
    && (forall j :: 0 <= j < |path| - 1 ==> procs[path[j]].parent == Some(path[j + 1]))
  }

  lemma {:induction false} LineageFalls(s: State, path: seq<nat>)
    requires Inv(s) && Lineage(s.procs, path)
    ensures s.procs[path[|path| - 1]].pid + |path| - 1 <= s.procs[path[0]].pid
  {
    if |path| > 1 {
      var rest := path[1..];
      assert forall j :: 0 <= j < |rest| ==> rest[j] == path[j + 1];
      assert s.procs[path[0]].parent == Some(path[0 + 1]);
      assert ProcTree(s.procs, s.nextPid, s.dead, path[0]);
      LineageFalls(s, rest);
    }
  }

  lemma {:induction false} LineageToInit(s: State, p: nat)
    requires Inv(s) && p < |s.procs| && s.procs[p].state != Unused && s.procs[p].state != Used
    ensures exists path :: Lineage(s.procs, path) && path[0] == p && path[|path| - 1] == 0
    decreases s.procs[p].pid
  {
    assert ProcTree(s.procs, s.nextPid, s.dead, p);
    if p == 0 {
      assert Lineage(s.procs, [p]);
    } else {
      var q := s.procs[p].parent.value;
      assert ProcTree(s.procs, s.nextPid, s.dead, q);
      LineageToInit(s, q);
      var rest :| Lineage(s.procs, rest) && rest[0] == q && rest[|rest| - 1] == 0;
      var path := [p] + rest;
      assert Lineage(s.procs, path);
    }
  }

  // Parents are live and not zombies (init excepted), pids of live processes are
  // distinct, no process is its own ancestor, and every process descends from init.
  lemma TreeHolds(r: seq<State>, i: nat, p: nat)
    requires IsRun(r) && i < |r| && p < |r[i].procs| && r[i].procs[p].state != Unused
    ensures var procs := r[i].procs;
      && ParentOk(procs, p)
      && (forall q :: 0 <= q < |procs| && q != p && procs[q].state != Unused ==> procs[q].pid != procs[p].pid)
      && (forall path :: Lineage(procs, path) && |path| > 1 && path[0] == p ==> path[|path| - 1] != p)
      && (procs[p].state != Used ==> exists path :: Lineage(procs, path) && path[0] == p && path[|path| - 1] == 0)
  {
    RunInv(r, i);
    var s := r[i];
    assert ProcTree(s.procs, s.nextPid, s.dead, p);
    forall path | Lineage(s.procs, path) && |path| > 1 && path[0] == p ensures path[|path| - 1] != p {
      LineageFalls(s, path);
    }
    if s.procs[p].state != Used { LineageToInit(s, p); }
  }

  // fork returns the pid it allocated, of a slot that is still its own child,
  // although it has dropped both locks.
  lemma ForkReturnsChild(r: seq<State>, i: nat, c: nat)
    requires IsRun(r) && i < |r| && c < |r[i].cpus| && r[i].cpus[c].code.Thread? && r[i].cpus[c].code.pc.ForkRet?
    ensures var pc := r[i].cpus[c].code.pc;
      && pc.np < |r[i].procs| && r[i].procs[pc.np].pid == pc.k
      && r[i].procs[pc.np].parent == Some(r[i].cpus[c].code.me) && r[i].procs[pc.np].state != Unused
  {
    RunInv(r, i);
    assert TreeCode(r[i].procs, r[i].cpus[c]);
  }

  // ---------- exit statuses

  lemma DeadTree(s: State, s': State, c: nat, pid: int)
    requires c < |s.cpus| && TreeStep(s, s', c) && pid in s.dead
    requires TokCpu(s.procs, c, s.cpus[c]) && TreeInv(s.procs, s.nextPid, s.dead, s.reaped)
    ensures pid in s'.dead && s'.dead[pid] == s.dead[pid]
  {
    assert s.cpus[c].code.Thread?;
    assert ProcTree(s.procs, s.nextPid, s.dead, s.cpus[c].code.me);
  }

  lemma DeadNext(s: State, s': State, pid: int)
    requires Inv(s) && Next(s, s') && pid in s.dead
    ensures pid in s'.dead && s'.dead[pid] == s.dead[pid]
  {
    var c: nat :| c < |s.cpus| && CpuNext(s, s', c);
    StepEffect(s, s', c);
    assert TokCpu(s.procs, c, s.cpus[c]);
    if TreeStep(s, s', c) { DeadTree(s, s', c, pid); }
  }

  lemma DeadAt(r: seq<State>, i: nat, pid: int)
    requires IsRun(r) && i + 1 < |r| && pid in r[i].dead
    ensures pid in r[i + 1].dead && r[i + 1].dead[pid] == r[i].dead[pid]
  {
    hide Inv, IsRun, Init, Next;
    RunInv(r, i);
    RunNext(r, i);
    DeadNext(r[i], r[i + 1], pid);
  }

  // The code a process passed to exit is recorded once.
  lemma {:induction false} ExitCodeStays(r: seq<State>, i: nat, j: nat, pid: int)
    requires IsRun(r) && i <= j < |r| && pid in r[i].dead
    ensures pid in r[j].dead && r[j].dead[pid] == r[i].dead[pid]
    decreases j - i
  {
    hide Init, IsRun, Next;
    if i < j {
      DeadAt(r, i, pid);
      ExitCodeStays(r, i + 1, j, pid);
    }
  }

  // Every wait that returned a pid returned the code of that process's exit, and no
  // two waits returned the same process.
  lemma DeliveredOnce(r: seq<State>, i: nat)
    requires IsRun(r) && i < |r|
    ensures forall j :: 0 <= j < |r[i].reaped| ==>
      r[i].reaped[j].0 in r[i].dead && r[i].dead[r[i].reaped[j].0] == r[i].reaped[j].1
    ensures forall j, k :: 0 <= j < k < |r[i].reaped| ==> r[i].reaped[j].0 != r[i].reaped[k].0
  {
    RunInv(r, i);
  }

  // ---------- interrupt state

  ghost function HeldBy(owner: map<Lock, nat>, c: nat): set<Lock> { set x | x in owner && owner[x] == c }

  ghost predicate Counted(s: State) {
    forall c :: 0 <= c < |s.cpus| ==> s.cpus[c].irq.noff == |HeldBy(s.owner, c)| + Probing(s.cpus[c])
  }

  lemma HeldTaken(owner: map<Lock, nat>, c: nat, w: Lock, d: nat)
    requires w !in owner
    ensures |HeldBy(owner[w := c], d)| == |HeldBy(owner, d)| + (if d == c then 1 else 0)
  {
    assert HeldBy(owner[w := c], d) == if d == c then HeldBy(owner, d) + {w} else HeldBy(owner, d);
  }

  lemma HeldDropped(owner: map<Lock, nat>, c: nat, w: Lock, d: nat)
    requires w in owner && owner[w] == c
    ensures |HeldBy(owner - {w}, d)| == |HeldBy(owner, d)| - (if d == c then 1 else 0)
  {
    var owner' := owner - {w};
    assert HeldBy(owner, d) == if d == c then HeldBy(owner', d) + {w} else HeldBy(owner', d);
  }

  lemma TakenProbing(k: Cpu, n: nat)
    requires Wants(k, n).Some?
    ensures Probing(Taken(k)) == Probing(k)
  {
  }

  lemma CountedTake(s: State, s': State, c: nat)
    requires c < |s.cpus| && Acquire(s, s', c) && Counted(s)
    ensures Counted(s')
  {
    TakenProbing(s.cpus[c], |s.procs|);
    var owner' := s'.owner;
    forall d | 0 <= d < |s.cpus| ensures |HeldBy(owner', d)| == |HeldBy(s.owner, d)| + (if d == c then 1 else 0) {
      HeldTaken(s.owner, c, Wants(s.cpus[c], |s.procs|).value, d);
    }
  }

  lemma CountedDrop(s: State, s': State, c: nat)
    requires c < |s.cpus| && Release(s, s', c) && Counted(s) && HoldsLock(s, c, Drops(s.cpus[c]).value)
    ensures Counted(s')
  {
    var owner' := s'.owner;
    forall d | 0 <= d < |s.cpus| ensures |HeldBy(owner', d)| == |HeldBy(s.owner, d)| - (if d == c then 1 else 0) {
      HeldDropped(s.owner, c, Drops(s.cpus[c]).value, d);
    }
  }

  lemma CountedElse(s: State, s': State, c: nat)
    requires c < |s.cpus| && Effect(s, s', c) && !Acquire(s, s', c) && !Release(s, s', c) && Counted(s)
    ensures Counted(s')
  {
  }

  lemma CountedStep(s: State, s': State)
    requires Inv(s) && Next(s, s') && Counted(s)
    ensures Counted(s')
  {
    var c: nat :| c < |s.cpus| && CpuNext(s, s', c);
    if Acquire(s, s', c) {
      CountedTake(s, s', c);
    } else if Release(s, s', c) {
      LocksGood(s, c);
      CountedDrop(s, s', c);
    } else {
      StepEffect(s, s', c);
      CountedElse(s, s', c);
    }
  }

  lemma {:induction false} RunCounted(r: seq<State>, i: nat)
    requires IsRun(r) && i < |r|
    ensures Counted(r[i])
  {
    hide IsRun, Next, Inv;
    RunStarts(r);
    if i == 0 {
      StartCounted(r[0]);
    } else {
      RunCounted(r, i - 1);
      RunInv(r, i - 1);
      RunNext(r, i - 1);
      CountedStep(r[i - 1], r[i]);
    }
  }

  lemma StartCounted(s: State)
    requires Init(s)
    ensures Counted(s)
  {
    assert forall c: nat :: HeldBy(s.owner, c) == {};
  }

  // User mode, and the code of usertrap and usertrapret outside every lock.
  predicate Outside(pc: Pc) { pc in {User, Trapped, Syscall, Served, Ret} }

  // noff is the number of locks the CPU holds, plus one inside all_dead; interrupts
  // are off while any lock is held or a trap is served; and a thread outside every
  // lock has interrupts exactly as it set them itself.
  lemma InterruptsBracketed(r: seq<State>, i: nat, c: nat)
    requires IsRun(r) && i < |r| && c < |r[i].cpus|
    ensures var s := r[i]; var k := s.cpus[c];
      && k.irq.noff == |HeldBy(s.owner, c)| + Probing(k)
      && (k.irq.on ==> HeldBy(s.owner, c) == {} && k.trap.NoTrap?)
      && (k.trap.NoTrap? && k.code.Thread? && Outside(k.code.pc) ==>
          k.code.me < |s.procs| && k.irq.on == s.procs[k.code.me].base && (k.irq.on <==> k.code.pc.User? || k.code.pc.Syscall?))
  {
    RunCounted(r, i);
    RunInv(r, i);
    assert IrqOk(r[i].procs, r[i].cpus[c]);
  }

  // Thread p executes intr_on or intr_off between states m and m + 1.
  ghost predicate Toggles(s: State, s': State, p: nat) {
    exists c: nat :: c < |s.cpus| && s.cpus[c].code.Thread? && s.cpus[c].code.me == p && IrqSet(s, s', c)
  }

  lemma BaseAt(r: seq<State>, i: nat, p: nat)
    requires IsRun(r) && i + 1 < |r| && p < |r[i].procs| && !Toggles(r[i], r[i + 1], p)
    ensures p < |r[i + 1].procs| && r[i + 1].procs[p].base == r[i].procs[p].base
  {
    hide Inv, IsRun, Init, Next, Toggles;
    RunInv(r, i);
    RunNext(r, i);
    BaseNext(r[i], r[i + 1], p);
  }

  // Only the thread itself, outside every lock, changes the state to come back to.
  lemma BaseNext(s: State, s': State, p: nat)
    requires Inv(s) && Next(s, s') && p < |s.procs| && !Toggles(s, s', p)
    ensures p < |s'.procs| && s'.procs[p].base == s.procs[p].base
  {
    var c: nat :| c < |s.cpus| && CpuNext(s, s', c);
    StepEffect(s, s', c);
    assert ProcEffect(s, s', c, p);
    assert IrqSet(s, s', c) ==> s.cpus[c].code.Thread?;
  }

  lemma {:induction false} BaseStays(r: seq<State>, i: nat, j: nat, p: nat)
    requires IsRun(r) && i <= j < |r| && p < |r[i].procs|
    requires forall m :: i <= m < j ==> !Toggles(r[m], r[m + 1], p)
    ensures p < |r[j].procs| && r[j].procs[p].base == r[i].procs[p].base
    decreases j - i
  {
    hide Init, IsRun, Next, Toggles;
    if i < j {
      BaseAt(r, i, p);
      BaseStays(r, i + 1, j, p);
    }
  }

  // Whatever locks a thread took and gave back, whatever traps it served and
  // wherever it was rescheduled in between: interrupts are as they were.
  lemma InterruptsRestored(r: seq<State>, i: nat, j: nat, c: nat, d: nat, p: nat)
    requires IsRun(r) && i <= j < |r| && c < |r[i].cpus| && d < |r[j].cpus|
    requires r[i].cpus[c].code.Thread? && r[i].cpus[c].code.me == p && Outside(r[i].cpus[c].code.pc) && r[i].cpus[c].trap.NoTrap?
    requires r[j].cpus[d].code.Thread? && r[j].cpus[d].code.me == p && Outside(r[j].cpus[d].code.pc) && r[j].cpus[d].trap.NoTrap?
    requires forall m :: i <= m < j ==> !Toggles(r[m], r[m + 1], p)
    ensures r[j].cpus[d].irq.on == r[i].cpus[c].irq.on
  {
    InterruptsBracketed(r, i, c);
    InterruptsBracketed(r, j, d);
    BaseStays(r, i, j, p);
  }
}
