/**
  Paths of the protocol built from whole operations: a new process reaches its
  first system call, a fork, a wait that falls asleep, an exit.
*/
module KernelPaths {
  import opened KernelState
  import opened KernelSteps

  // ---------- paths

  ghost predicate IsPath(r: seq<State>) {
    |r| > 0 && forall i :: 0 <= i < |r| - 1 ==> Next(r[i], r[i + 1])
  }

  ghost predicate Leads(s: State, t: State) {
    exists r :: IsPath(r) && r[0] == s && r[|r| - 1] == t
  }

  lemma Step(s: State, t: State, c: nat)
    requires c < |s.cpus| && s.panic.NoPanic? && CpuNext(s, t, c)
    ensures Leads(s, t)
  {
    hide CpuNext;
    assert IsPath([s, t]);
  }

  lemma Then(s: State, t: State, u: State)
    requires Leads(s, t) && Leads(t, u)
    ensures Leads(s, u)
  {
    hide Next;
    var q :| IsPath(q) && q[0] == s && q[|q| - 1] == t;
    var r :| IsPath(r) && r[0] == t && r[|r| - 1] == u;
    var p := q + r[1..];
    forall i | 0 <= i < |p| - 1 ensures Next(p[i], p[i + 1]) {
      if i < |q| - 1 {
        assert Next(q[i], q[i + 1]);
      } else {
        assert Next(r[i - |q| + 1], r[i - |q| + 1 + 1]);
      }
    }
    assert IsPath(p);
  }

  lemma ByPop(s: State, t: State, c: nat)
    requires c < |s.cpus| && s.panic.NoPanic? && Pop(s, t, c)
    ensures Leads(s, t)
  {
    hide Pop;
    Step(s, t, c);
  }

  lemma ByDispatch(s: State, t: State, c: nat)
    requires c < |s.cpus| && s.panic.NoPanic? && Dispatch(s, t, c)
    ensures Leads(s, t)
  {
    hide Dispatch;
    Step(s, t, c);
  }

  lemma BySwitch(s: State, t: State, c: nat)
    requires c < |s.cpus| && s.panic.NoPanic? && Switch(s, t, c)
    ensures Leads(s, t)
  {
    hide Switch;
    Step(s, t, c);
  }

  lemma ByReturn(s: State, t: State, c: nat)
    requires c < |s.cpus| && s.panic.NoPanic? && Return(s, t, c)
    ensures Leads(s, t)
  {
    hide Return;
    Step(s, t, c);
  }

  lemma ByAddTask(s: State, t: State, c: nat)
    requires c < |s.cpus| && s.panic.NoPanic? && AddTask(s, t, c)
    ensures Leads(s, t)
  {
    hide AddTask;
    Step(s, t, c);
  }

  lemma ByForkTake(s: State, t: State, c: nat)
    requires c < |s.cpus| && s.panic.NoPanic? && ForkTake(s, t, c)
    ensures Leads(s, t)
  {
    hide ForkTake;
    Step(s, t, c);
  }

  lemma ByForkLink(s: State, t: State, c: nat)
    requires c < |s.cpus| && s.panic.NoPanic? && ForkLink(s, t, c)
    ensures Leads(s, t)
  {
    hide ForkLink;
    Step(s, t, c);
  }

  lemma ByReparent(s: State, t: State, c: nat)
    requires c < |s.cpus| && s.panic.NoPanic? && Reparent(s, t, c)
    ensures Leads(s, t)
  {
    hide Reparent;
    Step(s, t, c);
  }

  lemma ByDie(s: State, t: State, c: nat)
    requires c < |s.cpus| && s.panic.NoPanic? && Die(s, t, c)
    ensures Leads(s, t)
  {
    hide Die;
    Step(s, t, c);
  }

  // ---------- single steps, as functions of the state

  ghost predicate Able(s: State, c: nat) {
    c < |s.cpus| && s.panic.NoPanic? && s.cpus[c].trap.NoTrap?
  }

  ghost predicate Runs(s: State, c: nat, pc: Pc) {
    Able(s, c) && s.cpus[c].code.Thread? && s.cpus[c].code.me < |s.procs| && s.cpus[c].code.pc == pc
  }

  function Went(s: State, c: nat, pc: Pc): State
    requires c < |s.cpus| && s.cpus[c].code.Thread?
  {
    s.(cpus := s.cpus[c := s.cpus[c].(code := Thread(s.cpus[c].code.me, pc))])
  }

  lemma Go(s: State, c: nat, pc: Pc, pc': Pc)
    requires Runs(s, c, pc) && PcGoto(s.procs, s.data, s.cpus[c].code.me, pc, pc')
    ensures Leads(s, Went(s, c, pc'))
  {
    assert Goto(s, Went(s, c, pc'), c);
    Step(s, Went(s, c, pc'), c);
  }

  function Took(s: State, c: nat): State
    requires c < |s.cpus| && Wants(s.cpus[c], |s.procs|).Some?
  {
    s.(cpus := s.cpus[c := Taken(s.cpus[c]).(irq := PushOff(s.cpus[c].irq))],
       owner := s.owner[Wants(s.cpus[c], |s.procs|).value := c])
  }

  lemma Take(s: State, c: nat)
    requires Able(s, c) && Wants(s.cpus[c], |s.procs|).Some? && Wants(s.cpus[c], |s.procs|).value !in s.owner
    ensures Leads(s, Took(s, c))
  {
    assert Acquire(s, Took(s, c), c);
    Step(s, Took(s, c), c);
  }

  function Gave(s: State, c: nat): State
    requires c < |s.cpus| && Drops(s.cpus[c]).Some?
  {
    s.(cpus := s.cpus[c := Dropped(s.cpus[c], s.procs).(irq := PopOff(s.cpus[c].irq))],
       owner := s.owner - {Drops(s.cpus[c]).value})
  }

  lemma Give(s: State, c: nat)
    requires Able(s, c) && Drops(s.cpus[c]).Some?
    ensures Leads(s, Gave(s, c))
  {
    assert Release(s, Gave(s, c), c);
    Step(s, Gave(s, c), c);
  }

  function Flipped(s: State, c: nat): State
    requires c < |s.cpus| && s.cpus[c].code.Thread? && s.cpus[c].code.me < |s.procs|
  {
    var k := s.cpus[c];
    var on := TurnsOn(k.code.pc);
    s.(cpus := s.cpus[c := k.(code := Thread(k.code.me, Turned(k.code.pc)), irq := k.irq.(on := on))],
       procs := s.procs[k.code.me := s.procs[k.code.me].(base := on)])
  }

  lemma Flip(s: State, c: nat, pc: Pc)
    requires Runs(s, c, pc) && Turns(pc)
    ensures Leads(s, Flipped(s, c))
  {
    assert IrqSet(s, Flipped(s, c), c);
    Step(s, Flipped(s, c), c);
  }

  // ---------- the processes and CPUs of the run

  function Idle(): Cpu { Cpu(None, Sched(Fetch), NoTrap, Irq(false, 0, false)) }

  function Blank(): Proc { Proc(Unused, 0, 0, NoChan, None, FirstRet, false, Nowhere, None, false) }

  function Live(pid: int, parent: Option<nat>, c: nat): Proc {
    Proc(Running, pid, 0, NoChan, parent, FirstRet, false, OnCpu(c), None, true)
  }

  function Queued(pid: int, parent: Option<nat>): Proc {
    Proc(Runnable, pid, 0, NoChan, parent, FirstRet, false, InQueue, None, false)
  }

  // Thread `me` outside every lock in a system call, and at pc with `depth` locks.
  function In(me: nat, pc: Pc, depth: nat): Cpu {
    Cpu(Some(me), Thread(me, pc), NoTrap, Irq(depth == 0, depth, true))
  }

  // ---------- a new process reaches its first system call

  function Started(s: State, c: nat, p: nat): State
    requires c < |s.cpus| && p < |s.procs| && s.queue != []
  {
    s.(cpus := s.cpus[c := Cpu(Some(p), Thread(p, Syscall), NoTrap, Irq(true, 0, false))], queue := s.queue[1..],
       procs := s.procs[p := s.procs[p].(state := Running, at := OnCpu(c), base := true)])
  }

  function Dispatched(s: State, c: nat, p: nat): State
    requires c < |s.cpus| && p < |s.procs| && s.queue != []
  {
    s.(cpus := s.cpus[c := Cpu(Some(p), Thread(p, FirstOff), NoTrap, Irq(false, 0, false))], queue := s.queue[1..],
       procs := s.procs[p := s.procs[p].(state := Running, at := OnCpu(c))])
  }

  function Popping(s: State, c: nat, p: nat): State
    requires c < |s.cpus| && p < |s.procs| && s.queue != []
  {
    s.(cpus := s.cpus[c := Idle().(code := Sched(Got(p)), irq := Irq(false, 1, false))], queue := s.queue[1..],
       owner := s.owner[ProcLock(p) := c], procs := s.procs[p := s.procs[p].(at := OnCpu(c))])
  }

  ghost predicate CanStart(s: State, c: nat, p: nat) {
    && Able(s, c) && s.cpus[c] == Idle() && p < |s.procs| && s.queue != [] && s.queue[0] == p
    && s.procs[p].state == Runnable && s.procs[p].ctx.FirstRet? && ProcLock(p) !in s.owner
  }

  lemma PopRun(s: State, c: nat, p: nat)
    requires CanStart(s, c, p)
    ensures Leads(s, Popping(s, c, p))
  {
    hide Leads;
    var a := s.(cpus := s.cpus[c := Idle().(code := Sched(Popped(p)))], queue := s.queue[1..],
                procs := s.procs[p := s.procs[p].(at := OnCpu(c))]);
    ByPop(s, a, c);
    Take(a, c);
    Then(s, a, Took(a, c));
    assert Took(a, c) == Popping(s, c, p);
  }

  lemma DispatchRun(s: State, c: nat, p: nat)
    requires CanStart(s, c, p)
    ensures Leads(s, Dispatched(s, c, p))
  {
    hide Leads;
    PopRun(s, c, p);
    var b := Popping(s, c, p);
    var d := b.(cpus := b.cpus[c := b.cpus[c].(proc := Some(p), code := Thread(p, FirstRet))],
                procs := b.procs[p := b.procs[p].(state := Running)]);
    ByDispatch(b, d, c);
    Give(d, c);
    var e := Gave(d, c);
    Then(s, b, d);
    Then(s, d, e);
    assert e.owner == s.owner;
    assert e == Dispatched(s, c, p);
  }

  lemma Start(s: State, c: nat, p: nat)
    requires CanStart(s, c, p)
    ensures Leads(s, Started(s, c, p))
  {
    hide Leads;
    DispatchRun(s, c, p);
    var a := Dispatched(s, c, p);
    Flip(a, c, FirstOff);
    var b := Flipped(a, c);
    Flip(b, c, Ret);
    var d := Flipped(b, c);
    Flip(d, c, User);
    var e := Flipped(d, c);
    Flip(e, c, Trapped);
    Then(s, a, b);
    Then(s, b, d);
    Then(s, d, e);
    Then(s, e, Flipped(e, c));
    assert Flipped(e, c) == Started(s, c, p);
  }

  // ---------- fork

  function Set(s: State, c: nat, k: Cpu): State
    requires c < |s.cpus|
  {
    s.(cpus := s.cpus[c := k])
  }

  // A lock taken, one look under it, and the lock dropped again.
  ghost predicate Visits(s: State, c: nat, pc: Pc, pc': Pc, i: nat) {
    && Runs(s, c, pc) && ProcLock(i) !in s.owner
    && PcWants(s.cpus[c].code.me, pc, |s.procs|) == Some(ProcLock(i))
    && PcGoto(s.procs, s.data, s.cpus[c].code.me, PcTaken(pc), pc')
    && PcDrops(s.cpus[c].code.me, pc') == Some(ProcLock(i))
  }

  function Bounced(q: Irq): Irq { PopOff(PushOff(q)) }

  function Visited(s: State, c: nat, pc': Pc): State
    requires c < |s.cpus| && s.cpus[c].code.Thread?
  {
    Set(s, c, s.cpus[c].(code := Thread(s.cpus[c].code.me, PcDropped(pc')), irq := Bounced(s.cpus[c].irq)))
  }

  lemma VisitTake(s: State, c: nat, pc: Pc, pc': Pc, i: nat)
    requires Visits(s, c, pc, pc', i)
    ensures Wants(s.cpus[c], |s.procs|) == Some(ProcLock(i)) && Leads(s, Took(s, c))
    ensures Took(s, c) == Set(s, c, s.cpus[c].(code := Thread(s.cpus[c].code.me, PcTaken(pc)), irq := PushOff(s.cpus[c].irq)))
                            .(owner := s.owner[ProcLock(i) := c])
  {
    hide Leads, PcGoto, PcTaken, PcWants, PcDrops, PcDropped;
    Take(s, c);
  }

  // Inside the visit: the lock taken and the look done.
  function Visiting(s: State, c: nat, pc': Pc, i: nat): State
    requires c < |s.cpus| && s.cpus[c].code.Thread?
  {
    Set(s, c, s.cpus[c].(code := Thread(s.cpus[c].code.me, pc'), irq := PushOff(s.cpus[c].irq))).(owner := s.owner[ProcLock(i) := c])
  }

  lemma VisitLook(s: State, c: nat, pc: Pc, pc': Pc, i: nat)
    requires Visits(s, c, pc, pc', i)
    ensures Leads(s, Visiting(s, c, pc', i))
  {
    hide Leads, PcGoto, PcTaken, PcWants, PcDrops, PcDropped, Wants, PushOff;
    VisitTake(s, c, pc, pc', i);
    var a := Took(s, c);
    Go(a, c, PcTaken(pc), pc');
    Then(s, a, Went(a, c, pc'));
    assert Went(a, c, pc') == Visiting(s, c, pc', i);
  }

  lemma VisitGive(s: State, c: nat, pc': Pc, i: nat)
    requires Able(s, c) && s.cpus[c].code.Thread? && s.cpus[c].code.me < |s.procs| && ProcLock(i) !in s.owner
    requires PcDrops(s.cpus[c].code.me, pc') == Some(ProcLock(i))
    ensures Leads(Visiting(s, c, pc', i), Visited(s, c, pc'))
  {
    hide Leads, PcGoto, PcTaken, PcWants, PcDrops, PcDropped;
    var a := Visiting(s, c, pc', i);
    Give(a, c);
    assert Gave(a, c).owner == s.owner;
    assert Gave(a, c) == Visited(s, c, pc');
  }

  lemma Visit(s: State, c: nat, pc: Pc, pc': Pc, i: nat)
    requires Visits(s, c, pc, pc', i)
    ensures Leads(s, Visited(s, c, pc'))
  {
    hide Leads, PcGoto, PcTaken, PcWants, PcDrops, PcDropped, Wants, Drops, Visited, Visiting;
    VisitLook(s, c, pc, pc', i);
    VisitGive(s, c, pc', i);
    Then(s, Visiting(s, c, pc', i), Visited(s, c, pc'));
  }

  // The scan passes a slot in use.
  lemma ForkPass(s: State, c: nat, me: nat, i: nat)
    requires Runs(s, c, ForkScan(i)) && s.cpus[c] == In(me, ForkScan(i), 0).(irq := Irq(true, 0, s.cpus[c].irq.saved))
    requires i < |s.procs| && s.procs[i].state != Unused && ProcLock(i) !in s.owner
    ensures Leads(s, Set(s, c, In(me, ForkScan(i + 1), 0)))
  {
    hide Leads;
    Visit(s, c, ForkScan(i), ForkSkip(i), i);
  }

  lemma {:induction false} ForkPasses(s: State, c: nat, me: nat, i: nat, f: nat)
    requires Runs(s, c, ForkScan(i)) && s.cpus[c] == In(me, ForkScan(i), 0).(irq := Irq(true, 0, s.cpus[c].irq.saved))
    requires i < f <= |s.procs| && forall q :: i <= q < f ==> s.procs[q].state != Unused && ProcLock(q) !in s.owner
    ensures Leads(s, Set(s, c, In(me, ForkScan(f), 0)))
    decreases f - i
  {
    hide Leads;
    ForkPass(s, c, me, i);
    var a := Set(s, c, In(me, ForkScan(i + 1), 0));
    if i + 1 < f {
      ForkPasses(a, c, me, i + 1, f);
      assert Set(a, c, In(me, ForkScan(f), 0)) == Set(s, c, In(me, ForkScan(f), 0));
      Then(s, a, Set(s, c, In(me, ForkScan(f), 0)));
    }
  }

  function Child(s: State, me: nat, f: nat): Proc
    requires f < |s.procs|
  {
    s.procs[f].(state := Runnable, pid := s.nextPid, parent := Some(me), exitCode := 0, ctx := FirstRet)
  }

  // The slot taken under its lock, by a CPU on its way to its own lock.
  function Taking(s: State, c: nat, me: nat, f: nat): State
    requires c < |s.cpus| && f < |s.procs|
  {
    s.(cpus := s.cpus[c := In(me, ForkSelf(f, s.nextPid), 1)], owner := s.owner[ProcLock(f) := c], nextPid := s.nextPid + 1,
       procs := s.procs[f := s.procs[f].(state := Used, pid := s.nextPid, parent := None, exitCode := 0, ctx := FirstRet)])
  }

  lemma ForkTakes(s: State, c: nat, me: nat, f: nat)
    requires Runs(s, c, ForkScan(f)) && s.cpus[c] == In(me, ForkScan(f), 0)
    requires f < |s.procs| && s.procs[f].state == Unused && ProcLock(f) !in s.owner
    ensures Leads(s, Taking(s, c, me, f))
  {
    hide Leads;
    Take(s, c);
    var a := Took(s, c);
    var b := Taking(s, c, me, f);
    assert b.cpus == a.cpus[c := b.cpus[c]];
    ByForkTake(a, b, c);
    Then(s, a, b);
  }

  // Both locks taken, the child linked and RUNNABLE.
  function Linked(s: State, c: nat, me: nat, f: nat): State
    requires c < |s.cpus| && f < |s.procs|
  {
    s.(cpus := s.cpus[c := In(me, ForkPush(f, s.nextPid), 2)], owner := s.owner[ProcLock(f) := c][ProcLock(me) := c],
       nextPid := s.nextPid + 1, procs := s.procs[f := Child(s, me, f).(at := Waking(c))])
  }

  lemma ForkLinks(s: State, c: nat, me: nat, f: nat)
    requires Able(s, c) && f < |s.procs| && me < |s.procs| && f != me && ProcLock(me) !in s.owner
    ensures Leads(Taking(s, c, me, f), Linked(s, c, me, f))
  {
    hide Leads;
    var b := Taking(s, c, me, f);
    Take(b, c);
    var d := Took(b, c);
    var e := Linked(s, c, me, f);
    assert e.cpus == d.cpus[c := e.cpus[c]];
    assert e.procs == d.procs[f := e.procs[f]];
    ByForkLink(d, e, c);
    Then(b, d, e);
  }

  // The child is queued.
  function Handed(s: State, c: nat, me: nat, f: nat): State
    requires c < |s.cpus| && f < |s.procs|
  {
    s.(cpus := s.cpus[c := In(me, ForkDropC(f, s.nextPid), 2)], owner := s.owner[ProcLock(f) := c][ProcLock(me) := c],
       nextPid := s.nextPid + 1, queue := s.queue + [f], procs := s.procs[f := Child(s, me, f).(at := InQueue)])
  }

  lemma ForkHands(s: State, c: nat, me: nat, f: nat)
    requires Able(s, c) && f < |s.procs|
    ensures Leads(Linked(s, c, me, f), Handed(s, c, me, f))
  {
    hide Leads;
    var t, a := Linked(s, c, me, f), Handed(s, c, me, f);
    assert a.cpus == t.cpus[c := a.cpus[c]];
    assert a.procs == t.procs[f := a.procs[f]];
    ByAddTask(t, a, c);
  }

  function Forked(s: State, c: nat, me: nat, f: nat): State
    requires c < |s.cpus| && f < |s.procs|
  {
    s.(cpus := s.cpus[c := In(me, Syscall, 0)], nextPid := s.nextPid + 1, queue := s.queue + [f],
       procs := s.procs[f := Child(s, me, f).(at := InQueue)])
  }

  lemma ForkEnds(s: State, c: nat, me: nat, f: nat)
    requires Able(s, c) && f < |s.procs| && me < |s.procs| && f != me
    requires ProcLock(f) !in s.owner && ProcLock(me) !in s.owner
    ensures Leads(Handed(s, c, me, f), Forked(s, c, me, f))
  {
    hide Leads;
    var a := Handed(s, c, me, f);
    ForkDrops(a, c, me, f, s.nextPid);
    DropBoth(s.owner, ProcLock(f), ProcLock(me), c);
    assert a.(cpus := a.cpus[c := In(me, Syscall, 0)], owner := a.owner - {ProcLock(f)} - {ProcLock(me)}) == Forked(s, c, me, f);
  }

  lemma DropBoth(owner: map<Lock, nat>, x: Lock, y: Lock, c: nat)
    requires x !in owner && y !in owner
    ensures owner[x := c][y := c] - {x} - {y} == owner
  {
  }

  lemma ForkDrops(a: State, c: nat, me: nat, f: nat, k: int)
    requires Runs(a, c, ForkDropC(f, k)) && a.cpus[c] == In(me, ForkDropC(f, k), 2)
    ensures Leads(a, a.(cpus := a.cpus[c := In(me, Syscall, 0)], owner := a.owner - {ProcLock(f)} - {ProcLock(me)}))
  {
    hide Leads;
    Give(a, c);
    var b := Gave(a, c);
    Give(b, c);
    var d := Gave(b, c);
    Go(d, c, ForkRet(f, k), Syscall);
    Then(a, b, d);
    Then(a, d, Went(d, c, Syscall));
    assert Went(d, c, Syscall).cpus == a.cpus[c := In(me, Syscall, 0)];
  }

  lemma ForkFinds(s: State, c: nat, me: nat, f: nat)
    requires Runs(s, c, Syscall) && s.cpus[c] == In(me, Syscall, 0).(irq := Irq(true, 0, s.cpus[c].irq.saved))
    requires 0 < f < |s.procs| && s.owner == map[] && forall q :: 0 <= q < f ==> s.procs[q].state != Unused
    ensures Leads(s, Set(s, c, In(me, ForkScan(f), 0)))
  {
    hide Leads;
    Go(s, c, Syscall, ForkScan(0));
    var a := Went(s, c, ForkScan(0));
    ForkPasses(a, c, me, 0, f);
    Then(s, a, Set(a, c, In(me, ForkScan(f), 0)));
    assert Set(a, c, In(me, ForkScan(f), 0)) == Set(s, c, In(me, ForkScan(f), 0));
  }

  // Thread `me` forks into slot f, the first one not in use.
  lemma Fork(s: State, c: nat, me: nat, f: nat)
    requires Runs(s, c, Syscall) && s.cpus[c] == In(me, Syscall, 0).(irq := Irq(true, 0, s.cpus[c].irq.saved))
    requires me < f < |s.procs| && s.procs[f].state == Unused && s.owner == map[]
    requires forall q :: 0 <= q < f ==> s.procs[q].state != Unused
    ensures Leads(s, Forked(s, c, me, f))
  {
    hide Leads;
    ForkFinds(s, c, me, f);
    var b := Set(s, c, In(me, ForkScan(f), 0));
    ForkTakes(b, c, me, f);
    ForkLinks(b, c, me, f);
    ForkHands(b, c, me, f);
    ForkEnds(b, c, me, f);
    Then(s, b, Taking(b, c, me, f));
    Then(s, Taking(b, c, me, f), Linked(b, c, me, f));
    Then(s, Linked(b, c, me, f), Handed(b, c, me, f));
    Then(s, Handed(b, c, me, f), Forked(b, c, me, f));
    assert Forked(b, c, me, f) == Forked(s, c, me, f);
  }

  // ---------- wait, when no child has exited

  lemma Peek(s: State, c: nat, me: nat, pid: int)
    requires Runs(s, c, Syscall) && s.cpus[c] == In(me, Syscall, 0) && s.owner == map[]
    ensures Leads(s, Set(s, c, In(me, WaitAcq(pid), 0)))
  {
    hide Leads;
    Go(s, c, Syscall, PeekAcq(pid));
    var a := Set(s, c, In(me, PeekAcq(pid), 0));
    assert a == Went(s, c, PeekAcq(pid));
    PeekTake(a, c, me, pid);
    var b := Set(s, c, In(me, PeekMm(pid), 2)).(owner := map[ProcLock(me) := c, MmLock(me) := c]);
    assert b == Set(a, c, In(me, PeekMm(pid), 2)).(owner := map[ProcLock(me) := c, MmLock(me) := c]);
    PeekGive(b, c, me, pid);
    Then(s, a, b);
    assert Set(b, c, In(me, WaitAcq(pid), 0)).(owner := map[]) == Set(s, c, In(me, WaitAcq(pid), 0));
    Then(s, b, Set(s, c, In(me, WaitAcq(pid), 0)));
  }

  lemma PeekTake(s: State, c: nat, me: nat, pid: int)
    requires Runs(s, c, PeekAcq(pid)) && s.cpus[c] == In(me, PeekAcq(pid), 0) && s.owner == map[]
    ensures Leads(s, Set(s, c, In(me, PeekMm(pid), 2)).(owner := map[ProcLock(me) := c, MmLock(me) := c]))
  {
    hide Leads;
    Take(s, c);
    var a := Took(s, c);
    Take(a, c);
    Then(s, a, Took(a, c));
    assert Took(a, c).cpus == s.cpus[c := In(me, PeekMm(pid), 2)];
  }

  lemma PeekGive(s: State, c: nat, me: nat, pid: int)
    requires Runs(s, c, PeekMm(pid)) && s.cpus[c] == In(me, PeekMm(pid), 2)
    requires s.owner == map[ProcLock(me) := c, MmLock(me) := c]
    ensures Leads(s, Set(s, c, In(me, WaitAcq(pid), 0)).(owner := map[]))
  {
    hide Leads;
    Give(s, c);
    var a := Gave(s, c);
    Give(a, c);
    Then(s, a, Gave(a, c));
    assert Gave(a, c).cpus == s.cpus[c := In(me, WaitAcq(pid), 0)];
    assert Gave(a, c).owner == map[];
  }

  // What `havekids` is once slots below i have been looked at.
  function Kids(procs: seq<Proc>, me: nat, i: nat): bool
    requires i <= |procs|
  {
    i > 0 && (Kids(procs, me, i - 1) || (i - 1 != me && procs[i - 1].parent == Some(me)))
  }

  lemma WaitPass(s: State, c: nat, me: nat, pid: int, i: nat, kids: bool)
    requires Runs(s, c, WaitScan(pid, i, kids)) && s.cpus[c] == In(me, WaitScan(pid, i, kids), 1)
    requires i < |s.procs| && ProcLock(i) !in s.owner && (i != me ==> !Matches(s.procs[i], me, pid))
    ensures Leads(s, Set(s, c, In(me, WaitScan(pid, i + 1, kids || (i != me && s.procs[i].parent == Some(me))), 1)))
  {
    hide Leads;
    if i == me {
      Go(s, c, WaitScan(pid, i, kids), WaitScan(pid, i + 1, kids));
    } else {
      Visit(s, c, WaitScan(pid, i, kids), WaitSkip(pid, i, kids || s.procs[i].parent == Some(me)), i);
    }
  }

  lemma {:induction false} WaitPasses(s: State, c: nat, me: nat, pid: int, i: nat)
    requires Runs(s, c, WaitScan(pid, 0, false)) && s.cpus[c] == In(me, WaitScan(pid, 0, false), 1) && i <= |s.procs|
    requires forall q: nat :: q < |s.procs| ==> ProcLock(q) !in s.owner && (q != me ==> !Matches(s.procs[q], me, pid))
    ensures Leads(s, Set(s, c, In(me, WaitScan(pid, i, Kids(s.procs, me, i)), 1))) || i == 0
    decreases i
  {
    hide Leads;
    if i > 0 {
      WaitPasses(s, c, me, pid, i - 1);
      var a := Set(s, c, In(me, WaitScan(pid, i - 1, Kids(s.procs, me, i - 1)), 1));
      var b := Set(s, c, In(me, WaitScan(pid, i, Kids(s.procs, me, i)), 1));
      if i == 1 { assert a == s; }
      WaitPass(a, c, me, pid, i - 1, Kids(s.procs, me, i - 1));
      assert b == Set(a, c, In(me, WaitScan(pid, i, Kids(s.procs, me, i)), 1));
      if i > 1 { Then(s, a, b); }
    }
  }

  // wait up to the call of sleep.
  lemma WaitScans(s: State, c: nat, me: nat, pid: int)
    requires Runs(s, c, WaitAcq(pid)) && s.cpus[c] == In(me, WaitAcq(pid), 0) && s.owner == map[]
    requires forall q: nat :: q < |s.procs| && q != me ==> !Matches(s.procs[q], me, pid)
    requires Kids(s.procs, me, |s.procs|)
    ensures Leads(s, Set(s, c, In(me, SleepAcq(InWait(pid)), 1)).(owner := map[WaitLock := c]))
  {
    hide Leads;
    Take(s, c);
    var n := |s.procs|;
    var a := Set(s, c, In(me, WaitScan(pid, 0, false), 1)).(owner := map[WaitLock := c]);
    assert a == Took(s, c);
    WaitPasses(a, c, me, pid, n);
    var b := Set(a, c, In(me, WaitScan(pid, n, true), 1));
    Go(b, c, WaitScan(pid, n, true), SleepAcq(InWait(pid)));
    Then(s, a, b);
    Then(s, b, Went(b, c, SleepAcq(InWait(pid))));
    assert Went(b, c, SleepAcq(InWait(pid))).cpus == s.cpus[c := In(me, SleepAcq(InWait(pid)), 1)];
  }

  // ---------- swtch and the scheduler's release

  function Off(): Cpu { Cpu(None, Sched(Fetch), NoTrap, Irq(true, 0, true)) }

  // A process that sleeps or has exited leaves its CPU.
  lemma Leave(s: State, c: nat, me: nat, pc: Pc)
    requires Runs(s, c, pc) && AtSwitch(pc) && !pc.YieldHeld? && s.cpus[c] == In(me, pc, 1) && s.owner == map[ProcLock(me) := c]
    requires pc.ExitSched? ==> s.procs[me].state == Zombie
    ensures Leads(s, s.(cpus := s.cpus[c := Off()], owner := map[], procs := s.procs[me := Parked(s.procs[me], me, pc, true).(at := Nowhere)]))
  {
    hide Leads;
    var a := s.(cpus := s.cpus[c := In(me, pc, 1).(code := Sched(Back(me)))], procs := s.procs[me := Parked(s.procs[me], me, pc, true)]);
    BySwitch(s, a, c);
    LeaveReturn(a, c, me);
    var b := a.(cpus := a.cpus[c := Off()], owner := map[], procs := a.procs[me := a.procs[me].(at := Nowhere)]);
    Then(s, a, b);
    assert b.cpus == s.cpus[c := Off()];
    assert b.procs == s.procs[me := Parked(s.procs[me], me, pc, true).(at := Nowhere)];
  }

  lemma LeaveReturn(s: State, c: nat, me: nat)
    requires Able(s, c) && me < |s.procs| && s.procs[me].state != Runnable && s.owner == map[ProcLock(me) := c]
    requires s.cpus[c] == In(me, Syscall, 1).(code := Sched(Back(me)))
    ensures Leads(s, s.(cpus := s.cpus[c := Off()], owner := map[], procs := s.procs[me := s.procs[me].(at := Nowhere)]))
  {
    hide Leads;
    var a := s.(cpus := s.cpus[c := s.cpus[c].(proc := None, code := Sched(Rel(me)))], procs := s.procs[me := s.procs[me].(at := Nowhere)]);
    ByReturn(s, a, c);
    Give(a, c);
    Then(s, a, Gave(a, c));
    assert Gave(a, c).owner == map[];
    assert Gave(a, c).cpus == s.cpus[c := Off()];
  }

  // The whole of sleep up to the scheduler.
  lemma FallsAsleep(s: State, c: nat, me: nat, w: Site)
    requires Runs(s, c, SleepAcq(w)) && w.InWait? && s.cpus[c] == In(me, SleepAcq(w), 1) && s.owner == map[WaitLock := c]
    ensures Leads(s, Set(s, c, In(me, SleepSet(w), 1)).(owner := map[ProcLock(me) := c]))
  {
    hide Leads;
    Take(s, c);
    var a := Took(s, c);
    Give(a, c);
    assert Gave(a, c).owner == map[ProcLock(me) := c];
    assert Gave(a, c).cpus == s.cpus[c := In(me, SleepSet(w), 1)];
    Then(s, a, Gave(a, c));
  }

  lemma FallAsleep(s: State, c: nat, me: nat, pid: int)
    requires Runs(s, c, SleepAcq(InWait(pid))) && s.cpus[c] == In(me, SleepAcq(InWait(pid)), 1) && s.owner == map[WaitLock := c]
    ensures Leads(s, Slept(s, c, me, pid))
  {
    hide Leads;
    FallsAsleep(s, c, me, InWait(pid));
    var b := Set(s, c, In(me, SleepSet(InWait(pid)), 1)).(owner := map[ProcLock(me) := c]);
    Leave(b, c, me, SleepSet(InWait(pid)));
    Then(s, b, Slept(b, c, me, pid));
    assert Slept(b, c, me, pid) == Slept(s, c, me, pid);
  }

  function Slept(s: State, c: nat, me: nat, pid: int): State
    requires c < |s.cpus| && me < |s.procs|
  {
    s.(cpus := s.cpus[c := Off()], owner := map[],
       procs := s.procs[me := Parked(s.procs[me], me, SleepSet(InWait(pid)), true).(at := Nowhere)])
  }

  // Thread `me` has a child, but none that exited: wait puts it to sleep.
  lemma Wait(s: State, c: nat, me: nat, pid: int)
    requires Runs(s, c, Syscall) && s.cpus[c] == In(me, Syscall, 0) && s.owner == map[]
    requires forall q: nat :: q < |s.procs| && q != me ==> !Matches(s.procs[q], me, pid)
    requires Kids(s.procs, me, |s.procs|)
    ensures Leads(s, Slept(s, c, me, pid))
  {
    hide Leads, Matches, Kids;
    Peek(s, c, me, pid);
    var a := Set(s, c, In(me, WaitAcq(pid), 0));
    WaitScans(a, c, me, pid);
    var b := Set(a, c, In(me, SleepAcq(InWait(pid)), 1)).(owner := map[WaitLock := c]);
    Then(s, a, b);
    FallAsleep(b, c, me, pid);
    Then(s, b, Slept(b, c, me, pid));
    assert Slept(b, c, me, pid) == Slept(s, c, me, pid);
  }

  // ---------- exit, when nobody sleeps for the process

  lemma WakePass(s: State, c: nat, me: nat, code: int, ch: Chan, i: nat)
    requires Runs(s, c, ExitWake(code, Loop(ch, i, Want))) && s.cpus[c] == In(me, ExitWake(code, Loop(ch, i, Want)), 1)
    requires i < |s.procs| && ProcLock(i) !in s.owner && !Asleep(s.procs[i], ch)
    ensures Leads(s, Set(s, c, In(me, ExitWake(code, Loop(ch, i + 1, Want)), 1)))
  {
    hide Leads;
    Visit(s, c, ExitWake(code, Loop(ch, i, Want)), ExitWake(code, Loop(ch, i, Drop)), i);
  }

  lemma {:induction false} WakePasses(s: State, c: nat, me: nat, code: int, ch: Chan, i: nat)
    requires Runs(s, c, ExitWake(code, Loop(ch, i, Want))) && s.cpus[c] == In(me, ExitWake(code, Loop(ch, i, Want)), 1)
    requires i < |s.procs| && forall q: nat :: q < |s.procs| ==> ProcLock(q) !in s.owner && !Asleep(s.procs[q], ch)
    ensures Leads(s, Set(s, c, In(me, ExitWake(code, Loop(ch, |s.procs|, Want)), 1)))
    decreases |s.procs| - i
  {
    hide Leads;
    WakePass(s, c, me, code, ch, i);
    var a := Set(s, c, In(me, ExitWake(code, Loop(ch, i + 1, Want)), 1));
    var b := Set(s, c, In(me, ExitWake(code, Loop(ch, |s.procs|, Want)), 1));
    if i + 1 < |s.procs| {
      WakePasses(a, c, me, code, ch, i + 1);
      assert b == Set(a, c, In(me, ExitWake(code, Loop(ch, |s.procs|, Want)), 1));
      Then(s, a, b);
    }
  }

  // exit at the head of its reparent loop.
  function Leaving(s: State, c: nat, me: nat, code: int, i: nat): State
    requires c < |s.cpus| && me < |s.procs|
  {
    Set(s, c, In(me, ExitRep(code, ParentChan(s.procs[me].parent), i), 2)).(owner := map[WaitLock := c, ProcLock(me) := c])
  }

  // exit in its wakeup of the parent, in front of slot i.
  function Rousing(s: State, c: nat, me: nat, code: int, i: nat): State
    requires c < |s.cpus| && me < |s.procs|
  {
    Set(s, c, In(me, ExitWake(code, Loop(ParentChan(s.procs[me].parent), i, Want)), 1)).(owner := map[WaitLock := c])
  }

  lemma ExitAsks(s: State, c: nat, me: nat, code: int)
    requires Runs(s, c, Syscall) && s.cpus[c] == In(me, Syscall, 0).(irq := Irq(true, 0, s.cpus[c].irq.saved)) && s.owner == map[]
    ensures Leads(s, Set(s, c, In(me, ExitStart(code), 1)).(owner := map[WaitLock := c]))
  {
    hide Leads;
    Go(s, c, Syscall, ExitAcq(code));
    var a := Went(s, c, ExitAcq(code));
    Take(a, c);
    Then(s, a, Took(a, c));
    assert Took(a, c).cpus == s.cpus[c := In(me, ExitStart(code), 1)];
  }

  lemma ExitStarts(s: State, c: nat, me: nat, code: int)
    requires Runs(s, c, Syscall) && s.cpus[c] == In(me, Syscall, 0).(irq := Irq(true, 0, s.cpus[c].irq.saved)) && s.owner == map[]
    ensures me < |s.procs| && Leads(s, Rousing(s, c, me, code, 0))
  {
    hide Leads;
    ExitAsks(s, c, me, code);
    var b := Set(s, c, In(me, ExitStart(code), 1)).(owner := map[WaitLock := c]);
    var l := Loop(ParentChan(s.procs[me].parent), 0, Want);
    Go(b, c, ExitStart(code), ExitWake(code, l));
    Then(s, b, Went(b, c, ExitWake(code, l)));
    assert Went(b, c, ExitWake(code, l)) == Rousing(s, c, me, code, 0);
  }

  lemma ExitRouses(s: State, c: nat, me: nat, code: int)
    requires Able(s, c) && me < |s.procs|
    requires forall q: nat :: q < |s.procs| ==> !Asleep(s.procs[q], ParentChan(s.procs[me].parent))
    ensures Leads(Rousing(s, c, me, code, 0), Rousing(s, c, me, code, |s.procs|))
  {
    hide Leads, Asleep;
    var a := Rousing(s, c, me, code, 0);
    WakePasses(a, c, me, code, ParentChan(s.procs[me].parent), 0);
    assert Set(a, c, Rousing(s, c, me, code, |s.procs|).cpus[c]) == Rousing(s, c, me, code, |s.procs|);
  }

  lemma ExitTakesSelf(s: State, c: nat, me: nat, code: int)
    requires Able(s, c) && me < |s.procs|
    ensures Leads(Rousing(s, c, me, code, |s.procs|), Leaving(s, c, me, code, 0))
  {
    hide Leads;
    var ch := ParentChan(s.procs[me].parent);
    var a := Rousing(s, c, me, code, |s.procs|);
    Go(a, c, ExitWake(code, Loop(ch, |s.procs|, Want)), ExitSelf(code, ch));
    var b := Went(a, c, ExitSelf(code, ch));
    Take(b, c);
    Then(a, b, Took(b, c));
    assert Took(b, c) == Leaving(s, c, me, code, 0);
  }

  // Thread `me` exits, up to its reparent loop.
  lemma ExitLoops(s: State, c: nat, me: nat, code: int)
    requires Runs(s, c, Syscall) && s.cpus[c] == In(me, Syscall, 0).(irq := Irq(true, 0, s.cpus[c].irq.saved)) && s.owner == map[]
    requires forall q: nat :: q < |s.procs| ==> !Asleep(s.procs[q], ParentChan(s.procs[me].parent))
    ensures Leads(s, Leaving(s, c, me, code, 0))
  {
    hide Leads, Asleep, Rousing, Leaving;
    ExitStarts(s, c, me, code);
    ExitRouses(s, c, me, code);
    ExitTakesSelf(s, c, me, code);
    Then(s, Rousing(s, c, me, code, 0), Rousing(s, c, me, code, |s.procs|));
    Then(s, Rousing(s, c, me, code, |s.procs|), Leaving(s, c, me, code, 0));
  }

  // The loop stands in front of slot i, with the slot's lock.
  function Facing(s: State, c: nat, me: nat, code: int, i: nat): State
    requires c < |s.cpus| && me < |s.procs|
  {
    Set(s, c, In(me, ExitRepLook(code, ParentChan(s.procs[me].parent), i), 3))
      .(owner := map[WaitLock := c, ProcLock(me) := c, ProcLock(i) := c])
  }

  lemma RepTake(s: State, c: nat, me: nat, code: int, i: nat)
    requires Able(s, c) && me < |s.procs| && i < |s.procs| && i != me
    ensures Leads(Leaving(s, c, me, code, i), Facing(s, c, me, code, i))
  {
    hide Leads;
    var a := Leaving(s, c, me, code, i);
    Take(a, c);
    assert Took(a, c) == Facing(s, c, me, code, i);
  }

  lemma RepPass(s: State, c: nat, me: nat, code: int, i: nat)
    requires Able(s, c) && me < |s.procs| && i < |s.procs| && s.procs[i].parent != Some(me)
    ensures Leads(Leaving(s, c, me, code, i), Leaving(s, c, me, code, i + 1))
  {
    hide Leads;
    var ch := ParentChan(s.procs[me].parent);
    if i == me {
      Go(Leaving(s, c, me, code, i), c, ExitRep(code, ch, i), ExitRep(code, ch, i + 1));
      assert Went(Leaving(s, c, me, code, i), c, ExitRep(code, ch, i + 1)) == Leaving(s, c, me, code, i + 1);
    } else {
      RepTake(s, c, me, code, i);
      RepGive(s, c, me, code, i);
      Then(Leaving(s, c, me, code, i), Facing(s, c, me, code, i), Leaving(s, c, me, code, i + 1));
    }
  }

  lemma RepGive(s: State, c: nat, me: nat, code: int, i: nat)
    requires Able(s, c) && me < |s.procs| && i < |s.procs| && i != me && s.procs[i].parent != Some(me)
    ensures Leads(Facing(s, c, me, code, i), Leaving(s, c, me, code, i + 1))
  {
    hide Leads;
    var a := Facing(s, c, me, code, i);
    var b := Set(a, c, In(me, ExitRepDrop(code, ParentChan(s.procs[me].parent), i), 3));
    assert b.procs == a.procs[i := a.procs[i]];
    ByReparent(a, b, c);
    Give(b, c);
    assert Gave(b, c).owner == map[WaitLock := c, ProcLock(me) := c];
    assert Gave(b, c) == Leaving(s, c, me, code, i + 1);
    Then(a, b, Gave(b, c));
  }

  lemma {:induction false} RepPasses(s: State, c: nat, me: nat, code: int, i: nat)
    requires Able(s, c) && me < |s.procs| && 0 < i <= |s.procs| && forall q :: 0 <= q < i ==> s.procs[q].parent != Some(me)
    ensures Leads(Leaving(s, c, me, code, 0), Leaving(s, c, me, code, i))
  {
    hide Leads, Leaving;
    RepPass(s, c, me, code, i - 1);
    if i > 1 {
      RepPasses(s, c, me, code, i - 1);
      Then(Leaving(s, c, me, code, 0), Leaving(s, c, me, code, i - 1), Leaving(s, c, me, code, i));
    }
  }

  function Gone(s: State, c: nat, me: nat, code: int): State
    requires c < |s.cpus| && me < |s.procs|
  {
    s.(cpus := s.cpus[c := Off()], owner := map[], dead := s.dead[s.procs[me].pid := code],
       procs := s.procs[me := s.procs[me].(exitCode := code, state := Zombie, under := s.procs[me].parent,
                                           ctx := ExitDead, savedOn := true, at := Nowhere)])
  }

  // The zombie that has dropped wait_lock.
  function Dead(s: State, c: nat, me: nat, code: int): State
    requires c < |s.cpus| && me < |s.procs|
  {
    s.(cpus := s.cpus[c := In(me, ExitSched, 1)], owner := map[ProcLock(me) := c], dead := s.dead[s.procs[me].pid := code],
       procs := s.procs[me := s.procs[me].(exitCode := code, state := Zombie, under := s.procs[me].parent)])
  }

  function Dying(s: State, c: nat, me: nat, code: int): State
    requires c < |s.cpus| && me < |s.procs|
  {
    Dead(s, c, me, code).(cpus := s.cpus[c := In(me, ExitDrop, 2)], owner := map[WaitLock := c, ProcLock(me) := c])
  }

  lemma ExitMarks(s: State, c: nat, me: nat, code: int)
    requires Able(s, c) && me < |s.procs|
    ensures Leads(Leaving(s, c, me, code, |s.procs|), Dying(s, c, me, code))
  {
    hide Leads;
    var a, b := Leaving(s, c, me, code, |s.procs|), Dying(s, c, me, code);
    assert b.cpus == a.cpus[c := b.cpus[c]];
    ByDie(a, b, c);
  }

  lemma ExitDies(s: State, c: nat, me: nat, code: int)
    requires Able(s, c) && me < |s.procs|
    ensures Leads(Dying(s, c, me, code), Dead(s, c, me, code))
  {
    hide Leads;
    var b := Dying(s, c, me, code);
    Give(b, c);
    assert Gave(b, c).owner == Dead(s, c, me, code).owner;
    assert Gave(b, c) == Dead(s, c, me, code);
  }

  lemma ExitRests(s: State, c: nat, me: nat, code: int)
    requires Able(s, c) && me < |s.procs|
    ensures Leads(Dead(s, c, me, code), Gone(s, c, me, code))
  {
    hide Leads;
    var d := Dead(s, c, me, code);
    Leave(d, c, me, ExitSched);
    var p := Parked(d.procs[me], me, ExitSched, true).(at := Nowhere);
    assert d.procs[me := p] == Gone(s, c, me, code).procs;
    assert d.cpus[c := Off()] == Gone(s, c, me, code).cpus;
  }

  // From the end of the reparent loop to the scheduler.
  lemma ExitEnds(s: State, c: nat, me: nat, code: int)
    requires Able(s, c) && me < |s.procs|
    ensures Leads(Leaving(s, c, me, code, |s.procs|), Gone(s, c, me, code))
  {
    hide Leads, Leaving, Dying, Dead, Gone;
    ExitMarks(s, c, me, code);
    ExitDies(s, c, me, code);
    ExitRests(s, c, me, code);
    Then(Leaving(s, c, me, code, |s.procs|), Dying(s, c, me, code), Dead(s, c, me, code));
    Then(Leaving(s, c, me, code, |s.procs|), Dead(s, c, me, code), Gone(s, c, me, code));
  }

  // A process without children exits while nobody sleeps for it.
  lemma Exit(s: State, c: nat, me: nat, code: int)
    requires Runs(s, c, Syscall) && s.cpus[c] == In(me, Syscall, 0).(irq := Irq(true, 0, s.cpus[c].irq.saved)) && s.owner == map[]
    requires forall q: nat :: q < |s.procs| ==> !Asleep(s.procs[q], ParentChan(s.procs[me].parent)) && s.procs[q].parent != Some(me)
    ensures Leads(s, Gone(s, c, me, code))
  {
    hide Leads, Asleep, Leaving, Gone;
    ExitLoops(s, c, me, code);
    RepPasses(s, c, me, code, |s.procs|);
    ExitEnds(s, c, me, code);
    Then(s, Leaving(s, c, me, code, 0), Leaving(s, c, me, code, |s.procs|));
    Then(s, Leaving(s, c, me, code, |s.procs|), Gone(s, c, me, code));
  }

  // A process exits and comes to lock slot i, the first child it has.
  lemma ExitTo(s: State, c: nat, me: nat, code: int, i: nat)
    requires Runs(s, c, Syscall) && s.cpus[c] == In(me, Syscall, 0).(irq := Irq(true, 0, s.cpus[c].irq.saved)) && s.owner == map[]
    requires forall q: nat :: q < |s.procs| ==> !Asleep(s.procs[q], ParentChan(s.procs[me].parent))
    requires 0 < i < |s.procs| && i != me && forall q :: 0 <= q < i ==> s.procs[q].parent != Some(me)
    ensures Leads(s, Facing(s, c, me, code, i))
  {
    hide Leads, Asleep, Leaving, Facing;
    ExitLoops(s, c, me, code);
    RepPasses(s, c, me, code, i);
    RepTake(s, c, me, code, i);
    Then(s, Leaving(s, c, me, code, 0), Leaving(s, c, me, code, i));
    Then(s, Leaving(s, c, me, code, i), Facing(s, c, me, code, i));
  }
}
