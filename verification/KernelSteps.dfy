/**
  The steps of the process protocol: every CPU executes scheduler code, the
  kernel thread of one process, or a UART interrupt on top of either.
*/
module KernelSteps {
  import opened KernelState

  predicate Asleep(p: Proc, ch: Chan) { p.state == Sleeping && p.chan == ch }

  predicate Matches(p: Proc, me: nat, pid: int) {
    p.parent == Some(me) && p.state == Zombie && (pid <= 0 || p.pid == pid)
  }

  // ---------- lock steps

  ghost predicate Acquire(s: State, s': State, c: nat)
    requires c < |s.cpus|
  {
    var k := s.cpus[c];
    var w := Wants(k, |s.procs|);
    && w.Some? && w.value !in s.owner
    && s' == s.(cpus := s.cpus[c := Taken(k).(irq := PushOff(k.irq))], owner := s.owner[w.value := c])
  }

  ghost predicate Release(s: State, s': State, c: nat)
    requires c < |s.cpus|
  {
    var k := s.cpus[c];
    var w := Drops(k);
    && w.Some?
    && s' == s.(cpus := s.cpus[c := Dropped(k, s.procs).(irq := PopOff(k.irq))], owner := s.owner - {w.value})
  }

  // ---------- control flow that writes no shared field

  predicate PcGoto(procs: seq<Proc>, data: bool, me: nat, pc: Pc, pc': Pc) {
    var n := |procs|;
    match pc
    case Trapped => pc' in {YieldAcq(Tick), Served} || pc'.ExitAcq?
    case Syscall =>
      pc' in {YieldAcq(Call), ExecAcq, ReadAcq, CopyAcq(InWriting), ForkScan(0)} || pc'.PeekAcq? || pc'.ExitAcq?
    case Served => pc' == Ret
    case ReadHeld => pc' == ReadEnd || (!data && pc' == SleepAcq(InRead))
    case ForkSlot(i) => i < n && procs[i].state != Unused && pc' == ForkSkip(i)
    case ForkRet(_, _) => pc' == Syscall
    case WaitScan(pid, i, kids) =>
      || (i == n && pc' == if kids then SleepAcq(InWait(pid)) else WaitDone(-1))
      || (i < n && i == me && pc' == WaitScan(pid, i + 1, kids))
    case WaitLook(pid, i, kids) =>
      i < n && !Matches(procs[i], me, pid) && pc' == WaitSkip(pid, i, kids || procs[i].parent == Some(me))
    case ExitStart(code) =>
      me < n && pc' == ExitWake(code, Loop(ParentChan(procs[me].parent), 0, Want))
    case ExitWake(code, l) =>
      || (l.ph == Want && l.i == n && pc' == ExitSelf(code, l.chan))
      || (l.ph == Look && l.i < n && !Asleep(procs[l.i], l.chan) && pc' == ExitWake(code, l.(ph := Drop)))
    case ExitRep(code, ch, i) => i < n && i == me && pc' == ExitRep(code, ch, i + 1)
    case _ => false
  }

  predicate TrapGoto(procs: seq<Proc>, t: Trap, t': Trap) {
    match t
    case TrapHeld => t' == TrapDrop
    case TrapWake(l) =>
      || (l.ph == Want && l.i == |procs| && t' == TrapDrop)
      || (l.ph == Look && l.i < |procs| && !Asleep(procs[l.i], l.chan) && t' == TrapWake(l.(ph := Drop)))
    case _ => false
  }

  ghost predicate Goto(s: State, s': State, c: nat)
    requires c < |s.cpus|
  {
    var k := s.cpus[c];
    var k' := if c < |s'.cpus| then s'.cpus[c] else k;
    && s' == s.(cpus := s.cpus[c := k'])
    && if k.trap.NoTrap? then
         && k' == k.(code := k'.code)
         && match k.code
            case Thread(me, pc) => k'.code.Thread? && k'.code.me == me && PcGoto(s.procs, s.data, me, pc, k'.code.pc)
            case Sched(ProbeWant(i)) => i == |s.procs| && k'.code == Sched(ProbeOut(false))
            case _ => false
       else
         k' == k.(trap := k'.trap) && TrapGoto(s.procs, k.trap, k'.trap)
  }

  // ---------- interrupts and the interrupt-enable bit

  // An interrupt in the kernel enters kernel_trap; usertrap calls plic_handle itself,
  // with interrupts off already.
  ghost predicate TrapEnter(s: State, s': State, c: nat)
    requires c < |s.cpus|
  {
    var k := s.cpus[c];
    var inUser := k.code.Thread? && k.code.pc.Trapped?;
    && k.trap.NoTrap? && (inUser || (k.irq.on && !(k.code.Thread? && k.code.pc.User?)))
    && s' == s.(cpus := s.cpus[c := k.(trap := TrapAcq, irq := if inUser then k.irq else k.irq.(on := false))])
  }

  ghost predicate TrapExit(s: State, s': State, c: nat)
    requires c < |s.cpus|
  {
    var k := s.cpus[c];
    && k.trap.TrapAcq?
    && s' == s.(cpus := s.cpus[c :=
         if InKernelTrap(k) then k.(trap := NoTrap, irq := k.irq.(on := true))
         else k.(trap := NoTrap, code := Thread(k.code.me, Served))])
  }

  // Where the interrupt-enable bit is written outside push_off and pop_off: the trap
  // from user mode clears it, intr_on and intr_off stand around a system call,
  // first_sched_ret clears it, and the return to user mode sets it.
  predicate Turns(pc: Pc) { pc in {User, Trapped, Syscall, FirstOff, Ret} }

  predicate TurnsOn(pc: Pc) { pc.Trapped? || pc.Ret? }

  function Turned(pc: Pc): Pc {
    match pc
    case User => Trapped
    case Trapped => Syscall
    case Syscall => Served
    case FirstOff => Ret
    case Ret => User
    case _ => pc
  }

  ghost predicate IrqSet(s: State, s': State, c: nat)
    requires c < |s.cpus|
  {
    var k := s.cpus[c];
    && k.trap.NoTrap? && k.code.Thread? && k.code.me < |s.procs| && Turns(k.code.pc)
    && var me := k.code.me;
       var on := TurnsOn(k.code.pc);
       s' == s.(cpus := s.cpus[c := k.(code := Thread(me, Turned(k.code.pc)), irq := k.irq.(on := on))],
                procs := s.procs[me := s.procs[me].(base := on)])
  }

  // consintr stores a byte that completes a line: cons.w = cons.e, then wakeup(&cons).
  ghost predicate Commit(s: State, s': State, c: nat)
    requires c < |s.cpus|
  {
    var k := s.cpus[c];
    && k.trap.TrapHeld?
    && s' == s.(cpus := s.cpus[c := k.(trap := TrapWake(Loop(ConsChan, 0, Want)))], data := true)
  }

  // user_console_read takes one committed byte, to copy it out or, at an end-of-file
  // mark, to stop; there may or may not be more.
  ghost predicate Consume(s: State, s': State, c: nat)
    requires c < |s.cpus|
  {
    var k := s.cpus[c];
    && k.trap.NoTrap? && k.code.Thread? && k.code.pc.ReadHeld? && s.data
    && exists pc :: pc in {CopyAcq(InReading), ReadEnd}
                    && s' == s.(cpus := s.cpus[c := k.(code := Thread(k.code.me, pc))], data := s'.data)
  }

  // ---------- scheduler

  ghost predicate ProbeIn(s: State, s': State, c: nat)
    requires c < |s.cpus|
  {
    var k := s.cpus[c];
    && k.trap.NoTrap? && k.code == Sched(Fetch) && s.queue == []
    && s' == s.(cpus := s.cpus[c := k.(code := Sched(ProbeWant(0)), irq := PushOff(k.irq))])
  }

  ghost predicate ProbeLeave(s: State, s': State, c: nat)
    requires c < |s.cpus|
  {
    var k := s.cpus[c];
    && k.trap.NoTrap? && k.code == Sched(ProbeOut(true))
    && s' == s.(cpus := s.cpus[c := k.(code := Sched(Wfi), irq := PopOff(k.irq).(on := true))])
  }

  ghost predicate WfiEnd(s: State, s': State, c: nat)
    requires c < |s.cpus|
  {
    var k := s.cpus[c];
    && k.trap.NoTrap? && k.code == Sched(Wfi)
    && s' == s.(cpus := s.cpus[c := k.(code := Sched(Fetch), irq := k.irq.(on := false))])
  }

  ghost predicate Pop(s: State, s': State, c: nat)
    requires c < |s.cpus|
  {
    var k := s.cpus[c];
    && k.trap.NoTrap? && k.code == Sched(Fetch) && s.queue != [] && s.queue[0] < |s.procs|
    && var p := s.queue[0];
       s' == s.(cpus := s.cpus[c := k.(code := Sched(Popped(p)))], queue := s.queue[1..],
                procs := s.procs[p := s.procs[p].(at := OnCpu(c))])
  }

  ghost predicate Dispatch(s: State, s': State, c: nat)
    requires c < |s.cpus|
  {
    var k := s.cpus[c];
    && k.trap.NoTrap? && k.code.Sched? && k.code.sp.Got? && k.code.sp.p < |s.procs|
    && var p := k.code.sp.p;
       && s.procs[p].state == Runnable
       && s' == s.(cpus := s.cpus[c := k.(proc := Some(p), code := Thread(p, s.procs[p].ctx))],
                   procs := s.procs[p := s.procs[p].(state := Running)])
  }

  // The end of yield, sleep and exit: set the state and `swtch` to the scheduler.
  function Parked(p: Proc, me: nat, pc: Pc, on: bool): Proc {
    match pc
    case YieldHeld(f) => p.(state := Runnable, ctx := YieldSw(f), savedOn := on)
    case SleepSet(w) => p.(state := Sleeping, chan := ChanOf(w, me), ctx := SleepSw(w), savedOn := on)
    case _ => p.(ctx := ExitDead, savedOn := on)
  }

  predicate AtSwitch(pc: Pc) { pc.YieldHeld? || pc.SleepSet? || pc.ExitSched? }

  ghost predicate Switch(s: State, s': State, c: nat)
    requires c < |s.cpus|
  {
    var k := s.cpus[c];
    && k.trap.NoTrap? && k.code.Thread? && AtSwitch(k.code.pc) && k.code.me < |s.procs|
    && var me := k.code.me;
       s' == s.(cpus := s.cpus[c := k.(code := Sched(Back(me)))],
                procs := s.procs[me := Parked(s.procs[me], me, k.code.pc, k.irq.saved)])
  }

  ghost predicate Return(s: State, s': State, c: nat)
    requires c < |s.cpus|
  {
    var k := s.cpus[c];
    && k.trap.NoTrap? && k.code.Sched? && k.code.sp.Back? && k.code.sp.p < |s.procs|
    && var p := k.code.sp.p;
       var again := s.procs[p].state == Runnable;
       s' == s.(cpus := s.cpus[c := k.(proc := None, code := Sched(if again then Enq(p) else Rel(p)))],
                procs := s.procs[p := s.procs[p].(at := if again then Waking(c) else Nowhere)])
  }

  // The process a CPU has made RUNNABLE and is about to hand to add_task.
  function Pushing(k: Cpu): Option<nat> {
    match k.trap
    case TrapWake(l) => if l.ph == Push then Some(l.i) else None
    case NoTrap => (
      match k.code
      case Sched(Enq(p)) => Some(p)
      case Thread(_, ForkPush(np, _)) => Some(np)
      case Thread(_, ExitWake(_, l)) => if l.ph == Push then Some(l.i) else None
      case _ => None)
    case _ => None
  }

  function Pushed(k: Cpu): Cpu {
    match k.trap
    case TrapWake(l) => k.(trap := TrapWake(l.(ph := Drop)))
    case NoTrap => (
      match k.code
      case Sched(Enq(p)) => k.(code := Sched(Rel(p)))
      case Thread(me, ForkPush(np, kid)) => k.(code := Thread(me, ForkDropC(np, kid)))
      case Thread(me, ExitWake(code, l)) => k.(code := Thread(me, ExitWake(code, l.(ph := Drop))))
      case _ => k)
    case _ => k
  }

  ghost predicate AddTask(s: State, s': State, c: nat)
    requires c < |s.cpus|
  {
    var k := s.cpus[c];
    && Pushing(k).Some? && Pushing(k).value < |s.procs|
    && var q := Pushing(k).value;
       s' == s.(cpus := s.cpus[c := Pushed(k)], queue := s.queue + [q],
                procs := s.procs[q := s.procs[q].(at := InQueue)])
  }

  // ---------- process code

  // sched() restores interrupt_on after swtch; sleep() clears sleep_chan.
  ghost predicate Restore(s: State, s': State, c: nat)
    requires c < |s.cpus|
  {
    var k := s.cpus[c];
    && k.trap.NoTrap? && k.code.Thread? && (k.code.pc.YieldSw? || k.code.pc.SleepSw?) && k.code.me < |s.procs|
    && var me := k.code.me;
       var pc := k.code.pc;
       s' == s.(cpus := s.cpus[c := k.(code := Thread(me, if pc.YieldSw? then YieldEnd(pc.f) else SleepEnd(pc.w)),
                                       irq := k.irq.(saved := s.procs[me].savedOn))],
                procs := s.procs[me := if pc.YieldSw? then s.procs[me] else s.procs[me].(chan := NoChan)])
  }

  // exec reaches load_user_elf, which marks the running process RUNNABLE.
  ghost predicate ExecMark(s: State, s': State, c: nat)
    requires c < |s.cpus|
  {
    var k := s.cpus[c];
    && k.trap.NoTrap? && k.code.Thread? && k.code.pc.ExecHeld? && k.code.me < |s.procs|
    && var me := k.code.me;
       s' == s.(cpus := s.cpus[c := k.(code := Thread(me, ExecEnd))],
                procs := s.procs[me := s.procs[me].(state := Runnable)])
  }

  ghost predicate ForkTake(s: State, s': State, c: nat)
    requires c < |s.cpus|
  {
    var k := s.cpus[c];
    && k.trap.NoTrap? && k.code.Thread? && k.code.pc.ForkSlot? && k.code.pc.i < |s.procs|
    && var i := k.code.pc.i;
       && s.procs[i].state == Unused
       && s' == s.(cpus := s.cpus[c := k.(code := Thread(k.code.me, ForkSelf(i, s.nextPid)))],
                   procs := s.procs[i := s.procs[i].(state := Used, pid := s.nextPid, parent := None,
                                                     exitCode := 0, ctx := FirstRet)],
                   nextPid := s.nextPid + 1)
  }

  ghost predicate ForkLink(s: State, s': State, c: nat)
    requires c < |s.cpus|
  {
    var k := s.cpus[c];
    && k.trap.NoTrap? && k.code.Thread? && k.code.pc.ForkBoth? && k.code.pc.np < |s.procs|
    && var np := k.code.pc.np;
       s' == s.(cpus := s.cpus[c := k.(code := Thread(k.code.me, ForkPush(np, k.code.pc.k)))],
                procs := s.procs[np := s.procs[np].(parent := Some(k.code.me), state := Runnable, at := Waking(c))])
  }

  ghost predicate Reap(s: State, s': State, c: nat)
    requires c < |s.cpus|
  {
    var k := s.cpus[c];
    && k.trap.NoTrap? && k.code.Thread? && k.code.pc.WaitLook? && k.code.pc.i < |s.procs|
    && var i := k.code.pc.i;
       var p := s.procs[i];
       && Matches(p, k.code.me, k.code.pc.pid)
       && s' == s.(cpus := s.cpus[c := k.(code := Thread(k.code.me, WaitFreed(i, p.pid)))],
                   procs := s.procs[i := p.(state := Unused, pid := -1, exitCode := 0xdeadbeef, chan := NoChan, parent := None)],
                   reaped := s.reaped + [(p.pid, p.exitCode)])
  }

  // The body of wakeup's loop finds a sleeper, in exit or in the UART interrupt.
  function Looking(k: Cpu): Option<Loop> {
    match k.trap
    case TrapWake(l) => if l.ph == Look then Some(l) else None
    case NoTrap => (
      match k.code
      case Thread(_, ExitWake(_, l)) => if l.ph == Look then Some(l) else None
      case _ => None)
    case _ => None
  }

  function Found(k: Cpu): Cpu {
    match k.trap
    case TrapWake(l) => k.(trap := TrapWake(l.(ph := Push)))
    case NoTrap => (
      match k.code
      case Thread(me, ExitWake(code, l)) => k.(code := Thread(me, ExitWake(code, l.(ph := Push))))
      case _ => k)
    case _ => k
  }

  ghost predicate WakeOne(s: State, s': State, c: nat)
    requires c < |s.cpus|
  {
    var k := s.cpus[c];
    && Looking(k).Some? && Looking(k).value.i < |s.procs|
    && var l := Looking(k).value;
       && Asleep(s.procs[l.i], l.chan)
       && s' == s.(cpus := s.cpus[c := Found(k)],
                   procs := s.procs[l.i := s.procs[l.i].(state := Runnable, at := Waking(c))])
  }

  ghost predicate Reparent(s: State, s': State, c: nat)
    requires c < |s.cpus|
  {
    var k := s.cpus[c];
    && k.trap.NoTrap? && k.code.Thread? && k.code.pc.ExitRepLook? && k.code.pc.i < |s.procs|
    && var pc := k.code.pc;
       s' == s.(cpus := s.cpus[c := k.(code := Thread(k.code.me, ExitRepDrop(pc.code, pc.ch, pc.i)))],
                procs := s.procs[pc.i := if s.procs[pc.i].parent == Some(k.code.me) then s.procs[pc.i].(parent := Some(0)) else s.procs[pc.i]])
  }

  ghost predicate Die(s: State, s': State, c: nat)
    requires c < |s.cpus|
  {
    var k := s.cpus[c];
    && k.trap.NoTrap? && k.code.Thread? && k.code.pc.ExitRep? && k.code.pc.i == |s.procs| && k.code.me < |s.procs|
    && var me := k.code.me;
       var p := s.procs[me];
       s' == s.(cpus := s.cpus[c := k.(code := Thread(me, ExitDrop))],
                procs := s.procs[me := p.(exitCode := k.code.pc.code, state := Zombie, under := p.parent)],
                dead := s.dead[p.pid := k.code.pc.code])
  }

  // ---------- panics

  // fork panics when allocproc found no UNUSED slot.
  ghost predicate Full(s: State, s': State, c: nat)
    requires c < |s.cpus|
  {
    var k := s.cpus[c];
    && k.trap.NoTrap? && k.code.Thread? && k.code.pc.ForkScan? && k.code.pc.i == |s.procs|
    && s' == s.(panic := OutOfProcs)
  }

  // fork panics when allocproc cannot make the address space, or mm_copy fails; when
  // that is, the memory modules say.
  ghost predicate Exhausted(s: State, s': State, c: nat)
    requires c < |s.cpus|
  {
    var k := s.cpus[c];
    && k.trap.NoTrap? && k.code.Thread?
    && ((k.code.pc.ForkSlot? && k.code.pc.i < |s.procs| && s.procs[k.code.pc.i].state == Unused) || k.code.pc.ForkBoth?)
    && s' == s.(panic := OutOfMemory)
  }

  predicate HoldsLock(s: State, c: nat, x: Lock) { x in s.owner && s.owner[x] == c }

  // An assertion or a panic of os/proc.c, os/sched.c, os/lock.c, os/queue.c or
  // os/trap.c fails at the next instruction of CPU c.
  ghost predicate Bad(s: State, c: nat)
    requires c < |s.cpus|
  {
    var k := s.cpus[c];
    var n := |s.procs|;
    || (Wants(k, n).Some? && HoldsLock(s, c, Wants(k, n).value))                       // acquire: already acquired
    || (Drops(k).Some? && (!HoldsLock(s, c, Drops(k).value) || PopOffPanics(k.irq, InKernelTrap(k))))
    || (Pushing(k).Some? && (Pushing(k).value >= n || |s.queue| >= n))                 // push_queue: overflow
    || (!k.trap.NoTrap? && k.irq.on)                                                   // kernel_trap, nested kerneltrap
    || (InKernelTrap(k) && k.code.Thread? && AtSwitch(k.code.pc))                      // sched in a kernel trap
    || (k.trap.NoTrap? &&
        match k.code
        case Sched(ProbeOut(alive)) => !alive || PopOffPanics(k.irq, false)            // scheduler dead
        case Sched(Got(p)) => p >= n || s.procs[p].state != Runnable
        case Sched(Back(p)) => k.proc != Some(p) || k.irq.on || !HoldsLock(s, c, ProcLock(p))
        case Sched(_) => false
        case Thread(me, pc) =>
          || k.proc != Some(me) || me >= n                                             // curr_proc()
          || ((pc.Trapped? || pc.Served?) && k.irq.on)                                 // usertrap, first and last
          || (pc.Ret? && k.irq.on)                                                     // usertrapret
          || (AtSwitch(pc) && (!HoldsLock(s, c, ProcLock(me)) || k.irq.noff != 1 || k.irq.on
                               || (pc.ExitSched? && s.procs[me].state == Running)))   // sched
          || ((pc.YieldSw? || pc.SleepSw?) && !HoldsLock(s, c, ProcLock(me)))          // sched, after swtch
          || pc.ExitDead?                                                              // exit should never return
          || (pc.ForkSlot? && !HoldsLock(s, c, ProcLock(pc.i)))                        // allocproc
          || (pc.WaitLook? && !HoldsLock(s, c, ProcLock(pc.i))))                       // freeproc
  }

  ghost predicate Fails(s: State, s': State, c: nat)
    requires c < |s.cpus|
  {
    Bad(s, c) && s' == s.(panic := Assertion)
  }

  // ---------- runs

  ghost predicate CpuNext(s: State, s': State, c: nat)
    requires c < |s.cpus|
  {
    || Acquire(s, s', c) || Release(s, s', c) || Goto(s, s', c)
    || TrapEnter(s, s', c) || TrapExit(s, s', c) || IrqSet(s, s', c) || Commit(s, s', c) || Consume(s, s', c)
    || ProbeIn(s, s', c) || ProbeLeave(s, s', c) || WfiEnd(s, s', c)
    || Pop(s, s', c) || Dispatch(s, s', c) || Switch(s, s', c) || Return(s, s', c) || AddTask(s, s', c)
    || Restore(s, s', c) || ExecMark(s, s', c) || ForkTake(s, s', c) || ForkLink(s, s', c)
    || Reap(s, s', c) || WakeOne(s, s', c) || Reparent(s, s', c) || Die(s, s', c)
    || Full(s, s', c) || Exhausted(s, s', c) || Fails(s, s', c)
  }

  ghost predicate Next(s: State, s': State) {
    s.panic.NoPanic? && exists c: nat :: c < |s.cpus| && CpuNext(s, s', c)
  }

  // After proc_init and load_init_app, when every CPU enters scheduler().
  ghost predicate Init(s: State) {
    && |s.procs| > 0 && |s.cpus| > 0
    && (forall c | 0 <= c < |s.cpus| ::
          s.cpus[c].proc.None? && s.cpus[c].code == Sched(Fetch) && s.cpus[c].trap.NoTrap?
          && s.cpus[c].irq == Irq(false, 0, false))
    && (var p := s.procs[0]; p.state == Runnable && p.pid == 1 && p.parent.None? && p.ctx.FirstRet? && p.at.InQueue?)
    && (forall p | 1 <= p < |s.procs| ::
          s.procs[p].state == Unused && s.procs[p].parent.None? && s.procs[p].at.Nowhere?)
    && s.owner == map[] && s.queue == [0] && s.nextPid == 2 && !s.data && s.panic.NoPanic?
    && s.dead == map[] && s.reaped == []
  }

  ghost predicate IsRun(r: seq<State>) {
    && |r| > 0 && Init(r[0])
    && forall i :: 0 <= i < |r| - 1 ==> Next(r[i], r[i + 1])
  }
}
