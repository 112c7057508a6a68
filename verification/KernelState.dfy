/**
  Shared state of the process, scheduler, lock and trap code, for any number of
  CPUs and any number of process slots (os/proc.h, os/lock.h, os/proc.c,
  os/sched.c, os/lock.c, os/trap.c).

  A program counter stands between two points at which other CPUs may observe a
  difference: taking a lock, dropping a lock, `swtch`, the queue operations and
  the writes in between.
*/
module KernelState {
  datatype Option<+T> = None | Some(value: T)

  // `p->lock` of one slot, `p->mm->lock` of one slot, `wait_lock` and `cons.lock`.
  // The other locks of the kernel (queue, pid, page and object allocators) are taken
  // and dropped inside one step: no other lock is requested while one of them is held.
  datatype Lock = ProcLock(p: nat) | MmLock(p: nat) | WaitLock | ConsLock

  datatype PState = Unused | Used | Sleeping | Runnable | Running | Zombie

  datatype Chan = NoChan | ProcChan(p: nat) | ConsChan

  // The two call sites of `sleep`: `wait(pid)` and `user_console_read`.
  datatype Site = InWait(pid: int) | InRead

  function ChanOf(w: Site, me: nat): Chan { if w.InRead? then ConsChan else ProcChan(me) }

  function LockOf(w: Site): Lock { if w.InRead? then ConsLock else WaitLock }

  function ParentChan(parent: Option<nat>): Chan { if parent.None? then NoChan else ProcChan(parent.value) }

  // One iteration of the loop of `wakeup(chan)`: about to lock slot i, holding it
  // before the test, RUNNABLE but not yet pushed, about to unlock.
  datatype Phase = Want | Look | Push | Drop
  datatype Loop = Loop(chan: Chan, i: nat, ph: Phase)

  // The two call sites of `yield`: the system call, and the timer interrupt of
  // `usertrap`.
  datatype From = Call | Tick

  // The two copies between the console and user memory that hold `mm->lock`.
  datatype Copy = InReading | InWriting

  // A kernel thread of a process.  `Acq` counters stand before an acquire, `Sw`
  // counters just after the thread's own `swtch` returned (or is to return).
  datatype Pc =
    | User                                                  // user mode
    | Trapped | Syscall | Served | Ret                      // usertrap up to line 97, in syscall, at line 156; usertrapret
    | FirstRet | FirstOff                                   // first_sched_ret
    | YieldAcq(f: From) | YieldHeld(f: From) | YieldSw(f: From) | YieldEnd(f: From)
    | ExecAcq | ExecHeld | ExecEnd
    | ReadAcq | ReadHeld | ReadEnd                          // user_console_read
    | CopyAcq(u: Copy) | CopySelf(u: Copy) | CopyBoth(u: Copy) | CopyMm(u: Copy)
    | PeekAcq(pid: int) | PeekSelf(pid: int) | PeekMm(pid: int) | PeekEnd(pid: int) // sys_wait
    | SleepAcq(w: Site) | SleepHeld(w: Site) | SleepSet(w: Site)
    | SleepSw(w: Site) | SleepEnd(w: Site) | SleepRe(w: Site)
    | ForkScan(i: nat) | ForkSlot(i: nat) | ForkSkip(i: nat)
    | ForkSelf(np: nat, k: int) | ForkBoth(np: nat, k: int) | ForkPush(np: nat, k: int)
    | ForkDropC(np: nat, k: int) | ForkDropP(np: nat, k: int) | ForkRet(np: nat, k: int)
    | WaitAcq(pid: int) | WaitScan(pid: int, i: nat, kids: bool) | WaitLook(pid: int, i: nat, kids: bool)
    | WaitSkip(pid: int, i: nat, kids: bool) | WaitFreed(i: nat, ret: int) | WaitDone(ret: int)
    | ExitAcq(code: int) | ExitStart(code: int) | ExitWake(code: int, l: Loop)
    | ExitSelf(code: int, ch: Chan) | ExitRep(code: int, ch: Chan, i: nat)
    | ExitRepLook(code: int, ch: Chan, i: nat) | ExitRepDrop(code: int, ch: Chan, i: nat)
    | ExitDrop | ExitSched | ExitDead

  datatype SchedPc =
    | Fetch
    | ProbeWant(i: nat) | ProbeLook(i: nat) | ProbeOut(alive: bool) | Wfi   // all_dead, then wfi
    | Popped(p: nat) | Got(p: nat) | Back(p: nat) | Enq(p: nat) | Rel(p: nat)

  datatype Code = Sched(sp: SchedPc) | Thread(me: nat, pc: Pc)

  // Serving the UART: consintr on top of whatever `kernel_trap` interrupted, or
  // inside `usertrap` itself.
  datatype Trap = NoTrap | TrapAcq | TrapHeld | TrapWake(l: Loop) | TrapDrop

  // The interrupt-enable bit, `noff` and `interrupt_on`.
  datatype Irq = Irq(on: bool, noff: int, saved: bool)

  datatype Cpu = Cpu(proc: Option<nat>, code: Code, trap: Trap, irq: Irq)

  // History variable: who is responsible for making the process run next.
  datatype Where = Nowhere | InQueue | OnCpu(c: nat) | Waking(c: nat)

  // `ctx` is p->context, `savedOn` the local variable of `sched`.  `at`, `under`
  // (the parent when it became ZOMBIE) and `base` (the interrupt state of the
  // thread outside every lock) are history variables: no step reads them.
  datatype Proc = Proc(state: PState, pid: int, exitCode: int, chan: Chan, parent: Option<nat>,
                       ctx: Pc, savedOn: bool, at: Where, under: Option<nat>, base: bool)

  datatype Panic = NoPanic | OutOfProcs | OutOfMemory | Assertion

  // `data` says cons.r != cons.w.  `dead` and `reaped` are histories: the exit
  // code of every process that exited, and the (pid, code) pairs `wait` returned.
  datatype State = State(procs: seq<Proc>, cpus: seq<Cpu>, owner: map<Lock, nat>, queue: seq<nat>,
                         nextPid: int, data: bool, panic: Panic,
                         dead: map<int, int>, reaped: seq<(int, int)>)

  // ---------- which locks a program counter holds, and how deep push_off is nested

  // `inkernel_trap`: only `kernel_trap` sets it.
  predicate InKernelTrap(k: Cpu) { !k.trap.NoTrap? && !(k.code.Thread? && k.code.pc.Trapped?) }

  predicate LoopHolds(l: Loop, x: Lock) { l.ph != Want && x == ProcLock(l.i) }

  predicate CopyHolds(u: Copy, x: Lock) { u.InReading? && x == ConsLock }

  predicate PcHolds(me: nat, pc: Pc, x: Lock) {
    match pc
    case FirstRet | YieldHeld(_) | YieldSw(_) | YieldEnd(_) | ExecHeld | ExecEnd => x == ProcLock(me)
    case PeekSelf(_) | PeekEnd(_) => x == ProcLock(me)
    case PeekMm(_) => x == ProcLock(me) || x == MmLock(me)
    case CopyAcq(u) => CopyHolds(u, x)
    case CopySelf(u) => CopyHolds(u, x) || x == ProcLock(me)
    case CopyBoth(u) => CopyHolds(u, x) || x == ProcLock(me) || x == MmLock(me)
    case CopyMm(u) => CopyHolds(u, x) || x == MmLock(me)
    case SleepSet(_) | SleepSw(_) | SleepEnd(_) | ForkDropP(_, _) | ExitSched | ExitDead => x == ProcLock(me)
    case ReadHeld | ReadEnd => x == ConsLock
    case SleepAcq(w) => x == LockOf(w)
    case SleepHeld(w) => x == LockOf(w) || x == ProcLock(me)
    case ForkSlot(i) => x == ProcLock(i)
    case ForkSkip(i) => x == ProcLock(i)
    case ForkSelf(np, _) => x == ProcLock(np)
    case ForkBoth(np, _) => x == ProcLock(np) || x == ProcLock(me)
    case ForkPush(np, _) => x == ProcLock(np) || x == ProcLock(me)
    case ForkDropC(np, _) => x == ProcLock(np) || x == ProcLock(me)
    case WaitScan(_, _, _) | WaitDone(_) | ExitStart(_) | ExitSelf(_, _) => x == WaitLock
    case WaitLook(_, i, _) => x == WaitLock || x == ProcLock(i)
    case WaitSkip(_, i, _) => x == WaitLock || x == ProcLock(i)
    case WaitFreed(i, _) => x == WaitLock || x == ProcLock(i)
    case ExitWake(_, l) => x == WaitLock || LoopHolds(l, x)
    case ExitRep(_, _, _) | ExitDrop => x == WaitLock || x == ProcLock(me)
    case ExitRepLook(_, _, i) => x == WaitLock || x == ProcLock(me) || x == ProcLock(i)
    case ExitRepDrop(_, _, i) => x == WaitLock || x == ProcLock(me) || x == ProcLock(i)
    case _ => false
  }

  predicate CodeHolds(code: Code, x: Lock) {
    match code
    case Thread(me, pc) => PcHolds(me, pc, x)
    case Sched(sp) =>
      match sp
      case ProbeLook(i) => x == ProcLock(i)
      case Got(p) => x == ProcLock(p)
      case Back(p) => x == ProcLock(p)
      case Enq(p) => x == ProcLock(p)
      case Rel(p) => x == ProcLock(p)
      case _ => false
  }

  predicate TrapHolds(t: Trap, x: Lock) {
    match t
    case NoTrap | TrapAcq => false
    case TrapHeld | TrapDrop => x == ConsLock
    case TrapWake(l) => x == ConsLock || LoopHolds(l, x)
  }

  predicate Holds(k: Cpu, x: Lock) { if k.trap.NoTrap? then CodeHolds(k.code, x) else TrapHolds(k.trap, x) }

  function LoopDepth(l: Loop): nat { if l.ph == Want then 1 else 2 }

  function CopyDepth(u: Copy): nat { if u.InReading? then 1 else 0 }

  function PcDepth(pc: Pc): nat {
    match pc
    case FirstRet | YieldHeld(_) | YieldSw(_) | YieldEnd(_) | ExecHeld | ExecEnd => 1
    case PeekSelf(_) | PeekEnd(_) => 1
    case PeekMm(_) => 2
    case CopyAcq(u) => CopyDepth(u)
    case CopySelf(u) => CopyDepth(u) + 1
    case CopyBoth(u) => CopyDepth(u) + 2
    case CopyMm(u) => CopyDepth(u) + 1
    case SleepSet(_) | SleepSw(_) | SleepEnd(_) | ForkDropP(_, _) | ExitSched | ExitDead => 1
    case ReadHeld | ReadEnd | SleepAcq(_) | ForkSlot(_) | ForkSkip(_) | ForkSelf(_, _) => 1
    case WaitScan(_, _, _) | WaitDone(_) | ExitStart(_) | ExitSelf(_, _) => 1
    case SleepHeld(_) | ForkBoth(_, _) | ForkPush(_, _) | ForkDropC(_, _) => 2
    case WaitLook(_, _, _) | WaitSkip(_, _, _) | WaitFreed(_, _) | ExitRep(_, _, _) | ExitDrop => 2
    case ExitWake(_, l) => LoopDepth(l)
    case ExitRepLook(_, _, _) | ExitRepDrop(_, _, _) => 3
    case _ => 0
  }

  function CodeDepth(code: Code): nat {
    match code
    case Thread(_, pc) => PcDepth(pc)
    case Sched(sp) =>
      match sp
      case ProbeWant(_) | ProbeOut(_) => 1
      case ProbeLook(_) => 2
      case Got(_) | Back(_) | Enq(_) | Rel(_) => 1
      case _ => 0
  }

  function TrapDepth(t: Trap): nat {
    match t
    case NoTrap | TrapAcq => 0
    case TrapHeld | TrapDrop => 1
    case TrapWake(l) => LoopDepth(l)
  }

  function Depth(k: Cpu): nat { if k.trap.NoTrap? then CodeDepth(k.code) else TrapDepth(k.trap) }

  // ---------- acquire: the lock each counter asks for, and the counter behind it

  function LoopWants(l: Loop, n: nat): Option<Lock> {
    if l.ph == Want && l.i < n then Some(ProcLock(l.i)) else None
  }

  function PcWants(me: nat, pc: Pc, n: nat): Option<Lock> {
    match pc
    case YieldAcq(_) | ExecAcq | SleepAcq(_) | ForkSelf(_, _) | ExitSelf(_, _) => Some(ProcLock(me))
    case CopyAcq(_) | PeekAcq(_) => Some(ProcLock(me))
    case CopySelf(_) | PeekSelf(_) => Some(MmLock(me))
    case ReadAcq => Some(ConsLock)
    case SleepRe(w) => Some(LockOf(w))
    case ForkScan(i) => if i < n then Some(ProcLock(i)) else None
    case WaitAcq(_) | ExitAcq(_) => Some(WaitLock)
    case WaitScan(_, i, _) => if i < n && i != me then Some(ProcLock(i)) else None
    case ExitWake(_, l) => LoopWants(l, n)
    case ExitRep(_, _, i) => if i < n && i != me then Some(ProcLock(i)) else None
    case _ => None
  }

  function PcTaken(pc: Pc): Pc {
    match pc
    case YieldAcq(f) => YieldHeld(f)
    case ExecAcq => ExecHeld
    case CopyAcq(u) => CopySelf(u)
    case CopySelf(u) => CopyBoth(u)
    case PeekAcq(pid) => PeekSelf(pid)
    case PeekSelf(pid) => PeekMm(pid)
    case SleepAcq(w) => SleepHeld(w)
    case ForkSelf(np, k) => ForkBoth(np, k)
    case ExitSelf(code, ch) => ExitRep(code, ch, 0)
    case ReadAcq => ReadHeld
    case SleepRe(InWait(pid)) => WaitScan(pid, 0, false)
    case SleepRe(InRead) => ReadHeld
    case ForkScan(i) => ForkSlot(i)
    case WaitAcq(pid) => WaitScan(pid, 0, false)
    case ExitAcq(code) => ExitStart(code)
    case WaitScan(pid, i, kids) => WaitLook(pid, i, kids)
    case ExitWake(code, l) => ExitWake(code, l.(ph := Look))
    case ExitRep(code, ch, i) => ExitRepLook(code, ch, i)
    case _ => pc
  }

  // The lock CPU k is about to acquire, if it is at an acquire.
  function Wants(k: Cpu, n: nat): Option<Lock> {
    match k.trap
    case TrapAcq => Some(ConsLock)
    case TrapWake(l) => LoopWants(l, n)
    case TrapHeld | TrapDrop => None
    case NoTrap =>
      match k.code
      case Thread(me, pc) => PcWants(me, pc, n)
      case Sched(ProbeWant(i)) => if i < n then Some(ProcLock(i)) else None
      case Sched(Popped(p)) => Some(ProcLock(p))
      case _ => None
  }

  function Taken(k: Cpu): Cpu {
    match k.trap
    case TrapAcq => k.(trap := TrapHeld)
    case TrapWake(l) => k.(trap := TrapWake(l.(ph := Look)))
    case TrapHeld | TrapDrop => k
    case NoTrap =>
      match k.code
      case Thread(me, pc) => k.(code := Thread(me, PcTaken(pc)))
      case Sched(ProbeWant(i)) => k.(code := Sched(ProbeLook(i)))
      case Sched(Popped(p)) => k.(code := Sched(Got(p)))
      case _ => k
  }

  // ---------- release: the lock each counter gives back, and the counter behind it

  function PcDrops(me: nat, pc: Pc): Option<Lock> {
    match pc
    case FirstRet | YieldEnd(_) | ExecEnd | SleepEnd(_) | ForkDropP(_, _) => Some(ProcLock(me))
    case CopyBoth(_) | PeekEnd(_) => Some(ProcLock(me))
    case CopyMm(_) | PeekMm(_) => Some(MmLock(me))
    case ReadEnd => Some(ConsLock)
    case SleepHeld(w) => Some(LockOf(w))
    case ForkSkip(i) => Some(ProcLock(i))
    case ForkDropC(np, _) => Some(ProcLock(np))
    case WaitSkip(_, i, _) => Some(ProcLock(i))
    case WaitFreed(i, _) => Some(ProcLock(i))
    case WaitDone(_) | ExitDrop => Some(WaitLock)
    case ExitWake(_, l) => if l.ph == Drop then Some(ProcLock(l.i)) else None
    case ExitRepDrop(_, _, i) => Some(ProcLock(i))
    case _ => None
  }

  function PcDropped(pc: Pc): Pc {
    match pc
    case FirstRet => FirstOff
    case YieldEnd(f) => if f.Call? then Syscall else Served
    case ExecEnd | ReadEnd | WaitDone(_) => Syscall
    case CopyBoth(u) => CopyMm(u)
    case CopyMm(u) => if u.InReading? then ReadHeld else Syscall
    case PeekMm(pid) => PeekEnd(pid)
    case PeekEnd(pid) => WaitAcq(pid)
    case SleepEnd(w) => SleepRe(w)
    case ForkDropP(np, k) => ForkRet(np, k)
    case SleepHeld(w) => SleepSet(w)
    case ForkSkip(i) => ForkScan(i + 1)
    case ForkDropC(np, k) => ForkDropP(np, k)
    case WaitSkip(pid, i, kids) => WaitScan(pid, i + 1, kids)
    case WaitFreed(_, ret) => WaitDone(ret)
    case ExitWake(code, l) => ExitWake(code, Loop(l.chan, l.i + 1, Want))
    case ExitRepDrop(code, ch, i) => ExitRep(code, ch, i + 1)
    case ExitDrop => ExitSched
    case _ => pc
  }

  // The lock CPU k is about to release.  `all_dead` leaves its loop at the first
  // slot in use, so its release needs the process table.
  function Drops(k: Cpu): Option<Lock> {
    match k.trap
    case TrapAcq | TrapHeld => None
    case TrapWake(l) => if l.ph == Drop then Some(ProcLock(l.i)) else None
    case TrapDrop => Some(ConsLock)
    case NoTrap =>
      match k.code
      case Thread(me, pc) => PcDrops(me, pc)
      case Sched(ProbeLook(i)) => Some(ProcLock(i))
      case Sched(Rel(p)) => Some(ProcLock(p))
      case _ => None
  }

  function Dropped(k: Cpu, procs: seq<Proc>): Cpu {
    match k.trap
    case TrapAcq | TrapHeld => k
    case TrapWake(l) => k.(trap := TrapWake(Loop(l.chan, l.i + 1, Want)))
    case TrapDrop => k.(trap := TrapAcq)
    case NoTrap =>
      match k.code
      case Thread(me, pc) => k.(code := Thread(me, PcDropped(pc)))
      case Sched(ProbeLook(i)) =>
        k.(code := Sched(if i < |procs| && procs[i].state != Unused then ProbeOut(true) else ProbeWant(i + 1)))
      case Sched(Rel(_)) => k.(code := Sched(Fetch))
      case _ => k
  }

  // ---------- push_off and pop_off (os/lock.c:82-111)

  function PushOff(q: Irq): Irq {
    Irq(false, q.noff + 1, if q.noff == 0 then q.on else q.saved)
  }

  function PopOff(q: Irq): Irq {
    Irq(q.on || (q.noff - 1 == 0 && q.saved), q.noff - 1, q.saved)
  }

  // The panics of pop_off: interruptible, unpaired, enabling inside a kernel trap.
  predicate PopOffPanics(q: Irq, inTrap: bool) {
    q.on || q.noff < 1 || (q.noff == 1 && q.saved && inTrap)
  }
}
