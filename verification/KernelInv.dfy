/**
  The global invariant of the process protocol.  Every part takes only the
  components it speaks about, so that a step that leaves them alone keeps it.
*/
module KernelInv {
  import opened KernelState
  import opened KernelSteps

  // ---------- locks: `owner` is exactly what the program counters say

  ghost predicate LockInv(owner: map<Lock, nat>, cpus: seq<Cpu>) {
    && (forall c, x :: 0 <= c < |cpus| && Holds(cpus[c], x) ==> x in owner && owner[x] == c)
    && (forall x :: x in owner ==> owner[x] < |cpus| && Holds(cpus[owner[x]], x))
  }

  // ---------- interrupt state: noff counts the nesting, interrupts are off inside
  // every lock and every trap, and the state to restore is the thread's own.

  // The interrupt state a thread has outside every lock: on in user mode and in a
  // system call, off in the rest of usertrap and usertrapret.
  predicate BaseOk(pc: Pc, base: bool) {
    match pc
    case Trapped | Served | Ret => !base
    case YieldAcq(f) => base == f.Call?
    case YieldHeld(f) => base == f.Call?
    case YieldSw(f) => base == f.Call?
    case YieldEnd(f) => base == f.Call?
    case FirstRet | FirstOff | ExitDead | ExitDrop | ExitSched => true
    case ExitAcq(_) | ExitStart(_) | ExitWake(_, _) | ExitSelf(_, _) => true
    case ExitRep(_, _, _) | ExitRepLook(_, _, _) | ExitRepDrop(_, _, _) => true
    case _ => base
  }

  ghost predicate ThreadIrq(procs: seq<Proc>, k: Cpu)
    requires k.code.Thread? && k.code.me < |procs|
  {
    var p := procs[k.code.me];
    BaseOk(k.code.pc, p.base) &&
    match k.code.pc
    case FirstRet | FirstOff | ExitDead => true
    case YieldSw(_) | SleepSw(_) => p.savedOn == p.base
    case _ =>
      if !k.trap.NoTrap? then p.base || k.code.pc.Trapped?
      else if k.irq.noff == 0 then k.irq.on == p.base
      else k.irq.saved == p.base
  }

  ghost predicate IrqOk(procs: seq<Proc>, k: Cpu) {
    && k.irq.noff == Depth(k)
    && (k.irq.noff > 0 ==> !k.irq.on)
    && (!k.trap.NoTrap? ==> CodeDepth(k.code) == 0 && !k.irq.on && (k.irq.noff > 0 ==> !k.irq.saved))
    && (k.code.Thread? ==> k.code.me < |procs| && ThreadIrq(procs, k))
  }

  // ---------- run tokens

  // The process a CPU has popped, runs, or has just switched away from.
  function CodeProc(code: Code): Option<nat> {
    match code
    case Thread(me, _) => Some(me)
    case Sched(Popped(p)) => Some(p)
    case Sched(Got(p)) => Some(p)
    case Sched(Back(p)) => Some(p)
    case _ => None
  }

  // What c->proc must be.
  function CurProc(code: Code): Option<nat> {
    match code
    case Thread(me, _) => Some(me)
    case Sched(Back(p)) => Some(p)
    case _ => None
  }

  // The context is saved and will restore the thread's own interrupt state.
  predicate Resumable(p: Proc) {
    p.ctx.FirstRet? || ((p.ctx.YieldSw? || p.ctx.SleepSw?) && p.savedOn == p.base && BaseOk(p.ctx, p.base))
  }

  predicate Ready(p: Proc) { p.state == Runnable && Resumable(p) }

  predicate AsleepOk(p: Proc, me: nat) {
    p.state == Sleeping && p.ctx.SleepSw? && p.savedOn == p.base && p.base && p.chan == ChanOf(p.ctx.w, me)
  }

  predicate Resting(p: Proc, me: nat) {
    || p.state == Unused
    || (p.state == Used && p.ctx.FirstRet?)
    || AsleepOk(p, me)
    || (p.state == Zombie && p.ctx.ExitDead?)
  }

  predicate CodeState(p: Proc, me: nat, code: Code) {
    match code
    case Sched(Popped(_)) => Ready(p)
    case Sched(Got(_)) => Ready(p)
    case Sched(Back(_)) =>
      Ready(p) || AsleepOk(p, me) || (p.state == Zombie && p.ctx.ExitDead?)
    case Sched(_) => true
    case Thread(_, pc) =>
      match pc
      case ExitDead => false
      case ExitDrop | ExitSched => p.state == Zombie
      case ExecEnd => p.state == Runnable
      case _ => p.state == Running || p.state == Runnable
  }

  ghost predicate TokCpu(procs: seq<Proc>, c: nat, k: Cpu) {
    && k.proc == CurProc(k.code)
    && (var o := CodeProc(k.code);
        o.Some? ==> o.value < |procs| && procs[o.value].at == OnCpu(c) && CodeState(procs[o.value], o.value, k.code))
    && (var o := Pushing(k);
        o.Some? ==> o.value < |procs| && procs[o.value].at == Waking(c))
  }

  ghost predicate TokProc(procs: seq<Proc>, cpus: seq<Cpu>, queue: seq<nat>, p: nat)
    requires p < |procs|
  {
    match procs[p].at
    case Nowhere => Resting(procs[p], p)
    case InQueue => p in queue && Ready(procs[p])
    case OnCpu(c) => c < |cpus| && CodeProc(cpus[c].code) == Some(p)
    case Waking(c) => c < |cpus| && Pushing(cpus[c]) == Some(p) && Ready(procs[p])
  }

  ghost predicate QueueInv(procs: seq<Proc>, queue: seq<nat>) {
    && (forall i :: 0 <= i < |queue| ==> queue[i] < |procs| && procs[queue[i]].at.InQueue?)
    && (forall i, j :: 0 <= i < j < |queue| ==> queue[i] != queue[j])
  }

  ghost predicate TokInv(procs: seq<Proc>, cpus: seq<Cpu>, queue: seq<nat>) {
    && (forall c :: 0 <= c < |cpus| ==> TokCpu(procs, c, cpus[c]))
    && (forall p :: 0 <= p < |procs| ==> TokProc(procs, cpus, queue, p))
    && QueueInv(procs, queue)
  }

  // ---------- the process tree, process ids and exit statuses

  ghost predicate ParentOk(procs: seq<Proc>, p: nat)
    requires p < |procs|
  {
    procs[p].parent.Some? ==>
      var r := procs[p].parent.value;
      && r < |procs| && procs[r].state != Unused && procs[r].state != Used
      && procs[r].pid < procs[p].pid
      && (procs[r].state == Zombie ==> r == 0)
  }

  ghost predicate ProcTree(procs: seq<Proc>, nextPid: int, dead: map<int, int>, p: nat)
    requires p < |procs|
  {
    var q := procs[p];
    && ParentOk(procs, p)
    && (q.state == Unused || q.state == Used ==> q.parent.None?)
    && (q.state != Unused && q.state != Used && p != 0 ==> q.parent.Some?)
    && (q.state != Unused ==> 1 <= q.pid < nextPid && (p != 0 ==> q.pid > 1))
    && (q.state == Zombie ==> q.pid in dead && dead[q.pid] == q.exitCode && (q.parent == q.under || q.parent == Some(0)))
    && (q.state != Unused && q.state != Zombie ==> q.pid !in dead)
  }

  ghost predicate RootOk(procs: seq<Proc>) {
    && |procs| > 0
    && procs[0].state != Unused && procs[0].state != Used && procs[0].pid == 1 && procs[0].parent.None?
  }

  ghost predicate PidsInv(procs: seq<Proc>) {
    forall p, q :: 0 <= p < q < |procs| && procs[p].state != Unused && procs[q].state != Unused ==> procs[p].pid != procs[q].pid
  }

  ghost predicate LogInv(procs: seq<Proc>, nextPid: int, dead: map<int, int>, reaped: seq<(int, int)>) {
    && (forall x :: x in dead ==> x < nextPid)
    && (forall j :: 0 <= j < |reaped| ==> reaped[j].0 in dead && dead[reaped[j].0] == reaped[j].1)
    && (forall i, j :: 0 <= i < j < |reaped| ==> reaped[i].0 != reaped[j].0)
    && (forall j, p :: 0 <= j < |reaped| && 0 <= p < |procs| && procs[p].state != Unused ==> reaped[j].0 != procs[p].pid)
  }

  ghost predicate TreeInv(procs: seq<Proc>, nextPid: int, dead: map<int, int>, reaped: seq<(int, int)>) {
    && RootOk(procs)
    && nextPid >= 2
    && (forall p :: 0 <= p < |procs| ==> ProcTree(procs, nextPid, dead, p))
    && PidsInv(procs)
    && LogInv(procs, nextPid, dead, reaped)
  }

  ghost predicate NoChildBelow(procs: seq<Proc>, me: nat, i: nat) {
    forall q :: 0 <= q < i && q < |procs| && q != me && procs[q].parent == Some(me) ==> me == 0
  }

  ghost predicate Fresh(procs: seq<Proc>, np: nat, k: int)
    requires np < |procs|
  {
    procs[np].state == Used && procs[np].pid == k && procs[np].at.Nowhere?
  }

  ghost predicate IsChild(procs: seq<Proc>, me: nat, np: nat, k: int)
    requires np < |procs|
  {
    procs[np].state != Unused && procs[np].pid == k && procs[np].parent == Some(me)
  }

  // What a thread inside fork, wait or exit knows about the table.
  ghost predicate TreePc(procs: seq<Proc>, me: nat, pc: Pc)
    requires me < |procs|
  {
    var n := |procs|;
    match pc
    case ForkScan(i) => i <= n
    case ForkSlot(i) => i < n
    case ForkSkip(i) => i < n
    case ForkSelf(np, k) => np < n && np != me && Fresh(procs, np, k) && procs[me].pid < k
    case ForkBoth(np, k) => np < n && np != me && Fresh(procs, np, k) && procs[me].pid < k
    case ForkPush(np, k) => np < n && np != me && IsChild(procs, me, np, k)
    case ForkDropC(np, k) => np < n && np != me && IsChild(procs, me, np, k)
    case ForkDropP(np, k) => np < n && np != me && IsChild(procs, me, np, k)
    case ForkRet(np, k) => np < n && np != me && IsChild(procs, me, np, k)
    case WaitScan(_, i, _) => i <= n
    case WaitLook(_, i, _) => i < n && i != me
    case WaitSkip(_, i, _) => i < n && i != me
    case WaitFreed(i, _) => i < n && i != me
    case ExitWake(_, l) => l.i <= n && (l.ph != Want ==> l.i < n) && l.chan == ParentChan(procs[me].parent)
    case ExitSelf(_, ch) => ch == ParentChan(procs[me].parent)
    case ExitRep(_, ch, i) => i <= n && ch == ParentChan(procs[me].parent) && NoChildBelow(procs, me, i)
    case ExitRepLook(_, ch, i) => i < n && i != me && ch == ParentChan(procs[me].parent) && NoChildBelow(procs, me, i)
    case ExitRepDrop(_, ch, i) => i < n && i != me && ch == ParentChan(procs[me].parent) && NoChildBelow(procs, me, i + 1)
    case _ => true
  }

  ghost predicate TreeCode(procs: seq<Proc>, k: Cpu) {
    && (match k.code
        case Thread(me, pc) => me < |procs| && TreePc(procs, me, pc)
        case Sched(ProbeWant(i)) => i == 0
        case Sched(ProbeLook(i)) => i == 0
        case Sched(ProbeOut(alive)) => alive
        case Sched(_) => true)
    && (k.trap.TrapWake? ==> k.trap.l.i <= |procs| && (k.trap.l.ph != Want ==> k.trap.l.i < |procs|) && k.trap.l.chan == ConsChan)
  }

  // ---------- sleeping and waking

  // Up to where a wakeup loop has passed, and on which channel.  In exit the
  // answer stays the whole table until wait_lock is dropped.
  function LoopUpto(l: Loop): nat { if l.ph == Want || l.ph == Look then l.i else l.i + 1 }

  datatype Sweep = NoSweep | Sweep(ch: Chan, upto: nat)

  function SweepOf(k: Cpu, n: nat): Sweep {
    match k.trap
    case TrapWake(l) => Sweep(l.chan, LoopUpto(l))
    case NoTrap => (
      match k.code
      case Thread(_, ExitWake(_, l)) => Sweep(l.chan, LoopUpto(l))
      case Thread(_, ExitSelf(_, ch)) => Sweep(ch, n)
      case Thread(_, ExitRep(_, ch, _)) => Sweep(ch, n)
      case Thread(_, ExitRepLook(_, ch, _)) => Sweep(ch, n)
      case Thread(_, ExitRepDrop(_, ch, _)) => Sweep(ch, n)
      case _ => NoSweep)
    case _ => NoSweep
  }

  // Thread r has given up its condition lock but is not marked SLEEPING yet.
  predicate Falling(code: Code, r: nat, ch: Chan) {
    code.Thread? && code.me == r && code.pc.SleepSet? && ChanOf(code.pc.w, r) == ch
  }

  ghost predicate SweepOk(procs: seq<Proc>, cpus: seq<Cpu>, k: Cpu) {
    var w := SweepOf(k, |procs|);
    w.Sweep? ==>
      && (forall r :: 0 <= r < w.upto && r < |procs| ==> !Asleep(procs[r], w.ch))
      && (forall d :: 0 <= d < |cpus| && cpus[d].code.Thread? && cpus[d].code.me < w.upto ==>
            !Falling(cpus[d].code, cpus[d].code.me, w.ch))
  }

  ghost predicate SweepInv(procs: seq<Proc>, cpus: seq<Cpu>) {
    forall c :: 0 <= c < |cpus| ==> SweepOk(procs, cpus, cpus[c])
  }

  // Committed console input with a sleeping reader: the interrupt that committed
  // it still holds cons.lock and has not reached the reader yet.
  ghost predicate Coming(cpus: seq<Cpu>, owner: map<Lock, nat>, r: nat) {
    && ConsLock in owner && owner[ConsLock] < |cpus|
    && var t := cpus[owner[ConsLock]].trap;
       t.TrapWake? && LoopUpto(t.l) <= r
  }

  ghost predicate ConsInv(procs: seq<Proc>, cpus: seq<Cpu>, owner: map<Lock, nat>, data: bool) {
    data ==>
      && (forall r :: 0 <= r < |procs| && Asleep(procs[r], ConsChan) ==> Coming(cpus, owner, r))
      && (forall c :: 0 <= c < |cpus| ==> ConsCode(cpus, owner, cpus[c].code))
  }

  ghost predicate ConsCode(cpus: seq<Cpu>, owner: map<Lock, nat>, code: Code) {
    code.Thread? ==>
      match code.pc
      case SleepAcq(w) => w.InWait?
      case SleepHeld(w) => w.InWait?
      case SleepSet(w) => w.InRead? ==> Coming(cpus, owner, code.me)
      case _ => true
  }

  // ---------- wait and exit

  ghost predicate NoMatchBelow(procs: seq<Proc>, me: nat, pid: int, i: nat) {
    forall q :: 0 <= q < i && q < |procs| && q != me ==> !Matches(procs[q], me, pid)
  }

  // Every matching zombie child exited under another parent.
  ghost predicate OnlyInherited(procs: seq<Proc>, me: nat, pid: int) {
    forall q :: 0 <= q < |procs| && Matches(procs[q], me, pid) ==> procs[q].under != Some(me)
  }

  ghost predicate ScanCode(procs: seq<Proc>, code: Code) {
    code.Thread? ==>
      match code.pc
      case WaitScan(pid, i, _) => NoMatchBelow(procs, code.me, pid, i)
      case WaitLook(pid, i, _) => NoMatchBelow(procs, code.me, pid, i)
      case WaitSkip(pid, i, _) => NoMatchBelow(procs, code.me, pid, i + 1)
      case SleepAcq(w) => w.InWait? ==> NoMatchBelow(procs, code.me, w.pid, |procs|)
      case SleepHeld(w) => w.InWait? ==> NoMatchBelow(procs, code.me, w.pid, |procs|)
      case SleepSet(w) => w.InWait? ==> OnlyInherited(procs, code.me, w.pid)
      case _ => true
  }

  ghost predicate ScanProc(procs: seq<Proc>, me: nat)
    requires me < |procs|
  {
    procs[me].state == Sleeping && procs[me].ctx.SleepSw? && procs[me].ctx.w.InWait? ==>
      OnlyInherited(procs, me, procs[me].ctx.w.pid)
  }

  ghost predicate ScanInv(procs: seq<Proc>, cpus: seq<Cpu>) {
    && (forall c :: 0 <= c < |cpus| ==> ScanCode(procs, cpus[c].code))
    && (forall p :: 0 <= p < |procs| ==> ScanProc(procs, p))
  }

  // ---------- all of it

  ghost predicate IrqInv(procs: seq<Proc>, cpus: seq<Cpu>) {
    forall c :: 0 <= c < |cpus| ==> IrqOk(procs, cpus[c])
  }

  ghost predicate TreeCodeInv(procs: seq<Proc>, cpus: seq<Cpu>) {
    forall c :: 0 <= c < |cpus| ==> TreeCode(procs, cpus[c])
  }

  ghost predicate Base(s: State) {
    && LockInv(s.owner, s.cpus)
    && IrqInv(s.procs, s.cpus)
    && TokInv(s.procs, s.cpus, s.queue)
  }

  ghost predicate Inv(s: State) {
    && |s.cpus| > 0
    && s.panic != Assertion
    && Base(s)
    && TreeInv(s.procs, s.nextPid, s.dead, s.reaped)
    && TreeCodeInv(s.procs, s.cpus)
    && SweepInv(s.procs, s.cpus)
    && ConsInv(s.procs, s.cpus, s.owner, s.data)
    && ScanInv(s.procs, s.cpus)
  }

  lemma InitInv(s: State)
    requires Init(s)
    ensures Inv(s)
  {
  }
}
