/**
  How the harts come up (os/main.c:104-224, os/entry.S:1-17): the boot hart starts the
  others one at a time, lends each the boot stack and the temporary page tables, and
  overwrites those tables when it has started them all.
*/
module Boot {
  // A secondary hart; id is its cpuid.
  //   Entry      in secondarycpu_entry: boot stack, no translation yet
  //   Relocating in secondarycpu_relocating: boot stack, temporary tables
  //   Up         in secondarycpu_init: own stack, kernel_pagetable; about to read booted_count
  //   Counting   it read value, and will write value + 1
  //   Spinning   waiting for halt_specific_init
  //   Running    past it
  datatype Hart = Off | Entry(id: nat) | Relocating(id: nat) | Up(id: nat) | Counting(id: nat, value: nat) | Spinning(id: nat) | Running(id: nat)

  // The boot hart: OnBootStack until bootcpu_init; then its loop over hart ids, at Next,
  // with booted_count saved at Asking, and waiting for it to change at Waiting; then
  // Wiping, PlatformInit and Scheduler.
  datatype Pc = OnBootStack | Next | Asking(saved: nat) | Waiting(saved: nat) | Wiping | PlatformInit | Scheduler

  datatype State = State(boot: nat, pc: Pc, i: nat, cpuid: nat, harts: seq<Hart>, count: nat, wiped: bool, go: bool)

  predicate OnStack(h: Hart) { h.Entry? || h.Relocating? }
  predicate OnTemporary(h: Hart) { h.Entry? || h.Relocating? }
  predicate Busy(h: Hart) { h.Entry? || h.Relocating? || h.Up? || h.Counting? }
  predicate Started(h: Hart) { !h.Off? }

  ghost predicate Init(s: State) { Power(s) && s.boot < |s.harts| }

  // The same without the assumption that the boot hart's id is below NCPU.
  ghost predicate Power(s: State) {
    && s.pc == OnBootStack && s.i == 0 && s.cpuid == 1 && s.count == 0 && !s.wiped && !s.go
    && forall h :: 0 <= h < |s.harts| ==> s.harts[h] == Off
  }

  // A step of the boot hart.
  predicate BootNext(s: State, t: State) {
    match s.pc
    case OnBootStack => t == s.(pc := Next)
    case Next =>
      if s.i >= |s.harts| then t == s.(pc := Wiping)
      else if s.i == s.boot then t == s.(i := s.i + 1)
      else t == s.(pc := Asking(s.count))
    case Asking(saved) =>
      s.i < |s.harts| &&
      (t == s.(pc := Next, i := s.i + 1) ||
       t == s.(pc := Waiting(saved), harts := s.harts[s.i := Entry(s.cpuid)]))
    case Waiting(saved) => s.count != saved && t == s.(pc := Next, i := s.i + 1, cpuid := s.cpuid + 1)
    case Wiping => t == s.(pc := PlatformInit, wiped := true)
    case PlatformInit => t == s.(pc := Scheduler, go := true)
    case Scheduler => t == s
  }

  // A step of secondary hart h.
  predicate HartNext(s: State, t: State, h: nat)
    requires h < |s.harts|
  {
    match s.harts[h]
    case Off => false
    case Entry(id) => t == s.(harts := s.harts[h := Relocating(id)])
    case Relocating(id) => t == s.(harts := s.harts[h := Up(id)])
    case Up(id) => t == s.(harts := s.harts[h := Counting(id, s.count)])
    case Counting(id, value) => t == s.(harts := s.harts[h := Spinning(id)], count := value + 1)
    case Spinning(id) => s.go && t == s.(harts := s.harts[h := Running(id)])
    case Running(_) => t == s
  }

  ghost predicate Step(s: State, t: State) {
    BootNext(s, t) || exists h: nat :: h < |s.harts| && HartNext(s, t, h)
  }

  ghost predicate IsRun(run: seq<State>) {
    && run != [] && Init(run[0])
    && forall k :: 0 < k < |run| ==> Step(run[k - 1], run[k])
  }

  // ---------- the invariant

  // Harts up to i have had their turn; a hart is on its way only while it is waited for.
  ghost predicate Turns(s: State) {
    forall h :: 0 <= h < |s.harts| ==>
      && (Started(s.harts[h]) ==> h != s.boot && (h < s.i || (h == s.i && s.pc.Waiting?)))
      && (Busy(s.harts[h]) ==> h == s.i && s.pc.Waiting?)
  }

  // The number given to a started hart; it is below the next one to give.
  ghost predicate Numbered(s: State) {
    forall h :: 0 <= h < |s.harts| && Started(s.harts[h]) ==>
      && 0 < s.harts[h].id && s.harts[h].id < s.cpuid + (if h == s.i then 1 else 0)
      && forall k :: 0 <= k < h && Started(s.harts[k]) ==> s.harts[k].id < s.harts[h].id
  }

  ghost predicate Waits(s: State) {
    && (s.pc.Asking? ==> s.count == s.pc.saved)
    && (s.pc.Waiting? ==>
      && s.i < |s.harts| && Started(s.harts[s.i]) && s.harts[s.i].id == s.cpuid
      && s.count == s.pc.saved + (if Busy(s.harts[s.i]) then 0 else 1)
      && (s.harts[s.i].Counting? ==> s.harts[s.i].value == s.count))
  }

  // Ids given so far leave one for every hart still to come.
  predicate Room(s: State) {
    && s.boot < |s.harts| && s.i <= |s.harts| && (s.pc.Asking? || s.pc.Waiting? ==> s.i != s.boot && s.i < |s.harts|)
    && 0 < s.cpuid <= s.i + (if s.boot < s.i then 0 else 1)
  }

  ghost predicate Phase(s: State) {
    && (s.pc == OnBootStack ==> s.i == 0)
    && (s.pc in {Wiping, PlatformInit, Scheduler} ==> s.i == |s.harts|)
    && (s.wiped <==> s.pc in {PlatformInit, Scheduler}) && (s.go <==> s.pc == Scheduler)
    && (forall h :: 0 <= h < |s.harts| && s.harts[h].Running? ==> s.go)
  }

  ghost predicate Inv(s: State) { Room(s) && Turns(s) && Numbered(s) && Waits(s) && Phase(s) }

  lemma InitInv(s: State)
    requires Init(s)
    ensures Inv(s)
  {
  }

  lemma BootInv(s: State, t: State)
    requires Inv(s) && BootNext(s, t)
    ensures Inv(t)
  {
    BootTurns(s, t);
    BootNumbered(s, t);
  }

  lemma BootTurns(s: State, t: State)
    requires Inv(s) && BootNext(s, t)
    ensures Room(t) && Turns(t) && Phase(t)
  {
    hide Numbered;
  }

  lemma BootNumbered(s: State, t: State)
    requires Inv(s) && BootNext(s, t)
    ensures Numbered(t) && Waits(t)
  {
    hide Phase;
  }

  lemma HartInv(s: State, t: State, h: nat)
    requires Inv(s) && h < |s.harts| && HartNext(s, t, h)
    ensures Inv(t)
  {
    HartTurns(s, t, h);
    HartNumbered(s, t, h);
  }

  lemma HartTurns(s: State, t: State, h: nat)
    requires Inv(s) && h < |s.harts| && HartNext(s, t, h)
    ensures Room(t) && Turns(t) && Phase(t)
  {
    hide Numbered;
  }

  lemma HartNumbered(s: State, t: State, h: nat)
    requires Inv(s) && h < |s.harts| && HartNext(s, t, h)
    ensures Numbered(t) && Waits(t)
  {
    hide Phase;
  }

  lemma {:induction false} RunInv(run: seq<State>)
    requires IsRun(run)
    ensures Inv(run[|run| - 1])
    decreases |run|
  {
    if |run| == 1 {
      InitInv(run[0]);
    } else {
      var s, t := run[|run| - 2], run[|run| - 1];
      RunInv(run[..|run| - 1]);
      assert Step(s, t);
      if BootNext(s, t) {
        BootInv(s, t);
      } else {
        var h: nat :| h < |s.harts| && HartNext(s, t, h);
        HartInv(s, t, h);
      }
    }
  }

  // ---------- what holds in every state of every run

  // One hart at a time on the boot stack, the boot hart included.
  lemma BootStackAlone(run: seq<State>, h: nat, k: nat)
    requires IsRun(run)
    ensures var s := run[|run| - 1];
      && (h < |s.harts| && k < |s.harts| && OnStack(s.harts[h]) && OnStack(s.harts[k]) ==> h == k)
      && (h < |s.harts| && OnStack(s.harts[h]) ==> s.pc != OnBootStack)
  {
    RunInv(run);
  }

  // The temporary tables are overwritten only when no started hart needs them.
  lemma TablesOutlived(run: seq<State>, h: nat)
    requires IsRun(run)
    ensures var s := run[|run| - 1]; s.wiped && h < |s.harts| ==> !OnTemporary(s.harts[h])
  {
    RunInv(run);
  }

  // The numbers of started harts are distinct, positive (0 is the boot hart's) and below
  // the number of harts, so getcpu's assertion holds.
  lemma NumbersGood(run: seq<State>, h: nat, k: nat)
    requires IsRun(run)
    ensures var s := run[|run| - 1];
      h < |s.harts| && Started(s.harts[h]) ==>
        && 0 < s.harts[h].id < |s.harts|
        && (k < |s.harts| && k != h && Started(s.harts[k]) ==> s.harts[k].id != s.harts[h].id)
  {
    RunInv(run);
    var s := run[|run| - 1];
    if h < |s.harts| && Started(s.harts[h]) {
      if k < |s.harts| && Started(s.harts[k]) && k != h {
        if k < h { assert s.harts[k].id < s.harts[h].id; } else { assert s.harts[h].id < s.harts[k].id; }
      }
    }
  }

  // No increment of booted_count is lost: while the boot hart waits, the count has moved
  // exactly when the hart it waits for is done.
  lemma CountExact(run: seq<State>)
    requires IsRun(run)
    ensures var s := run[|run| - 1];
      s.pc.Waiting? ==> s.i < |s.harts| && (s.count != s.pc.saved <==> s.harts[s.i].Spinning? || s.harts[s.i].Running?)
  {
    RunInv(run);
  }

  // No hart schedules before the boot hart has initialised the platform.
  lemma NoneEarly(run: seq<State>, h: nat)
    requires IsRun(run)
    ensures var s := run[|run| - 1]; h < |s.harts| && s.harts[h].Running? ==> s.go && s.wiped
  {
    RunInv(run);
  }

  // ---------- every other hart is asked for

  // State k of the run asks for hart h, no other state does, and up says whether the hart
  // answered.
  ghost predicate AskedOnce(run: seq<State>, h: nat, k: nat, up: bool) {
    && k + 1 < |run| && run[k].i == h && run[k].pc.Asking? && (run[k + 1].pc.Waiting? <==> up)
    && forall j :: 0 <= j < |run| && run[j].pc.Asking? && run[j].i == h ==> j == k
  }

  ghost predicate AskedFor(run: seq<State>, h: nat, up: bool) { exists k: nat :: AskedOnce(run, h, k, up) }

  // Nobody beyond i has been asked for, and hart i only by the step before.
  ghost predicate InOrder(run: seq<State>)
    requires run != []
  {
    var s := run[|run| - 1];
    forall k :: 0 <= k < |run| && run[k].pc.Asking? ==>
      run[k].i < s.i || (run[k].i == s.i && (s.pc.Waiting? || (s.pc.Asking? && k == |run| - 1)))
  }

  ghost predicate Tried(run: seq<State>)
    requires run != []
  {
    var s := run[|run| - 1];
    forall h: nat :: h < |s.harts| && h != s.boot && (h < s.i || (h == s.i && s.pc.Waiting?)) ==>
      AskedFor(run, h, Started(s.harts[h]))
  }

  function Ups(s: State): set<int> { set h | 0 <= h < |s.harts| && Started(s.harts[h]) }

  // The next number to give counts the harts that came up.
  ghost predicate Counted(s: State) { |Ups(s)| + 1 == s.cpuid + (if s.pc.Waiting? then 1 else 0) }

  // Between Asking and its answer no hart takes a step.
  lemma StepPlace(s: State, t: State)
    requires Inv(s) && Step(s, t)
    ensures t.boot == s.boot && |t.harts| == |s.harts|
    ensures t.cpuid == s.cpuid + (if s.pc.Waiting? && !t.pc.Waiting? then 1 else 0)
    ensures s.pc.Asking? ==> s.i < |s.harts| && !Started(s.harts[s.i]) && !t.pc.Asking? && (t.pc.Waiting? <==> Started(t.harts[s.i]))
    ensures s.i <= t.i
    ensures forall h :: 0 <= h < |s.harts| && !(s.pc.Asking? && h == s.i) ==> (Started(t.harts[h]) <==> Started(s.harts[h]))
    ensures t.pc.Asking? ==> s.pc.Next? && t.i == s.i && s.i != s.boot
    ensures t.pc.Waiting? ==> (s.pc.Asking? || s.pc.Waiting?) && t.i == s.i
    ensures t.i > s.i ==> t.i == s.i + 1 && (s.i == s.boot || s.pc.Asking? || s.pc.Waiting?)
  {
  }

  lemma StepCounted(s: State, t: State)
    requires Inv(s) && Step(s, t) && Counted(s)
    ensures Counted(t)
  {
    StepPlace(s, t);
    hide Inv, Step;
    if s.pc.Asking? && t.pc.Waiting? {
      assert Ups(t) == Ups(s) + {s.i};
    } else {
      assert Ups(t) == Ups(s);
    }
  }

  lemma StillAsked(run: seq<State>, t: State, h: nat, up: bool)
    requires AskedFor(run, h, up) && !(t.pc.Asking? && t.i == h)
    ensures AskedFor(run + [t], h, up)
  {
    var k: nat :| AskedOnce(run, h, k, up);
    assert AskedOnce(run + [t], h, k, up);
  }

  // The facts about the run so far that a step to t keeps.
  lemma MoreTried(run: seq<State>, t: State)
    requires run != [] && Inv(run[|run| - 1]) && Step(run[|run| - 1], t) && InOrder(run) && Tried(run)
    ensures InOrder(run + [t]) && Tried(run + [t])
  {
    var s, more := run[|run| - 1], run + [t];
    StepPlace(s, t);
    hide Inv, Step, AskedFor;
    assert more[|more| - 1] == t && forall k :: 0 <= k < |run| ==> more[k] == run[k];
    forall h: nat | h < |t.harts| && h != t.boot && (h < t.i || (h == t.i && t.pc.Waiting?))
      ensures AskedFor(more, h, Started(t.harts[h]))
    {
      if s.pc.Asking? && h == s.i {
        JustAsked(run, t, Started(t.harts[h]));
      } else {
        StillAsked(run, t, h, Started(s.harts[h]));
      }
    }
  }

  lemma JustAsked(run: seq<State>, t: State, up: bool)
    requires run != [] && run[|run| - 1].pc.Asking? && !t.pc.Asking? && (t.pc.Waiting? <==> up) && InOrder(run)
    ensures AskedFor(run + [t], run[|run| - 1].i, up)
  {
    assert AskedOnce(run + [t], run[|run| - 1].i, |run| - 1, up);
  }

  lemma {:induction false} RunTried(run: seq<State>)
    requires IsRun(run)
    ensures InOrder(run) && Tried(run) && Counted(run[|run| - 1])
    decreases |run|
  {
    var n := |run| - 1;
    if n == 0 {
      assert Ups(run[0]) == {};
    } else {
      assert Step(run[n - 1], run[n]) && IsRun(run[..n]) && run[..n] + [run[n]] == run && run[..n][n - 1] == run[n - 1];
      hide Inv, Counted, InOrder, Tried, Step, IsRun;
      RunTried(run[..n]);
      RunInv(run[..n]);
      StepCounted(run[n - 1], run[n]);
      MoreTried(run[..n], run[n]);
    }
  }

  // When the boot hart has left its loop it has asked for every hart but itself, each
  // exactly once; started are those that answered, and cpuid counts them.
  lemma EveryHartAsked(run: seq<State>, h: nat)
    requires IsRun(run) && (run[|run| - 1].pc == Wiping || run[|run| - 1].wiped)
    ensures var s := run[|run| - 1];
      && s.cpuid - 1 == |Ups(s)|
      && (h < |s.harts| && h != s.boot ==> AskedFor(run, h, Started(s.harts[h])))
  {
    hide AskedFor;
    RunInv(run);
    RunTried(run);
  }

  // And never for itself.
  lemma NeverItself(run: seq<State>, k: nat)
    requires IsRun(run) && k < |run|
    ensures run[k].pc.Asking? ==> run[k].i != run[|run| - 1].boot
  {
    RunInv(run[..k + 1]);
    SameBoot(run, k);
  }

  lemma {:induction false} SameBoot(run: seq<State>, k: nat)
    requires IsRun(run) && k < |run|
    ensures run[k].boot == run[|run| - 1].boot
    decreases |run|
  {
    if k + 1 < |run| {
      SameBoot(run[..|run| - 1], k);
      assert Step(run[|run| - 2], run[|run| - 1]);
    }
  }

  // ---------- the start-up never stops

  lemma Acts(s: State, t: State, h: nat)
    requires h < |s.harts| && HartNext(s, t, h)
    ensures Step(s, t)
  {
  }

  // A started hart goes on unless it waits for the platform, or schedules.
  lemma HartActs(s: State, h: nat)
    requires h < |s.harts| && Started(s.harts[h]) && !s.harts[h].Running? && (s.harts[h].Spinning? ==> s.go)
    ensures exists t :: t != s && HartNext(s, t, h)
  {
    var hart := s.harts[h];
    var next := match hart
      case Entry(id) => Relocating(id)
      case Relocating(id) => Up(id)
      case Up(id) => Counting(id, s.count)
      case Counting(id, _) => Spinning(id)
      case Spinning(id) => Running(id)
      case other => other;
    var t := s.(harts := s.harts[h := next], count := if hart.Counting? then hart.value + 1 else s.count);
    assert t.harts[h] != s.harts[h] && HartNext(s, t, h);
  }

  // Until every started hart schedules, somebody has a step to take: the boot hart, but
  // while it waits the hart it waits for.
  lemma GoesOn(run: seq<State>)
    requires IsRun(run)
    ensures var s := run[|run| - 1];
      (s.pc == Scheduler && forall h :: 0 <= h < |s.harts| && Started(s.harts[h]) ==> s.harts[h].Running?) || exists t :: t != s && Step(s, t)
  {
    RunInv(run);
    var s := run[|run| - 1];
    if s.pc == Scheduler {
      if h: nat :| h < |s.harts| && Started(s.harts[h]) && !s.harts[h].Running? { Goes(s, h); }
    } else if s.pc.Waiting? && s.count == s.pc.saved {
      Goes(s, s.i);
    } else {
      BootActs(s);
    }
  }

  lemma Goes(s: State, h: nat)
    requires h < |s.harts| && Started(s.harts[h]) && !s.harts[h].Running? && (s.harts[h].Spinning? ==> s.go)
    ensures exists t :: t != s && Step(s, t)
  {
    HartActs(s, h);
    var t :| t != s && HartNext(s, t, h);
    Acts(s, t, h);
  }

  lemma BootActs(s: State)
    requires Inv(s) && s.pc != Scheduler && (s.pc.Waiting? ==> s.count != s.pc.saved)
    ensures exists t :: t != s && Step(s, t)
  {
    var t := match s.pc
      case OnBootStack => s.(pc := Next)
      case Next =>
        if s.i >= |s.harts| then s.(pc := Wiping) else if s.i == s.boot then s.(i := s.i + 1) else s.(pc := Asking(s.count))
      case Asking(saved) => s.(pc := Next, i := s.i + 1)
      case Waiting(saved) => s.(pc := Next, i := s.i + 1, cpuid := s.cpuid + 1)
      case Wiping => s.(pc := PlatformInit, wiped := true)
      case PlatformInit => s.(pc := Scheduler, go := true)
      case _ => s;
    assert BootNext(s, t) && t != s;
    assert Step(s, t);
  }

  // ---------- a boot hart with an id outside the loop's range

  // A start-up, whatever the boot hart's id is.
  ghost predicate IsBoot(run: seq<State>, n: nat, boot: nat) {
    && run != [] && Power(run[0]) && |run[0].harts| == n && run[0].boot == boot
    && forall k :: 0 < k < |run| ==> Step(run[k - 1], run[k])
  }

  // Every started hart has a number that getcpu accepts.
  ghost predicate Accepted(s: State) {
    forall h :: 0 <= h < |s.harts| && Started(s.harts[h]) ==> s.harts[h].id < |s.harts|
  }

  // The boot hart at the head of its loop, with the first i harts up and waiting.
  function Harts(n: nat, i: nat): seq<Hart> { seq(n, h requires 0 <= h => if h < i then Spinning(h + 1) else Off) }

  function Head(n: nat, boot: nat, i: nat): State { State(boot, Next, i, i + 1, Harts(n, i), i, false, false) }

  lemma Extend(run: seq<State>, n: nat, boot: nat, t: State)
    requires IsBoot(run, n, boot) && Step(run[|run| - 1], t)
    ensures IsBoot(run + [t], n, boot)
  {
    hide Step, Power;
    var r := run + [t];
    forall k | 0 < k < |r| ensures Step(r[k - 1], r[k]) {
      if k < |run| { assert Step(run[k - 1], run[k]); }
    }
  }

  // The boot hart asks for hart i, which is not itself, and hands it number i + 1.
  lemma Hand(run: seq<State>, n: nat, boot: nat, i: nat) returns (r: seq<State>)
    requires IsBoot(run, n, boot) && run[|run| - 1] == Head(n, boot, i) && i < n <= boot
    ensures r != [] && IsBoot(r, n, boot)
    ensures r[|r| - 1] == Head(n, boot, i).(pc := Waiting(i), harts := Harts(n, i)[i := Entry(i + 1)])
  {
    hide Power;
    var s := Head(n, boot, i);
    var a := s.(pc := Asking(i));
    assert BootNext(s, a);
    Extend(run, n, boot, a);
    r := run + [a];
    var b := a.(pc := Waiting(i), harts := a.harts[i := Entry(i + 1)]);
    assert BootNext(a, b);
    Extend(r, n, boot, b);
    r := r + [b];
  }

  lemma HartStep(run: seq<State>, n: nat, boot: nat, h: nat, t: State)
    requires IsBoot(run, n, boot) && h < |run[|run| - 1].harts| && HartNext(run[|run| - 1], t, h)
    ensures IsBoot(run + [t], n, boot)
  {
    hide Power;
    Extend(run, n, boot, t);
  }

  // It comes up, counts itself, and the boot hart goes on.
  lemma ComeUp(run: seq<State>, n: nat, boot: nat, i: nat) returns (r: seq<State>)
    requires IsBoot(run, n, boot) && i < n
    requires run[|run| - 1] == Head(n, boot, i).(pc := Waiting(i), harts := Harts(n, i)[i := Entry(i + 1)])
    ensures IsBoot(r, n, boot) && r[|r| - 1] == Head(n, boot, i + 1)
  {
    assert run != [];
    hide IsBoot;
    var s := run[|run| - 1];
    var a := s.(harts := s.harts[i := Relocating(i + 1)]);
    HartStep(run, n, boot, i, a);
    var b := a.(harts := a.harts[i := Up(i + 1)]);
    HartStep(run + [a], n, boot, i, b);
    var c := b.(harts := b.harts[i := Counting(i + 1, i)]);
    HartStep(run + [a] + [b], n, boot, i, c);
    var d := c.(harts := c.harts[i := Spinning(i + 1)], count := i + 1);
    HartStep(run + [a] + [b] + [c], n, boot, i, d);
    var e := d.(pc := Next, i := i + 1, cpuid := i + 2);
    assert BootNext(d, e);
    Extend(run + [a] + [b] + [c] + [d], n, boot, e);
    r := run + [a] + [b] + [c] + [d] + [e];
    assert e.harts == Harts(n, i + 1);
  }

  lemma {:induction false} ReachHead(n: nat, boot: nat, i: nat) returns (run: seq<State>)
    requires i < n <= boot
    ensures IsBoot(run, n, boot) && run[|run| - 1] == Head(n, boot, i)
  {
    if i == 0 {
      var s := State(boot, OnBootStack, 0, 1, Harts(n, 0), 0, false, false);
      run := [s];
      assert BootNext(s, Head(n, boot, 0));
      Extend(run, n, boot, Head(n, boot, 0));
      run := run + [Head(n, boot, 0)];
    } else {
      run := ReachHead(n, boot, i - 1);
      run := Hand(run, n, boot, i - 1);
      run := ComeUp(run, n, boot, i - 1);
    }
  }

  // The last hart of the loop gets a number that getcpu refuses.
  lemma Refused(n: nat, boot: nat) returns (run: seq<State>)
    requires 0 < n <= boot
    ensures IsBoot(run, n, boot) && !Accepted(run[|run| - 1])
  {
    run := ReachHead(n, boot, n - 1);
    hide IsBoot;
    run := Hand(run, n, boot, n - 1);
    assert run[|run| - 1].harts[n - 1] == Entry(n);
  }

  // For any number of harts: every start-up gives every hart a number that getcpu
  // accepts if and only if the boot hart's id is below NCPU.
  lemma OutsideHart(n: nat, boot: nat)
    requires n > 0
    ensures boot < n <==> forall run :: IsBoot(run, n, boot) ==> Accepted(run[|run| - 1])
  {
    if boot < n {
      forall run: seq<State> | IsBoot(run, n, boot) ensures Accepted(run[|run| - 1]) {
        assert IsRun(run);
        var s: State := run[|run| - 1];
        forall h | 0 <= h < |s.harts| && Started(s.harts[h]) ensures s.harts[h].id < |s.harts| {
          NumbersGood(run, h, h);
        }
      }
    } else {
      var run := Refused(n, boot);
    }
  }
}
