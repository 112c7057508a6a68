/**
  A run, from the start of the schedulers, that leaves init asleep over a zombie.
  Init forks a process, which forks a second, which forks a third; init falls
  asleep in wait(-1), the third exits, and the exit of the second hands that zombie
  to init without waking it.  Process p runs on CPU p.
*/
module KernelOrphan {
  import opened KernelState
  import opened KernelSteps
  import opened KernelInv
  import opened KernelOutcomes
  import opened KernelPaths

  function World(procs: seq<Proc>, cpus: seq<Cpu>, queue: seq<nat>, nextPid: int): State {
    State(procs, cpus, map[], queue, nextPid, false, NoPanic, map[], [])
  }

  // In its first system call, before the first lock it takes.
  function Calling(me: nat): Cpu { Cpu(Some(me), Thread(me, Syscall), NoTrap, Irq(true, 0, false)) }

  function Calls(me: nat): Cpu { In(me, Syscall, 0) }

  function Asleep1(): Proc {
    Proc(Sleeping, 1, 0, ProcChan(0), None, SleepSw(InWait(-1)), true, Nowhere, None, true)
  }

  function Zombie4(): Proc {
    Proc(Zombie, 4, 7, NoChan, Some(2), ExitDead, true, Nowhere, Some(2), true)
  }

  function Start0(): State {
    World([Queued(1, None), Blank(), Blank(), Blank()], [Idle(), Idle(), Idle(), Idle()], [0], 2)
  }

  function Forked1(): State {
    World([Live(1, None, 0), Queued(2, Some(0)), Blank(), Blank()], [Calls(0), Idle(), Idle(), Idle()], [1], 3)
  }

  function Forked2(): State {
    World([Live(1, None, 0), Live(2, Some(0), 1), Queued(3, Some(1)), Blank()], [Calls(0), Calls(1), Idle(), Idle()], [2], 4)
  }

  function Forked3(): State {
    World([Live(1, None, 0), Live(2, Some(0), 1), Live(3, Some(1), 2), Queued(4, Some(2))],
          [Calls(0), Calls(1), Calls(2), Idle()], [3], 5)
  }

  function All(): State {
    World([Live(1, None, 0), Live(2, Some(0), 1), Live(3, Some(1), 2), Live(4, Some(2), 3)],
          [Calls(0), Calls(1), Calls(2), Calling(3)], [], 5)
  }

  function Waiting(): State {
    World([Asleep1(), Live(2, Some(0), 1), Live(3, Some(1), 2), Live(4, Some(2), 3)],
          [Off(), Calls(1), Calls(2), Calling(3)], [], 5)
  }

  function Exited(): State {
    World([Asleep1(), Live(2, Some(0), 1), Live(3, Some(1), 2), Zombie4()],
          [Off(), Calls(1), Calls(2), Off()], [], 5).(dead := map[4 := 7])
  }

  // The parent of the zombie stands in front of it in its reparent loop.
  function Before(): State { Facing(Exited(), 2, 2, 0, 3) }

  function After(): State {
    Before().(cpus := [Off(), Calls(1), In(2, ExitRepDrop(0, ProcChan(1), 3), 3), Off()],
              procs := [Asleep1(), Live(2, Some(0), 1), Live(3, Some(1), 2), Zombie4().(parent := Some(0))])
  }

  lemma Reach1()
    ensures Leads(Start0(), Forked1())
  {
    hide Leads;
    var s := Start0();
    Start(s, 0, 0);
    var a := Started(s, 0, 0);
    Fork(a, 0, 0, 1);
    Then(s, a, Forked(a, 0, 0, 1));
    assert Forked(a, 0, 0, 1) == Forked1();
  }

  lemma Reach2()
    ensures Leads(Forked1(), Forked2())
  {
    hide Leads;
    var s := Forked1();
    Start(s, 1, 1);
    var a := Started(s, 1, 1);
    Fork(a, 1, 1, 2);
    Then(s, a, Forked(a, 1, 1, 2));
    assert Forked(a, 1, 1, 2) == Forked2();
  }

  lemma Reach3()
    ensures Leads(Forked2(), Forked3())
  {
    hide Leads;
    var s := Forked2();
    Start(s, 2, 2);
    var a := Started(s, 2, 2);
    Fork(a, 2, 2, 3);
    Then(s, a, Forked(a, 2, 2, 3));
    assert Forked(a, 2, 2, 3) == Forked3();
  }

  lemma Reach4()
    ensures Leads(Forked3(), All())
  {
    hide Leads;
    Start(Forked3(), 3, 3);
    assert Started(Forked3(), 3, 3) == All();
  }

  lemma Reach5()
    ensures Leads(All(), Waiting())
  {
    hide Leads;
    assert Kids(All().procs, 0, 2);
    assert Kids(All().procs, 0, 4);
    Wait(All(), 0, 0, -1);
    assert Slept(All(), 0, 0, -1) == Waiting();
  }

  lemma Reach6()
    ensures Leads(Waiting(), Exited())
  {
    hide Leads;
    Exit(Waiting(), 3, 3, 7);
    assert Gone(Waiting(), 3, 3, 7) == Exited();
  }

  lemma Reach7()
    ensures Leads(Exited(), Before())
  {
    hide Leads;
    ExitTo(Exited(), 2, 2, 0, 3);
  }

  lemma ReachAll()
    ensures Leads(Start0(), Before())
  {
    hide Leads, Start0, Forked1, Forked2, Forked3, All, Waiting, Exited, Before;
    Reach1();
    Reach2();
    Reach3();
    Reach4();
    Reach5();
    Reach6();
    Reach7();
    Then(Start0(), Forked1(), Forked2());
    Then(Start0(), Forked2(), Forked3());
    Then(Start0(), Forked3(), All());
    Then(Start0(), All(), Waiting());
    Then(Start0(), Waiting(), Exited());
    Then(Start0(), Exited(), Before());
  }

  lemma LastStep()
    ensures Next(Before(), After())
    ensures !Missed(Before(), 0, -1, 3) && Missed(After(), 0, -1, 3)
  {
    var s, s' := Before(), After();
    assert s'.procs == s.procs[3 := s'.procs[3]] && s'.cpus == s.cpus[2 := s'.cpus[2]];
    assert Reparent(s, s', 2);
    assert CpuNext(s, s', 2);
    assert s'.procs[0] == Asleep1() && WaitsIn(s', 0, -1);
  }

  lemma StartIsInit()
    ensures Init(Start0())
  {
  }

  lemma {:induction false} Extend(s: State, t: State, u: State)
    requires Init(s) && Leads(s, t) && Next(t, u)
    ensures exists r, i: nat :: IsRun(r) && i + 1 < |r| && r[i] == t && r[i + 1] == u
  {
    hide Init, Next;
    var q :| IsPath(q) && q[0] == s && q[|q| - 1] == t;
    var r := q + [u];
    forall i | 0 <= i < |r| - 1 ensures Next(r[i], r[i + 1]) {
      if i < |q| - 1 { assert Next(q[i], q[i + 1]); }
    }
    var i := |q| - 1;
    assert IsRun(r) && r[i] == t && r[i + 1] == u;
  }

  // There is a run in which one step of exit leaves init asleep in wait(-1) over a
  // zombie child that this wait would return.
  lemma OrphanMissed()
    ensures exists r, i: nat :: IsRun(r) && i + 1 < |r| && !Missed(r[i], 0, -1, 3) && Missed(r[i + 1], 0, -1, 3)
  {
    hide Leads, Init, Next, Missed, Start0, Before, After, IsRun;
    StartIsInit();
    ReachAll();
    LastStep();
    Extend(Start0(), Before(), After());
    var r, i: nat :| IsRun(r) && i + 1 < |r| && r[i] == Before() && r[i + 1] == After();
    assert !Missed(r[i], 0, -1, 3) && Missed(r[i + 1], 0, -1, 3);
  }
}
