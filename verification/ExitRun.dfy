/**
 A run of fork, exit and wait on two CPUs, step by step (kernel/proc.c:307-412).  init waits for its
 child and lets go of wait_lock; before init is marked SLEEPING the child is in kexit with
 wait_lock in its hands.  The child's wakeup has to wait for init's own lock, and init's reaping
 for the child's.
 */
module ExitRun {
  import opened ExitWait


  ghost predicate Reaches(s: State, r: State) {
    exists es :: Leads(s, es, r)
  }

  lemma {:induction false} OneMoreStep(s: State, es: seq<Step>, r: State, e: Step)
    requires Leads(s, es, r) && Enabled(r, e)
    ensures Leads(s, es + [e], Do(r, e))
    decreases |es|
  {
    var all := es + [e];
    if es == [] {
      assert all[1..] == [];
    } else {
      OneMoreStep(Do(s, es[0]), es[1..], r, e);
      assert all[0] == es[0] && all[1..] == es[1..] + [e];
    }
  }

  lemma Go(s: State, r: State, e: Step)
    requires Reaches(s, r) && Enabled(r, e)
    ensures Reaches(s, Do(r, e))
  {
    var es :| Leads(s, es, r);
    OneMoreStep(s, es, r, e);
  }

  lemma ByPick(s: State, r: State, c: int, k: int)
    requires Reaches(s, r) && CanPick(r, c, k)
    ensures Reaches(s, Pick(r, c, k))
  {
    Go(s, r, Scheduling(DoPick(c, k)));
  }

  lemma ByYieldDone(s: State, r: State, k: int)
    requires Reaches(s, r) && CanYieldDone(r, k)
    ensures Reaches(s, YieldDone(r, k))
  {
    Go(s, r, Scheduling(DoYieldDone(k)));
  }

  lemma ByForkAlloc(s: State, r: State, k: int, j: int)
    requires Reaches(s, r) && CanForkAlloc(r, k, j)
    ensures Reaches(s, ForkAlloc(r, k, j))
  {
    Go(s, r, Forks(DoForkAlloc(k, j)));
  }

  lemma ByForkLink(s: State, r: State, k: int, j: int)
    requires Reaches(s, r) && CanForkLink(r, k, j)
    ensures Reaches(s, ForkLink(r, k, j))
  {
    Go(s, r, Forks(DoForkLink(k, j)));
  }

  lemma ByForkRun(s: State, r: State, k: int, j: int)
    requires Reaches(s, r) && CanForkRun(r, k, j)
    ensures Reaches(s, ForkRun(r, k, j))
  {
    Go(s, r, Forks(DoForkRun(k, j)));
  }

  lemma ByExit(s: State, r: State, k: int)
    requires Reaches(s, r) && CanExit(r, k)
    ensures Reaches(s, Exit(r, k))
  {
    Go(s, r, Reparents(DoExit(k)));
  }

  lemma ByWait(s: State, r: State, k: int)
    requires Reaches(s, r) && CanWait(r, k)
    ensures Reaches(s, Wait(r, k))
  {
    Go(s, r, Waits(DoWait(k)));
  }

  lemma ByWaitBegin(s: State, r: State, k: int)
    requires Reaches(s, r) && CanWaitBegin(r, k)
    ensures Reaches(s, WaitBegin(r, k))
  {
    Go(s, r, Waits(DoWaitBegin(k)));
  }

  lemma ByScanSkip(s: State, r: State, k: int, j: int)
    requires Reaches(s, r) && CanScanSkip(r, k, j)
    ensures Reaches(s, ScanSkip(r, k, j))
  {
    Go(s, r, Waits(DoScanSkip(k, j)));
  }

  lemma ByScanChild(s: State, r: State, k: int, j: int)
    requires Reaches(s, r) && CanScanChild(r, k, j)
    ensures Reaches(s, ScanChild(r, k, j))
  {
    Go(s, r, Waits(DoScanChild(k, j)));
  }

  lemma BySleep(s: State, r: State, k: int)
    requires Reaches(s, r) && CanSleep(r, k)
    ensures Reaches(s, Sleep(r, k))
  {
    Go(s, r, Sleeps(DoSleep(k)));
  }

  lemma BySleepLock(s: State, r: State, k: int)
    requires Reaches(s, r) && CanSleepLock(r, k)
    ensures Reaches(s, SleepLock(r, k))
  {
    Go(s, r, Sleeps(DoSleepLock(k)));
  }

  lemma BySleepUnguard(s: State, r: State, k: int)
    requires Reaches(s, r) && CanSleepUnguard(r, k)
    ensures Reaches(s, SleepUnguard(r, k))
  {
    Go(s, r, Sleeps(DoSleepUnguard(k)));
  }

  lemma ByExitBegin(s: State, r: State, k: int)
    requires Reaches(s, r) && CanExitBegin(r, k)
    ensures Reaches(s, ExitBegin(r, k))
  {
    Go(s, r, Reparents(DoExitBegin(k)));
  }

  lemma ByReparentSkip(s: State, r: State, k: int, j: int)
    requires Reaches(s, r) && CanReparentSkip(r, k, j)
    ensures Reaches(s, ReparentSkip(r, k, j))
  {
    Go(s, r, Reparents(DoReparentSkip(k, j)));
  }

  lemma ByReparentDone(s: State, r: State, k: int)
    requires Reaches(s, r) && CanReparentDone(r, k)
    ensures Reaches(s, ReparentDone(r, k))
  {
    Go(s, r, Reparents(DoReparentDone(k)));
  }

  lemma BySleepMark(s: State, r: State, k: int)
    requires Reaches(s, r) && CanSleepMark(r, k)
    ensures Reaches(s, SleepMark(r, k))
  {
    Go(s, r, Sleeps(DoSleepMark(k)));
  }

  lemma BySwitch(s: State, r: State, k: int)
    requires Reaches(s, r) && CanSwitch(r, k)
    ensures Reaches(s, Switch(r, k))
  {
    Go(s, r, Scheduling(DoSwitch(k)));
  }

  lemma ByDrop(s: State, r: State, c: int)
    requires Reaches(s, r) && CanDrop(r, c)
    ensures Reaches(s, Drop(r, c))
  {
    Go(s, r, Scheduling(DoDrop(c)));
  }

  lemma ByParentWakeOne(s: State, r: State, k: int, i: int)
    requires Reaches(s, r) && CanParentWakeOne(r, k, i)
    ensures Reaches(s, ParentWakeOne(r, k, i))
  {
    Go(s, r, Exits(DoParentWakeOne(k, i)));
  }

  lemma ByParentWakeSkip(s: State, r: State, k: int, i: int)
    requires Reaches(s, r) && CanParentWakeSkip(r, k, i)
    ensures Reaches(s, ParentWakeSkip(r, k, i))
  {
    Go(s, r, Exits(DoParentWakeSkip(k, i)));
  }

  lemma ByParentDone(s: State, r: State, k: int)
    requires Reaches(s, r) && CanParentDone(r, k)
    ensures Reaches(s, ParentDone(r, k))
  {
    Go(s, r, Exits(DoParentDone(k)));
  }

  lemma ByExitLock(s: State, r: State, k: int)
    requires Reaches(s, r) && CanExitLock(r, k)
    ensures Reaches(s, ExitLock(r, k))
  {
    Go(s, r, Exits(DoExitLock(k)));
  }

  lemma ByExitMark(s: State, r: State, k: int)
    requires Reaches(s, r) && CanExitMark(r, k)
    ensures Reaches(s, ExitMark(r, k))
  {
    Go(s, r, Exits(DoExitMark(k)));
  }

  lemma ByExitUnlock(s: State, r: State, k: int)
    requires Reaches(s, r) && CanExitUnlock(r, k)
    ensures Reaches(s, ExitUnlock(r, k))
  {
    Go(s, r, Exits(DoExitUnlock(k)));
  }

  lemma BySleepDone(s: State, r: State, k: int)
    requires Reaches(s, r) && CanSleepDone(r, k)
    ensures Reaches(s, SleepDone(r, k))
  {
    Go(s, r, Sleeps(DoSleepDone(k)));
  }

  lemma ByReap(s: State, r: State, k: int, j: int)
    requires Reaches(s, r) && CanReap(r, k, j)
    ensures Reaches(s, Reap(r, k, j))
  {
    Go(s, r, Waits(DoReap(k, j)));
  }

  function S0(): (s: State) {
    State([Proc(Runnable, -1, false, -1, Fresh, -1, -1, 0, 0),
           Proc(Unused, -1, false, -1, Blank, -1, -1, 0, 0)],
          [Idle, Idle], [-1, -1], -1, 0)
  }

  function S2(): (s: State) {
    State([Proc(Running, -1, false, -1, Ready, 0, -1, 0, 0),
           Proc(Unused, -1, false, -1, Blank, -1, -1, 0, 0)],
          [Runs(0), Idle], [-1, -1], -1, 0)
  }

  function S5(): (s: State) {
    State([Proc(Running, -1, false, -1, Ready, 0, -1, 0, 0),
           Proc(Runnable, -1, false, 0, Fresh, -1, 0, 0, 0)],
          [Runs(0), Idle], [-1, -1], -1, 0)
  }

  function S8(): (s: State) {
    State([Proc(Running, -1, false, -1, Ready, 0, -1, 0, 0),
           Proc(Running, -1, false, 0, WantExit, 1, 0, 0, 0)],
          [Runs(0), Runs(1)], [-1, -1], -1, 0)
  }

  function S12(): (s: State) {
    State([Proc(Running, -1, false, -1, Scanning(2, true), 0, -1, 0, 0),
           Proc(Running, -1, false, 0, WantExit, 1, 0, 0, 0)],
          [Runs(0), Runs(1)], [-1, -1], 0, 0)
  }

  function S15(): (s: State) {
    State([Proc(Running, -1, false, -1, WaitUnguarded, 0, -1, 0, 0),
           Proc(Running, -1, false, 0, WantExit, 1, 0, 0, 0)],
          [Runs(0), Runs(1)], [0, -1], -1, 0)
  }

  function S19(): (s: State) {
    State([Proc(Running, -1, false, -1, WaitUnguarded, 0, -1, 0, 0),
           Proc(Running, -1, false, 0, ParentWake(0), 1, 0, 0, 0)],
          [Runs(0), Runs(1)], [0, -1], 1, 0)
  }

  function S22(): (s: State) {
    State([Proc(Sleeping, 0, false, -1, WaitAsleep, -1, -1, 0, 0),
           Proc(Running, -1, false, 0, ParentWake(0), 1, 0, 0, 0)],
          [Idle, Runs(1)], [-1, -1], 1, 0)
  }

  function S25(): (s: State) {
    State([Proc(Runnable, 0, false, -1, WaitAsleep, -1, -1, 0, 0),
           Proc(Running, -1, false, 0, ExitReady, 1, 0, 0, 0)],
          [Idle, Runs(1)], [-1, -1], 1, 0)
  }

  function S28(): (s: State) {
    State([Proc(Runnable, 0, false, -1, WaitAsleep, -1, -1, 0, 0),
           Proc(Zombie, -1, false, 0, ExitUnguarded, 1, 0, 1, 0)],
          [Idle, Runs(1)], [-1, 1], -1, 0)
  }

  function S32(): (s: State) {
    State([Proc(Running, -1, false, -1, Scanning(1, false), 0, -1, 0, 0),
           Proc(Zombie, -1, false, 0, ExitUnguarded, 1, 0, 1, 0)],
          [Runs(0), Runs(1)], [-1, 1], 0, 0)
  }

  function S35(): (s: State) {
    State([Proc(Running, -1, false, -1, Ready, 0, -1, 0, 0),
           Proc(Unused, -1, false, -1, Blank, -1, 0, 1, 1)],
          [Runs(0), Idle], [-1, -1], -1, 0)
  }

  /** init gets a CPU. */
  lemma InitStarts(s: State)
    requires Reaches(s, S0())
    ensures Reaches(s, S2())
  {
    var a0 := S0();
    ByPick(s, a0, 0, 0);
    var a1 := Pick(a0, 0, 0);
    ByYieldDone(s, a1, 0);
    var a2 := YieldDone(a1, 0);
    assert a2 == S2();
  }

  /** It makes process 1. */
  lemma InitForks(s: State)
    requires Reaches(s, S2())
    ensures Reaches(s, S5())
  {
    var a0 := S2();
    ByForkAlloc(s, a0, 0, 1);
    var a1 := ForkAlloc(a0, 0, 1);
    ByForkLink(s, a1, 0, 1);
    var a2 := ForkLink(a1, 0, 1);
    ByForkRun(s, a2, 0, 1);
    var a3 := ForkRun(a2, 0, 1);
    assert a3 == S5();
  }

  /** Process 1 calls kexit. */
  lemma ChildStarts(s: State)
    requires Reaches(s, S5())
    ensures Reaches(s, S8())
  {
    var a0 := S5();
    ByPick(s, a0, 1, 1);
    var a1 := Pick(a0, 1, 1);
    ByYieldDone(s, a1, 1);
    var a2 := YieldDone(a1, 1);
    ByExit(s, a2, 1);
    var a3 := Exit(a2, 1);
    assert a3 == S8();
  }

  /** init finds in kwait that it has a child, not a zombie. */
  lemma InitScans(s: State)
    requires Reaches(s, S8())
    ensures Reaches(s, S12())
  {
    var a0 := S8();
    ByWait(s, a0, 0);
    var a1 := Wait(a0, 0);
    ByWaitBegin(s, a1, 0);
    var a2 := WaitBegin(a1, 0);
    ByScanSkip(s, a2, 0, 0);
    var a3 := ScanSkip(a2, 0, 0);
    ByScanChild(s, a3, 0, 1);
    var a4 := ScanChild(a3, 0, 1);
    assert a4 == S12();
  }

  /** It goes to sleep and lets go of wait_lock. */
  lemma InitLetsGo(s: State)
    requires Reaches(s, S12())
    ensures Reaches(s, S15())
  {
    var a0 := S12();
    BySleep(s, a0, 0);
    var a1 := Sleep(a0, 0);
    BySleepLock(s, a1, 0);
    var a2 := SleepLock(a1, 0);
    BySleepUnguard(s, a2, 0);
    var a3 := SleepUnguard(a2, 0);
    assert a3 == S15();
  }

  /** Process 1 takes wait_lock; it has no children of its own. */
  lemma ChildGoesOn(s: State)
    requires Reaches(s, S15())
    ensures Reaches(s, S19())
  {
    var a0 := S15();
    ByExitBegin(s, a0, 1);
    var a1 := ExitBegin(a0, 1);
    ByReparentSkip(s, a1, 1, 0);
    var a2 := ReparentSkip(a1, 1, 0);
    ByReparentSkip(s, a2, 1, 1);
    var a3 := ReparentSkip(a2, 1, 1);
    ByReparentDone(s, a3, 1);
    var a4 := ReparentDone(a3, 1);
    assert a4 == S19();
  }

  /** Only now is init marked SLEEPING, and switches off. */
  lemma InitSleeps(s: State)
    requires Reaches(s, S19())
    ensures Reaches(s, S22())
  {
    var a0 := S19();
    BySleepMark(s, a0, 0);
    var a1 := SleepMark(a0, 0);
    BySwitch(s, a1, 0);
    var a2 := Switch(a1, 0);
    ByDrop(s, a2, 0);
    var a3 := Drop(a2, 0);
    assert a3 == S22();
  }

  /** Process 1 wakes init. */
  lemma ChildWakesInit(s: State)
    requires Reaches(s, S22())
    ensures Reaches(s, S25())
  {
    var a0 := S22();
    ByParentWakeOne(s, a0, 1, 0);
    var a1 := ParentWakeOne(a0, 1, 0);
    ByParentWakeSkip(s, a1, 1, 1);
    var a2 := ParentWakeSkip(a1, 1, 1);
    ByParentDone(s, a2, 1);
    var a3 := ParentDone(a2, 1);
    assert a3 == S25();
  }

  /** It is a zombie, still on its CPU. */
  lemma ChildMarked(s: State)
    requires Reaches(s, S25())
    ensures Reaches(s, S28())
  {
    var a0 := S25();
    ByExitLock(s, a0, 1);
    var a1 := ExitLock(a0, 1);
    ByExitMark(s, a1, 1);
    var a2 := ExitMark(a1, 1);
    ByExitUnlock(s, a2, 1);
    var a3 := ExitUnlock(a2, 1);
    assert a3 == S28();
  }

  /** init is back in kwait and has come to process 1. */
  lemma InitBack(s: State)
    requires Reaches(s, S28())
    ensures Reaches(s, S32())
  {
    var a0 := S28();
    ByPick(s, a0, 0, 0);
    var a1 := Pick(a0, 0, 0);
    BySleepDone(s, a1, 0);
    var a2 := SleepDone(a1, 0);
    ByWaitBegin(s, a2, 0);
    var a3 := WaitBegin(a2, 0);
    ByScanSkip(s, a3, 0, 0);
    var a4 := ScanSkip(a3, 0, 0);
    assert a4 == S32();
  }

  /** Once process 1 has switched off, init reaps it. */
  lemma ChildReaped(s: State)
    requires Reaches(s, S32())
    ensures Reaches(s, S35())
  {
    var a0 := S32();
    BySwitch(s, a0, 1);
    var a1 := Switch(a0, 1);
    ByDrop(s, a1, 1);
    var a2 := Drop(a1, 1);
    ByReap(s, a2, 0, 1);
    var a3 := Reap(a2, 0, 1);
    assert a3 == S35();
  }

  lemma Boot()
    ensures Init(S0()) && Reaches(S0(), S0())
  {
    assert Leads(S0(), [], S0());
  }

  lemma Halfway(s: State)
    requires Reaches(s, S0())
    ensures Reaches(s, S19())
  {
    InitStarts(s);
    InitForks(s);
    ChildStarts(s);
    InitScans(s);
    InitLetsGo(s);
    ChildGoesOn(s);
  }

  lemma Rest(s: State)
    requires Reaches(s, S19())
    ensures Reaches(s, S32())
  {
    InitSleeps(s);
    ChildWakesInit(s);
    ChildMarked(s);
    InitBack(s);
  }

  /**
   The run comes through the window between sleep's release of wait_lock and SLEEPING with the child
   about to wake its parent, and through a state where the zombie is found but still on its CPU.
   */
  lemma ChildIsReaped()
    ensures Init(S0()) && Reaches(S0(), S19()) && Reaches(S0(), S32()) && Reaches(S0(), S35())
    ensures S19().procs[0].pc.WaitUnguarded? && S19().procs[1].pc == ParentWake(0)
    ensures S32().procs[1].st == Zombie && S32().procs[1].cpu == 1 && ScansAt(S32(), 0, 1) && !CanReap(S32(), 0, 1)
    ensures S35().procs[1].st == Unused && S35().procs[1].exits == 1 && S35().procs[1].reaps == 1
  {
    Boot();
    Halfway(S0());
    Rest(S0());
    ChildReaped(S0());
  }
}
