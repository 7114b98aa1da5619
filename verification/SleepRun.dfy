/**
 A run of the sleep lock on two CPUs, step by step (kernel/sleeplock.c:21-41, kernel/proc.c:539-584).
 Process 1 finds the lock taken and lets go of its spin lock; before it is marked SLEEPING,
 process 0 releases the sleep lock and starts its wakeup sweep.  The sweep has to wait for
 process 1's own lock, wakes it, and process 1 gets the lock.
 */
module SleepRun {
  import opened SleepLock


  ghost predicate Reaches(s: State, r: State) {
    exists es :: Leads(s, es, r)
  }

  lemma {:induction false} OneMoreStep(s: State, es: seq<Step>, r: State, e: Step)
    requires Leads(s, es, r) && Enabled(r, e)
    ensures Leads(s, es + [e], Do(r, e))
    decreases |es|
  {
    var all := es + [e];
    if es == [] {
      assert all[1..] == [];
    } else {
      OneMoreStep(Do(s, es[0]), es[1..], r, e);
      assert all[0] == es[0] && all[1..] == es[1..] + [e];
    }
  }

  lemma Go(s: State, r: State, e: Step)
    requires Reaches(s, r) && Enabled(r, e)
    ensures Reaches(s, Do(r, e))
  {
    var es :| Leads(s, es, r);
    OneMoreStep(s, es, r, e);
  }

  lemma ByLook(s: State, r: State, c: int, k: int)
    requires Reaches(s, r) && CanLook(r, c, k)
    ensures Reaches(s, Look(r, c, k))
  {
    Go(s, r, Scheduling(DoLook(c, k)));
  }

  lemma ByPick(s: State, r: State, c: int)
    requires Reaches(s, r) && CanPick(r, c)
    ensures Reaches(s, Pick(r, c))
  {
    Go(s, r, Scheduling(DoPick(c)));
  }

  lemma ByYieldDone(s: State, r: State, k: int)
    requires Reaches(s, r) && CanYieldDone(r, k)
    ensures Reaches(s, YieldDone(r, k))
  {
    Go(s, r, Scheduling(DoYieldDone(k)));
  }

  lemma ByEnter(s: State, r: State, k: int, l: int)
    requires Reaches(s, r) && CanEnter(r, k, l)
    ensures Reaches(s, Enter(r, k, l))
  {
    Go(s, r, Acquiring(DoEnter(k, l)));
  }

  lemma ByAcquireInner(s: State, r: State, k: int, l: int)
    requires Reaches(s, r) && CanAcquireInner(r, k, l)
    ensures Reaches(s, AcquireInner(r, k, l))
  {
    Go(s, r, Acquiring(DoAcquireInner(k, l)));
  }

  lemma ByTestFree(s: State, r: State, k: int, l: int)
    requires Reaches(s, r) && CanTestFree(r, k, l)
    ensures Reaches(s, TestFree(r, k, l))
  {
    Go(s, r, Acquiring(DoTestFree(k, l)));
  }

  lemma ByAcquired(s: State, r: State, k: int, l: int)
    requires Reaches(s, r) && CanAcquired(r, k, l)
    ensures Reaches(s, Acquired(r, k, l))
  {
    Go(s, r, Acquiring(DoAcquired(k, l)));
  }

  lemma ByTestTaken(s: State, r: State, k: int, l: int)
    requires Reaches(s, r) && CanTestTaken(r, k, l)
    ensures Reaches(s, TestTaken(r, k, l))
  {
    Go(s, r, Acquiring(DoTestTaken(k, l)));
  }

  lemma ByLockSelf(s: State, r: State, k: int, l: int)
    requires Reaches(s, r) && CanLockSelf(r, k, l)
    ensures Reaches(s, LockSelf(r, k, l))
  {
    Go(s, r, Acquiring(DoLockSelf(k, l)));
  }

  lemma ByUnguard(s: State, r: State, k: int, l: int)
    requires Reaches(s, r) && CanUnguard(r, k, l)
    ensures Reaches(s, Unguard(r, k, l))
  {
    Go(s, r, Acquiring(DoUnguard(k, l)));
  }

  lemma ByLeave(s: State, r: State, k: int, l: int)
    requires Reaches(s, r) && CanLeave(r, k, l)
    ensures Reaches(s, Leave(r, k, l))
  {
    Go(s, r, Freeing(DoLeave(k, l)));
  }

  lemma ByReleaseInner(s: State, r: State, k: int, l: int)
    requires Reaches(s, r) && CanReleaseInner(r, k, l)
    ensures Reaches(s, ReleaseInner(r, k, l))
  {
    Go(s, r, Freeing(DoReleaseInner(k, l)));
  }

  lemma ByClear(s: State, r: State, k: int, l: int)
    requires Reaches(s, r) && CanClear(r, k, l)
    ensures Reaches(s, Clear(r, k, l))
  {
    Go(s, r, Freeing(DoClear(k, l)));
  }

  lemma BySkipSelf(s: State, r: State, k: int)
    requires Reaches(s, r) && CanSkipSelf(r, k)
    ensures Reaches(s, SkipSelf(r, k))
  {
    Go(s, r, Freeing(DoSkipSelf(k)));
  }

  lemma ByMark(s: State, r: State, k: int)
    requires Reaches(s, r) && CanMark(r, k)
    ensures Reaches(s, Mark(r, k))
  {
    Go(s, r, Acquiring(DoMark(k)));
  }

  lemma BySwitch(s: State, r: State, k: int)
    requires Reaches(s, r) && CanSwitch(r, k)
    ensures Reaches(s, Switch(r, k))
  {
    Go(s, r, Scheduling(DoSwitch(k)));
  }

  lemma ByDrop(s: State, r: State, c: int)
    requires Reaches(s, r) && CanDrop(r, c)
    ensures Reaches(s, Drop(r, c))
  {
    Go(s, r, Scheduling(DoDrop(c)));
  }

  lemma BySweepLock(s: State, r: State, k: int, j: int)
    requires Reaches(s, r) && CanSweepLock(r, k, j)
    ensures Reaches(s, SweepLock(r, k, j))
  {
    Go(s, r, Freeing(DoSweepLock(k, j)));
  }

  lemma ByWake(s: State, r: State, k: int, j: int)
    requires Reaches(s, r) && CanWake(r, k, j)
    ensures Reaches(s, Wake(r, k, j))
  {
    Go(s, r, Freeing(DoWake(k, j)));
  }

  lemma BySweepNext(s: State, r: State, k: int, j: int)
    requires Reaches(s, r) && CanSweepNext(r, k, j)
    ensures Reaches(s, SweepNext(r, k, j))
  {
    Go(s, r, Freeing(DoSweepNext(k, j)));
  }

  lemma ByReleased(s: State, r: State, k: int, l: int)
    requires Reaches(s, r) && CanReleased(r, k, l)
    ensures Reaches(s, Released(r, k, l))
  {
    Go(s, r, Freeing(DoReleased(k, l)));
  }

  lemma ByTidy(s: State, r: State, k: int)
    requires Reaches(s, r) && CanTidy(r, k)
    ensures Reaches(s, Tidy(r, k))
  {
    Go(s, r, Acquiring(DoTidy(k)));
  }

  lemma ByUnlock(s: State, r: State, k: int)
    requires Reaches(s, r) && CanUnlock(r, k)
    ensures Reaches(s, Unlock(r, k))
  {
    Go(s, r, Acquiring(DoUnlock(k)));
  }

  function S0(): (s: State) {
    State([Proc(Runnable, -1, Yielded(Ready), -1, {}), Proc(Runnable, -1, Yielded(Ready), -1, {})],
          [Idle, Idle], [-1, -1], [Slock(-1, false, -1)])
  }

  function S3(): (s: State) {
    State([Proc(Running, -1, Ready, 0, {}), Proc(Runnable, -1, Yielded(Ready), -1, {})],
          [Runs(0), Idle], [-1, -1], [Slock(-1, false, -1)])
  }

  function S6(): (s: State) {
    State([Proc(Running, -1, Ready, 0, {}), Proc(Running, -1, Ready, 1, {})],
          [Runs(0), Runs(1)], [-1, -1], [Slock(-1, false, -1)])
  }

  function S10(): (s: State) {
    State([Proc(Running, -1, Ready, 0, {0}), Proc(Running, -1, Ready, 1, {})],
          [Runs(0), Runs(1)], [-1, -1], [Slock(-1, true, 0)])
  }

  function S13(): (s: State) {
    State([Proc(Running, -1, Ready, 0, {0}), Proc(Running, -1, SleepEntry(0), 1, {})],
          [Runs(0), Runs(1)], [-1, -1], [Slock(1, true, 0)])
  }

  function S15(): (s: State) {
    State([Proc(Running, -1, Ready, 0, {0}), Proc(Running, -1, SleepUnguarded(0), 1, {})],
          [Runs(0), Runs(1)], [-1, 1], [Slock(-1, true, 0)])
  }

  function S19(): (s: State) {
    State([Proc(Running, -1, Sweeping(0, 1), 0, {}), Proc(Running, -1, SleepUnguarded(0), 1, {})],
          [Runs(0), Runs(1)], [-1, 1], [Slock(0, false, -1)])
  }

  function S22(): (s: State) {
    State([Proc(Running, -1, Sweeping(0, 1), 0, {}), Proc(Sleeping, 0, Asleep(0), -1, {})],
          [Runs(0), Idle], [-1, -1], [Slock(0, false, -1)])
  }

  function S26(): (s: State) {
    State([Proc(Running, -1, Ready, 0, {}), Proc(Runnable, 0, Asleep(0), -1, {})],
          [Runs(0), Idle], [-1, -1], [Slock(-1, false, -1)])
  }

  function S30(): (s: State) {
    State([Proc(Running, -1, Ready, 0, {}), Proc(Running, -1, WantAcquire(0), 1, {})],
          [Runs(0), Runs(1)], [-1, -1], [Slock(-1, false, -1)])
  }

  function S33(): (s: State) {
    State([Proc(Running, -1, Ready, 0, {}), Proc(Running, -1, Ready, 1, {0})],
          [Runs(0), Runs(1)], [-1, -1], [Slock(-1, true, 1)])
  }

  /** Process 0 gets a CPU. */
  lemma Start0(s: State)
    requires Reaches(s, S0())
    ensures Reaches(s, S3())
  {
    var a0 := S0();
    ByLook(s, a0, 0, 0);
    var a1 := Look(a0, 0, 0);
    ByPick(s, a1, 0);
    var a2 := Pick(a1, 0);
    ByYieldDone(s, a2, 0);
    var a3 := YieldDone(a2, 0);
    assert a3 == S3();
  }

  /** So does process 1. */
  lemma Start1(s: State)
    requires Reaches(s, S3())
    ensures Reaches(s, S6())
  {
    var a0 := S3();
    ByLook(s, a0, 1, 1);
    var a1 := Look(a0, 1, 1);
    ByPick(s, a1, 1);
    var a2 := Pick(a1, 1);
    ByYieldDone(s, a2, 1);
    var a3 := YieldDone(a2, 1);
    assert a3 == S6();
  }

  /** Process 0 takes the lock. */
  lemma Take(s: State)
    requires Reaches(s, S6())
    ensures Reaches(s, S10())
  {
    var a0 := S6();
    assert a0.procs[0].held + {0} == {0};
    ByEnter(s, a0, 0, 0);
    var a1 := Enter(a0, 0, 0);
    ByAcquireInner(s, a1, 0, 0);
    var a2 := AcquireInner(a1, 0, 0);
    ByTestFree(s, a2, 0, 0);
    var a3 := TestFree(a2, 0, 0);
    ByAcquired(s, a3, 0, 0);
    var a4 := Acquired(a3, 0, 0);
    assert a4 == S10();
  }

  /** Process 1 finds it taken. */
  lemma FindTaken(s: State)
    requires Reaches(s, S10())
    ensures Reaches(s, S13())
  {
    var a0 := S10();
    ByEnter(s, a0, 1, 0);
    var a1 := Enter(a0, 1, 0);
    ByAcquireInner(s, a1, 1, 0);
    var a2 := AcquireInner(a1, 1, 0);
    ByTestTaken(s, a2, 1, 0);
    var a3 := TestTaken(a2, 1, 0);
    assert a3 == S13();
  }

  /** It lets go of lk. */
  lemma LetGo(s: State)
    requires Reaches(s, S13())
    ensures Reaches(s, S15())
  {
    var a0 := S13();
    ByLockSelf(s, a0, 1, 0);
    var a1 := LockSelf(a0, 1, 0);
    ByUnguard(s, a1, 1, 0);
    var a2 := Unguard(a1, 1, 0);
    assert a2 == S15();
  }

  /** Process 0 clears the lock and starts to sweep. */
  lemma Release(s: State)
    requires Reaches(s, S15())
    ensures Reaches(s, S19())
  {
    var a0 := S15();
    assert a0.procs[0].held - {0} == {};
    ByLeave(s, a0, 0, 0);
    var a1 := Leave(a0, 0, 0);
    ByReleaseInner(s, a1, 0, 0);
    var a2 := ReleaseInner(a1, 0, 0);
    ByClear(s, a2, 0, 0);
    var a3 := Clear(a2, 0, 0);
    BySkipSelf(s, a3, 0);
    var a4 := SkipSelf(a3, 0);
    assert a4 == S19();
  }

  /** Only now is process 1 marked SLEEPING, and switches off. */
  lemma FallAsleep(s: State)
    requires Reaches(s, S19())
    ensures Reaches(s, S22())
  {
    var a0 := S19();
    ByMark(s, a0, 1);
    var a1 := Mark(a0, 1);
    BySwitch(s, a1, 1);
    var a2 := Switch(a1, 1);
    ByDrop(s, a2, 1);
    var a3 := Drop(a2, 1);
    assert a3 == S22();
  }

  /** The sweep finds it. */
  lemma WakeUp(s: State)
    requires Reaches(s, S22())
    ensures Reaches(s, S26())
  {
    var a0 := S22();
    BySweepLock(s, a0, 0, 1);
    var a1 := SweepLock(a0, 0, 1);
    ByWake(s, a1, 0, 1);
    var a2 := Wake(a1, 0, 1);
    BySweepNext(s, a2, 0, 1);
    var a3 := SweepNext(a2, 0, 1);
    ByReleased(s, a3, 0, 0);
    var a4 := Released(a3, 0, 0);
    assert a4 == S26();
  }

  /** Process 1 comes back from sched. */
  lemma ComeBack(s: State)
    requires Reaches(s, S26())
    ensures Reaches(s, S30())
  {
    var a0 := S26();
    ByLook(s, a0, 1, 1);
    var a1 := Look(a0, 1, 1);
    ByPick(s, a1, 1);
    var a2 := Pick(a1, 1);
    ByTidy(s, a2, 1);
    var a3 := Tidy(a2, 1);
    ByUnlock(s, a3, 1);
    var a4 := Unlock(a3, 1);
    assert a4 == S30();
  }

  /** It finds the lock free. */
  lemma TakeInTurn(s: State)
    requires Reaches(s, S30())
    ensures Reaches(s, S33())
  {
    var a0 := S30();
    assert a0.procs[1].held + {0} == {0};
    ByAcquireInner(s, a0, 1, 0);
    var a1 := AcquireInner(a0, 1, 0);
    ByTestFree(s, a1, 1, 0);
    var a2 := TestFree(a1, 1, 0);
    ByAcquired(s, a2, 1, 0);
    var a3 := Acquired(a2, 1, 0);
    assert a3 == S33();
  }

  lemma Boot()
    ensures Init(S0()) && Reaches(S0(), S0())
  {
    assert Leads(S0(), [], S0());
  }

  lemma Halfway(s: State)
    requires Reaches(s, S0())
    ensures Reaches(s, S19())
  {
    Start0(s);
    Start1(s);
    Take(s);
    FindTaken(s);
    LetGo(s);
    Release(s);
  }

  lemma Rest(s: State)
    requires Reaches(s, S19())
    ensures Reaches(s, S33())
  {
    FallAsleep(s);
    WakeUp(s);
    ComeBack(s);
    TakeInTurn(s);
  }

  /**
   The run comes through the window between sleep's release of lk and SLEEPING with wakeup under way, and
   still ends with process 1 holding the lock.
   */
  lemma SleeperGetsTheLock()
    ensures Init(S0()) && Reaches(S0(), S19()) && Reaches(S0(), S33())
    ensures S19().procs[1].pc == SleepUnguarded(0) && S19().procs[0].pc.Sweeping? && !S19().locks[0].locked
    ensures S33().procs[1].held == {0} && S33().procs[0].held == {}
  {
    Boot();
    Halfway(S0());
    Rest(S0());
  }
}
