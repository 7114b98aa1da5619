/**
 Sleep locks (kernel/sleeplock.c) over sleep, wakeup and the scheduler (kernel/proc.c) as a step
 system: any number of processes, CPUs and locks, one instruction at a time in any order.

 A spin lock is given by the CPU that holds it, or -1.  Switching between a process and its CPU's
 scheduler keeps the CPU, so the process's own lock passes along with the CPU.
 */
module SleepLock {
  import opened Seals

  datatype PState = Sleeping | Runnable | Running

  /** Where a process is; "holds lk" and "holds p->lock" are the spin locks it holds there. */
  datatype Pc =
    | Ready                          // outside the code modelled here
    | WantAcquire(l: int)            // about to acquire lk, in acquiresleep or at the end of sleep
    | Testing(l: int)                // holds lk; about to test locked
    | SleepEntry(l: int)             // holds lk; about to acquire p->lock
    | SleepLocked(l: int)            // holds lk and p->lock; about to release lk
    | SleepUnguarded(l: int)         // holds p->lock; about to set the state
    | SleepSet(l: int)               // holds p->lock; SLEEPING; about to call sched
    | Asleep(l: int)                 // switched off in sched
    | Awake(l: int)                  // back from sched; holds p->lock
    | Tidied(l: int)                 // holds p->lock; about to release it
    | Taken(l: int)                  // holds lk; the lock is taken
    | WantRelease(l: int)            // about to acquire lk in releasesleep
    | Releasing(l: int)              // holds lk
    | Sweeping(l: int, j: int)       // holds lk, in wakeup; processes below j are done
    | Waking(l: int, j: int)         // holds lk and process j's lock
    | Woke(l: int, j: int)           // the same; process j does not sleep on l
    | Killing(j: int)                // in kkill; holds process j's lock
    | YieldLocked(back: Pc)          // holds p->lock; about to set RUNNABLE
    | YieldSet(back: Pc)             // holds p->lock; RUNNABLE; about to call sched
    | Yielded(back: Pc)              // switched off in sched
    | Resumed(back: Pc)              // back from sched; holds p->lock

  /** A process; cpu is the CPU it runs on, or -1; held are the sleep locks it has acquired and not released. */
  datatype Proc = Proc(st: PState, chan: int, pc: Pc, cpu: int, held: set<int>)

  /**
   A CPU: its scheduler between processes, holding process k's lock before or after running it, or
   running process k.
   */
  datatype Cpu = Idle | Looking(k: int) | Runs(k: int) | Back(k: int)

  datatype Slock = Slock(inner: int, locked: bool, pid: int)

  datatype State = State(procs: seq<Proc>, cpus: seq<Cpu>, plock: seq<int>, locks: seq<Slock>)

  // ---------- the invariant ----------

  predicate IsProc(s: State, k: int) {
    0 <= k < |s.procs| == |s.plock|
  }

  predicate IsCpu(s: State, c: int) {
    0 <= c < |s.cpus|
  }

  predicate IsLock(s: State, l: int) {
    0 <= l < |s.locks|
  }

  predicate HoldsOwn(pc: Pc) {
    pc.SleepLocked? || pc.SleepUnguarded? || pc.SleepSet? || pc.Awake? || pc.Tidied? || pc.YieldLocked?
      || pc.YieldSet? || pc.Resumed?
  }

  predicate HoldsInner(pc: Pc) {
    pc.Testing? || pc.SleepEntry? || pc.SleepLocked? || pc.Taken? || pc.Releasing? || pc.Sweeping? || pc.Waking?
      || pc.Woke?
  }

  predicate InSleep(pc: Pc) {
    pc.SleepEntry? || pc.SleepLocked? || pc.SleepUnguarded? || pc.SleepSet? || pc.Asleep? || pc.Awake? || pc.Tidied?
  }

  predicate MayYield(pc: Pc) {
    pc.Ready? || pc.WantAcquire? || pc.WantRelease?
  }

  /** The state field agrees with the place. */
  predicate StateAgrees(p: Proc) {
    match p.pc
    case SleepSet(l) => p.st == Sleeping && p.chan == l
    case Asleep(l) => p.st != Running && p.chan == l
    case YieldSet(_) => p.st == Runnable
    case Yielded(_) => p.st == Runnable
    case _ => p.st == Running
  }

  predicate OffCpu(pc: Pc) {
    pc.Asleep? || pc.Yielded?
  }

  /** The lock the place is about. */
  predicate AboutLock(s: State, p: Proc, pc: Pc) {
    match pc
    case WantAcquire(l) => IsLock(s, l)
    case WantRelease(l) => l in p.held
    case _ => true
  }

  predicate ProcOk(s: State, k: int)
    requires IsProc(s, k)
  {
    var p := s.procs[k];
    && (OffCpu(p.pc) <==> p.cpu == -1)
    && (p.cpu != -1 ==> IsCpu(s, p.cpu) && s.cpus[p.cpu] == Runs(k))
    && StateAgrees(p)
    && (HoldsOwn(p.pc) ==> s.plock[k] == p.cpu)
    && (p.pc.Waking? || p.pc.Woke? || p.pc.Killing? ==> IsProc(s, p.pc.j) && s.plock[p.pc.j] == p.cpu)
    && (p.pc.Waking? || p.pc.Woke? ==> p.pc.j != k)
    && (HoldsInner(p.pc) ==> IsLock(s, p.pc.l) && s.locks[p.pc.l].inner == p.cpu)
    && (InSleep(p.pc) ==> IsLock(s, p.pc.l))
    && (p.pc.SleepEntry? || p.pc.SleepLocked? ==> s.locks[p.pc.l].locked)
    && (p.pc.Sweeping? ==> 0 <= p.pc.j <= |s.procs|)
    && (p.pc.Sweeping? || p.pc.Waking? || p.pc.Woke? ==> !s.locks[p.pc.l].locked)
    && (p.pc.Releasing? ==> p.pc.l in p.held)
    && AboutLock(s, p, p.pc)
    && (p.pc.YieldLocked? || p.pc.YieldSet? || p.pc.Yielded? || p.pc.Resumed? ==>
       MayYield(p.pc.back) && AboutLock(s, p, p.pc.back))
    && (forall l :: l in p.held ==> IsLock(s, l) && s.locks[l].locked && s.locks[l].pid == k)
  }

  predicate CpuOk(s: State, c: int)
    requires IsCpu(s, c)
  {
    match s.cpus[c]
    case Idle => true
    case Looking(k) => IsProc(s, k) && s.plock[k] == c
    case Runs(k) => IsProc(s, k) && s.procs[k].cpu == c
    case Back(k) => IsProc(s, k) && s.plock[k] == c
  }

  predicate LockOk(s: State, l: int)
    requires IsLock(s, l)
  {
    s.locks[l].locked ==> IsProc(s, s.locks[l].pid) && l in s.procs[s.locks[l].pid].held
  }

  /** Process p sleeps on l, or has let go of lk and is about to. */
  predicate InWindow(p: Proc, l: int) {
    p.pc == SleepUnguarded(l) || (p.st == Sleeping && p.chan == l)
  }

  /** The holder of lk is in wakeup and has yet to come to process k. */
  predicate WakeupAhead(s: State, k: int, l: int)
    requires IsLock(s, l)
  {
    var c := s.locks[l].inner;
    && IsCpu(s, c) && s.cpus[c].Runs? && IsProc(s, s.cpus[c].k)
    && var pc := s.procs[s.cpus[c].k].pc;
    && (pc.Sweeping? || pc.Waking? || pc.Woke?) && pc.l == l && if pc.Woke? then pc.j < k else pc.j <= k
  }

  /** Who waits for a free lock is about to be woken. */
  predicate WaitOk(s: State, k: int, l: int)
    requires IsProc(s, k) && IsLock(s, l)
  {
    InWindow(s.procs[k], l) ==> s.locks[l].locked || WakeupAhead(s, k, l)
  }

  ghost predicate Order(s: State) {
    && |s.procs| == |s.plock|
    && (forall k :: 0 <= k < |s.procs| ==> ProcOk(s, k))
    && (forall c :: 0 <= c < |s.cpus| ==> CpuOk(s, c))
    && (forall l :: 0 <= l < |s.locks| ==> LockOk(s, l))
    && (forall k, l :: 0 <= k < |s.procs| && 0 <= l < |s.locks| ==> WaitOk(s, k, l))
  }

  /** The invariant, sealed. */
  ghost predicate Inv(s: State) {
    Checked(s).Sound?
  }

  predicate InvKey(z: int, s: State) {
    true
  }

  ghost function Checked(s: State): (r: Verdict) {
    if forall z {:trigger InvKey(z, s)} :: InvKey(z, s) ==> Order(s) then Sound else Broken
  }

  lemma Open(s: State)
    requires Inv(s)
    ensures Order(s)
  {
    assert InvKey(0, s);
  }

  // ---------- steps of the scheduler ----------

  /** The scheduler of CPU c acquires process k's lock. */
  predicate CanLook(s: State, c: int, k: int) {
    IsCpu(s, c) && IsProc(s, k) && s.cpus[c].Idle? && s.plock[k] == -1
  }

  function Look(s: State, c: int, k: int): (r: State)
    requires CanLook(s, c, k)
  {
    s.(cpus := s.cpus[c := Looking(k)], plock := s.plock[k := c])
  }

  lemma LookKeeps(s: State, c: int, k: int)
    requires Inv(s) && CanLook(s, c, k)
    ensures Inv(Look(s, c, k))
  {
    Open(s);
    var r := Look(s, c, k);
    forall x | 0 <= x < |s.procs| ensures ProcOk(r, x) { assert ProcOk(s, x); }
    forall x | 0 <= x < |s.cpus| ensures CpuOk(r, x) { assert CpuOk(s, x); }
    forall x | 0 <= x < |s.locks| ensures LockOk(r, x) { assert LockOk(s, x); }
    forall x, y | 0 <= x < |s.procs| && 0 <= y < |s.locks| ensures WaitOk(r, x, y) { assert WaitOk(s, x, y); }
    assert Order(r);
  }

  /** The process is not RUNNABLE: release its lock. */
  predicate CanPass(s: State, c: int) {
    IsCpu(s, c) && s.cpus[c].Looking? && IsProc(s, s.cpus[c].k) && s.procs[s.cpus[c].k].st != Runnable
  }

  function Pass(s: State, c: int): (r: State)
    requires CanPass(s, c)
  {
    s.(cpus := s.cpus[c := Idle], plock := s.plock[s.cpus[c].k := -1])
  }

  lemma PassKeeps(s: State, c: int)
    requires Inv(s) && CanPass(s, c)
    ensures Inv(Pass(s, c))
  {
    Open(s);
    var r := Pass(s, c);
    assert CpuOk(s, c);
    forall x | 0 <= x < |s.procs| ensures ProcOk(r, x) { assert ProcOk(s, x); }
    forall x | 0 <= x < |s.cpus| ensures CpuOk(r, x) { assert CpuOk(s, x); }
    forall x | 0 <= x < |s.locks| ensures LockOk(r, x) { assert LockOk(s, x); }
    forall x, y | 0 <= x < |s.procs| && 0 <= y < |s.locks| ensures WaitOk(r, x, y) { assert WaitOk(s, x, y); }
    assert Order(r);
  }

  /** Where sched returns to. */
  function Resume(pc: Pc): (r: Pc) {
    match pc
    case Asleep(l) => Awake(l)
    case Yielded(b) => Resumed(b)
    case _ => pc
  }

  /** The process is RUNNABLE: run it; its lock goes with the CPU. */
  predicate CanPick(s: State, c: int) {
    IsCpu(s, c) && s.cpus[c].Looking? && IsProc(s, s.cpus[c].k) && s.procs[s.cpus[c].k].st == Runnable
  }

  function Pick(s: State, c: int): (r: State)
    requires CanPick(s, c)
  {
    var k := s.cpus[c].k;
    var p := s.procs[k];
    s.(procs := s.procs[k := p.(st := Running, pc := Resume(p.pc), cpu := c)], cpus := s.cpus[c := Runs(k)])
  }

  lemma PickKeeps(s: State, c: int)
    requires Inv(s) && CanPick(s, c)
    ensures Inv(Pick(s, c))
  {
    Open(s);
    var r := Pick(s, c);
    assert CpuOk(s, c);
    assert ProcOk(s, s.cpus[c].k);
    forall x | 0 <= x < |s.procs| ensures ProcOk(r, x) { assert ProcOk(s, x); }
    forall x | 0 <= x < |s.cpus| ensures CpuOk(r, x) { assert CpuOk(s, x); }
    forall x | 0 <= x < |s.locks| ensures LockOk(r, x) { assert LockOk(s, x); }
    forall x, y | 0 <= x < |s.procs| && 0 <= y < |s.locks| ensures WaitOk(r, x, y) { assert WaitOk(s, x, y); }
    assert Order(r);
  }

  /** The process is done running for now: release its lock. */
  predicate CanDrop(s: State, c: int) {
    IsCpu(s, c) && s.cpus[c].Back? && IsProc(s, s.cpus[c].k)
  }

  function Drop(s: State, c: int): (r: State)
    requires CanDrop(s, c)
  {
    s.(cpus := s.cpus[c := Idle], plock := s.plock[s.cpus[c].k := -1])
  }

  lemma DropKeeps(s: State, c: int)
    requires Inv(s) && CanDrop(s, c)
    ensures Inv(Drop(s, c))
  {
    Open(s);
    var r := Drop(s, c);
    assert CpuOk(s, c);
    forall x | 0 <= x < |s.procs| ensures ProcOk(r, x) { assert ProcOk(s, x); }
    forall x | 0 <= x < |s.cpus| ensures CpuOk(r, x) { assert CpuOk(s, x); }
    forall x | 0 <= x < |s.locks| ensures LockOk(r, x) { assert LockOk(s, x); }
    forall x, y | 0 <= x < |s.procs| && 0 <= y < |s.locks| ensures WaitOk(r, x, y) { assert WaitOk(s, x, y); }
    assert Order(r);
  }

  // ---------- steps of a process ----------

  predicate On(s: State, k: int) {
    IsProc(s, k) && IsCpu(s, s.procs[k].cpu)
  }

  function To(s: State, k: int, pc: Pc): (procs: seq<Proc>)
    requires IsProc(s, k)
  {
    s.procs[k := s.procs[k].(pc := pc)]
  }

  function Inner(s: State, l: int, c: int): (locks: seq<Slock>)
    requires IsLock(s, l)
  {
    s.locks[l := s.locks[l].(inner := c)]
  }

  /** Call acquiresleep on lock l. */
  predicate CanEnter(s: State, k: int, l: int) {
    On(s, k) && s.procs[k].pc.Ready? && IsLock(s, l)
  }

  function Enter(s: State, k: int, l: int): (r: State)
    requires CanEnter(s, k, l)
  {
    s.(procs := To(s, k, WantAcquire(l)))
  }

  lemma EnterKeeps(s: State, k: int, l: int)
    requires Inv(s) && CanEnter(s, k, l)
    ensures Inv(Enter(s, k, l))
  {
    Open(s);
    var r := Enter(s, k, l);
    assert ProcOk(s, k);
    forall x | 0 <= x < |s.procs| ensures ProcOk(r, x) { assert ProcOk(s, x); }
    forall x | 0 <= x < |s.cpus| ensures CpuOk(r, x) { assert CpuOk(s, x); }
    forall x | 0 <= x < |s.locks| ensures LockOk(r, x) { assert LockOk(s, x); }
    forall x, y | 0 <= x < |s.procs| && 0 <= y < |s.locks| ensures WaitOk(r, x, y) { assert WaitOk(s, x, y); }
    assert Order(r);
  }

  /** Call releasesleep on lock l; only its holder does. */
  predicate CanLeave(s: State, k: int, l: int) {
    On(s, k) && s.procs[k].pc.Ready? && l in s.procs[k].held
  }

  function Leave(s: State, k: int, l: int): (r: State)
    requires CanLeave(s, k, l)
  {
    s.(procs := To(s, k, WantRelease(l)))
  }

  lemma LeaveKeeps(s: State, k: int, l: int)
    requires Inv(s) && CanLeave(s, k, l)
    ensures Inv(Leave(s, k, l))
  {
    Open(s);
    var r := Leave(s, k, l);
    assert ProcOk(s, k);
    forall x | 0 <= x < |s.procs| ensures ProcOk(r, x) { assert ProcOk(s, x); }
    forall x | 0 <= x < |s.cpus| ensures CpuOk(r, x) { assert CpuOk(s, x); }
    forall x | 0 <= x < |s.locks| ensures LockOk(r, x) { assert LockOk(s, x); }
    forall x, y | 0 <= x < |s.procs| && 0 <= y < |s.locks| ensures WaitOk(r, x, y) { assert WaitOk(s, x, y); }
    assert Order(r);
  }

  /** kkill acquires process j's lock. */
  predicate CanKill(s: State, k: int, j: int) {
    On(s, k) && s.procs[k].pc.Ready? && IsProc(s, j) && s.plock[j] == -1
  }

  function Kill(s: State, k: int, j: int): (r: State)
    requires CanKill(s, k, j)
  {
    s.(procs := To(s, k, Killing(j)), plock := s.plock[j := s.procs[k].cpu])
  }

  lemma KillKeeps(s: State, k: int, j: int)
    requires Inv(s) && CanKill(s, k, j)
    ensures Inv(Kill(s, k, j))
  {
    Open(s);
    var r := Kill(s, k, j);
    assert ProcOk(s, k);
    forall x | 0 <= x < |s.procs| ensures ProcOk(r, x) { assert ProcOk(s, x); }
    forall x | 0 <= x < |s.cpus| ensures CpuOk(r, x) { assert CpuOk(s, x); }
    forall x | 0 <= x < |s.locks| ensures LockOk(r, x) { assert LockOk(s, x); }
    forall x, y | 0 <= x < |s.procs| && 0 <= y < |s.locks| ensures WaitOk(r, x, y) { assert WaitOk(s, x, y); }
    assert Order(r);
  }

  function Woken(p: Proc): (r: Proc) {
    p.(st := Runnable)
  }

  /** kkill wakes process j, whatever it sleeps on. */
  predicate CanKillWake(s: State, k: int, j: int) {
    On(s, k) && s.procs[k].pc == Killing(j) && IsProc(s, j) && j != k && s.procs[j].st == Sleeping
  }

  function KillWake(s: State, k: int, j: int): (r: State)
    requires CanKillWake(s, k, j)
  {
    s.(procs := s.procs[j := Woken(s.procs[j])])
  }

  lemma KillWakeKeeps(s: State, k: int, j: int)
    requires Inv(s) && CanKillWake(s, k, j)
    ensures Inv(KillWake(s, k, j))
  {
    Open(s);
    var r := KillWake(s, k, j);
    assert ProcOk(s, k);
    assert ProcOk(s, j);
    forall x | 0 <= x < |s.procs| ensures ProcOk(r, x) { assert ProcOk(s, x); }
    forall x | 0 <= x < |s.cpus| ensures CpuOk(r, x) { assert CpuOk(s, x); }
    forall x | 0 <= x < |s.locks| ensures LockOk(r, x) { assert LockOk(s, x); }
    forall x, y | 0 <= x < |s.procs| && 0 <= y < |s.locks| ensures WaitOk(r, x, y) { assert WaitOk(s, x, y); }
    assert Order(r);
  }

  predicate CanKillDone(s: State, k: int, j: int) {
    On(s, k) && s.procs[k].pc == Killing(j) && IsProc(s, j)
  }

  function KillDone(s: State, k: int, j: int): (r: State)
    requires CanKillDone(s, k, j)
  {
    s.(procs := To(s, k, Ready), plock := s.plock[j := -1])
  }

  lemma KillDoneKeeps(s: State, k: int, j: int)
    requires Inv(s) && CanKillDone(s, k, j)
    ensures Inv(KillDone(s, k, j))
  {
    Open(s);
    var r := KillDone(s, k, j);
    assert ProcOk(s, k);
    forall x | 0 <= x < |s.procs| ensures ProcOk(r, x) { assert ProcOk(s, x); }
    forall x | 0 <= x < |s.cpus| ensures CpuOk(r, x) { assert CpuOk(s, x); }
    forall x | 0 <= x < |s.locks| ensures LockOk(r, x) { assert LockOk(s, x); }
    forall x, y | 0 <= x < |s.procs| && 0 <= y < |s.locks| ensures WaitOk(r, x, y) { assert WaitOk(s, x, y); }
    assert Order(r);
  }

  /** yield acquires p->lock; it is called where no spin lock is held. */
  predicate CanYield(s: State, k: int) {
    On(s, k) && MayYield(s.procs[k].pc) && s.plock[k] == -1
  }

  function Yield(s: State, k: int): (r: State)
    requires CanYield(s, k)
  {
    s.(procs := To(s, k, YieldLocked(s.procs[k].pc)), plock := s.plock[k := s.procs[k].cpu])
  }

  lemma YieldKeeps(s: State, k: int)
    requires Inv(s) && CanYield(s, k)
    ensures Inv(Yield(s, k))
  {
    Open(s);
    var r := Yield(s, k);
    assert ProcOk(s, k);
    forall x | 0 <= x < |s.procs| ensures ProcOk(r, x) { assert ProcOk(s, x); }
    forall x | 0 <= x < |s.cpus| ensures CpuOk(r, x) { assert CpuOk(s, x); }
    forall x | 0 <= x < |s.locks| ensures LockOk(r, x) { assert LockOk(s, x); }
    forall x, y | 0 <= x < |s.procs| && 0 <= y < |s.locks| ensures WaitOk(r, x, y) { assert WaitOk(s, x, y); }
    assert Order(r);
  }

  predicate CanYieldMark(s: State, k: int) {
    On(s, k) && s.procs[k].pc.YieldLocked?
  }

  function YieldMark(s: State, k: int): (r: State)
    requires CanYieldMark(s, k)
  {
    s.(procs := s.procs[k := s.procs[k].(st := Runnable, pc := YieldSet(s.procs[k].pc.back))])
  }

  lemma YieldMarkKeeps(s: State, k: int)
    requires Inv(s) && CanYieldMark(s, k)
    ensures Inv(YieldMark(s, k))
  {
    Open(s);
    var r := YieldMark(s, k);
    assert ProcOk(s, k);
    forall x | 0 <= x < |s.procs| ensures ProcOk(r, x) { assert ProcOk(s, x); }
    forall x | 0 <= x < |s.cpus| ensures CpuOk(r, x) { assert CpuOk(s, x); }
    forall x | 0 <= x < |s.locks| ensures LockOk(r, x) { assert LockOk(s, x); }
    forall x, y | 0 <= x < |s.procs| && 0 <= y < |s.locks| ensures WaitOk(r, x, y) { assert WaitOk(s, x, y); }
    assert Order(r);
  }

  function Parked(pc: Pc): (r: Pc) {
    match pc
    case SleepSet(l) => Asleep(l)
    case YieldSet(b) => Yielded(b)
    case _ => pc
  }

  /** sched: hand the CPU, and with it p->lock, to the scheduler. */
  predicate CanSwitch(s: State, k: int) {
    On(s, k) && (s.procs[k].pc.SleepSet? || s.procs[k].pc.YieldSet?)
  }

  function Switch(s: State, k: int): (r: State)
    requires CanSwitch(s, k)
  {
    var p := s.procs[k];
    s.(procs := s.procs[k := p.(pc := Parked(p.pc), cpu := -1)], cpus := s.cpus[p.cpu := Back(k)])
  }

  lemma SwitchKeeps(s: State, k: int)
    requires Inv(s) && CanSwitch(s, k)
    ensures Inv(Switch(s, k))
  {
    Open(s);
    var r := Switch(s, k);
    assert ProcOk(s, k);
    forall x | 0 <= x < |s.procs| ensures ProcOk(r, x) { assert ProcOk(s, x); }
    forall x | 0 <= x < |s.cpus| ensures CpuOk(r, x) { assert CpuOk(s, x); }
    forall x | 0 <= x < |s.locks| ensures LockOk(r, x) { assert LockOk(s, x); }
    forall x, y | 0 <= x < |s.procs| && 0 <= y < |s.locks| ensures WaitOk(r, x, y) { assert WaitOk(s, x, y); }
    assert Order(r);
  }

  predicate CanYieldDone(s: State, k: int) {
    On(s, k) && s.procs[k].pc.Resumed?
  }

  function YieldDone(s: State, k: int): (r: State)
    requires CanYieldDone(s, k)
  {
    s.(procs := To(s, k, s.procs[k].pc.back), plock := s.plock[k := -1])
  }

  lemma YieldDoneKeeps(s: State, k: int)
    requires Inv(s) && CanYieldDone(s, k)
    ensures Inv(YieldDone(s, k))
  {
    Open(s);
    var r := YieldDone(s, k);
    assert ProcOk(s, k);
    forall x | 0 <= x < |s.procs| ensures ProcOk(r, x) { assert ProcOk(s, x); }
    forall x | 0 <= x < |s.cpus| ensures CpuOk(r, x) { assert CpuOk(s, x); }
    forall x | 0 <= x < |s.locks| ensures LockOk(r, x) { assert LockOk(s, x); }
    forall x, y | 0 <= x < |s.procs| && 0 <= y < |s.locks| ensures WaitOk(r, x, y) { assert WaitOk(s, x, y); }
    assert Order(r);
  }

  /** acquiresleep, or sleep before it returns, acquires lk. */
  predicate CanAcquireInner(s: State, k: int, l: int) {
    On(s, k) && IsLock(s, l) && s.locks[l].inner == -1 && s.procs[k].pc == WantAcquire(l)
  }

  function AcquireInner(s: State, k: int, l: int): (r: State)
    requires CanAcquireInner(s, k, l)
  {
    s.(procs := To(s, k, Testing(l)), locks := Inner(s, l, s.procs[k].cpu))
  }

  lemma AcquireInnerKeeps(s: State, k: int, l: int)
    requires Inv(s) && CanAcquireInner(s, k, l)
    ensures Inv(AcquireInner(s, k, l))
  {
    Open(s);
    var r := AcquireInner(s, k, l);
    assert ProcOk(s, k);
    forall x | 0 <= x < |s.procs| ensures ProcOk(r, x) { assert ProcOk(s, x); }
    forall x | 0 <= x < |s.cpus| ensures CpuOk(r, x) { assert CpuOk(s, x); }
    forall x | 0 <= x < |s.locks| ensures LockOk(r, x) { assert LockOk(s, x); }
    forall x, y | 0 <= x < |s.procs| && 0 <= y < |s.locks| ensures WaitOk(r, x, y) { assert WaitOk(s, x, y); }
    assert Order(r);
  }

  /** releasesleep acquires lk. */
  predicate CanReleaseInner(s: State, k: int, l: int) {
    On(s, k) && IsLock(s, l) && s.locks[l].inner == -1 && s.procs[k].pc == WantRelease(l)
  }

  function ReleaseInner(s: State, k: int, l: int): (r: State)
    requires CanReleaseInner(s, k, l)
  {
    s.(procs := To(s, k, Releasing(l)), locks := Inner(s, l, s.procs[k].cpu))
  }

  lemma ReleaseInnerKeeps(s: State, k: int, l: int)
    requires Inv(s) && CanReleaseInner(s, k, l)
    ensures Inv(ReleaseInner(s, k, l))
  {
    Open(s);
    var r := ReleaseInner(s, k, l);
    assert ProcOk(s, k);
    forall x | 0 <= x < |s.procs| ensures ProcOk(r, x) { assert ProcOk(s, x); }
    forall x | 0 <= x < |s.cpus| ensures CpuOk(r, x) { assert CpuOk(s, x); }
    forall x | 0 <= x < |s.locks| ensures LockOk(r, x) { assert LockOk(s, x); }
    forall x, y | 0 <= x < |s.procs| && 0 <= y < |s.locks| ensures WaitOk(r, x, y) { assert WaitOk(s, x, y); }
    assert Order(r);
  }

  /** acquiresleep finds the lock taken and calls sleep. */
  predicate CanTestTaken(s: State, k: int, l: int) {
    On(s, k) && IsLock(s, l) && s.procs[k].pc == Testing(l) && s.locks[l].locked
  }

  function TestTaken(s: State, k: int, l: int): (r: State)
    requires CanTestTaken(s, k, l)
  {
    s.(procs := To(s, k, SleepEntry(l)))
  }

  lemma TestTakenKeeps(s: State, k: int, l: int)
    requires Inv(s) && CanTestTaken(s, k, l)
    ensures Inv(TestTaken(s, k, l))
  {
    Open(s);
    var r := TestTaken(s, k, l);
    assert ProcOk(s, k);
    forall x | 0 <= x < |s.procs| ensures ProcOk(r, x) { assert ProcOk(s, x); }
    forall x | 0 <= x < |s.cpus| ensures CpuOk(r, x) { assert CpuOk(s, x); }
    forall x | 0 <= x < |s.locks| ensures LockOk(r, x) { assert LockOk(s, x); }
    forall x, y | 0 <= x < |s.procs| && 0 <= y < |s.locks| ensures WaitOk(r, x, y) { assert WaitOk(s, x, y); }
    assert Order(r);
  }

  /** acquiresleep finds the lock free and takes it. */
  predicate CanTestFree(s: State, k: int, l: int) {
    On(s, k) && IsLock(s, l) && s.procs[k].pc == Testing(l) && !s.locks[l].locked
  }

  function TestFree(s: State, k: int, l: int): (r: State)
    requires CanTestFree(s, k, l)
  {
    s.(procs := s.procs[k := s.procs[k].(pc := Taken(l), held := s.procs[k].held + {l})],
      locks := s.locks[l := s.locks[l].(locked := true, pid := k)])
  }

  lemma TestFreeKeeps(s: State, k: int, l: int)
    requires Inv(s) && CanTestFree(s, k, l)
    ensures Inv(TestFree(s, k, l))
  {
    Open(s);
    var r := TestFree(s, k, l);
    assert ProcOk(s, k);
    forall x | 0 <= x < |s.procs| ensures ProcOk(r, x) { assert ProcOk(s, x); }
    forall x | 0 <= x < |s.cpus| ensures CpuOk(r, x) { assert CpuOk(s, x); }
    forall x | 0 <= x < |s.locks| ensures LockOk(r, x) { assert LockOk(s, x); }
    forall x, y | 0 <= x < |s.procs| && 0 <= y < |s.locks| ensures WaitOk(r, x, y) { assert WaitOk(s, x, y); }
    assert Order(r);
  }

  /** sleep acquires p->lock. */
  predicate CanLockSelf(s: State, k: int, l: int) {
    On(s, k) && IsLock(s, l) && s.procs[k].pc == SleepEntry(l) && s.plock[k] == -1
  }

  function LockSelf(s: State, k: int, l: int): (r: State)
    requires CanLockSelf(s, k, l)
  {
    s.(procs := To(s, k, SleepLocked(l)), plock := s.plock[k := s.procs[k].cpu])
  }

  lemma LockSelfKeeps(s: State, k: int, l: int)
    requires Inv(s) && CanLockSelf(s, k, l)
    ensures Inv(LockSelf(s, k, l))
  {
    Open(s);
    var r := LockSelf(s, k, l);
    assert ProcOk(s, k);
    forall x | 0 <= x < |s.procs| ensures ProcOk(r, x) { assert ProcOk(s, x); }
    forall x | 0 <= x < |s.cpus| ensures CpuOk(r, x) { assert CpuOk(s, x); }
    forall x | 0 <= x < |s.locks| ensures LockOk(r, x) { assert LockOk(s, x); }
    forall x, y | 0 <= x < |s.procs| && 0 <= y < |s.locks| ensures WaitOk(r, x, y) { assert WaitOk(s, x, y); }
    assert Order(r);
  }

  /** sleep, holding p->lock, releases lk. */
  predicate CanUnguard(s: State, k: int, l: int) {
    On(s, k) && IsLock(s, l) && s.procs[k].pc == SleepLocked(l)
  }

  function Unguard(s: State, k: int, l: int): (r: State)
    requires CanUnguard(s, k, l)
  {
    s.(procs := To(s, k, SleepUnguarded(l)), locks := Inner(s, l, -1))
  }

  lemma UnguardKeeps(s: State, k: int, l: int)
    requires Inv(s) && CanUnguard(s, k, l)
    ensures Inv(Unguard(s, k, l))
  {
    Open(s);
    var r := Unguard(s, k, l);
    assert ProcOk(s, k);
    forall x | 0 <= x < |s.procs| ensures ProcOk(r, x) { assert ProcOk(s, x); }
    forall x | 0 <= x < |s.cpus| ensures CpuOk(r, x) { assert CpuOk(s, x); }
    forall x | 0 <= x < |s.locks| ensures LockOk(r, x) { assert LockOk(s, x); }
    forall x, y | 0 <= x < |s.procs| && 0 <= y < |s.locks| ensures WaitOk(r, x, y) { assert WaitOk(s, x, y); }
    assert Order(r);
  }

  /** acquiresleep releases lk and returns. */
  predicate CanAcquired(s: State, k: int, l: int) {
    On(s, k) && IsLock(s, l) && s.procs[k].pc == Taken(l)
  }

  function Acquired(s: State, k: int, l: int): (r: State)
    requires CanAcquired(s, k, l)
  {
    s.(procs := To(s, k, Ready), locks := Inner(s, l, -1))
  }

  lemma AcquiredKeeps(s: State, k: int, l: int)
    requires Inv(s) && CanAcquired(s, k, l)
    ensures Inv(Acquired(s, k, l))
  {
    Open(s);
    var r := Acquired(s, k, l);
    assert ProcOk(s, k);
    forall x | 0 <= x < |s.procs| ensures ProcOk(r, x) { assert ProcOk(s, x); }
    forall x | 0 <= x < |s.cpus| ensures CpuOk(r, x) { assert CpuOk(s, x); }
    forall x | 0 <= x < |s.locks| ensures LockOk(r, x) { assert LockOk(s, x); }
    forall x, y | 0 <= x < |s.procs| && 0 <= y < |s.locks| ensures WaitOk(r, x, y) { assert WaitOk(s, x, y); }
    assert Order(r);
  }

  /** sleep sets chan and SLEEPING. */
  predicate CanMark(s: State, k: int) {
    On(s, k) && s.procs[k].pc.SleepUnguarded?
  }

  function Mark(s: State, k: int): (r: State)
    requires CanMark(s, k)
  {
    var l := s.procs[k].pc.l;
    s.(procs := s.procs[k := s.procs[k].(st := Sleeping, chan := l, pc := SleepSet(l))])
  }

  lemma MarkKeeps(s: State, k: int)
    requires Inv(s) && CanMark(s, k)
    ensures Inv(Mark(s, k))
  {
    Open(s);
    var r := Mark(s, k);
    assert ProcOk(s, k);
    forall x | 0 <= x < |s.procs| ensures ProcOk(r, x) { assert ProcOk(s, x); }
    forall x | 0 <= x < |s.cpus| ensures CpuOk(r, x) { assert CpuOk(s, x); }
    forall x | 0 <= x < |s.locks| ensures LockOk(r, x) { assert LockOk(s, x); }
    forall x, y | 0 <= x < |s.procs| && 0 <= y < |s.locks| ensures WaitOk(r, x, y) { assert WaitOk(s, x, y); }
    assert Order(r);
  }

  /** sleep clears chan. */
  predicate CanTidy(s: State, k: int) {
    On(s, k) && s.procs[k].pc.Awake?
  }

  function Tidy(s: State, k: int): (r: State)
    requires CanTidy(s, k)
  {
    s.(procs := s.procs[k := s.procs[k].(chan := -1, pc := Tidied(s.procs[k].pc.l))])
  }

  lemma TidyKeeps(s: State, k: int)
    requires Inv(s) && CanTidy(s, k)
    ensures Inv(Tidy(s, k))
  {
    Open(s);
    var r := Tidy(s, k);
    assert ProcOk(s, k);
    forall x | 0 <= x < |s.procs| ensures ProcOk(r, x) { assert ProcOk(s, x); }
    forall x | 0 <= x < |s.cpus| ensures CpuOk(r, x) { assert CpuOk(s, x); }
    forall x | 0 <= x < |s.locks| ensures LockOk(r, x) { assert LockOk(s, x); }
    forall x, y | 0 <= x < |s.procs| && 0 <= y < |s.locks| ensures WaitOk(r, x, y) { assert WaitOk(s, x, y); }
    assert Order(r);
  }

  /** sleep releases p->lock and goes on to reacquire lk. */
  predicate CanUnlock(s: State, k: int) {
    On(s, k) && s.procs[k].pc.Tidied?
  }

  function Unlock(s: State, k: int): (r: State)
    requires CanUnlock(s, k)
  {
    s.(procs := To(s, k, WantAcquire(s.procs[k].pc.l)), plock := s.plock[k := -1])
  }

  lemma UnlockKeeps(s: State, k: int)
    requires Inv(s) && CanUnlock(s, k)
    ensures Inv(Unlock(s, k))
  {
    Open(s);
    var r := Unlock(s, k);
    assert ProcOk(s, k);
    forall x | 0 <= x < |s.procs| ensures ProcOk(r, x) { assert ProcOk(s, x); }
    forall x | 0 <= x < |s.cpus| ensures CpuOk(r, x) { assert CpuOk(s, x); }
    forall x | 0 <= x < |s.locks| ensures LockOk(r, x) { assert LockOk(s, x); }
    forall x, y | 0 <= x < |s.procs| && 0 <= y < |s.locks| ensures WaitOk(r, x, y) { assert WaitOk(s, x, y); }
    assert Order(r);
  }

  /** releasesleep clears locked and pid. */
  predicate CanClear(s: State, k: int, l: int) {
    On(s, k) && IsLock(s, l) && s.procs[k].pc == Releasing(l)
  }

  function Clear(s: State, k: int, l: int): (r: State)
    requires CanClear(s, k, l)
  {
    s.(procs := s.procs[k := s.procs[k].(pc := Sweeping(l, 0), held := s.procs[k].held - {l})],
      locks := s.locks[l := s.locks[l].(locked := false, pid := -1)])
  }

  lemma ClearKeeps(s: State, k: int, l: int)
    requires Inv(s) && CanClear(s, k, l)
    ensures Inv(Clear(s, k, l))
  {
    Open(s);
    var r := Clear(s, k, l);
    assert ProcOk(s, k);
    forall x | 0 <= x < |s.procs| ensures ProcOk(r, x) { assert ProcOk(s, x); }
    forall x | 0 <= x < |s.cpus| ensures CpuOk(r, x) { assert CpuOk(s, x); }
    forall x | 0 <= x < |s.locks| ensures LockOk(r, x) { assert LockOk(s, x); }
    forall x, y | 0 <= x < |s.procs| && 0 <= y < |s.locks| ensures WaitOk(r, x, y) { assert WaitOk(s, x, y); }
    assert Order(r);
  }

  /** wakeup skips the caller. */
  predicate CanSkipSelf(s: State, k: int) {
    On(s, k) && s.procs[k].pc.Sweeping? && s.procs[k].pc.j == k
  }

  function SkipSelf(s: State, k: int): (r: State)
    requires CanSkipSelf(s, k)
  {
    s.(procs := To(s, k, Sweeping(s.procs[k].pc.l, k + 1)))
  }

  lemma SkipSelfKeeps(s: State, k: int)
    requires Inv(s) && CanSkipSelf(s, k)
    ensures Inv(SkipSelf(s, k))
  {
    Open(s);
    var r := SkipSelf(s, k);
    assert ProcOk(s, k);
    forall x | 0 <= x < |s.procs| ensures ProcOk(r, x) { assert ProcOk(s, x); }
    forall x | 0 <= x < |s.cpus| ensures CpuOk(r, x) { assert CpuOk(s, x); }
    forall x | 0 <= x < |s.locks| ensures LockOk(r, x) { assert LockOk(s, x); }
    forall x, y | 0 <= x < |s.procs| && 0 <= y < |s.locks| ensures WaitOk(r, x, y) { assert WaitOk(s, x, y); }
    assert Order(r);
  }

  /** wakeup acquires process j's lock. */
  predicate CanSweepLock(s: State, k: int, j: int) {
    On(s, k) && s.procs[k].pc.Sweeping? && s.procs[k].pc.j == j && IsProc(s, j) && j != k && s.plock[j] == -1
  }

  function SweepLock(s: State, k: int, j: int): (r: State)
    requires CanSweepLock(s, k, j)
  {
    s.(procs := To(s, k, Waking(s.procs[k].pc.l, j)), plock := s.plock[j := s.procs[k].cpu])
  }

  lemma SweepLockKeeps(s: State, k: int, j: int)
    requires Inv(s) && CanSweepLock(s, k, j)
    ensures Inv(SweepLock(s, k, j))
  {
    Open(s);
    var r := SweepLock(s, k, j);
    assert ProcOk(s, k);
    forall x | 0 <= x < |s.procs| ensures ProcOk(r, x) { assert ProcOk(s, x); }
    forall x | 0 <= x < |s.cpus| ensures CpuOk(r, x) { assert CpuOk(s, x); }
    forall x | 0 <= x < |s.locks| ensures LockOk(r, x) { assert LockOk(s, x); }
    forall x, y | 0 <= x < |s.procs| && 0 <= y < |s.locks| ensures WaitOk(r, x, y) { assert WaitOk(s, x, y); }
    assert Order(r);
  }

  /** wakeup makes process j, which sleeps on l, RUNNABLE. */
  predicate CanWake(s: State, k: int, j: int) {
    On(s, k) && s.procs[k].pc.Waking? && s.procs[k].pc.j == j && IsProc(s, j) && j != k
      && s.procs[j].st == Sleeping && s.procs[j].chan == s.procs[k].pc.l
  }

  function Wake(s: State, k: int, j: int): (r: State)
    requires CanWake(s, k, j)
  {
    s.(procs := To(s, k, Woke(s.procs[k].pc.l, j))[j := Woken(s.procs[j])])
  }

  lemma WakeKeeps(s: State, k: int, j: int)
    requires Inv(s) && CanWake(s, k, j)
    ensures Inv(Wake(s, k, j))
  {
    Open(s);
    var r := Wake(s, k, j);
    assert ProcOk(s, k);
    assert ProcOk(s, j);
    forall x | 0 <= x < |s.procs| ensures ProcOk(r, x) { assert ProcOk(s, x); }
    forall x | 0 <= x < |s.cpus| ensures CpuOk(r, x) { assert CpuOk(s, x); }
    forall x | 0 <= x < |s.locks| ensures LockOk(r, x) { assert LockOk(s, x); }
    forall x, y | 0 <= x < |s.procs| && 0 <= y < |s.locks| ensures WaitOk(r, x, y) { assert WaitOk(s, x, y); }
    assert Order(r);
  }

  /** Process j does not sleep on l. */
  predicate CanLetBe(s: State, k: int, j: int) {
    On(s, k) && s.procs[k].pc.Waking? && s.procs[k].pc.j == j && IsProc(s, j)
      && !(s.procs[j].st == Sleeping && s.procs[j].chan == s.procs[k].pc.l)
  }

  function LetBe(s: State, k: int, j: int): (r: State)
    requires CanLetBe(s, k, j)
  {
    s.(procs := To(s, k, Woke(s.procs[k].pc.l, j)))
  }

  lemma LetBeKeeps(s: State, k: int, j: int)
    requires Inv(s) && CanLetBe(s, k, j)
    ensures Inv(LetBe(s, k, j))
  {
    Open(s);
    var r := LetBe(s, k, j);
    assert ProcOk(s, k);
    assert ProcOk(s, j);
    forall x | 0 <= x < |s.procs| ensures ProcOk(r, x) { assert ProcOk(s, x); }
    forall x | 0 <= x < |s.cpus| ensures CpuOk(r, x) { assert CpuOk(s, x); }
    forall x | 0 <= x < |s.locks| ensures LockOk(r, x) { assert LockOk(s, x); }
    forall x, y | 0 <= x < |s.procs| && 0 <= y < |s.locks| ensures WaitOk(r, x, y) { assert WaitOk(s, x, y); }
    assert Order(r);
  }

  /** wakeup releases process j's lock. */
  predicate CanSweepNext(s: State, k: int, j: int) {
    On(s, k) && s.procs[k].pc.Woke? && s.procs[k].pc.j == j && IsProc(s, j)
  }

  function SweepNext(s: State, k: int, j: int): (r: State)
    requires CanSweepNext(s, k, j)
  {
    s.(procs := To(s, k, Sweeping(s.procs[k].pc.l, j + 1)), plock := s.plock[j := -1])
  }

  lemma SweepNextKeeps(s: State, k: int, j: int)
    requires Inv(s) && CanSweepNext(s, k, j)
    ensures Inv(SweepNext(s, k, j))
  {
    Open(s);
    var r := SweepNext(s, k, j);
    assert ProcOk(s, k);
    forall x | 0 <= x < |s.procs| ensures ProcOk(r, x) { assert ProcOk(s, x); }
    forall x | 0 <= x < |s.cpus| ensures CpuOk(r, x) { assert CpuOk(s, x); }
    forall x | 0 <= x < |s.locks| ensures LockOk(r, x) { assert LockOk(s, x); }
    forall x, y | 0 <= x < |s.procs| && 0 <= y < |s.locks| ensures WaitOk(r, x, y) { assert WaitOk(s, x, y); }
    assert Order(r);
  }

  /** wakeup is through: releasesleep releases lk and returns. */
  predicate CanReleased(s: State, k: int, l: int) {
    On(s, k) && IsLock(s, l) && s.procs[k].pc == Sweeping(l, |s.procs|)
  }

  function Released(s: State, k: int, l: int): (r: State)
    requires CanReleased(s, k, l)
  {
    s.(procs := To(s, k, Ready), locks := Inner(s, l, -1))
  }

  lemma ReleasedKeeps(s: State, k: int, l: int)
    requires Inv(s) && CanReleased(s, k, l)
    ensures Inv(Released(s, k, l))
  {
    Open(s);
    var r := Released(s, k, l);
    assert ProcOk(s, k);
    forall x | 0 <= x < |s.procs| ensures ProcOk(r, x) { assert ProcOk(s, x); }
    forall x | 0 <= x < |s.cpus| ensures CpuOk(r, x) { assert CpuOk(s, x); }
    forall x | 0 <= x < |s.locks| ensures LockOk(r, x) { assert LockOk(s, x); }
    forall x, y | 0 <= x < |s.procs| && 0 <= y < |s.locks| ensures WaitOk(r, x, y) { assert WaitOk(s, x, y); }
    assert Order(r);
  }

  // ---------- runs ----------

  datatype SchedStep =
    | DoLook(c: int, k: int) | DoPass(c: int) | DoPick(c: int) | DoDrop(c: int) | DoYield(k: int) | DoYieldMark(k: int)
    | DoSwitch(k: int) | DoYieldDone(k: int)

  predicate CanSched(s: State, e: SchedStep) {
    match e
    case DoLook(c, k) => CanLook(s, c, k)
    case DoPass(c) => CanPass(s, c)
    case DoPick(c) => CanPick(s, c)
    case DoDrop(c) => CanDrop(s, c)
    case DoYield(k) => CanYield(s, k)
    case DoYieldMark(k) => CanYieldMark(s, k)
    case DoSwitch(k) => CanSwitch(s, k)
    case DoYieldDone(k) => CanYieldDone(s, k)
  }

  function DoSched(s: State, e: SchedStep): (r: State)
    requires CanSched(s, e)
  {
    match e
    case DoLook(c, k) => Look(s, c, k)
    case DoPass(c) => Pass(s, c)
    case DoPick(c) => Pick(s, c)
    case DoDrop(c) => Drop(s, c)
    case DoYield(k) => Yield(s, k)
    case DoYieldMark(k) => YieldMark(s, k)
    case DoSwitch(k) => Switch(s, k)
    case DoYieldDone(k) => YieldDone(s, k)
  }

  lemma SchedKeeps(s: State, e: SchedStep)
    requires Inv(s) && CanSched(s, e)
    ensures Inv(DoSched(s, e))
  {
    match e
    case DoLook(c, k) => LookKeeps(s, c, k);
    case DoPass(c) => PassKeeps(s, c);
    case DoPick(c) => PickKeeps(s, c);
    case DoDrop(c) => DropKeeps(s, c);
    case DoYield(k) => YieldKeeps(s, k);
    case DoYieldMark(k) => YieldMarkKeeps(s, k);
    case DoSwitch(k) => SwitchKeeps(s, k);
    case DoYieldDone(k) => YieldDoneKeeps(s, k);
  }

  datatype AcquireStep =
    | DoEnter(k: int, l: int) | DoAcquireInner(k: int, l: int) | DoTestTaken(k: int, l: int)
    | DoTestFree(k: int, l: int) | DoAcquired(k: int, l: int) | DoLockSelf(k: int, l: int) | DoUnguard(k: int, l: int)
    | DoMark(k: int) | DoTidy(k: int) | DoUnlock(k: int)

  predicate CanAcquire(s: State, e: AcquireStep) {
    match e
    case DoEnter(k, l) => CanEnter(s, k, l)
    case DoAcquireInner(k, l) => CanAcquireInner(s, k, l)
    case DoTestTaken(k, l) => CanTestTaken(s, k, l)
    case DoTestFree(k, l) => CanTestFree(s, k, l)
    case DoAcquired(k, l) => CanAcquired(s, k, l)
    case DoLockSelf(k, l) => CanLockSelf(s, k, l)
    case DoUnguard(k, l) => CanUnguard(s, k, l)
    case DoMark(k) => CanMark(s, k)
    case DoTidy(k) => CanTidy(s, k)
    case DoUnlock(k) => CanUnlock(s, k)
  }

  function DoAcquire(s: State, e: AcquireStep): (r: State)
    requires CanAcquire(s, e)
  {
    match e
    case DoEnter(k, l) => Enter(s, k, l)
    case DoAcquireInner(k, l) => AcquireInner(s, k, l)
    case DoTestTaken(k, l) => TestTaken(s, k, l)
    case DoTestFree(k, l) => TestFree(s, k, l)
    case DoAcquired(k, l) => Acquired(s, k, l)
    case DoLockSelf(k, l) => LockSelf(s, k, l)
    case DoUnguard(k, l) => Unguard(s, k, l)
    case DoMark(k) => Mark(s, k)
    case DoTidy(k) => Tidy(s, k)
    case DoUnlock(k) => Unlock(s, k)
  }

  lemma AcquireKeeps(s: State, e: AcquireStep)
    requires Inv(s) && CanAcquire(s, e)
    ensures Inv(DoAcquire(s, e))
  {
    match e
    case DoEnter(k, l) => EnterKeeps(s, k, l);
    case DoAcquireInner(k, l) => AcquireInnerKeeps(s, k, l);
    case DoTestTaken(k, l) => TestTakenKeeps(s, k, l);
    case DoTestFree(k, l) => TestFreeKeeps(s, k, l);
    case DoAcquired(k, l) => AcquiredKeeps(s, k, l);
    case DoLockSelf(k, l) => LockSelfKeeps(s, k, l);
    case DoUnguard(k, l) => UnguardKeeps(s, k, l);
    case DoMark(k) => MarkKeeps(s, k);
    case DoTidy(k) => TidyKeeps(s, k);
    case DoUnlock(k) => UnlockKeeps(s, k);
  }

  datatype ReleaseStep =
    | DoLeave(k: int, l: int) | DoReleaseInner(k: int, l: int) | DoClear(k: int, l: int) | DoSkipSelf(k: int)
    | DoSweepLock(k: int, j: int) | DoWake(k: int, j: int) | DoLetBe(k: int, j: int) | DoSweepNext(k: int, j: int)
    | DoReleased(k: int, l: int) | DoKill(k: int, j: int) | DoKillWake(k: int, j: int) | DoKillDone(k: int, j: int)

  predicate CanRelease(s: State, e: ReleaseStep) {
    match e
    case DoLeave(k, l) => CanLeave(s, k, l)
    case DoReleaseInner(k, l) => CanReleaseInner(s, k, l)
    case DoClear(k, l) => CanClear(s, k, l)
    case DoSkipSelf(k) => CanSkipSelf(s, k)
    case DoSweepLock(k, j) => CanSweepLock(s, k, j)
    case DoWake(k, j) => CanWake(s, k, j)
    case DoLetBe(k, j) => CanLetBe(s, k, j)
    case DoSweepNext(k, j) => CanSweepNext(s, k, j)
    case DoReleased(k, l) => CanReleased(s, k, l)
    case DoKill(k, j) => CanKill(s, k, j)
    case DoKillWake(k, j) => CanKillWake(s, k, j)
    case DoKillDone(k, j) => CanKillDone(s, k, j)
  }

  function DoRelease(s: State, e: ReleaseStep): (r: State)
    requires CanRelease(s, e)
  {
    match e
    case DoLeave(k, l) => Leave(s, k, l)
    case DoReleaseInner(k, l) => ReleaseInner(s, k, l)
    case DoClear(k, l) => Clear(s, k, l)
    case DoSkipSelf(k) => SkipSelf(s, k)
    case DoSweepLock(k, j) => SweepLock(s, k, j)
    case DoWake(k, j) => Wake(s, k, j)
    case DoLetBe(k, j) => LetBe(s, k, j)
    case DoSweepNext(k, j) => SweepNext(s, k, j)
    case DoReleased(k, l) => Released(s, k, l)
    case DoKill(k, j) => Kill(s, k, j)
    case DoKillWake(k, j) => KillWake(s, k, j)
    case DoKillDone(k, j) => KillDone(s, k, j)
  }

  lemma ReleaseKeeps(s: State, e: ReleaseStep)
    requires Inv(s) && CanRelease(s, e)
    ensures Inv(DoRelease(s, e))
  {
    match e
    case DoLeave(k, l) => LeaveKeeps(s, k, l);
    case DoReleaseInner(k, l) => ReleaseInnerKeeps(s, k, l);
    case DoClear(k, l) => ClearKeeps(s, k, l);
    case DoSkipSelf(k) => SkipSelfKeeps(s, k);
    case DoSweepLock(k, j) => SweepLockKeeps(s, k, j);
    case DoWake(k, j) => WakeKeeps(s, k, j);
    case DoLetBe(k, j) => LetBeKeeps(s, k, j);
    case DoSweepNext(k, j) => SweepNextKeeps(s, k, j);
    case DoReleased(k, l) => ReleasedKeeps(s, k, l);
    case DoKill(k, j) => KillKeeps(s, k, j);
    case DoKillWake(k, j) => KillWakeKeeps(s, k, j);
    case DoKillDone(k, j) => KillDoneKeeps(s, k, j);
  }

  datatype Step = Scheduling(se: SchedStep) | Acquiring(ae: AcquireStep) | Freeing(re: ReleaseStep)

  predicate Enabled(s: State, e: Step) {
    match e
    case Scheduling(se) => CanSched(s, se)
    case Acquiring(ae) => CanAcquire(s, ae)
    case Freeing(re) => CanRelease(s, re)
  }

  function Do(s: State, e: Step): (r: State)
    requires Enabled(s, e)
  {
    match e
    case Scheduling(se) => DoSched(s, se)
    case Acquiring(ae) => DoAcquire(s, ae)
    case Freeing(re) => DoRelease(s, re)
  }

  lemma StepKeeps(s: State, e: Step)
    requires Inv(s) && Enabled(s, e)
    ensures Inv(Do(s, e))
  {
    match e
    case Scheduling(se) => SchedKeeps(s, se);
    case Acquiring(ae) => AcquireKeeps(s, ae);
    case Freeing(re) => ReleaseKeeps(s, re);
  }

  /** At boot every process waits to be run and no lock is held. */
  ghost predicate Init(s: State) {
    && |s.procs| == |s.plock|
    && (forall k :: 0 <= k < |s.procs| ==> s.procs[k] == Proc(Runnable, -1, Yielded(Ready), -1, {}) && s.plock[k] == -1)
    && (forall c :: 0 <= c < |s.cpus| ==> s.cpus[c] == Idle)
    && (forall l :: 0 <= l < |s.locks| ==> s.locks[l] == Slock(-1, false, -1))
  }

  /** The run from s along es ends in r. */
  ghost predicate Leads(s: State, es: seq<Step>, r: State)
    decreases |es|
  {
    if es == [] then r == s else Enabled(s, es[0]) && Leads(Do(s, es[0]), es[1..], r)
  }

  lemma {:induction false} RunKeeps(s: State, es: seq<Step>, r: State)
    requires Inv(s) && Leads(s, es, r)
    ensures Inv(r)
    decreases |es|
  {
    if es != [] {
      StepKeeps(s, es[0]);
      RunKeeps(Do(s, es[0]), es[1..], r);
    }
  }

  lemma Reachable(s: State, es: seq<Step>, r: State)
    requires Init(s) && Leads(s, es, r)
    ensures Inv(r)
  {
    assert Order(s);
    RunKeeps(s, es, r);
  }

  /** No lost wakeup: while a sleep lock and its spin lock are both free, nobody sleeps on it, nor is about to. */
  lemma NoLostWakeup(s: State, es: seq<Step>, r: State, l: int, k: int)
    requires Init(s) && Leads(s, es, r) && IsLock(r, l) && IsProc(r, k) && !r.locks[l].locked
    requires r.locks[l].inner == -1
    ensures !(r.procs[k].st == Sleeping && r.procs[k].chan == l) && r.procs[k].pc != SleepUnguarded(l)
  {
    Reachable(s, es, r);
    Open(r);
    assert WaitOk(r, k, l);
  }

  /** While wakeup sweeps, only processes it has yet to visit sleep on it. */
  lemma SweptAreAwake(s: State, es: seq<Step>, r: State, k: int, j: int)
    requires Init(s) && Leads(s, es, r) && IsProc(r, k) && IsProc(r, j) && r.procs[k].pc.Sweeping?
    requires j < r.procs[k].pc.j
    ensures !(r.procs[j].st == Sleeping && r.procs[j].chan == r.procs[k].pc.l)
  {
    Reachable(s, es, r);
    Open(r);
    assert ProcOk(r, k) && ProcOk(r, j);
    assert WaitOk(r, j, r.procs[k].pc.l);
  }

  /** At most one process holds a sleep lock. */
  lemma MutualExclusion(s: State, es: seq<Step>, r: State, l: int, k: int, k': int)
    requires Init(s) && Leads(s, es, r) && IsProc(r, k) && IsProc(r, k') && l in r.procs[k].held
    requires l in r.procs[k'].held
    ensures k == k'
  {
    Reachable(s, es, r);
    Open(r);
    assert ProcOk(r, k) && ProcOk(r, k');
  }

  /** What holdingsleep computes is whether the caller holds the lock. */
  lemma HoldingsleepExact(s: State, es: seq<Step>, r: State, l: int, k: int)
    requires Init(s) && Leads(s, es, r) && IsLock(r, l) && IsProc(r, k)
    ensures r.locks[l].locked && r.locks[l].pid == k <==> l in r.procs[k].held
  {
    Reachable(s, es, r);
    Open(r);
    assert LockOk(r, l) && ProcOk(r, k);
  }

  /** The scheduler resumes only a process that has switched off its CPU, and no two CPUs run the same one. */
  lemma SchedulerSafe(s: State, es: seq<Step>, r: State, c: int, d: int)
    requires Init(s) && Leads(s, es, r) && IsCpu(r, c) && IsCpu(r, d) && r.cpus[c].Runs?
    ensures r.cpus[d] == r.cpus[c] ==> d == c
    ensures CanPick(r, d) ==> OffCpu(r.procs[r.cpus[d].k].pc) && r.cpus[d].k != r.cpus[c].k
  {
    Reachable(s, es, r);
    Open(r);
    assert CpuOk(r, c) && CpuOk(r, d);
    if CanPick(r, d) {
      assert ProcOk(r, r.cpus[d].k);
    }
  }

  /** sched is entered with p->lock held and the state changed from RUNNING, so neither of those panics is reached. */
  lemma SchedEntry(s: State, es: seq<Step>, r: State, k: int)
    requires Init(s) && Leads(s, es, r) && CanSwitch(r, k)
    ensures r.plock[k] == r.procs[k].cpu && r.procs[k].st != Running
  {
    Reachable(s, es, r);
    Open(r);
    assert ProcOk(r, k);
  }
}
