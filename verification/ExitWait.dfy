/**
 Process exit and wait (kernel/proc.c) as a step system over the scheduler: any number of processes
 and CPUs, in any order.

 A spin lock is given by the CPU that holds it, or -1.  A critical section under one process's
 lock alone is one step, enabled when that lock is free; where p->lock or wait_lock is held across
 other operations, each operation is a step of its own.
 */
module ExitWait {
  import opened Seals

  datatype PState = Unused | Used | Sleeping | Runnable | Running | Zombie

  datatype Pc =
    | Blank                          // no process
    | Fresh                          // created, never run
    | Ready                          // outside the code modelled here
    | WantExit                       // in kexit, about to acquire wait_lock
    | Reparenting(j: int)            // holds wait_lock; processes below j are not its children
    | InitWake(j: int, i: int)       // holds wait_lock; gave j to init; wakeup has visited processes below i
    | ParentWake(i: int)             // holds wait_lock; wakeup of the parent has visited processes below i
    | ExitReady                      // holds wait_lock; about to acquire p->lock
    | ExitLocked                     // holds wait_lock and p->lock
    | ExitZombie                     // the same; ZOMBIE
    | ExitUnguarded                  // holds p->lock; about to call sched
    | Dead                           // switched off for good
    | WantWait                       // in kwait, about to acquire wait_lock
    | Scanning(j: int, kids: bool)   // holds wait_lock; looked at processes below j
    | WaitEntry                      // holds wait_lock; in sleep, about to acquire p->lock
    | WaitLocked                     // holds wait_lock and p->lock
    | WaitUnguarded                  // holds p->lock; about to set SLEEPING
    | WaitSet                        // holds p->lock; SLEEPING; about to call sched
    | WaitAsleep                     // switched off in sched
    | WaitAwake                      // back from sched; holds p->lock
    | Forking(j: int)                // in kfork; child j is USED
    | Linked(j: int)                 // in kfork; child j has its parent
    | YieldSet(back: Pc)             // holds p->lock; RUNNABLE; about to call sched
    | Yielded(back: Pc)              // switched off in sched
    | Resumed(back: Pc)              // back from sched; holds p->lock

  /**
   A process; cpu is the CPU it runs on, or -1; maker made it; exits and reaps count this slot's
   exits and reapings.
   */
  datatype Proc = Proc(st: PState, chan: int, killed: bool, parent: int, pc: Pc, cpu: int, maker: int, exits: nat,
    reaps: nat)

  datatype Cpu = Idle | Runs(k: int) | Back(k: int)

  datatype State = State(procs: seq<Proc>, cpus: seq<Cpu>, plock: seq<int>, wait: int, init: int)

  // ---------- the invariant ----------

  predicate IsProc(s: State, k: int) {
    0 <= k < |s.procs| == |s.plock|
  }

  predicate IsCpu(s: State, c: int) {
    0 <= c < |s.cpus|
  }

  predicate HoldsWait(pc: Pc) {
    pc.Reparenting? || pc.InitWake? || pc.ParentWake? || pc.ExitReady? || pc.ExitLocked? || pc.ExitZombie?
      || pc.Scanning? || pc.WaitEntry? || pc.WaitLocked?
  }

  predicate HoldsOwn(pc: Pc) {
    || pc.ExitLocked? || pc.ExitZombie? || pc.ExitUnguarded? || pc.WaitLocked? || pc.WaitUnguarded? || pc.WaitSet?
       || pc.WaitAwake?
    || pc.YieldSet? || pc.Resumed?
  }

  predicate OffCpu(pc: Pc) {
    pc.Blank? || pc.Fresh? || pc.Dead? || pc.WaitAsleep? || pc.Yielded?
  }

  predicate MayYield(pc: Pc) {
    pc.Ready? || pc.WantExit? || pc.WantWait? || pc.Forking? || pc.Linked?
  }

  predicate StateAgrees(p: Proc, k: int) {
    match p.pc
    case Blank => p.st == Unused
    case Fresh => p.st == Used || p.st == Runnable
    case ExitZombie => p.st == Zombie
    case ExitUnguarded => p.st == Zombie
    case Dead => p.st == Zombie
    case WaitSet => p.st == Sleeping && p.chan == k
    case WaitAsleep => (p.st == Sleeping || p.st == Runnable) && p.chan == k
    case YieldSet(_) => p.st == Runnable
    case Yielded(_) => p.st == Runnable
    case _ => p.st == Running
  }

  /** The place a process is at, or will be at once yield returns. */
  function Place(pc: Pc): (r: Pc) {
    if pc.YieldSet? || pc.Yielded? || pc.Resumed? then pc.back else pc
  }

  predicate InExit(pc: Pc) {
    pc.WantExit? || pc.Reparenting? || pc.InitWake? || pc.ParentWake? || pc.ExitReady? || pc.ExitLocked?
      || pc.ExitZombie? || pc.ExitUnguarded? || pc.Dead?
  }

  /** No children left: given away, or never had any. */
  predicate Childless(p: Proc) {
    var pc := p.pc;
    p.st == Unused || p.st == Used || pc.ParentWake? || pc.ExitReady? || pc.ExitLocked? || pc.ExitZombie?
      || pc.ExitUnguarded? || pc.Dead?
  }

  /** Process k sleeps in kwait, or has let go of wait_lock and is about to. */
  predicate InWindow(p: Proc, k: int) {
    p.pc.WaitUnguarded? || (p.st == Sleeping && p.chan == k)
  }

  predicate ParentAwake(s: State, p: Proc) {
    IsProc(s, p.parent) ==> !InWindow(s.procs[p.parent], p.parent)
  }

  predicate ProcOk(s: State, k: int)
    requires IsProc(s, k)
  {
    var p := s.procs[k];
    && (OffCpu(p.pc) <==> p.cpu == -1)
    && (p.cpu != -1 ==> IsCpu(s, p.cpu) && s.cpus[p.cpu] == Runs(k))
    && StateAgrees(p, k)
    && (HoldsOwn(p.pc) ==> s.plock[k] == p.cpu)
    && (HoldsWait(p.pc) ==> s.wait == p.cpu)
    && (p.pc.YieldSet? || p.pc.Yielded? || p.pc.Resumed? ==> MayYield(p.pc.back))
    && (InExit(Place(p.pc)) ==> k != s.init)
    && (p.pc.ParentWake? && p.parent < p.pc.i ==> ParentAwake(s, p))
    && (p.pc.ExitReady? || p.pc.ExitLocked? ==> ParentAwake(s, p))
    && (Place(p.pc).Forking? || Place(p.pc).Linked? ==>
       IsProc(s, Place(p.pc).j) && s.procs[Place(p.pc).j].st == Used && s.procs[Place(p.pc).j].maker == k)
    && p.exits == p.reaps + (if p.st == Zombie then 1 else 0)
    && p.parent != k && (k == s.init ==> p.parent == -1 && p.st != Unused && p.st != Used)
  }

  predicate CpuOk(s: State, c: int)
    requires IsCpu(s, c)
  {
    match s.cpus[c]
    case Idle => true
    case Runs(k) => IsProc(s, k) && s.procs[k].cpu == c
    case Back(k) => IsProc(s, k) && s.plock[k] == c
  }

  /** The holder of wait_lock is waking init and has yet to come to it. */
  predicate WakeAhead(s: State, k: int) {
    && k == s.init && IsCpu(s, s.wait) && s.cpus[s.wait].Runs? && IsProc(s, s.cpus[s.wait].k)
    && var pc := s.procs[s.cpus[s.wait].k].pc;
    && pc.InitWake? && pc.i <= k
  }

  /** What process k, wherever it is, may assume of its possible child z. */
  predicate ChildOk(s: State, k: int, z: int)
    requires IsProc(s, k) && IsProc(s, z)
  {
    var pc, mine := s.procs[k].pc, s.procs[z].parent == k;
    var undone := mine && s.procs[z].st == Zombie;
    && (InWindow(s.procs[k], k) && undone ==> WakeAhead(s, k))
    && (pc.Scanning? && z < pc.j ==> !undone && (!pc.kids ==> !mine))
    && (pc.WaitEntry? || pc.WaitLocked? ==> !undone)
    && (Childless(s.procs[k]) ==> !mine)
    && (pc.Reparenting? && z < pc.j ==> !mine)
    && (pc.InitWake? && z <= pc.j ==> !mine)
  }

  ghost predicate Order(s: State) {
    && |s.procs| == |s.plock| && IsProc(s, s.init)
    && (forall k :: 0 <= k < |s.procs| ==> ProcOk(s, k))
    && (forall c :: 0 <= c < |s.cpus| ==> CpuOk(s, c))
    && (forall k, z :: 0 <= k < |s.procs| && 0 <= z < |s.procs| ==> ChildOk(s, k, z))
  }

  /** The invariant, sealed. */
  ghost predicate Inv(s: State) {
    Checked(s).Sound?
  }

  predicate InvKey(z: int, s: State) {
    true
  }

  ghost function Checked(s: State): (r: Verdict) {
    if forall z {:trigger InvKey(z, s)} :: InvKey(z, s) ==> Order(s) then Sound else Broken
  }

  lemma Open(s: State)
    requires Inv(s)
    ensures Order(s)
  {
    assert InvKey(0, s);
  }

  // ---------- the scheduler ----------

  /** Where sched returns to; forkret like yield releases p->lock. */
  function Resume(pc: Pc): (r: Pc) {
    match pc
    case WaitAsleep => WaitAwake
    case Yielded(b) => Resumed(b)
    case Fresh => Resumed(Ready)
    case _ => pc
  }

  function Parked(pc: Pc): (r: Pc) {
    match pc
    case WaitSet => WaitAsleep
    case YieldSet(b) => Yielded(b)
    case ExitUnguarded => Dead
    case _ => pc
  }

  /** The scheduler acquires the lock of a RUNNABLE process and runs it; the lock goes with the CPU. */
  predicate CanPick(s: State, c: int, k: int) {
    IsCpu(s, c) && IsProc(s, k) && s.cpus[c].Idle? && s.plock[k] == -1 && s.procs[k].st == Runnable
  }

  function Pick(s: State, c: int, k: int): (r: State)
    requires CanPick(s, c, k)
  {
    var p := s.procs[k];
    s.(procs := s.procs[k := p.(st := Running, pc := Resume(p.pc), cpu := c)], cpus := s.cpus[c := Runs(k)],
      plock := s.plock[k := c])
  }

  lemma PickKeepsProcs(s: State, c: int, k: int)
    requires Inv(s) && CanPick(s, c, k)
    ensures var r := Pick(s, c, k);
      (forall k :: 0 <= k < |s.procs| ==> ProcOk(r, k)) && (forall c :: 0 <= c < |s.cpus| ==> CpuOk(r, c))
  {
    Open(s);
    var r := Pick(s, c, k);
    assert ProcOk(s, k);
    assert CpuOk(s, c);
    forall x | 0 <= x < |s.procs| ensures ProcOk(r, x) { assert ProcOk(s, x); }
    forall x | 0 <= x < |s.cpus| ensures CpuOk(r, x) { assert CpuOk(s, x); }
  }

  lemma PickKeepsChildren(s: State, c: int, k: int)
    requires Inv(s) && CanPick(s, c, k)
    ensures var r := Pick(s, c, k); forall k, z :: 0 <= k < |s.procs| && 0 <= z < |s.procs| ==> ChildOk(r, k, z)
  {
    Open(s);
    var r := Pick(s, c, k);
    assert ProcOk(s, k);
    assert CpuOk(s, c);
    forall x, y | 0 <= x < |s.procs| && 0 <= y < |s.procs|
      ensures ChildOk(r, x, y)
    {
      assert ChildOk(s, x, y) && ProcOk(s, x);
    }
  }

  lemma PickKeeps(s: State, c: int, k: int)
    requires Inv(s) && CanPick(s, c, k)
    ensures Inv(Pick(s, c, k))
  {
    Open(s);
    PickKeepsProcs(s, c, k);
    PickKeepsChildren(s, c, k);
    assert Order(Pick(s, c, k));
  }

  /** The scheduler releases the lock of the process that switched off. */
  predicate CanDrop(s: State, c: int) {
    IsCpu(s, c) && s.cpus[c].Back? && IsProc(s, s.cpus[c].k)
  }

  function Drop(s: State, c: int): (r: State)
    requires CanDrop(s, c)
  {
    s.(cpus := s.cpus[c := Idle], plock := s.plock[s.cpus[c].k := -1])
  }

  lemma DropKeeps(s: State, c: int)
    requires Inv(s) && CanDrop(s, c)
    ensures Inv(Drop(s, c))
  {
    Open(s);
    var r := Drop(s, c);
    assert CpuOk(s, c);
    forall x | 0 <= x < |s.procs| ensures ProcOk(r, x) { assert ProcOk(s, x); }
    forall x | 0 <= x < |s.cpus| ensures CpuOk(r, x) { assert CpuOk(s, x); }
    forall x, y | 0 <= x < |s.procs| && 0 <= y < |s.procs|
      ensures ChildOk(r, x, y)
    {
      assert ChildOk(s, x, y) && ProcOk(s, x);
    }
    assert Order(r);
  }

  predicate On(s: State, k: int) {
    IsProc(s, k) && IsCpu(s, s.procs[k].cpu)
  }

  predicate At(s: State, k: int, pc: Pc) {
    On(s, k) && s.procs[k].pc == pc
  }

  function To(s: State, k: int, pc: Pc): (procs: seq<Proc>)
    requires IsProc(s, k)
  {
    s.procs[k := s.procs[k].(pc := pc)]
  }

  /** yield acquires p->lock and sets RUNNABLE; it is called where no spin lock is held. */
  predicate CanYield(s: State, k: int) {
    On(s, k) && MayYield(s.procs[k].pc) && s.plock[k] == -1
  }

  function Yield(s: State, k: int): (r: State)
    requires CanYield(s, k)
  {
    var p := s.procs[k];
    s.(procs := s.procs[k := p.(st := Runnable, pc := YieldSet(p.pc))], plock := s.plock[k := p.cpu])
  }

  lemma YieldKeepsProcs(s: State, k: int)
    requires Inv(s) && CanYield(s, k)
    ensures var r := Yield(s, k);
      (forall k :: 0 <= k < |s.procs| ==> ProcOk(r, k)) && (forall c :: 0 <= c < |s.cpus| ==> CpuOk(r, c))
  {
    Open(s);
    var r := Yield(s, k);
    assert ProcOk(s, k);
    forall x | 0 <= x < |s.procs| ensures ProcOk(r, x) { assert ProcOk(s, x); }
    forall x | 0 <= x < |s.cpus| ensures CpuOk(r, x) { assert CpuOk(s, x); }
  }

  lemma YieldKeepsChildren(s: State, k: int)
    requires Inv(s) && CanYield(s, k)
    ensures var r := Yield(s, k); forall k, z :: 0 <= k < |s.procs| && 0 <= z < |s.procs| ==> ChildOk(r, k, z)
  {
    Open(s);
    var r := Yield(s, k);
    assert ProcOk(s, k);
    forall x, y | 0 <= x < |s.procs| && 0 <= y < |s.procs|
      ensures ChildOk(r, x, y)
    {
      assert ChildOk(s, x, y) && ProcOk(s, x);
    }
  }

  lemma YieldKeeps(s: State, k: int)
    requires Inv(s) && CanYield(s, k)
    ensures Inv(Yield(s, k))
  {
    Open(s);
    YieldKeepsProcs(s, k);
    YieldKeepsChildren(s, k);
    assert Order(Yield(s, k));
  }

  /** sched: hand the CPU, and with it p->lock, to the scheduler. */
  predicate CanSwitch(s: State, k: int) {
    On(s, k) && (s.procs[k].pc.WaitSet? || s.procs[k].pc.YieldSet? || s.procs[k].pc.ExitUnguarded?)
  }

  function Switch(s: State, k: int): (r: State)
    requires CanSwitch(s, k)
  {
    var p := s.procs[k];
    s.(procs := s.procs[k := p.(pc := Parked(p.pc), cpu := -1)], cpus := s.cpus[p.cpu := Back(k)])
  }

  lemma SwitchKeepsProcs(s: State, k: int)
    requires Inv(s) && CanSwitch(s, k)
    ensures var r := Switch(s, k);
      (forall k :: 0 <= k < |s.procs| ==> ProcOk(r, k)) && (forall c :: 0 <= c < |s.cpus| ==> CpuOk(r, c))
  {
    Open(s);
    var r := Switch(s, k);
    assert ProcOk(s, k);
    forall x | 0 <= x < |s.procs| ensures ProcOk(r, x) { assert ProcOk(s, x); }
    forall x | 0 <= x < |s.cpus| ensures CpuOk(r, x) { assert CpuOk(s, x); }
  }

  lemma SwitchKeepsChildren(s: State, k: int)
    requires Inv(s) && CanSwitch(s, k)
    ensures var r := Switch(s, k); forall k, z :: 0 <= k < |s.procs| && 0 <= z < |s.procs| ==> ChildOk(r, k, z)
  {
    Open(s);
    var r := Switch(s, k);
    assert ProcOk(s, k);
    forall x, y | 0 <= x < |s.procs| && 0 <= y < |s.procs|
      ensures ChildOk(r, x, y)
    {
      assert ChildOk(s, x, y) && ProcOk(s, x);
    }
  }

  lemma SwitchKeeps(s: State, k: int)
    requires Inv(s) && CanSwitch(s, k)
    ensures Inv(Switch(s, k))
  {
    Open(s);
    SwitchKeepsProcs(s, k);
    SwitchKeepsChildren(s, k);
    assert Order(Switch(s, k));
  }

  predicate CanYieldDone(s: State, k: int) {
    On(s, k) && s.procs[k].pc.Resumed?
  }

  function YieldDone(s: State, k: int): (r: State)
    requires CanYieldDone(s, k)
  {
    s.(procs := To(s, k, s.procs[k].pc.back), plock := s.plock[k := -1])
  }

  lemma YieldDoneKeepsProcs(s: State, k: int)
    requires Inv(s) && CanYieldDone(s, k)
    ensures var r := YieldDone(s, k);
      (forall k :: 0 <= k < |s.procs| ==> ProcOk(r, k)) && (forall c :: 0 <= c < |s.cpus| ==> CpuOk(r, c))
  {
    Open(s);
    var r := YieldDone(s, k);
    assert ProcOk(s, k);
    forall x | 0 <= x < |s.procs| ensures ProcOk(r, x) { assert ProcOk(s, x); }
    forall x | 0 <= x < |s.cpus| ensures CpuOk(r, x) { assert CpuOk(s, x); }
  }

  lemma YieldDoneKeepsChildren(s: State, k: int)
    requires Inv(s) && CanYieldDone(s, k)
    ensures var r := YieldDone(s, k); forall k, z :: 0 <= k < |s.procs| && 0 <= z < |s.procs| ==> ChildOk(r, k, z)
  {
    Open(s);
    var r := YieldDone(s, k);
    assert ProcOk(s, k);
    forall x, y | 0 <= x < |s.procs| && 0 <= y < |s.procs|
      ensures ChildOk(r, x, y)
    {
      assert ChildOk(s, x, y) && ProcOk(s, x);
    }
  }

  lemma YieldDoneKeeps(s: State, k: int)
    requires Inv(s) && CanYieldDone(s, k)
    ensures Inv(YieldDone(s, k))
  {
    Open(s);
    YieldDoneKeepsProcs(s, k);
    YieldDoneKeepsChildren(s, k);
    assert Order(YieldDone(s, k));
  }

  // ---------- kexit ----------

  /** Call kexit; init does not. */
  predicate CanExit(s: State, k: int) {
    At(s, k, Ready) && k != s.init
  }

  function Exit(s: State, k: int): (r: State)
    requires CanExit(s, k)
  {
    s.(procs := To(s, k, WantExit))
  }

  lemma ExitKeeps(s: State, k: int)
    requires Inv(s) && CanExit(s, k)
    ensures Inv(Exit(s, k))
  {
    Open(s);
    var r := Exit(s, k);
    assert ProcOk(s, k);
    forall x | 0 <= x < |s.procs| ensures ProcOk(r, x) { assert ProcOk(s, x); }
    forall x | 0 <= x < |s.cpus| ensures CpuOk(r, x) { assert CpuOk(s, x); }
    forall x, y | 0 <= x < |s.procs| && 0 <= y < |s.procs|
      ensures ChildOk(r, x, y)
    {
      assert ChildOk(s, x, y) && ProcOk(s, x);
    }
    assert Order(r);
  }

  /** kexit acquires wait_lock. */
  predicate CanExitBegin(s: State, k: int) {
    At(s, k, WantExit) && s.wait == -1
  }

  function ExitBegin(s: State, k: int): (r: State)
    requires CanExitBegin(s, k)
  {
    s.(procs := To(s, k, Reparenting(0)), wait := s.procs[k].cpu)
  }

  lemma ExitBeginKeeps(s: State, k: int)
    requires Inv(s) && CanExitBegin(s, k)
    ensures Inv(ExitBegin(s, k))
  {
    Open(s);
    var r := ExitBegin(s, k);
    assert ProcOk(s, k);
    forall x | 0 <= x < |s.procs| ensures ProcOk(r, x) { assert ProcOk(s, x); }
    forall x | 0 <= x < |s.cpus| ensures CpuOk(r, x) { assert CpuOk(s, x); }
    forall x, y | 0 <= x < |s.procs| && 0 <= y < |s.procs|
      ensures ChildOk(r, x, y)
    {
      assert ChildOk(s, x, y) && ProcOk(s, x);
    }
    assert Order(r);
  }

  /** reparent: j is no child. */
  predicate CanReparentSkip(s: State, k: int, j: int) {
    At(s, k, Reparenting(j)) && IsProc(s, j) && s.procs[j].parent != k
  }

  function ReparentSkip(s: State, k: int, j: int): (r: State)
    requires CanReparentSkip(s, k, j)
  {
    s.(procs := To(s, k, Reparenting(j + 1)))
  }

  lemma ReparentSkipKeeps(s: State, k: int, j: int)
    requires Inv(s) && CanReparentSkip(s, k, j)
    ensures Inv(ReparentSkip(s, k, j))
  {
    Open(s);
    var r := ReparentSkip(s, k, j);
    assert ProcOk(s, k);
    forall x | 0 <= x < |s.procs| ensures ProcOk(r, x) { assert ProcOk(s, x); }
    forall x | 0 <= x < |s.cpus| ensures CpuOk(r, x) { assert CpuOk(s, x); }
    forall x, y | 0 <= x < |s.procs| && 0 <= y < |s.procs|
      ensures ChildOk(r, x, y)
    {
      assert ChildOk(s, x, y) && ProcOk(s, x);
    }
    assert Order(r);
  }

  /** reparent: child j goes to init. */
  predicate CanReparentOne(s: State, k: int, j: int) {
    At(s, k, Reparenting(j)) && IsProc(s, j) && s.procs[j].parent == k
  }

  function ReparentOne(s: State, k: int, j: int): (r: State)
    requires CanReparentOne(s, k, j)
  {
    var procs := To(s, k, InitWake(j, 0));
    s.(procs := procs[j := procs[j].(parent := s.init)])
  }

  lemma ReparentOneKeepsProcs(s: State, k: int, j: int)
    requires Inv(s) && CanReparentOne(s, k, j)
    ensures var r := ReparentOne(s, k, j);
      (forall k :: 0 <= k < |s.procs| ==> ProcOk(r, k)) && (forall c :: 0 <= c < |s.cpus| ==> CpuOk(r, c))
  {
    Open(s);
    var r := ReparentOne(s, k, j);
    assert ProcOk(s, k);
    assert ProcOk(s, j);
    forall x | 0 <= x < |s.procs| ensures ProcOk(r, x) { assert ProcOk(s, x); }
    forall x | 0 <= x < |s.cpus| ensures CpuOk(r, x) { assert CpuOk(s, x); }
  }

  lemma ReparentOneKeepsChildren(s: State, k: int, j: int)
    requires Inv(s) && CanReparentOne(s, k, j)
    ensures var r := ReparentOne(s, k, j); forall k, z :: 0 <= k < |s.procs| && 0 <= z < |s.procs| ==> ChildOk(r, k, z)
  {
    Open(s);
    var r := ReparentOne(s, k, j);
    assert ProcOk(s, k);
    assert ProcOk(s, j);
    forall x, y | 0 <= x < |s.procs| && 0 <= y < |s.procs|
      ensures ChildOk(r, x, y)
    {
      assert ChildOk(s, x, y) && ProcOk(s, x);
    }
  }

  lemma ReparentOneKeeps(s: State, k: int, j: int)
    requires Inv(s) && CanReparentOne(s, k, j)
    ensures Inv(ReparentOne(s, k, j))
  {
    Open(s);
    ReparentOneKeepsProcs(s, k, j);
    ReparentOneKeepsChildren(s, k, j);
    assert Order(ReparentOne(s, k, j));
  }

  /** wakeup(initproc) finds a sleeper. */
  predicate CanInitWakeOne(s: State, k: int, i: int) {
    On(s, k) && s.procs[k].pc.InitWake? && s.procs[k].pc.i == i && IsProc(s, i) && i != k && s.plock[i] == -1
      && s.procs[i].st == Sleeping && s.procs[i].chan == s.init
  }

  function InitWakeOne(s: State, k: int, i: int): (r: State)
    requires CanInitWakeOne(s, k, i)
  {
    s.(procs := To(s, k, InitWake(s.procs[k].pc.j, i + 1))[i := s.procs[i].(st := Runnable)])
  }

  lemma InitWakeOneKeepsProcs(s: State, k: int, i: int)
    requires Inv(s) && CanInitWakeOne(s, k, i)
    ensures var r := InitWakeOne(s, k, i);
      (forall k :: 0 <= k < |s.procs| ==> ProcOk(r, k)) && (forall c :: 0 <= c < |s.cpus| ==> CpuOk(r, c))
  {
    Open(s);
    var r := InitWakeOne(s, k, i);
    assert ProcOk(s, k);
    assert ProcOk(s, i);
    forall x | 0 <= x < |s.procs| ensures ProcOk(r, x) { assert ProcOk(s, x); }
    forall x | 0 <= x < |s.cpus| ensures CpuOk(r, x) { assert CpuOk(s, x); }
  }

  lemma InitWakeOneKeepsChildren(s: State, k: int, i: int)
    requires Inv(s) && CanInitWakeOne(s, k, i)
    ensures var r := InitWakeOne(s, k, i); forall k, z :: 0 <= k < |s.procs| && 0 <= z < |s.procs| ==> ChildOk(r, k, z)
  {
    Open(s);
    var r := InitWakeOne(s, k, i);
    assert ProcOk(s, k);
    assert ProcOk(s, i);
    forall x, y | 0 <= x < |s.procs| && 0 <= y < |s.procs|
      ensures ChildOk(r, x, y)
    {
      assert ChildOk(s, x, y) && ProcOk(s, x);
    }
  }

  lemma InitWakeOneKeeps(s: State, k: int, i: int)
    requires Inv(s) && CanInitWakeOne(s, k, i)
    ensures Inv(InitWakeOne(s, k, i))
  {
    Open(s);
    InitWakeOneKeepsProcs(s, k, i);
    InitWakeOneKeepsChildren(s, k, i);
    assert Order(InitWakeOne(s, k, i));
  }

  /** wakeup(initproc) skips its caller, and who does not sleep on that channel. */
  predicate CanInitWakeSkip(s: State, k: int, i: int) {
    On(s, k) && s.procs[k].pc.InitWake? && s.procs[k].pc.i == i && IsProc(s, i)
      && (i == k || (s.plock[i] == -1 && !(s.procs[i].st == Sleeping && s.procs[i].chan == s.init)))
  }

  function InitWakeSkip(s: State, k: int, i: int): (r: State)
    requires CanInitWakeSkip(s, k, i)
  {
    s.(procs := To(s, k, InitWake(s.procs[k].pc.j, i + 1)))
  }

  lemma InitWakeSkipKeepsProcs(s: State, k: int, i: int)
    requires Inv(s) && CanInitWakeSkip(s, k, i)
    ensures var r := InitWakeSkip(s, k, i);
      (forall k :: 0 <= k < |s.procs| ==> ProcOk(r, k)) && (forall c :: 0 <= c < |s.cpus| ==> CpuOk(r, c))
  {
    Open(s);
    var r := InitWakeSkip(s, k, i);
    assert ProcOk(s, k);
    assert ProcOk(s, i);
    forall x | 0 <= x < |s.procs| ensures ProcOk(r, x) { assert ProcOk(s, x); }
    forall x | 0 <= x < |s.cpus| ensures CpuOk(r, x) { assert CpuOk(s, x); }
  }

  lemma InitWakeSkipKeepsChildren(s: State, k: int, i: int)
    requires Inv(s) && CanInitWakeSkip(s, k, i)
    ensures var r := InitWakeSkip(s, k, i); forall k, z :: 0 <= k < |s.procs| && 0 <= z < |s.procs| ==> ChildOk(r, k, z)
  {
    Open(s);
    var r := InitWakeSkip(s, k, i);
    assert ProcOk(s, k);
    assert ProcOk(s, i);
    forall x, y | 0 <= x < |s.procs| && 0 <= y < |s.procs|
      ensures ChildOk(r, x, y)
    {
      assert ChildOk(s, x, y) && ProcOk(s, x);
    }
  }

  lemma InitWakeSkipKeeps(s: State, k: int, i: int)
    requires Inv(s) && CanInitWakeSkip(s, k, i)
    ensures Inv(InitWakeSkip(s, k, i))
  {
    Open(s);
    InitWakeSkipKeepsProcs(s, k, i);
    InitWakeSkipKeepsChildren(s, k, i);
    assert Order(InitWakeSkip(s, k, i));
  }

  predicate CanInitDone(s: State, k: int) {
    On(s, k) && s.procs[k].pc.InitWake? && s.procs[k].pc.i == |s.procs|
  }

  function InitDone(s: State, k: int): (r: State)
    requires CanInitDone(s, k)
  {
    s.(procs := To(s, k, Reparenting(s.procs[k].pc.j + 1)))
  }

  lemma InitDoneKeeps(s: State, k: int)
    requires Inv(s) && CanInitDone(s, k)
    ensures Inv(InitDone(s, k))
  {
    Open(s);
    var r := InitDone(s, k);
    assert ProcOk(s, k);
    forall x | 0 <= x < |s.procs| ensures ProcOk(r, x) { assert ProcOk(s, x); }
    forall x | 0 <= x < |s.cpus| ensures CpuOk(r, x) { assert CpuOk(s, x); }
    forall x, y | 0 <= x < |s.procs| && 0 <= y < |s.procs|
      ensures ChildOk(r, x, y)
    {
      assert ChildOk(s, x, y) && ProcOk(s, x);
    }
    assert Order(r);
  }

  predicate CanReparentDone(s: State, k: int) {
    At(s, k, Reparenting(|s.procs|))
  }

  function ReparentDone(s: State, k: int): (r: State)
    requires CanReparentDone(s, k)
  {
    s.(procs := To(s, k, ParentWake(0)))
  }

  lemma ReparentDoneKeeps(s: State, k: int)
    requires Inv(s) && CanReparentDone(s, k)
    ensures Inv(ReparentDone(s, k))
  {
    Open(s);
    var r := ReparentDone(s, k);
    assert ProcOk(s, k);
    forall x | 0 <= x < |s.procs| ensures ProcOk(r, x) { assert ProcOk(s, x); }
    forall x | 0 <= x < |s.cpus| ensures CpuOk(r, x) { assert CpuOk(s, x); }
    forall x, y | 0 <= x < |s.procs| && 0 <= y < |s.procs|
      ensures ChildOk(r, x, y)
    {
      assert ChildOk(s, x, y) && ProcOk(s, x);
    }
    assert Order(r);
  }

  /** wakeup(p->parent) finds a sleeper. */
  predicate CanParentWakeOne(s: State, k: int, i: int) {
    At(s, k, ParentWake(i)) && IsProc(s, i) && i != k && s.plock[i] == -1 && s.procs[i].st == Sleeping
      && s.procs[i].chan == s.procs[k].parent
  }

  function ParentWakeOne(s: State, k: int, i: int): (r: State)
    requires CanParentWakeOne(s, k, i)
  {
    s.(procs := To(s, k, ParentWake(i + 1))[i := s.procs[i].(st := Runnable)])
  }

  lemma ParentWakeOneKeepsProcs(s: State, k: int, i: int)
    requires Inv(s) && CanParentWakeOne(s, k, i)
    ensures var r := ParentWakeOne(s, k, i);
      (forall k :: 0 <= k < |s.procs| ==> ProcOk(r, k)) && (forall c :: 0 <= c < |s.cpus| ==> CpuOk(r, c))
  {
    Open(s);
    var r := ParentWakeOne(s, k, i);
    assert ProcOk(s, k);
    assert ProcOk(s, i);
    forall x | 0 <= x < |s.procs| ensures ProcOk(r, x) { assert ProcOk(s, x); }
    forall x | 0 <= x < |s.cpus| ensures CpuOk(r, x) { assert CpuOk(s, x); }
  }

  lemma ParentWakeOneKeepsChildren(s: State, k: int, i: int)
    requires Inv(s) && CanParentWakeOne(s, k, i)
    ensures var r := ParentWakeOne(s, k, i); forall k, z :: 0 <= k < |s.procs| && 0 <= z < |s.procs| ==>
      ChildOk(r, k, z)
  {
    Open(s);
    var r := ParentWakeOne(s, k, i);
    assert ProcOk(s, k);
    assert ProcOk(s, i);
    forall x, y | 0 <= x < |s.procs| && 0 <= y < |s.procs|
      ensures ChildOk(r, x, y)
    {
      assert ChildOk(s, x, y) && ProcOk(s, x);
    }
  }

  lemma ParentWakeOneKeeps(s: State, k: int, i: int)
    requires Inv(s) && CanParentWakeOne(s, k, i)
    ensures Inv(ParentWakeOne(s, k, i))
  {
    Open(s);
    ParentWakeOneKeepsProcs(s, k, i);
    ParentWakeOneKeepsChildren(s, k, i);
    assert Order(ParentWakeOne(s, k, i));
  }

  predicate CanParentWakeSkip(s: State, k: int, i: int) {
    At(s, k, ParentWake(i)) && IsProc(s, i)
      && (i == k || (s.plock[i] == -1 && !(s.procs[i].st == Sleeping && s.procs[i].chan == s.procs[k].parent)))
  }

  function ParentWakeSkip(s: State, k: int, i: int): (r: State)
    requires CanParentWakeSkip(s, k, i)
  {
    s.(procs := To(s, k, ParentWake(i + 1)))
  }

  lemma ParentWakeSkipKeepsProcs(s: State, k: int, i: int)
    requires Inv(s) && CanParentWakeSkip(s, k, i)
    ensures var r := ParentWakeSkip(s, k, i);
      (forall k :: 0 <= k < |s.procs| ==> ProcOk(r, k)) && (forall c :: 0 <= c < |s.cpus| ==> CpuOk(r, c))
  {
    Open(s);
    var r := ParentWakeSkip(s, k, i);
    assert ProcOk(s, k);
    assert ProcOk(s, i);
    forall x | 0 <= x < |s.procs| ensures ProcOk(r, x) { assert ProcOk(s, x); }
    forall x | 0 <= x < |s.cpus| ensures CpuOk(r, x) { assert CpuOk(s, x); }
  }

  lemma ParentWakeSkipKeepsChildren(s: State, k: int, i: int)
    requires Inv(s) && CanParentWakeSkip(s, k, i)
    ensures var r := ParentWakeSkip(s, k, i); forall k, z :: 0 <= k < |s.procs| && 0 <= z < |s.procs| ==>
      ChildOk(r, k, z)
  {
    Open(s);
    var r := ParentWakeSkip(s, k, i);
    assert ProcOk(s, k);
    assert ProcOk(s, i);
    forall x, y | 0 <= x < |s.procs| && 0 <= y < |s.procs|
      ensures ChildOk(r, x, y)
    {
      assert ChildOk(s, x, y) && ProcOk(s, x);
    }
  }

  lemma ParentWakeSkipKeeps(s: State, k: int, i: int)
    requires Inv(s) && CanParentWakeSkip(s, k, i)
    ensures Inv(ParentWakeSkip(s, k, i))
  {
    Open(s);
    ParentWakeSkipKeepsProcs(s, k, i);
    ParentWakeSkipKeepsChildren(s, k, i);
    assert Order(ParentWakeSkip(s, k, i));
  }

  predicate CanParentDone(s: State, k: int) {
    At(s, k, ParentWake(|s.procs|))
  }

  function ParentDone(s: State, k: int): (r: State)
    requires CanParentDone(s, k)
  {
    s.(procs := To(s, k, ExitReady))
  }

  lemma ParentDoneKeeps(s: State, k: int)
    requires Inv(s) && CanParentDone(s, k)
    ensures Inv(ParentDone(s, k))
  {
    Open(s);
    var r := ParentDone(s, k);
    assert ProcOk(s, k);
    forall x | 0 <= x < |s.procs| ensures ProcOk(r, x) { assert ProcOk(s, x); }
    forall x | 0 <= x < |s.cpus| ensures CpuOk(r, x) { assert CpuOk(s, x); }
    forall x, y | 0 <= x < |s.procs| && 0 <= y < |s.procs|
      ensures ChildOk(r, x, y)
    {
      assert ChildOk(s, x, y) && ProcOk(s, x);
    }
    assert Order(r);
  }

  /** kexit acquires p->lock. */
  predicate CanExitLock(s: State, k: int) {
    At(s, k, ExitReady) && s.plock[k] == -1
  }

  function ExitLock(s: State, k: int): (r: State)
    requires CanExitLock(s, k)
  {
    s.(procs := To(s, k, ExitLocked), plock := s.plock[k := s.procs[k].cpu])
  }

  lemma ExitLockKeeps(s: State, k: int)
    requires Inv(s) && CanExitLock(s, k)
    ensures Inv(ExitLock(s, k))
  {
    Open(s);
    var r := ExitLock(s, k);
    assert ProcOk(s, k);
    forall x | 0 <= x < |s.procs| ensures ProcOk(r, x) { assert ProcOk(s, x); }
    forall x | 0 <= x < |s.cpus| ensures CpuOk(r, x) { assert CpuOk(s, x); }
    forall x, y | 0 <= x < |s.procs| && 0 <= y < |s.procs|
      ensures ChildOk(r, x, y)
    {
      assert ChildOk(s, x, y) && ProcOk(s, x);
    }
    assert Order(r);
  }

  /** kexit sets ZOMBIE. */
  predicate CanExitMark(s: State, k: int) {
    At(s, k, ExitLocked)
  }

  function ExitMark(s: State, k: int): (r: State)
    requires CanExitMark(s, k)
  {
    s.(procs := s.procs[k := s.procs[k].(st := Zombie, pc := ExitZombie, exits := s.procs[k].exits + 1)])
  }

  lemma ExitMarkKeeps(s: State, k: int)
    requires Inv(s) && CanExitMark(s, k)
    ensures Inv(ExitMark(s, k))
  {
    Open(s);
    var r := ExitMark(s, k);
    assert ProcOk(s, k);
    forall x | 0 <= x < |s.procs| ensures ProcOk(r, x) { assert ProcOk(s, x); }
    forall x | 0 <= x < |s.cpus| ensures CpuOk(r, x) { assert CpuOk(s, x); }
    forall x, y | 0 <= x < |s.procs| && 0 <= y < |s.procs|
      ensures ChildOk(r, x, y)
    {
      assert ChildOk(s, x, y) && ProcOk(s, x);
    }
    assert Order(r);
  }

  /** kexit releases wait_lock, keeping p->lock. */
  predicate CanExitUnlock(s: State, k: int) {
    At(s, k, ExitZombie)
  }

  function ExitUnlock(s: State, k: int): (r: State)
    requires CanExitUnlock(s, k)
  {
    s.(procs := To(s, k, ExitUnguarded), wait := -1)
  }

  lemma ExitUnlockKeeps(s: State, k: int)
    requires Inv(s) && CanExitUnlock(s, k)
    ensures Inv(ExitUnlock(s, k))
  {
    Open(s);
    var r := ExitUnlock(s, k);
    assert ProcOk(s, k);
    forall x | 0 <= x < |s.procs| ensures ProcOk(r, x) { assert ProcOk(s, x); }
    forall x | 0 <= x < |s.cpus| ensures CpuOk(r, x) { assert CpuOk(s, x); }
    forall x, y | 0 <= x < |s.procs| && 0 <= y < |s.procs|
      ensures ChildOk(r, x, y)
    {
      assert ChildOk(s, x, y) && ProcOk(s, x);
    }
    assert Order(r);
  }

  // ---------- kwait ----------

  /** Call kwait. */
  predicate CanWait(s: State, k: int) {
    At(s, k, Ready)
  }

  function Wait(s: State, k: int): (r: State)
    requires CanWait(s, k)
  {
    s.(procs := To(s, k, WantWait))
  }

  lemma WaitKeepsProcs(s: State, k: int)
    requires Inv(s) && CanWait(s, k)
    ensures var r := Wait(s, k);
      (forall k :: 0 <= k < |s.procs| ==> ProcOk(r, k)) && (forall c :: 0 <= c < |s.cpus| ==> CpuOk(r, c))
  {
    Open(s);
    var r := Wait(s, k);
    assert ProcOk(s, k);
    forall x | 0 <= x < |s.procs| ensures ProcOk(r, x) { assert ProcOk(s, x); }
    forall x | 0 <= x < |s.cpus| ensures CpuOk(r, x) { assert CpuOk(s, x); }
  }

  lemma WaitKeepsChildren(s: State, k: int)
    requires Inv(s) && CanWait(s, k)
    ensures var r := Wait(s, k); forall k, z :: 0 <= k < |s.procs| && 0 <= z < |s.procs| ==> ChildOk(r, k, z)
  {
    Open(s);
    var r := Wait(s, k);
    assert ProcOk(s, k);
    forall x, y | 0 <= x < |s.procs| && 0 <= y < |s.procs|
      ensures ChildOk(r, x, y)
    {
      assert ChildOk(s, x, y) && ProcOk(s, x);
    }
  }

  lemma WaitKeeps(s: State, k: int)
    requires Inv(s) && CanWait(s, k)
    ensures Inv(Wait(s, k))
  {
    Open(s);
    WaitKeepsProcs(s, k);
    WaitKeepsChildren(s, k);
    assert Order(Wait(s, k));
  }

  /** kwait, or sleep before it returns, acquires wait_lock. */
  predicate CanWaitBegin(s: State, k: int) {
    At(s, k, WantWait) && s.wait == -1
  }

  function WaitBegin(s: State, k: int): (r: State)
    requires CanWaitBegin(s, k)
  {
    s.(procs := To(s, k, Scanning(0, false)), wait := s.procs[k].cpu)
  }

  lemma WaitBeginKeepsProcs(s: State, k: int)
    requires Inv(s) && CanWaitBegin(s, k)
    ensures var r := WaitBegin(s, k);
      (forall k :: 0 <= k < |s.procs| ==> ProcOk(r, k)) && (forall c :: 0 <= c < |s.cpus| ==> CpuOk(r, c))
  {
    Open(s);
    var r := WaitBegin(s, k);
    assert ProcOk(s, k);
    forall x | 0 <= x < |s.procs| ensures ProcOk(r, x) { assert ProcOk(s, x); }
    forall x | 0 <= x < |s.cpus| ensures CpuOk(r, x) { assert CpuOk(s, x); }
  }

  lemma WaitBeginKeepsChildren(s: State, k: int)
    requires Inv(s) && CanWaitBegin(s, k)
    ensures var r := WaitBegin(s, k); forall k, z :: 0 <= k < |s.procs| && 0 <= z < |s.procs| ==> ChildOk(r, k, z)
  {
    Open(s);
    var r := WaitBegin(s, k);
    assert ProcOk(s, k);
    forall x, y | 0 <= x < |s.procs| && 0 <= y < |s.procs|
      ensures ChildOk(r, x, y)
    {
      assert ChildOk(s, x, y) && ProcOk(s, x);
    }
  }

  lemma WaitBeginKeeps(s: State, k: int)
    requires Inv(s) && CanWaitBegin(s, k)
    ensures Inv(WaitBegin(s, k))
  {
    Open(s);
    WaitBeginKeepsProcs(s, k);
    WaitBeginKeepsChildren(s, k);
    assert Order(WaitBegin(s, k));
  }

  predicate ScansAt(s: State, k: int, j: int) {
    On(s, k) && s.procs[k].pc.Scanning? && s.procs[k].pc.j == j && IsProc(s, j)
  }

  /** j is no child. */
  predicate CanScanSkip(s: State, k: int, j: int) {
    ScansAt(s, k, j) && s.procs[j].parent != k
  }

  function ScanSkip(s: State, k: int, j: int): (r: State)
    requires CanScanSkip(s, k, j)
  {
    s.(procs := To(s, k, Scanning(j + 1, s.procs[k].pc.kids)))
  }

  lemma ScanSkipKeeps(s: State, k: int, j: int)
    requires Inv(s) && CanScanSkip(s, k, j)
    ensures Inv(ScanSkip(s, k, j))
  {
    Open(s);
    var r := ScanSkip(s, k, j);
    assert ProcOk(s, k);
    forall x | 0 <= x < |s.procs| ensures ProcOk(r, x) { assert ProcOk(s, x); }
    forall x | 0 <= x < |s.cpus| ensures CpuOk(r, x) { assert CpuOk(s, x); }
    forall x, y | 0 <= x < |s.procs| && 0 <= y < |s.procs|
      ensures ChildOk(r, x, y)
    {
      assert ChildOk(s, x, y) && ProcOk(s, x);
    }
    assert Order(r);
  }

  /** Child j has not exited. */
  predicate CanScanChild(s: State, k: int, j: int) {
    ScansAt(s, k, j) && s.procs[j].parent == k && s.plock[j] == -1 && s.procs[j].st != Zombie
  }

  function ScanChild(s: State, k: int, j: int): (r: State)
    requires CanScanChild(s, k, j)
  {
    s.(procs := To(s, k, Scanning(j + 1, true)))
  }

  lemma ScanChildKeeps(s: State, k: int, j: int)
    requires Inv(s) && CanScanChild(s, k, j)
    ensures Inv(ScanChild(s, k, j))
  {
    Open(s);
    var r := ScanChild(s, k, j);
    assert ProcOk(s, k);
    forall x | 0 <= x < |s.procs| ensures ProcOk(r, x) { assert ProcOk(s, x); }
    forall x | 0 <= x < |s.cpus| ensures CpuOk(r, x) { assert CpuOk(s, x); }
    forall x, y | 0 <= x < |s.procs| && 0 <= y < |s.procs|
      ensures ChildOk(r, x, y)
    {
      assert ChildOk(s, x, y) && ProcOk(s, x);
    }
    assert Order(r);
  }

  function Freed(p: Proc): (r: Proc) {
    Proc(Unused, -1, false, -1, Blank, -1, p.maker, p.exits, p.reaps + 1)
  }

  /** Child j is a zombie: free it, release wait_lock and return. */
  predicate CanReap(s: State, k: int, j: int) {
    ScansAt(s, k, j) && s.procs[j].parent == k && s.plock[j] == -1 && s.procs[j].st == Zombie && j != k
  }

  function Reap(s: State, k: int, j: int): (r: State)
    requires CanReap(s, k, j)
  {
    s.(procs := To(s, k, Ready)[j := Freed(s.procs[j])], wait := -1)
  }

  lemma ReapKeepsProcs(s: State, k: int, j: int)
    requires Inv(s) && CanReap(s, k, j)
    ensures var r := Reap(s, k, j);
      (forall k :: 0 <= k < |s.procs| ==> ProcOk(r, k)) && (forall c :: 0 <= c < |s.cpus| ==> CpuOk(r, c))
  {
    Open(s);
    var r := Reap(s, k, j);
    assert ProcOk(s, k);
    assert ProcOk(s, j);
    forall x | 0 <= x < |s.procs| ensures ProcOk(r, x) { assert ProcOk(s, x); }
    forall x | 0 <= x < |s.cpus| ensures CpuOk(r, x) { assert CpuOk(s, x); }
  }

  lemma ReapKeepsChildren(s: State, k: int, j: int)
    requires Inv(s) && CanReap(s, k, j)
    ensures var r := Reap(s, k, j); forall k, z :: 0 <= k < |s.procs| && 0 <= z < |s.procs| ==> ChildOk(r, k, z)
  {
    Open(s);
    var r := Reap(s, k, j);
    assert ProcOk(s, k);
    assert ProcOk(s, j);
    forall x, y | 0 <= x < |s.procs| && 0 <= y < |s.procs|
      ensures ChildOk(r, x, y)
    {
      assert ChildOk(s, x, y) && ProcOk(s, x);
    }
  }

  lemma ReapKeeps(s: State, k: int, j: int)
    requires Inv(s) && CanReap(s, k, j)
    ensures Inv(Reap(s, k, j))
  {
    Open(s);
    ReapKeepsProcs(s, k, j);
    ReapKeepsChildren(s, k, j);
    assert Order(Reap(s, k, j));
  }

  /** copyout of the exit status fails: the child stays, kwait returns -1. */
  predicate CanReapFails(s: State, k: int, j: int) {
    ScansAt(s, k, j) && s.procs[j].parent == k && s.plock[j] == -1 && s.procs[j].st == Zombie
  }

  function ReapFails(s: State, k: int, j: int): (r: State)
    requires CanReapFails(s, k, j)
  {
    s.(procs := To(s, k, Ready), wait := -1)
  }

  lemma ReapFailsKeeps(s: State, k: int, j: int)
    requires Inv(s) && CanReapFails(s, k, j)
    ensures Inv(ReapFails(s, k, j))
  {
    Open(s);
    var r := ReapFails(s, k, j);
    assert ProcOk(s, k);
    forall x | 0 <= x < |s.procs| ensures ProcOk(r, x) { assert ProcOk(s, x); }
    forall x | 0 <= x < |s.cpus| ensures CpuOk(r, x) { assert CpuOk(s, x); }
    forall x, y | 0 <= x < |s.procs| && 0 <= y < |s.procs|
      ensures ChildOk(r, x, y)
    {
      assert ChildOk(s, x, y) && ProcOk(s, x);
    }
    assert Order(r);
  }

  /** No children, or killed: return -1. */
  predicate CanGiveUp(s: State, k: int) {
    On(s, k) && s.procs[k].pc.Scanning? && s.procs[k].pc.j == |s.procs| && (!s.procs[k].pc.kids || s.procs[k].killed)
  }

  function GiveUp(s: State, k: int): (r: State)
    requires CanGiveUp(s, k)
  {
    s.(procs := To(s, k, Ready), wait := -1)
  }

  lemma GiveUpKeeps(s: State, k: int)
    requires Inv(s) && CanGiveUp(s, k)
    ensures Inv(GiveUp(s, k))
  {
    Open(s);
    var r := GiveUp(s, k);
    assert ProcOk(s, k);
    forall x | 0 <= x < |s.procs| ensures ProcOk(r, x) { assert ProcOk(s, x); }
    forall x | 0 <= x < |s.cpus| ensures CpuOk(r, x) { assert CpuOk(s, x); }
    forall x, y | 0 <= x < |s.procs| && 0 <= y < |s.procs|
      ensures ChildOk(r, x, y)
    {
      assert ChildOk(s, x, y) && ProcOk(s, x);
    }
    assert Order(r);
  }

  /** No zombie among the children: sleep on itself. */
  predicate CanSleep(s: State, k: int) {
    At(s, k, Scanning(|s.procs|, true))
  }

  function Sleep(s: State, k: int): (r: State)
    requires CanSleep(s, k)
  {
    s.(procs := To(s, k, WaitEntry))
  }

  lemma SleepKeeps(s: State, k: int)
    requires Inv(s) && CanSleep(s, k)
    ensures Inv(Sleep(s, k))
  {
    Open(s);
    var r := Sleep(s, k);
    assert ProcOk(s, k);
    forall x | 0 <= x < |s.procs| ensures ProcOk(r, x) { assert ProcOk(s, x); }
    forall x | 0 <= x < |s.cpus| ensures CpuOk(r, x) { assert CpuOk(s, x); }
    forall x, y | 0 <= x < |s.procs| && 0 <= y < |s.procs|
      ensures ChildOk(r, x, y)
    {
      assert ChildOk(s, x, y) && ProcOk(s, x);
    }
    assert Order(r);
  }

  /** sleep acquires p->lock. */
  predicate CanSleepLock(s: State, k: int) {
    At(s, k, WaitEntry) && s.plock[k] == -1
  }

  function SleepLock(s: State, k: int): (r: State)
    requires CanSleepLock(s, k)
  {
    s.(procs := To(s, k, WaitLocked), plock := s.plock[k := s.procs[k].cpu])
  }

  lemma SleepLockKeeps(s: State, k: int)
    requires Inv(s) && CanSleepLock(s, k)
    ensures Inv(SleepLock(s, k))
  {
    Open(s);
    var r := SleepLock(s, k);
    assert ProcOk(s, k);
    forall x | 0 <= x < |s.procs| ensures ProcOk(r, x) { assert ProcOk(s, x); }
    forall x | 0 <= x < |s.cpus| ensures CpuOk(r, x) { assert CpuOk(s, x); }
    forall x, y | 0 <= x < |s.procs| && 0 <= y < |s.procs|
      ensures ChildOk(r, x, y)
    {
      assert ChildOk(s, x, y) && ProcOk(s, x);
    }
    assert Order(r);
  }

  /** sleep releases wait_lock. */
  predicate CanSleepUnguard(s: State, k: int) {
    At(s, k, WaitLocked)
  }

  function SleepUnguard(s: State, k: int): (r: State)
    requires CanSleepUnguard(s, k)
  {
    s.(procs := To(s, k, WaitUnguarded), wait := -1)
  }

  lemma SleepUnguardKeeps(s: State, k: int)
    requires Inv(s) && CanSleepUnguard(s, k)
    ensures Inv(SleepUnguard(s, k))
  {
    Open(s);
    var r := SleepUnguard(s, k);
    assert ProcOk(s, k);
    forall x | 0 <= x < |s.procs| ensures ProcOk(r, x) { assert ProcOk(s, x); }
    forall x | 0 <= x < |s.cpus| ensures CpuOk(r, x) { assert CpuOk(s, x); }
    forall x, y | 0 <= x < |s.procs| && 0 <= y < |s.procs|
      ensures ChildOk(r, x, y)
    {
      assert ChildOk(s, x, y) && ProcOk(s, x);
    }
    assert Order(r);
  }

  /** sleep sets chan and SLEEPING. */
  predicate CanSleepMark(s: State, k: int) {
    At(s, k, WaitUnguarded)
  }

  function SleepMark(s: State, k: int): (r: State)
    requires CanSleepMark(s, k)
  {
    s.(procs := s.procs[k := s.procs[k].(st := Sleeping, chan := k, pc := WaitSet)])
  }

  lemma SleepMarkKeepsProcs(s: State, k: int)
    requires Inv(s) && CanSleepMark(s, k)
    ensures var r := SleepMark(s, k);
      (forall k :: 0 <= k < |s.procs| ==> ProcOk(r, k)) && (forall c :: 0 <= c < |s.cpus| ==> CpuOk(r, c))
  {
    Open(s);
    var r := SleepMark(s, k);
    assert ProcOk(s, k);
    forall x | 0 <= x < |s.procs| ensures ProcOk(r, x) { assert ProcOk(s, x); }
    forall x | 0 <= x < |s.cpus| ensures CpuOk(r, x) { assert CpuOk(s, x); }
  }

  lemma SleepMarkKeepsChildren(s: State, k: int)
    requires Inv(s) && CanSleepMark(s, k)
    ensures var r := SleepMark(s, k); forall k, z :: 0 <= k < |s.procs| && 0 <= z < |s.procs| ==> ChildOk(r, k, z)
  {
    Open(s);
    var r := SleepMark(s, k);
    assert ProcOk(s, k);
    forall x, y | 0 <= x < |s.procs| && 0 <= y < |s.procs|
      ensures ChildOk(r, x, y)
    {
      assert ChildOk(s, x, y) && ProcOk(s, x);
    }
  }

  lemma SleepMarkKeeps(s: State, k: int)
    requires Inv(s) && CanSleepMark(s, k)
    ensures Inv(SleepMark(s, k))
  {
    Open(s);
    SleepMarkKeepsProcs(s, k);
    SleepMarkKeepsChildren(s, k);
    assert Order(SleepMark(s, k));
  }

  /** sleep clears chan and releases p->lock. */
  predicate CanSleepDone(s: State, k: int) {
    At(s, k, WaitAwake)
  }

  function SleepDone(s: State, k: int): (r: State)
    requires CanSleepDone(s, k)
  {
    s.(procs := s.procs[k := s.procs[k].(chan := -1, pc := WantWait)], plock := s.plock[k := -1])
  }

  lemma SleepDoneKeepsProcs(s: State, k: int)
    requires Inv(s) && CanSleepDone(s, k)
    ensures var r := SleepDone(s, k);
      (forall k :: 0 <= k < |s.procs| ==> ProcOk(r, k)) && (forall c :: 0 <= c < |s.cpus| ==> CpuOk(r, c))
  {
    Open(s);
    var r := SleepDone(s, k);
    assert ProcOk(s, k);
    forall x | 0 <= x < |s.procs| ensures ProcOk(r, x) { assert ProcOk(s, x); }
    forall x | 0 <= x < |s.cpus| ensures CpuOk(r, x) { assert CpuOk(s, x); }
  }

  lemma SleepDoneKeepsChildren(s: State, k: int)
    requires Inv(s) && CanSleepDone(s, k)
    ensures var r := SleepDone(s, k); forall k, z :: 0 <= k < |s.procs| && 0 <= z < |s.procs| ==> ChildOk(r, k, z)
  {
    Open(s);
    var r := SleepDone(s, k);
    assert ProcOk(s, k);
    forall x, y | 0 <= x < |s.procs| && 0 <= y < |s.procs|
      ensures ChildOk(r, x, y)
    {
      assert ChildOk(s, x, y) && ProcOk(s, x);
    }
  }

  lemma SleepDoneKeeps(s: State, k: int)
    requires Inv(s) && CanSleepDone(s, k)
    ensures Inv(SleepDone(s, k))
  {
    Open(s);
    SleepDoneKeepsProcs(s, k);
    SleepDoneKeepsChildren(s, k);
    assert Order(SleepDone(s, k));
  }

  // ---------- kfork and kkill ----------

  /** kfork takes an UNUSED slot. */
  predicate CanForkAlloc(s: State, k: int, j: int) {
    At(s, k, Ready) && IsProc(s, j) && s.plock[j] == -1 && s.procs[j].st == Unused && j != k
  }

  function ForkAlloc(s: State, k: int, j: int): (r: State)
    requires CanForkAlloc(s, k, j)
  {
    s.(procs := To(s, k, Forking(j))[j := s.procs[j].(st := Used, pc := Fresh, maker := k)])
  }

  lemma ForkAllocKeepsProcs(s: State, k: int, j: int)
    requires Inv(s) && CanForkAlloc(s, k, j)
    ensures var r := ForkAlloc(s, k, j);
      (forall k :: 0 <= k < |s.procs| ==> ProcOk(r, k)) && (forall c :: 0 <= c < |s.cpus| ==> CpuOk(r, c))
  {
    Open(s);
    var r := ForkAlloc(s, k, j);
    assert ProcOk(s, k);
    assert ProcOk(s, j);
    forall x | 0 <= x < |s.procs| ensures ProcOk(r, x) { assert ProcOk(s, x); }
    forall x | 0 <= x < |s.cpus| ensures CpuOk(r, x) { assert CpuOk(s, x); }
  }

  lemma ForkAllocKeepsChildren(s: State, k: int, j: int)
    requires Inv(s) && CanForkAlloc(s, k, j)
    ensures var r := ForkAlloc(s, k, j); forall k, z :: 0 <= k < |s.procs| && 0 <= z < |s.procs| ==> ChildOk(r, k, z)
  {
    Open(s);
    var r := ForkAlloc(s, k, j);
    assert ProcOk(s, k);
    assert ProcOk(s, j);
    forall x, y | 0 <= x < |s.procs| && 0 <= y < |s.procs|
      ensures ChildOk(r, x, y)
    {
      assert ChildOk(s, x, y) && ProcOk(s, x);
    }
  }

  lemma ForkAllocKeeps(s: State, k: int, j: int)
    requires Inv(s) && CanForkAlloc(s, k, j)
    ensures Inv(ForkAlloc(s, k, j))
  {
    Open(s);
    ForkAllocKeepsProcs(s, k, j);
    ForkAllocKeepsChildren(s, k, j);
    assert Order(ForkAlloc(s, k, j));
  }

  /** kfork sets the child's parent under wait_lock. */
  predicate CanForkLink(s: State, k: int, j: int) {
    At(s, k, Forking(j)) && IsProc(s, j) && j != k && s.wait == -1
  }

  function ForkLink(s: State, k: int, j: int): (r: State)
    requires CanForkLink(s, k, j)
  {
    s.(procs := To(s, k, Linked(j))[j := s.procs[j].(parent := k)])
  }

  lemma ForkLinkKeepsProcs(s: State, k: int, j: int)
    requires Inv(s) && CanForkLink(s, k, j)
    ensures var r := ForkLink(s, k, j);
      (forall k :: 0 <= k < |s.procs| ==> ProcOk(r, k)) && (forall c :: 0 <= c < |s.cpus| ==> CpuOk(r, c))
  {
    Open(s);
    var r := ForkLink(s, k, j);
    assert ProcOk(s, k);
    assert ProcOk(s, j);
    forall x | 0 <= x < |s.procs| ensures ProcOk(r, x) { assert ProcOk(s, x); }
    forall x | 0 <= x < |s.cpus| ensures CpuOk(r, x) { assert CpuOk(s, x); }
  }

  lemma ForkLinkKeepsChildren(s: State, k: int, j: int)
    requires Inv(s) && CanForkLink(s, k, j)
    ensures var r := ForkLink(s, k, j); forall k, z :: 0 <= k < |s.procs| && 0 <= z < |s.procs| ==> ChildOk(r, k, z)
  {
    Open(s);
    var r := ForkLink(s, k, j);
    assert ProcOk(s, k);
    assert ProcOk(s, j);
    forall x, y | 0 <= x < |s.procs| && 0 <= y < |s.procs|
      ensures ChildOk(r, x, y)
    {
      assert ChildOk(s, x, y) && ProcOk(s, x);
    }
  }

  lemma ForkLinkKeeps(s: State, k: int, j: int)
    requires Inv(s) && CanForkLink(s, k, j)
    ensures Inv(ForkLink(s, k, j))
  {
    Open(s);
    ForkLinkKeepsProcs(s, k, j);
    ForkLinkKeepsChildren(s, k, j);
    assert Order(ForkLink(s, k, j));
  }

  /** kfork makes the child RUNNABLE under its lock. */
  predicate CanForkRun(s: State, k: int, j: int) {
    At(s, k, Linked(j)) && IsProc(s, j) && j != k && s.plock[j] == -1
  }

  function ForkRun(s: State, k: int, j: int): (r: State)
    requires CanForkRun(s, k, j)
  {
    s.(procs := To(s, k, Ready)[j := s.procs[j].(st := Runnable)])
  }

  lemma ForkRunKeepsProcs(s: State, k: int, j: int)
    requires Inv(s) && CanForkRun(s, k, j)
    ensures var r := ForkRun(s, k, j);
      (forall k :: 0 <= k < |s.procs| ==> ProcOk(r, k)) && (forall c :: 0 <= c < |s.cpus| ==> CpuOk(r, c))
  {
    Open(s);
    var r := ForkRun(s, k, j);
    assert ProcOk(s, k);
    assert ProcOk(s, j);
    forall x | 0 <= x < |s.procs| ensures ProcOk(r, x) { assert ProcOk(s, x); }
    forall x | 0 <= x < |s.cpus| ensures CpuOk(r, x) { assert CpuOk(s, x); }
  }

  lemma ForkRunKeepsChildren(s: State, k: int, j: int)
    requires Inv(s) && CanForkRun(s, k, j)
    ensures var r := ForkRun(s, k, j); forall k, z :: 0 <= k < |s.procs| && 0 <= z < |s.procs| ==> ChildOk(r, k, z)
  {
    Open(s);
    var r := ForkRun(s, k, j);
    assert ProcOk(s, k);
    assert ProcOk(s, j);
    forall x, y | 0 <= x < |s.procs| && 0 <= y < |s.procs|
      ensures ChildOk(r, x, y)
    {
      assert ChildOk(s, x, y) && ProcOk(s, x);
    }
  }

  lemma ForkRunKeeps(s: State, k: int, j: int)
    requires Inv(s) && CanForkRun(s, k, j)
    ensures Inv(ForkRun(s, k, j))
  {
    Open(s);
    ForkRunKeepsProcs(s, k, j);
    ForkRunKeepsChildren(s, k, j);
    assert Order(ForkRun(s, k, j));
  }

  /** kkill marks process j and wakes it, whatever it sleeps on. */
  predicate CanKill(s: State, k: int, j: int) {
    At(s, k, Ready) && IsProc(s, j) && s.plock[j] == -1
  }

  function Kill(s: State, k: int, j: int): (r: State)
    requires CanKill(s, k, j)
  {
    var p := s.procs[j];
    s.(procs := s.procs[j := p.(killed := true, st := if p.st == Sleeping then Runnable else p.st)])
  }

  lemma KillKeepsProcs(s: State, k: int, j: int)
    requires Inv(s) && CanKill(s, k, j)
    ensures var r := Kill(s, k, j);
      (forall k :: 0 <= k < |s.procs| ==> ProcOk(r, k)) && (forall c :: 0 <= c < |s.cpus| ==> CpuOk(r, c))
  {
    Open(s);
    var r := Kill(s, k, j);
    assert ProcOk(s, k);
    assert ProcOk(s, j);
    forall x | 0 <= x < |s.procs| ensures ProcOk(r, x) { assert ProcOk(s, x); }
    forall x | 0 <= x < |s.cpus| ensures CpuOk(r, x) { assert CpuOk(s, x); }
  }

  lemma KillKeepsChildren(s: State, k: int, j: int)
    requires Inv(s) && CanKill(s, k, j)
    ensures var r := Kill(s, k, j); forall k, z :: 0 <= k < |s.procs| && 0 <= z < |s.procs| ==> ChildOk(r, k, z)
  {
    Open(s);
    var r := Kill(s, k, j);
    assert ProcOk(s, k);
    assert ProcOk(s, j);
    forall x, y | 0 <= x < |s.procs| && 0 <= y < |s.procs|
      ensures ChildOk(r, x, y)
    {
      assert ChildOk(s, x, y) && ProcOk(s, x);
    }
  }

  lemma KillKeeps(s: State, k: int, j: int)
    requires Inv(s) && CanKill(s, k, j)
    ensures Inv(Kill(s, k, j))
  {
    Open(s);
    KillKeepsProcs(s, k, j);
    KillKeepsChildren(s, k, j);
    assert Order(Kill(s, k, j));
  }

  // ---------- runs ----------

  datatype SchedulingStep =
    | DoPick(c: int, k: int) | DoDrop(c: int) | DoYield(k: int) | DoSwitch(k: int) | DoYieldDone(k: int)

  predicate CanScheduling(s: State, e: SchedulingStep) {
    match e
    case DoPick(c, k) => CanPick(s, c, k)
    case DoDrop(c) => CanDrop(s, c)
    case DoYield(k) => CanYield(s, k)
    case DoSwitch(k) => CanSwitch(s, k)
    case DoYieldDone(k) => CanYieldDone(s, k)
  }

  function DoScheduling(s: State, e: SchedulingStep): (r: State)
    requires CanScheduling(s, e)
  {
    match e
    case DoPick(c, k) => Pick(s, c, k)
    case DoDrop(c) => Drop(s, c)
    case DoYield(k) => Yield(s, k)
    case DoSwitch(k) => Switch(s, k)
    case DoYieldDone(k) => YieldDone(s, k)
  }

  lemma SchedulingKeep(s: State, e: SchedulingStep)
    requires Inv(s) && CanScheduling(s, e)
    ensures Inv(DoScheduling(s, e))
  {
    match e
    case DoPick(c, k) => PickKeeps(s, c, k);
    case DoDrop(c) => DropKeeps(s, c);
    case DoYield(k) => YieldKeeps(s, k);
    case DoSwitch(k) => SwitchKeeps(s, k);
    case DoYieldDone(k) => YieldDoneKeeps(s, k);
  }

  datatype ReparentsStep =
    | DoExit(k: int) | DoExitBegin(k: int) | DoReparentSkip(k: int, j: int) | DoReparentOne(k: int, j: int)
    | DoInitWakeOne(k: int, i: int) | DoInitWakeSkip(k: int, i: int) | DoInitDone(k: int) | DoReparentDone(k: int)

  predicate CanReparents(s: State, e: ReparentsStep) {
    match e
    case DoExit(k) => CanExit(s, k)
    case DoExitBegin(k) => CanExitBegin(s, k)
    case DoReparentSkip(k, j) => CanReparentSkip(s, k, j)
    case DoReparentOne(k, j) => CanReparentOne(s, k, j)
    case DoInitWakeOne(k, i) => CanInitWakeOne(s, k, i)
    case DoInitWakeSkip(k, i) => CanInitWakeSkip(s, k, i)
    case DoInitDone(k) => CanInitDone(s, k)
    case DoReparentDone(k) => CanReparentDone(s, k)
  }

  function DoReparents(s: State, e: ReparentsStep): (r: State)
    requires CanReparents(s, e)
  {
    match e
    case DoExit(k) => Exit(s, k)
    case DoExitBegin(k) => ExitBegin(s, k)
    case DoReparentSkip(k, j) => ReparentSkip(s, k, j)
    case DoReparentOne(k, j) => ReparentOne(s, k, j)
    case DoInitWakeOne(k, i) => InitWakeOne(s, k, i)
    case DoInitWakeSkip(k, i) => InitWakeSkip(s, k, i)
    case DoInitDone(k) => InitDone(s, k)
    case DoReparentDone(k) => ReparentDone(s, k)
  }

  lemma ReparentsKeep(s: State, e: ReparentsStep)
    requires Inv(s) && CanReparents(s, e)
    ensures Inv(DoReparents(s, e))
  {
    match e
    case DoExit(k) => ExitKeeps(s, k);
    case DoExitBegin(k) => ExitBeginKeeps(s, k);
    case DoReparentSkip(k, j) => ReparentSkipKeeps(s, k, j);
    case DoReparentOne(k, j) => ReparentOneKeeps(s, k, j);
    case DoInitWakeOne(k, i) => InitWakeOneKeeps(s, k, i);
    case DoInitWakeSkip(k, i) => InitWakeSkipKeeps(s, k, i);
    case DoInitDone(k) => InitDoneKeeps(s, k);
    case DoReparentDone(k) => ReparentDoneKeeps(s, k);
  }

  datatype ExitsStep =
    | DoParentWakeOne(k: int, i: int) | DoParentWakeSkip(k: int, i: int) | DoParentDone(k: int) | DoExitLock(k: int)
    | DoExitMark(k: int) | DoExitUnlock(k: int)

  predicate CanExits(s: State, e: ExitsStep) {
    match e
    case DoParentWakeOne(k, i) => CanParentWakeOne(s, k, i)
    case DoParentWakeSkip(k, i) => CanParentWakeSkip(s, k, i)
    case DoParentDone(k) => CanParentDone(s, k)
    case DoExitLock(k) => CanExitLock(s, k)
    case DoExitMark(k) => CanExitMark(s, k)
    case DoExitUnlock(k) => CanExitUnlock(s, k)
  }

  function DoExits(s: State, e: ExitsStep): (r: State)
    requires CanExits(s, e)
  {
    match e
    case DoParentWakeOne(k, i) => ParentWakeOne(s, k, i)
    case DoParentWakeSkip(k, i) => ParentWakeSkip(s, k, i)
    case DoParentDone(k) => ParentDone(s, k)
    case DoExitLock(k) => ExitLock(s, k)
    case DoExitMark(k) => ExitMark(s, k)
    case DoExitUnlock(k) => ExitUnlock(s, k)
  }

  lemma ExitsKeep(s: State, e: ExitsStep)
    requires Inv(s) && CanExits(s, e)
    ensures Inv(DoExits(s, e))
  {
    match e
    case DoParentWakeOne(k, i) => ParentWakeOneKeeps(s, k, i);
    case DoParentWakeSkip(k, i) => ParentWakeSkipKeeps(s, k, i);
    case DoParentDone(k) => ParentDoneKeeps(s, k);
    case DoExitLock(k) => ExitLockKeeps(s, k);
    case DoExitMark(k) => ExitMarkKeeps(s, k);
    case DoExitUnlock(k) => ExitUnlockKeeps(s, k);
  }

  datatype WaitsStep =
    | DoWait(k: int) | DoWaitBegin(k: int) | DoScanSkip(k: int, j: int) | DoScanChild(k: int, j: int)
    | DoReap(k: int, j: int) | DoReapFails(k: int, j: int) | DoGiveUp(k: int)

  predicate CanWaits(s: State, e: WaitsStep) {
    match e
    case DoWait(k) => CanWait(s, k)
    case DoWaitBegin(k) => CanWaitBegin(s, k)
    case DoScanSkip(k, j) => CanScanSkip(s, k, j)
    case DoScanChild(k, j) => CanScanChild(s, k, j)
    case DoReap(k, j) => CanReap(s, k, j)
    case DoReapFails(k, j) => CanReapFails(s, k, j)
    case DoGiveUp(k) => CanGiveUp(s, k)
  }

  function DoWaits(s: State, e: WaitsStep): (r: State)
    requires CanWaits(s, e)
  {
    match e
    case DoWait(k) => Wait(s, k)
    case DoWaitBegin(k) => WaitBegin(s, k)
    case DoScanSkip(k, j) => ScanSkip(s, k, j)
    case DoScanChild(k, j) => ScanChild(s, k, j)
    case DoReap(k, j) => Reap(s, k, j)
    case DoReapFails(k, j) => ReapFails(s, k, j)
    case DoGiveUp(k) => GiveUp(s, k)
  }

  lemma WaitsKeep(s: State, e: WaitsStep)
    requires Inv(s) && CanWaits(s, e)
    ensures Inv(DoWaits(s, e))
  {
    match e
    case DoWait(k) => WaitKeeps(s, k);
    case DoWaitBegin(k) => WaitBeginKeeps(s, k);
    case DoScanSkip(k, j) => ScanSkipKeeps(s, k, j);
    case DoScanChild(k, j) => ScanChildKeeps(s, k, j);
    case DoReap(k, j) => ReapKeeps(s, k, j);
    case DoReapFails(k, j) => ReapFailsKeeps(s, k, j);
    case DoGiveUp(k) => GiveUpKeeps(s, k);
  }

  datatype SleepsStep =
    | DoSleep(k: int) | DoSleepLock(k: int) | DoSleepUnguard(k: int) | DoSleepMark(k: int) | DoSleepDone(k: int)

  predicate CanSleeps(s: State, e: SleepsStep) {
    match e
    case DoSleep(k) => CanSleep(s, k)
    case DoSleepLock(k) => CanSleepLock(s, k)
    case DoSleepUnguard(k) => CanSleepUnguard(s, k)
    case DoSleepMark(k) => CanSleepMark(s, k)
    case DoSleepDone(k) => CanSleepDone(s, k)
  }

  function DoSleeps(s: State, e: SleepsStep): (r: State)
    requires CanSleeps(s, e)
  {
    match e
    case DoSleep(k) => Sleep(s, k)
    case DoSleepLock(k) => SleepLock(s, k)
    case DoSleepUnguard(k) => SleepUnguard(s, k)
    case DoSleepMark(k) => SleepMark(s, k)
    case DoSleepDone(k) => SleepDone(s, k)
  }

  lemma SleepsKeep(s: State, e: SleepsStep)
    requires Inv(s) && CanSleeps(s, e)
    ensures Inv(DoSleeps(s, e))
  {
    match e
    case DoSleep(k) => SleepKeeps(s, k);
    case DoSleepLock(k) => SleepLockKeeps(s, k);
    case DoSleepUnguard(k) => SleepUnguardKeeps(s, k);
    case DoSleepMark(k) => SleepMarkKeeps(s, k);
    case DoSleepDone(k) => SleepDoneKeeps(s, k);
  }

  datatype ForksStep =
    | DoForkAlloc(k: int, j: int) | DoForkLink(k: int, j: int) | DoForkRun(k: int, j: int) | DoKill(k: int, j: int)

  predicate CanForks(s: State, e: ForksStep) {
    match e
    case DoForkAlloc(k, j) => CanForkAlloc(s, k, j)
    case DoForkLink(k, j) => CanForkLink(s, k, j)
    case DoForkRun(k, j) => CanForkRun(s, k, j)
    case DoKill(k, j) => CanKill(s, k, j)
  }

  function DoForks(s: State, e: ForksStep): (r: State)
    requires CanForks(s, e)
  {
    match e
    case DoForkAlloc(k, j) => ForkAlloc(s, k, j)
    case DoForkLink(k, j) => ForkLink(s, k, j)
    case DoForkRun(k, j) => ForkRun(s, k, j)
    case DoKill(k, j) => Kill(s, k, j)
  }

  lemma ForksKeep(s: State, e: ForksStep)
    requires Inv(s) && CanForks(s, e)
    ensures Inv(DoForks(s, e))
  {
    match e
    case DoForkAlloc(k, j) => ForkAllocKeeps(s, k, j);
    case DoForkLink(k, j) => ForkLinkKeeps(s, k, j);
    case DoForkRun(k, j) => ForkRunKeeps(s, k, j);
    case DoKill(k, j) => KillKeeps(s, k, j);
  }

  datatype Step =
    | Scheduling(e0: SchedulingStep) | Reparents(e1: ReparentsStep) | Exits(e2: ExitsStep) | Waits(e3: WaitsStep)
      | Sleeps(e4: SleepsStep) | Forks(e5: ForksStep)

  predicate Enabled(s: State, e: Step) {
    match e
    case Scheduling(x) => CanScheduling(s, x)
    case Reparents(x) => CanReparents(s, x)
    case Exits(x) => CanExits(s, x)
    case Waits(x) => CanWaits(s, x)
    case Sleeps(x) => CanSleeps(s, x)
    case Forks(x) => CanForks(s, x)
  }

  function Do(s: State, e: Step): (r: State)
    requires Enabled(s, e)
  {
    match e
    case Scheduling(x) => DoScheduling(s, x)
    case Reparents(x) => DoReparents(s, x)
    case Exits(x) => DoExits(s, x)
    case Waits(x) => DoWaits(s, x)
    case Sleeps(x) => DoSleeps(s, x)
    case Forks(x) => DoForks(s, x)
  }

  lemma StepKeeps(s: State, e: Step)
    requires Inv(s) && Enabled(s, e)
    ensures Inv(Do(s, e))
  {
    match e
    case Scheduling(x) => SchedulingKeep(s, x);
    case Reparents(x) => ReparentsKeep(s, x);
    case Exits(x) => ExitsKeep(s, x);
    case Waits(x) => WaitsKeep(s, x);
    case Sleeps(x) => SleepsKeep(s, x);
    case Forks(x) => ForksKeep(s, x);
  }

  predicate AtBoot(p: Proc, first: bool) {
    p == Proc(if first then Runnable else Unused, -1, false, -1, if first then Fresh else Blank, -1, -1, 0, 0)
  }

  /** At boot there is only init, which has not run, and no lock is held. */
  ghost predicate Init(s: State) {
    && |s.procs| == |s.plock| && IsProc(s, s.init) && s.wait == -1
    && (forall k :: 0 <= k < |s.procs| ==> AtBoot(s.procs[k], k == s.init) && s.plock[k] == -1)
    && (forall c :: 0 <= c < |s.cpus| ==> s.cpus[c] == Idle)
  }

  /** The run from s along es ends in r. */
  ghost predicate Leads(s: State, es: seq<Step>, r: State)
    decreases |es|
  {
    if es == [] then r == s else Enabled(s, es[0]) && Leads(Do(s, es[0]), es[1..], r)
  }

  lemma {:induction false} RunKeeps(s: State, es: seq<Step>, r: State)
    requires Inv(s) && Leads(s, es, r)
    ensures Inv(r)
    decreases |es|
  {
    if es != [] {
      StepKeeps(s, es[0]);
      RunKeeps(Do(s, es[0]), es[1..], r);
    }
  }

  lemma InitOk(s: State)
    requires Init(s)
    ensures Inv(s)
  {
    forall k | 0 <= k < |s.procs| ensures ProcOk(s, k) { assert AtBoot(s.procs[k], k == s.init); }
    forall k, z | 0 <= k < |s.procs| && 0 <= z < |s.procs|
      ensures ChildOk(s, k, z)
    {
      assert AtBoot(s.procs[z], z == s.init);
    }
    assert Order(s);
  }

  lemma Reachable(s: State, es: seq<Step>, r: State)
    requires Init(s) && Leads(s, es, r)
    ensures Inv(r)
  {
    InitOk(s);
    RunKeeps(s, es, r);
  }

  /**
   While wait_lock is free, no process with a zombie child sleeps in kwait, nor is about to; init
   with the children given to it included.
   */
  lemma NoSleepOnZombie(s: State, es: seq<Step>, r: State, k: int, z: int)
    requires Init(s) && Leads(s, es, r) && r.wait == -1 && IsProc(r, k) && IsProc(r, z)
    requires r.procs[z].parent == k && r.procs[z].st == Zombie
    ensures !(r.procs[k].st == Sleeping && r.procs[k].chan == k) && !r.procs[k].pc.WaitUnguarded?
  {
    Reachable(s, es, r);
    Open(r);
    assert ChildOk(r, k, z);
  }

  /** A zombie is reaped only after it has switched off its CPU for good, and by its parent. */
  lemma ReapedOffCpu(s: State, es: seq<Step>, r: State, k: int, z: int)
    requires Init(s) && Leads(s, es, r) && CanReap(r, k, z)
    ensures r.procs[z].pc == Dead && r.procs[z].cpu == -1 && r.procs[z].parent == k
    ensures forall c :: 0 <= c < |r.cpus| ==> r.cpus[c] != Runs(z) && r.cpus[c] != Back(z)
  {
    Reachable(s, es, r);
    Open(r);
    assert ProcOk(r, z);
    forall c | 0 <= c < |r.cpus| ensures r.cpus[c] != Runs(z) && r.cpus[c] != Back(z) { assert CpuOk(r, c); }
  }

  /** Each exit is reaped at most once: a slot's reapings trail its exits by one exactly while it is a zombie. */
  lemma ReapedOnce(s: State, es: seq<Step>, r: State, z: int)
    requires Init(s) && Leads(s, es, r) && IsProc(r, z)
    ensures r.procs[z].exits - r.procs[z].reaps == if r.procs[z].st == Zombie then 1 else 0
  {
    Reachable(s, es, r);
    Open(r);
    assert ProcOk(r, z);
  }

  /** Nobody's parent has exited: a process gives its children away before it becomes a zombie. */
  lemma NoOrphans(s: State, es: seq<Step>, r: State, k: int, z: int)
    requires Init(s) && Leads(s, es, r) && IsProc(r, k) && IsProc(r, z) && r.procs[z].parent == k
    ensures r.procs[k].st != Zombie && r.procs[k].st != Unused && r.procs[k].st != Used
  {
    Reachable(s, es, r);
    Open(r);
    assert ChildOk(r, k, z) && ProcOk(r, k);
  }

  /** kwait returns -1 only to a process without children, or a killed one. */
  lemma GivesUpRightly(s: State, es: seq<Step>, r: State, k: int, z: int)
    requires Init(s) && Leads(s, es, r) && CanGiveUp(r, k) && IsProc(r, z) && r.procs[z].parent == k
    ensures r.procs[k].killed
  {
    Reachable(s, es, r);
    Open(r);
    assert ChildOk(r, k, z);
  }
}
