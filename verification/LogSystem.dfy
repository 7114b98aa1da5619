/**
 The whole storage layer as a step system: any number of processes running file system
 operations over the buffer cache of kernel/bio.c and the log of kernel/log.c, with commit
 broken into its single block writes.  Every interleaving of the steps is covered.

 Client rules, as the comments in log.c state them: a block is changed only inside an
 operation and under its buffer lock, log_write follows the change, and the block is not in
 the log area.  bget may recycle any buffer whose reference count is zero; that includes the
 least recently used one, which module BufferCache shows is the one it takes.
 */
module LogSystem {
  import opened Basics
  import opened Blocks
  import opened Log
  import opened RedoLog
  import opened Seals

  datatype Option<T> = None | Some(value: T)

  /**
   One cache slot.  The kernel keeps block, valid, refcnt, data and the sleep lock's holder.
   refs (processes holding a reference but not the lock) and dirty (changed since the last
   log_write) are history.
   */
  datatype Buf = Buf(block: Option<int>, valid: bool, refcnt: int, data: Block,
                     holder: Option<nat>, refs: set<nat>, dirty: bool)

  /**
   What a process is doing: nothing transactional, or an operation with so many new log entries left.
   mine, the blocks it has logged so far, is history.
   */
  datatype Op = Outside | Inside(left: nat, mine: set<int>)

  /** Where commit stands: the next block to log, the next block to install, or all but finished. */
  datatype Phase = Idle | Logging(tail: nat) | Installing(tail: nat) | Cleared

  /**
   pins, logical and committed are history: the blocks the log holds a reference to, the home
   blocks as of the last log_write of each, and the home blocks as of the last commit point.
   */
  datatype State = State(start: nat, disk: Disk, bufs: seq<Buf>, lh: seq<int>,
                         outstanding: nat, committing: bool, phase: Phase, ops: seq<Op>,
                         pins: set<int>, logical: Disk, committed: Disk)

  // ---------- steps ----------

  datatype Step =
    | BgetHit(p: nat, i: nat)
    | BgetMiss(p: nat, b: int, i: nat)
    | AcquireSleep(p: nat, i: nat)
    | ReadDisk(p: nat, i: nat)
    | Modify(p: nat, i: nat, data: Block)
    | LogWrite(p: nat, i: nat)
    | ReleaseSleep(p: nat, i: nat)
    | DropRef(p: nat, i: nat)
    | BeginOp(p: nat)
    | EndOp(p: nat)
    | CopyToLog(p: nat, i: nat, j: nat)
    | WriteHeader(p: nat, h: nat)
    | Install(p: nat, i: nat, j: nat)
    | ClearHeader(p: nat, h: nat)
    | CommitDone

  predicate Holds(s: State, p: nat, i: nat) {
    i < |s.bufs| && s.bufs[i].holder == Some(p) && s.bufs[i].block.Some?
  }

  predicate IsActive(ops: seq<Op>, p: nat) {
    p < |ops| && ops[p].Inside?
  }

  /** log_write panics exactly here (the check comes before absorption). */
  predicate LogWritePanics(s: State) {
    |s.lh| >= LOGBLOCKS || s.outstanding < 1
  }

  predicate Caches(s: State, i: nat, b: int) {
    i < |s.bufs| && s.bufs[i].block == Some(b)
  }

  ghost predicate CanMiss(s: State, p: nat, b: int, i: nat) {
    && i < |s.bufs| && s.bufs[i].refcnt == 0 && 0 <= b < |s.disk|
    && (forall k :: 0 <= k < |s.bufs| ==> s.bufs[k].block != Some(b))
  }

  predicate CanLogWrite(s: State, p: nat, i: nat) {
    && Holds(s, p, i) && s.bufs[i].valid && IsActive(s.ops, p)
    && !LogWritePanics(s)
    && 0 <= s.bufs[i].block.value < |s.logical| && !InLog(s.start, s.bufs[i].block.value)
    && (s.bufs[i].block.value in s.lh || s.ops[p].left > 0)
  }

  predicate CanBegin(s: State, p: nat) {
    && p < |s.ops| && s.ops[p].Outside?
    && !s.committing && |s.lh| + (s.outstanding + 1) * MAXOPBLOCKS <= LOGBLOCKS
  }

  ghost predicate CanEnd(s: State, p: nat) {
    && IsActive(s.ops, p) && s.outstanding > 0
    && (forall k :: 0 <= k < |s.bufs| && s.bufs[k].holder == Some(p) ==> !s.bufs[k].dirty)
  }

  predicate CanCopyToLog(s: State, p: nat, i: nat, j: nat) {
    && s.phase.Logging? && s.phase.tail < |s.lh|
    && Holds(s, p, i) && Caches(s, i, s.lh[s.phase.tail]) && s.bufs[i].valid
    && Holds(s, p, j) && Caches(s, j, s.start + 1 + s.phase.tail) && s.start + 1 + s.phase.tail < |s.disk|
  }

  /** The committer holds the header block's buffer. */
  predicate HoldsHeader(s: State, p: nat, h: nat) {
    && Holds(s, p, h) && Caches(s, h, s.start) && s.bufs[h].valid
    && s.start < |s.disk| && |s.bufs[h].data.bytes| == BSIZE
  }

  predicate CanWriteHeader(s: State, p: nat, h: nat) {
    s.phase == Logging(|s.lh|) && HoldsHeader(s, p, h) && |s.lh| <= LOGBLOCKS
  }

  predicate CanInstall(s: State, p: nat, i: nat, j: nat) {
    && s.phase.Installing? && s.phase.tail < |s.lh| && 0 <= s.lh[s.phase.tail] < |s.disk|
    && Holds(s, p, i) && Caches(s, i, s.start + 1 + s.phase.tail) && s.bufs[i].valid
    && Holds(s, p, j) && Caches(s, j, s.lh[s.phase.tail])
  }

  predicate CanClear(s: State, p: nat, h: nat) {
    s.phase == Installing(|s.lh|) && HoldsHeader(s, p, h)
  }

  predicate OnOneSlot(step: Step) {
    step.BgetHit? || step.AcquireSleep? || step.ReadDisk? || step.Modify? || step.ReleaseSleep? || step.DropRef?
  }

  predicate CanTouch(s: State, step: Step)
    requires OnOneSlot(step)
  {
    match step
    case BgetHit(p, i) =>
      i < |s.bufs| && s.bufs[i].block.Some? && p !in s.bufs[i].refs && s.bufs[i].holder != Some(p)
    case AcquireSleep(p, i) =>
      i < |s.bufs| && p in s.bufs[i].refs && s.bufs[i].holder.None?
    case ReadDisk(p, i) =>
      Holds(s, p, i) && !s.bufs[i].valid && 0 <= s.bufs[i].block.value < |s.disk|
    case Modify(p, i, data) =>
      Holds(s, p, i) && s.bufs[i].valid && IsActive(s.ops, p) && !InLog(s.start, s.bufs[i].block.value)
    case ReleaseSleep(p, i) =>
      Holds(s, p, i) && !s.bufs[i].dirty
    case DropRef(p, i) =>
      i < |s.bufs| && p in s.bufs[i].refs
  }

  ghost predicate Enabled(s: State, step: Step) {
    match step
    case BgetMiss(p, b, i) => CanMiss(s, p, b, i)
    case LogWrite(p, i) => CanLogWrite(s, p, i)
    case BeginOp(p) => CanBegin(s, p)
    case EndOp(p) => CanEnd(s, p)
    case CopyToLog(p, i, j) => CanCopyToLog(s, p, i, j)
    case WriteHeader(p, h) => CanWriteHeader(s, p, h)
    case Install(p, i, j) => CanInstall(s, p, i, j)
    case ClearHeader(p, h) => CanClear(s, p, h)
    case CommitDone => s.phase.Cleared?
    case _ => CanTouch(s, step)
  }

  function SetBuf(s: State, i: nat, b: Buf): (r: State)
    requires i < |s.bufs|
  {
    s.(bufs := s.bufs[i := b])
  }

  /** bwrite: the buffer's new contents reach the disk block it caches. */
  function WriteThrough(s: State, i: nat, data: Block): (r: State)
    requires i < |s.bufs| && s.bufs[i].block.Some? && 0 <= s.bufs[i].block.value < |s.disk|
  {
    s.(bufs := s.bufs[i := s.bufs[i].(data := data, valid := true)], disk := s.disk[s.bufs[i].block.value := data])
  }

  /** What a step that concerns one buffer, and only its user's view of it, does to the buffer. */
  function Touch(buf: Buf, disk: Disk, step: Step): (r: Buf)
    requires OnOneSlot(step)
    requires step.ReadDisk? ==> buf.block.Some? && 0 <= buf.block.value < |disk|
  {
    match step
    case BgetHit(p, _) => buf.(refcnt := buf.refcnt + 1, refs := buf.refs + {p})
    case AcquireSleep(p, _) => buf.(holder := Some(p), refs := buf.refs - {p})
    case ReadDisk(_, _) => buf.(data := disk[buf.block.value], valid := true)
    case Modify(_, _, data) => buf.(data := data, dirty := true)
    case ReleaseSleep(p, _) => buf.(holder := None, refs := buf.refs + {p})
    case DropRef(p, _) => buf.(refcnt := buf.refcnt - 1, refs := buf.refs - {p})
  }

  /** bget recycles slot i for block b. */
  function Miss(s: State, p: nat, b: int, i: nat): (r: State)
    requires i < |s.bufs|
  {
    SetBuf(s, i, s.bufs[i].(block := Some(b), valid := false, refcnt := 1, refs := {p}))
  }

  /** The operation has logged b, which took n new log entries. */
  function Charged(op: Op, b: int, n: nat): (r: Op)
    requires op.Inside? && n <= op.left
  {
    Inside(op.left - n, op.mine + {b})
  }

  function DoLogWrite(s: State, p: nat, i: nat): (r: State)
    requires CanLogWrite(s, p, i)
  {
    var b := s.bufs[i].block.value;
    var buf := s.bufs[i].(dirty := false);
    var r := s.(logical := s.logical[b := buf.data], lh := Absorb(s.lh, b), pins := s.pins + {b});
    if b in s.lh then SetBuf(r, i, buf).(ops := s.ops[p := Charged(s.ops[p], b, 0)])
    else SetBuf(r, i, buf.(refcnt := buf.refcnt + 1)).(ops := s.ops[p := Charged(s.ops[p], b, 1)])
  }

  function Begin(s: State, p: nat): (r: State)
    requires p < |s.ops|
  {
    s.(outstanding := s.outstanding + 1, ops := s.ops[p := Inside(MAXOPBLOCKS, {})])
  }

  /** The last operation to end starts the commit, which has nothing to do when nothing is logged. */
  function End(s: State, p: nat): (r: State)
    requires p < |s.ops| && s.outstanding > 0
  {
    var r := s.(outstanding := s.outstanding - 1, ops := s.ops[p := Outside]);
    if r.outstanding > 0 then r
    else r.(committing := true, phase := if s.lh == [] then Cleared else Logging(0))
  }

  function DoCopyToLog(s: State, p: nat, i: nat, j: nat): (r: State)
    requires CanCopyToLog(s, p, i, j)
  {
    WriteThrough(s, j, s.bufs[i].data).(phase := Logging(s.phase.tail + 1))
  }

  function DoWriteHeader(s: State, p: nat, h: nat): (r: State)
    requires CanWriteHeader(s, p, h)
  {
    WriteThrough(s, h, EncodeHeader(s.bufs[h].data, s.lh)).(phase := Installing(0), committed := s.logical)
  }

  function DoInstall(s: State, p: nat, i: nat, j: nat): (r: State)
    requires CanInstall(s, p, i, j)
  {
    var r := WriteThrough(s, j, s.bufs[i].data);
    SetBuf(r, j, r.bufs[j].(refcnt := r.bufs[j].refcnt - 1))
      .(phase := Installing(s.phase.tail + 1), pins := s.pins - {s.lh[s.phase.tail]})
  }

  function DoClear(s: State, p: nat, h: nat): (r: State)
    requires CanClear(s, p, h)
  {
    WriteThrough(s, h, EncodeHeader(s.bufs[h].data, [])).(phase := Cleared, lh := [])
  }

  function Finish(s: State): (r: State) {
    s.(committing := false, phase := Idle)
  }

  ghost function Do(s: State, step: Step): (r: State)
    requires Enabled(s, step)
  {
    match step
    case BgetMiss(p, b, i) => Miss(s, p, b, i)
    case LogWrite(p, i) => DoLogWrite(s, p, i)
    case BeginOp(p) => Begin(s, p)
    case EndOp(p) => End(s, p)
    case CopyToLog(p, i, j) => DoCopyToLog(s, p, i, j)
    case WriteHeader(p, h) => DoWriteHeader(s, p, h)
    case Install(p, i, j) => DoInstall(s, p, i, j)
    case ClearHeader(p, h) => DoClear(s, p, h)
    case CommitDone => Finish(s)
    case _ => SetBuf(s, step.i, Touch(s.bufs[step.i], s.disk, step))
  }

  // ---------- invariant ----------

  predicate IsPinned(buf: Buf, pins: set<int>) {
    buf.block.Some? && buf.block.value in pins
  }

  /** A buffer's reference count is its referees, its lock holder and the log's pin, nothing else. */
  ghost predicate RefsOk(buf: Buf, pins: set<int>) {
    && buf.refcnt == |buf.refs| + One(buf.holder.Some?) + One(IsPinned(buf, pins))
    && (buf.holder.Some? ==> buf.holder.value !in buf.refs)
    && (buf.block.None? ==> buf.refcnt == 0)
  }

  /** A clean valid buffer holds the last logged contents if pinned, else the disk's. */
  ghost predicate DataOk(buf: Buf, pins: set<int>, disk: Disk, logical: Disk) {
    buf.block.Some? ==>
      && 0 <= buf.block.value < |disk| && |logical| == |disk|
      && (buf.block.value in pins ==> buf.valid)
      && (buf.valid && !buf.dirty ==> buf.data == if buf.block.value in pins then logical[buf.block.value]
         else disk[buf.block.value])
  }

  /** Only an active operation that holds the lock has changes not yet logged. */
  ghost predicate DirtyOk(buf: Buf, ops: seq<Op>, start: nat) {
    buf.dirty ==>
      && buf.holder.Some? && buf.block.Some? && buf.valid && !InLog(start, buf.block.value)
      && IsActive(ops, buf.holder.value)
  }

  ghost predicate Cache(bufs: seq<Buf>, pins: set<int>, disk: Disk, logical: Disk, ops: seq<Op>, start: nat) {
    && (forall i :: 0 <= i < |bufs| ==> RefsOk(bufs[i], pins))
    && (forall i :: 0 <= i < |bufs| ==> DataOk(bufs[i], pins, disk, logical))
    && (forall i :: 0 <= i < |bufs| ==> DirtyOk(bufs[i], ops, start))
  }

  /** No block is cached twice. */
  ghost predicate Unique(bufs: seq<Buf>) {
    forall i, j :: 0 <= i < j < |bufs| && bufs[i].block.Some? ==> bufs[i].block != bufs[j].block
  }

  ghost predicate PinsCached(bufs: seq<Buf>, pins: set<int>) {
    forall b :: b in pins ==> exists i :: 0 <= i < |bufs| && bufs[i].block == Some(b)
  }

  /** The pinned blocks are the logged ones that are not yet installed. */
  ghost predicate Header(lh: seq<int>, pins: set<int>, disk: Disk, start: nat, from: nat) {
    && GoodLog(disk, start, lh) && Distinct(lh)
    && from <= |lh|
    && (forall b :: b in pins <==> b in lh[from..])
  }

  function Installed(phase: Phase): nat {
    if phase.Installing? then phase.tail else 0
  }

  /** The home blocks of a and c agree, except possibly for those in `but`. */
  ghost predicate SameHome(a: Disk, c: Disk, start: nat, but: set<int>) {
    |a| == |c| && forall b :: 0 <= b < |a| && !InLog(start, b) && b !in but ==> a[b] == c[b]
  }

  /** The first n logged blocks have their logical contents in the log. */
  ghost predicate InTheLog(disk: Disk, logical: Disk, start: nat, lh: seq<int>, n: nat)
    requires GoodLog(disk, start, lh) && |logical| == |disk| && n <= |lh|
  {
    forall k :: 0 <= k < n ==> disk[start+1+k] == logical[lh[k]]
  }

  ghost predicate OnDisk(s: State)
    requires GoodLog(s.disk, s.start, s.lh) && |s.logical| == |s.disk|
  {
    match s.phase
    case Idle => IsHeader(s.disk[s.start], []) && SameHome(s.committed, s.disk, s.start, {})
    case Logging(t) =>
      && IsHeader(s.disk[s.start], []) && SameHome(s.committed, s.disk, s.start, {})
      && t <= |s.lh| && InTheLog(s.disk, s.logical, s.start, s.lh, t)
    case Installing(t) =>
      && IsHeader(s.disk[s.start], s.lh) && SameHome(s.committed, s.logical, s.start, {})
      && t <= |s.lh| && InTheLog(s.disk, s.logical, s.start, s.lh, |s.lh|)
    case Cleared =>
      && IsHeader(s.disk[s.start], []) && SameHome(s.committed, s.disk, s.start, {}) && s.lh == []
  }

  function Count(ops: seq<Op>): (n: nat) {
    if ops == [] then 0 else Count(ops[..|ops|-1]) + One(ops[|ops|-1].Inside?)
  }

  function Left(op: Op): nat {
    if op.Inside? then op.left else 0
  }

  function Unused(ops: seq<Op>): (n: nat) {
    if ops == [] then 0 else Unused(ops[..|ops|-1]) + Left(ops[|ops|-1])
  }

  /** What an operation has logged stays in the log while it runs, and each of its entries is for a block of its own. */
  ghost predicate Charges(ops: seq<Op>, lh: seq<int>) {
    forall p :: 0 <= p < |ops| && ops[p].Inside? ==>
      ops[p].left + |ops[p].mine| >= MAXOPBLOCKS && forall b :: b in ops[p].mine ==> b in lh
  }

  /** Log entries in use plus those still promised fit in the log. */
  ghost predicate Reserved(s: State) {
    && s.outstanding == Count(s.ops)
    && (forall p :: 0 <= p < |s.ops| ==> Left(s.ops[p]) <= MAXOPBLOCKS)
    && Charges(s.ops, s.lh)
    && |s.lh| + Unused(s.ops) <= LOGBLOCKS
    && (s.committing <==> !s.phase.Idle?)
    && (s.committing ==> s.outstanding == 0)
  }

  /** The system invariant. */
  ghost predicate Order(s: State) {
    && Cache(s.bufs, s.pins, s.disk, s.logical, s.ops, s.start)
    && Unique(s.bufs)
    && PinsCached(s.bufs, s.pins)
    && Header(s.lh, s.pins, s.disk, s.start, Installed(s.phase))
    && SameHome(s.disk, s.logical, s.start, s.pins)
    && OnDisk(s)
    && Reserved(s)
  }

  /** The same, sealed. */
  ghost predicate Inv(s: State) {
    Checked(s).Sound?
  }

  predicate InvKey(z: int, s: State) {
    true
  }

  ghost function Checked(s: State): (r: Verdict) {
    if forall z {:trigger InvKey(z, s)} :: InvKey(z, s) ==> Order(s) then Sound else Broken
  }

  lemma Open(s: State)
    requires Inv(s)
    ensures Order(s)
  {
    assert InvKey(0, s);
  }

  // ---------- counting operations ----------

  lemma {:induction false} OpsUpdate(ops: seq<Op>, p: nat, op: Op)
    requires p < |ops|
    ensures Count(ops[p := op]) == Count(ops) - One(ops[p].Inside?) + One(op.Inside?)
    ensures Unused(ops[p := op]) == Unused(ops) - Left(ops[p]) + Left(op)
  {
    var init := ops[..|ops|-1];
    if p < |ops| - 1 {
      OpsUpdate(init, p, op);
      assert ops[p := op][..|ops|-1] == init[p := op];
    } else {
      assert ops[p := op][..|ops|-1] == init;
    }
  }

  lemma {:induction false} ActiveCounts(ops: seq<Op>, p: nat)
    requires IsActive(ops, p)
    ensures Count(ops) >= 1 && Unused(ops) >= ops[p].left
  {
    if p < |ops| - 1 {
      ActiveCounts(ops[..|ops|-1], p);
    }
  }

  lemma NobodyInside(ops: seq<Op>)
    requires Count(ops) == 0
    ensures forall p :: 0 <= p < |ops| ==> ops[p].Outside?
  {
    forall p | 0 <= p < |ops| ensures ops[p].Outside? {
      if ops[p].Inside? {
        ActiveCounts(ops, p);
      }
    }
  }

  lemma {:induction false} UnusedBound(ops: seq<Op>)
    requires forall p :: 0 <= p < |ops| ==> Left(ops[p]) <= MAXOPBLOCKS
    ensures Unused(ops) <= MAXOPBLOCKS * Count(ops)
  {
    if ops != [] {
      UnusedBound(ops[..|ops|-1]);
    }
  }

  // ---------- each step keeps the invariant ----------

  /** A step that touches one slot and nothing shared keeps the cache in order if the slot stays in order. */
  lemma SlotStep(s: State, i: nat, buf: Buf)
    requires Inv(s) && i < |s.bufs| && buf.block == s.bufs[i].block
    requires RefsOk(buf, s.pins) && DataOk(buf, s.pins, s.disk, s.logical) && DirtyOk(buf, s.ops, s.start)
    ensures Inv(SetBuf(s, i, buf))
  {
    Open(s);
    var bufs := s.bufs[i := buf];
    forall b | b in s.pins ensures exists k :: 0 <= k < |bufs| && bufs[k].block == Some(b) {
      var k :| 0 <= k < |s.bufs| && s.bufs[k].block == Some(b);
      assert bufs[k].block == Some(b);
    }
    assert Order(SetBuf(s, i, buf));
  }

  lemma OneSlotSteps(s: State, step: Step)
    requires Inv(s) && OnOneSlot(step) && CanTouch(s, step)
    ensures Inv(SetBuf(s, step.i, Touch(s.bufs[step.i], s.disk, step)))
  {
    Open(s);
    var buf := s.bufs[step.i];
    assert RefsOk(buf, s.pins) && DataOk(buf, s.pins, s.disk, s.logical) && DirtyOk(buf, s.ops, s.start);
    TouchRefs(s, step);
    TouchData(s, step);
    SlotStep(s, step.i, Touch(buf, s.disk, step));
  }

  lemma TouchRefs(s: State, step: Step)
    requires OnOneSlot(step) && CanTouch(s, step) && RefsOk(s.bufs[step.i], s.pins)
    ensures RefsOk(Touch(s.bufs[step.i], s.disk, step), s.pins)
  {
  }

  lemma TouchData(s: State, step: Step)
    requires OnOneSlot(step) && CanTouch(s, step)
    requires DataOk(s.bufs[step.i], s.pins, s.disk, s.logical) && DirtyOk(s.bufs[step.i], s.ops, s.start)
    requires RefsOk(s.bufs[step.i], s.pins)
    ensures DataOk(Touch(s.bufs[step.i], s.disk, step), s.pins, s.disk, s.logical)
    ensures DirtyOk(Touch(s.bufs[step.i], s.disk, step), s.ops, s.start)
  {
  }

  lemma BgetMissKeeps(s: State, p: nat, b: int, i: nat)
    requires Inv(s) && CanMiss(s, p, b, i)
    ensures Inv(Miss(s, p, b, i))
  {
    Open(s);
    var r := Miss(s, p, b, i);
    assert RefsOk(s.bufs[i], s.pins) && DirtyOk(s.bufs[i], s.ops, s.start);
    NotPinned(s, b);
    forall b | b in s.pins ensures exists k :: 0 <= k < |r.bufs| && r.bufs[k].block == Some(b) {
      var k :| 0 <= k < |s.bufs| && s.bufs[k].block == Some(b);
      assert RefsOk(s.bufs[k], s.pins);
      assert r.bufs[k].block == Some(b);
    }
    assert Order(Miss(s, p, b, i));
  }

  lemma NotPinned(s: State, b: int)
    requires PinsCached(s.bufs, s.pins)
    requires forall k :: 0 <= k < |s.bufs| ==> s.bufs[k].block != Some(b)
    ensures b !in s.pins
  {
  }

  lemma BeginOpKeeps(s: State, p: nat)
    requires Inv(s) && CanBegin(s, p)
    ensures Inv(Begin(s, p))
  {
    Open(s);
    OpsUpdate(s.ops, p, Inside(MAXOPBLOCKS, {}));
    UnusedBound(s.ops);
    assert Order(Begin(s, p));
  }

  lemma EndOpKeeps(s: State, p: nat)
    requires Inv(s) && CanEnd(s, p)
    ensures Inv(End(s, p))
  {
    Open(s);
    OpsUpdate(s.ops, p, Outside);
    ActiveCounts(s.ops, p);
    assert Order(End(s, p));
  }

  lemma CommitDoneKeeps(s: State)
    requires Inv(s) && s.phase.Cleared?
    ensures Inv(Finish(s))
  {
    Open(s);
    assert Order(Finish(s));
  }

  /** While a commit runs nobody is inside an operation, so no buffer has changes of its own. */
  lemma QuietCommit(s: State, i: nat)
    requires Inv(s) && s.committing && i < |s.bufs|
    ensures !s.bufs[i].dirty
  {
    Open(s);
    assert DirtyOk(s.bufs[i], s.ops, s.start);
    if s.bufs[i].dirty {
      ActiveCounts(s.ops, s.bufs[i].holder.value);
    }
  }

  // ---------- log_write ----------

  /** Logging a held buffer: the other buffers do not notice, this one becomes pinned and clean. */
  lemma LogWriteCache(s: State, p: nat, i: nat)
    requires Inv(s) && CanLogWrite(s, p, i)
    ensures var r := DoLogWrite(s, p, i); Cache(r.bufs, r.pins, r.disk, r.logical, r.ops, r.start)
  {
    Open(s);
    var r, b := DoLogWrite(s, p, i), s.bufs[i].block.value;
    LogWritePins(s, p, i);
    forall k | 0 <= k < |r.bufs|
      ensures RefsOk(r.bufs[k], r.pins) && DataOk(r.bufs[k], r.pins, r.disk, r.logical)
      ensures DirtyOk(r.bufs[k], r.ops, r.start)
    {
      var buf := s.bufs[k];
      assert RefsOk(buf, s.pins) && DataOk(buf, s.pins, s.disk, s.logical) && DirtyOk(buf, s.ops, s.start);
      assert k != i ==> buf.block != Some(b);
    }
  }

  lemma LogWritePins(s: State, p: nat, i: nat)
    requires Inv(s) && CanLogWrite(s, p, i)
    ensures var b := s.bufs[i].block.value; !s.committing && s.phase.Idle? && (b in s.pins <==> b in s.lh)
  {
    Open(s);
    ActiveCounts(s.ops, p);
  }

  lemma LogWriteKeeps(s: State, p: nat, i: nat)
    requires Inv(s) && CanLogWrite(s, p, i)
    ensures Inv(DoLogWrite(s, p, i))
  {
    LogWriteCache(s, p, i);
    LogWriteHeader(s, p, i);
    LogWriteReserved(s, p, i);
    LogWriteHome(s, p, i);
    assert Order(DoLogWrite(s, p, i));
  }

  lemma LogWriteReserved(s: State, p: nat, i: nat)
    requires Inv(s) && CanLogWrite(s, p, i)
    ensures Reserved(DoLogWrite(s, p, i))
  {
    Open(s);
    var r, b := DoLogWrite(s, p, i), s.bufs[i].block.value;
    OpsUpdate(s.ops, p, r.ops[p]);
    ChargeKeeps(s.ops, s.lh, p, b);
  }

  lemma LogWriteHome(s: State, p: nat, i: nat)
    requires Inv(s) && CanLogWrite(s, p, i)
      && Header(DoLogWrite(s, p, i).lh, DoLogWrite(s, p, i).pins, s.disk, s.start, 0)
    ensures var r := DoLogWrite(s, p, i);
      && Unique(r.bufs) && SameHome(r.disk, r.logical, r.start, r.pins) && |r.logical| == |r.disk| && OnDisk(r)
         && r.phase.Idle?
  {
    Open(s);
    LogWritePins(s, p, i);
  }

  lemma ChargeKeeps(ops: seq<Op>, lh: seq<int>, p: nat, b: int)
    requires Charges(ops, lh) && IsActive(ops, p) && (b in lh || ops[p].left > 0)
    ensures Charges(ops[p := Charged(ops[p], b, if b in lh then 0 else 1)], Absorb(lh, b))
  {
    AbsorbMembers(lh, b);
    if b in ops[p].mine {
      assert ops[p].mine + {b} == ops[p].mine;
    }
  }

  lemma AbsorbHeader(lh: seq<int>, pins: set<int>, disk: Disk, start: nat, b: int)
    requires Header(lh, pins, disk, start, 0) && |lh| < LOGBLOCKS && 0 <= b < |disk| && !InLog(start, b)
    ensures Header(Absorb(lh, b), pins + {b}, disk, start, 0)
  {
    AbsorbMembers(lh, b);
    var r := Absorb(lh, b);
    assert lh[0..] == lh && r[0..] == r;
  }

  lemma StillCached(a: seq<Buf>, c: seq<Buf>, pins: set<int>, i: nat, b: int)
    requires PinsCached(a, pins) && |c| == |a| && i < |a| && a[i].block == Some(b)
    requires forall k :: 0 <= k < |a| ==> c[k].block == a[k].block
    ensures PinsCached(c, pins + {b})
  {
    SameBlocksCachePins(a, c, pins, pins);
    assert c[i].block == Some(b);
  }

  lemma LogWriteHeader(s: State, p: nat, i: nat)
    requires Inv(s) && CanLogWrite(s, p, i)
    ensures var r := DoLogWrite(s, p, i); Header(r.lh, r.pins, r.disk, r.start, 0) && PinsCached(r.bufs, r.pins)
  {
    Open(s);
    LogWritePins(s, p, i);
    AbsorbHeader(s.lh, s.pins, s.disk, s.start, s.bufs[i].block.value);
    StillCached(s.bufs, DoLogWrite(s, p, i).bufs, s.pins, i, s.bufs[i].block.value);
  }

  // ---------- commit's block writes ----------

  /** bwrite of a clean buffer keeps the cache coherent (a pinned one must carry its logged contents). */
  lemma WriteThroughKeeps(s: State, j: nat, data: Block)
    requires Cache(s.bufs, s.pins, s.disk, s.logical, s.ops, s.start) && Unique(s.bufs)
    requires j < |s.bufs| && s.bufs[j].block.Some? && 0 <= s.bufs[j].block.value < |s.disk|
    requires !s.bufs[j].dirty
    requires s.bufs[j].block.value in s.pins ==>
      s.bufs[j].block.value < |s.logical| && data == s.logical[s.bufs[j].block.value]
    ensures var r := WriteThrough(s, j, data);
      Cache(r.bufs, r.pins, r.disk, r.logical, r.ops, r.start) && Unique(r.bufs)
  {
    var r, b := WriteThrough(s, j, data), s.bufs[j].block.value;
    forall k | 0 <= k < |r.bufs|
      ensures RefsOk(r.bufs[k], r.pins) && DataOk(r.bufs[k], r.pins, r.disk, r.logical)
      ensures DirtyOk(r.bufs[k], r.ops, r.start)
    {
      var buf := s.bufs[k];
      assert RefsOk(buf, s.pins) && DataOk(buf, s.pins, s.disk, s.logical) && DirtyOk(buf, s.ops, s.start);
      assert k != j ==> buf.block != Some(b);
    }
  }

  lemma SameBlocksCachePins(a: seq<Buf>, c: seq<Buf>, pins: set<int>, pins': set<int>)
    requires PinsCached(a, pins) && pins' <= pins && |c| == |a|
    requires forall k :: 0 <= k < |a| ==> c[k].block == a[k].block
    ensures PinsCached(c, pins')
  {
    forall b | b in pins' ensures exists k :: 0 <= k < |c| && c[k].block == Some(b) {
      var k :| 0 <= k < |a| && a[k].block == Some(b);
      assert c[k].block == Some(b);
    }
  }

  /** write_log copies exactly the latest logged contents of each block. */
  lemma CopiesLatest(s: State, p: nat, i: nat, j: nat)
    requires Inv(s) && CanCopyToLog(s, p, i, j)
    ensures 0 <= s.lh[s.phase.tail] < |s.logical| && s.bufs[i].data == s.logical[s.lh[s.phase.tail]]
    ensures !s.bufs[j].dirty && s.start + 1 + s.phase.tail !in s.pins
  {
    Open(s);
    QuietCommit(s, i);
    QuietCommit(s, j);
    assert s.lh[s.phase.tail] in s.lh[0..];
    assert DataOk(s.bufs[i], s.pins, s.disk, s.logical);
  }

  lemma CopyOnDisk(disk: Disk, logical: Disk, start: nat, lh: seq<int>, t: nat, data: Block)
    requires GoodLog(disk, start, lh) && |logical| == |disk| && t < |lh|
    requires InTheLog(disk, logical, start, lh, t) && data == logical[lh[t]]
    ensures var r := disk[start+1+t := data];
      && GoodLog(r, start, lh) && InTheLog(r, logical, start, lh, t + 1)
      && r[start] == disk[start] && SameHome(r, disk, start, {})
  {
  }

  lemma CopyCache(s: State, p: nat, i: nat, j: nat)
    requires Inv(s) && CanCopyToLog(s, p, i, j)
    ensures var r := DoCopyToLog(s, p, i, j);
      Cache(r.bufs, r.pins, r.disk, r.logical, r.ops, r.start) && Unique(r.bufs) && PinsCached(r.bufs, r.pins)
  {
    Open(s);
    CopiesLatest(s, p, i, j);
    WriteThroughKeeps(s, j, s.bufs[i].data);
    SameBlocksCachePins(s.bufs, DoCopyToLog(s, p, i, j).bufs, s.pins, s.pins);
  }

  lemma CopyLog(s: State, t: nat, data: Block)
    requires s.phase == Logging(t) && t < |s.lh| && Header(s.lh, s.pins, s.disk, s.start, 0)
    requires |s.logical| == |s.disk| && OnDisk(s)
    requires s.start + 1 + t < |s.disk| && data == s.logical[s.lh[t]]
    requires SameHome(s.disk, s.logical, s.start, s.pins)
    ensures var disk := s.disk[s.start + 1 + t := data];
      && Header(s.lh, s.pins, disk, s.start, 0) && SameHome(disk, s.logical, s.start, s.pins)
      && OnDisk(s.(disk := disk, phase := Logging(t + 1)))
  {
    CopyOnDisk(s.disk, s.logical, s.start, s.lh, t, data);
  }

  lemma CopyRest(s: State, p: nat, i: nat, j: nat)
    requires Inv(s) && CanCopyToLog(s, p, i, j)
    ensures var r := DoCopyToLog(s, p, i, j);
      Header(r.lh, r.pins, r.disk, r.start, Installed(r.phase)) && SameHome(r.disk, r.logical, r.start, r.pins)
        && OnDisk(r) && Reserved(r)
  {
    Open(s);
    CopiesLatest(s, p, i, j);
    CopyLog(s, s.phase.tail, s.bufs[i].data);
  }

  lemma CopyToLogKeeps(s: State, p: nat, i: nat, j: nat)
    requires Inv(s) && CanCopyToLog(s, p, i, j)
    ensures Inv(DoCopyToLog(s, p, i, j))
  {
    CopyCache(s, p, i, j);
    CopyRest(s, p, i, j);
    assert Order(DoCopyToLog(s, p, i, j));
  }

  /** Writing the header block, whatever is written. */
  lemma HeaderCache(s: State, p: nat, h: nat, head: Block)
    requires Inv(s) && HoldsHeader(s, p, h) && s.committing
    ensures var r := WriteThrough(s, h, head);
      Cache(r.bufs, r.pins, r.disk, r.logical, r.ops, r.start) && Unique(r.bufs) && PinsCached(r.bufs, r.pins)
  {
    Open(s);
    QuietCommit(s, h);
    WriteThroughKeeps(s, h, head);
    SameBlocksCachePins(s.bufs, WriteThrough(s, h, head).bufs, s.pins, s.pins);
  }

  lemma HeaderOnDisk(disk: Disk, logical: Disk, start: nat, lh: seq<int>, pins: set<int>, head: Block)
    requires Header(lh, pins, disk, start, 0) && SameHome(disk, logical, start, pins) && IsHeader(head, lh)
    requires InTheLog(disk, logical, start, lh, |lh|)
    ensures var d := disk[start := head];
      && Header(lh, pins, d, start, 0) && SameHome(d, logical, start, pins) && IsHeader(d[start], lh)
      && InTheLog(d, logical, start, lh, |lh|)
  {
  }

  lemma WriteHeaderRest(s: State, p: nat, h: nat)
    requires Inv(s) && CanWriteHeader(s, p, h)
    ensures s.committing
    ensures var r := DoWriteHeader(s, p, h);
      Header(r.lh, r.pins, r.disk, r.start, Installed(r.phase)) && SameHome(r.disk, r.logical, r.start, r.pins)
        && OnDisk(r) && Reserved(r)
  {
    Open(s);
    HeaderRoundTrip(s.bufs[h].data, s.lh);
    HeaderOnDisk(s.disk, s.logical, s.start, s.lh, s.pins, EncodeHeader(s.bufs[h].data, s.lh));
  }

  lemma WriteHeaderKeeps(s: State, p: nat, h: nat)
    requires Inv(s) && CanWriteHeader(s, p, h)
    ensures Inv(DoWriteHeader(s, p, h))
  {
    WriteHeaderRest(s, p, h);
    HeaderCache(s, p, h, EncodeHeader(s.bufs[h].data, s.lh));
    assert Order(DoWriteHeader(s, p, h));
  }

  lemma ClearHeaderRest(s: State, p: nat, h: nat)
    requires Inv(s) && CanClear(s, p, h)
    ensures s.committing
    ensures var r := DoClear(s, p, h);
      Header(r.lh, r.pins, r.disk, r.start, Installed(r.phase)) && SameHome(r.disk, r.logical, r.start, r.pins)
        && OnDisk(r) && Reserved(r)
  {
    Open(s);
    HeaderRoundTrip(s.bufs[h].data, []);
    NobodyInside(s.ops);
    assert s.lh[|s.lh|..] == [];
  }

  lemma ClearHeaderKeeps(s: State, p: nat, h: nat)
    requires Inv(s) && CanClear(s, p, h)
    ensures Inv(DoClear(s, p, h))
  {
    ClearHeaderRest(s, p, h);
    HeaderCache(s, p, h, EncodeHeader(s.bufs[h].data, []));
    assert Order(DoClear(s, p, h));
  }

  /** Dropping the log's pin on a block that is safely home. */
  lemma UnpinKeeps(s: State, j: nat)
    requires Cache(s.bufs, s.pins, s.disk, s.logical, s.ops, s.start) && Unique(s.bufs)
    requires j < |s.bufs| && IsPinned(s.bufs[j], s.pins)
    requires var b := s.bufs[j].block.value; 0 <= b < |s.disk| && b < |s.logical| && s.disk[b] == s.logical[b]
    ensures var r := SetBuf(s, j, s.bufs[j].(refcnt := s.bufs[j].refcnt - 1));
      Cache(r.bufs, s.pins - {s.bufs[j].block.value}, s.disk, s.logical, s.ops, s.start) && Unique(r.bufs)
  {
    var b := s.bufs[j].block.value;
    var r := SetBuf(s, j, s.bufs[j].(refcnt := s.bufs[j].refcnt - 1));
    forall k | 0 <= k < |r.bufs|
      ensures RefsOk(r.bufs[k], s.pins - {b}) && DataOk(r.bufs[k], s.pins - {b}, s.disk, s.logical)
      ensures DirtyOk(r.bufs[k], s.ops, s.start)
    {
      var buf := s.bufs[k];
      assert RefsOk(buf, s.pins) && DataOk(buf, s.pins, s.disk, s.logical) && DirtyOk(buf, s.ops, s.start);
      assert k != j ==> buf.block != Some(b);
    }
  }

  /** install_trans finds the logged contents in the log, whether or not the log block is cached. */
  lemma InstallsLogged(s: State, p: nat, i: nat, j: nat)
    requires Inv(s) && CanInstall(s, p, i, j)
    ensures s.lh[s.phase.tail] in s.pins && |s.logical| == |s.disk|
    ensures s.bufs[i].data == s.logical[s.lh[s.phase.tail]]
    ensures !s.bufs[j].dirty
  {
    Open(s);
    QuietCommit(s, i);
    QuietCommit(s, j);
    assert s.lh[s.phase.tail..][0] == s.lh[s.phase.tail];
    assert DataOk(s.bufs[i], s.pins, s.disk, s.logical);
  }

  lemma InstallCache(s: State, p: nat, i: nat, j: nat)
    requires Inv(s) && CanInstall(s, p, i, j)
    ensures var r := DoInstall(s, p, i, j);
      && Cache(r.bufs, r.pins, r.disk, r.logical, r.ops, r.start) && Unique(r.bufs)
      && PinsCached(r.bufs, r.pins)
  {
    Open(s);
    InstallsLogged(s, p, i, j);
    WriteThroughKeeps(s, j, s.bufs[i].data);
    UnpinKeeps(WriteThrough(s, j, s.bufs[i].data), j);
    SameBlocksCachePins(s.bufs, DoInstall(s, p, i, j).bufs, s.pins, DoInstall(s, p, i, j).pins);
  }

  lemma InstallHome(disk: Disk, logical: Disk, start: nat, lh: seq<int>, pins: set<int>, t: nat)
    requires Header(lh, pins, disk, start, t) && t < |lh| && SameHome(disk, logical, start, pins)
    requires InTheLog(disk, logical, start, lh, |lh|) && IsHeader(disk[start], lh)
    ensures var d := disk[lh[t] := logical[lh[t]]];
      && Header(lh, pins - {lh[t]}, d, start, t + 1) && SameHome(d, logical, start, pins - {lh[t]})
      && InTheLog(d, logical, start, lh, |lh|) && IsHeader(d[start], lh)
  {
    assert lh[t..] == [lh[t]] + lh[t+1..];
  }

  lemma InstallRest(s: State, p: nat, i: nat, j: nat)
    requires Inv(s) && CanInstall(s, p, i, j)
    ensures var r := DoInstall(s, p, i, j);
      && Header(r.lh, r.pins, r.disk, r.start, Installed(r.phase)) && SameHome(r.disk, r.logical, r.start, r.pins)
      && OnDisk(r) && Reserved(r)
  {
    InstallsLogged(s, p, i, j);
    Open(s);
    InstallHome(s.disk, s.logical, s.start, s.lh, s.pins, s.phase.tail);
  }

  lemma InstallStepKeeps(s: State, p: nat, i: nat, j: nat)
    requires Inv(s) && CanInstall(s, p, i, j)
    ensures Inv(DoInstall(s, p, i, j))
  {
    InstallCache(s, p, i, j);
    InstallRest(s, p, i, j);
    assert Order(DoInstall(s, p, i, j));
  }

  // ---------- every run ----------

  /** A buffer that nobody uses, empty or with the contents of its disk block. */
  ghost predicate Clean(buf: Buf, disk: Disk) {
    && buf.refcnt == 0 && buf.holder.None? && buf.refs == {} && !buf.dirty
    && (buf.block.Some? ==> 0 <= buf.block.value < |disk| && (buf.valid ==> buf.data == disk[buf.block.value]))
  }

  /** A freshly recovered system: nothing logged or running, and nothing cached but what the disk holds. */
  ghost predicate Init(s: State) {
    && s.start + LOGBLOCKS < |s.disk| <= TWO32 && IsHeader(s.disk[s.start], [])
    && Unique(s.bufs) && (forall i :: 0 <= i < |s.bufs| ==> Clean(s.bufs[i], s.disk))
    && s.lh == [] && s.pins == {} && s.phase.Idle? && !s.committing && s.outstanding == 0
    && (forall p :: 0 <= p < |s.ops| ==> s.ops[p].Outside?)
    && s.logical == s.disk && s.committed == s.disk
  }

  lemma {:induction false} NoneActive(ops: seq<Op>)
    requires forall p :: 0 <= p < |ops| ==> ops[p].Outside?
    ensures Count(ops) == 0 && Unused(ops) == 0
  {
    if ops != [] {
      NoneActive(ops[..|ops|-1]);
    }
  }

  lemma InitInv(s: State)
    requires Init(s)
    ensures Inv(s)
  {
    NoneActive(s.ops);
    assert Order(s);
  }

  lemma StepKeeps(s: State, step: Step)
    requires Inv(s) && Enabled(s, step)
    ensures Inv(Do(s, step))
  {
    match step
    case BgetMiss(p, b, i) => BgetMissKeeps(s, p, b, i);
    case LogWrite(p, i) => LogWriteKeeps(s, p, i);
    case BeginOp(p) => BeginOpKeeps(s, p);
    case EndOp(p) => EndOpKeeps(s, p);
    case CopyToLog(p, i, j) => CopyToLogKeeps(s, p, i, j);
    case WriteHeader(p, h) => WriteHeaderKeeps(s, p, h);
    case Install(p, i, j) => InstallStepKeeps(s, p, i, j);
    case ClearHeader(p, h) => ClearHeaderKeeps(s, p, h);
    case CommitDone => CommitDoneKeeps(s);
    case _ => OneSlotSteps(s, step);
  }

  /** r is where the steps lead from s, each taken when it may be. */
  ghost predicate Leads(s: State, steps: seq<Step>, r: State)
    decreases |steps|
  {
    if steps == [] then r == s
    else Enabled(s, steps[0]) && Leads(Do(s, steps[0]), steps[1..], r)
  }

  lemma {:induction false} RunKeeps(s: State, steps: seq<Step>, r: State)
    requires Inv(s) && Leads(s, steps, r)
    ensures Inv(r)
    decreases |steps|
  {
    if steps != [] {
      StepKeeps(s, steps[0]);
      RunKeeps(Do(s, steps[0]), steps[1..], r);
    }
  }

  lemma StandsForCommitted(s: State)
    requires Inv(s)
    ensures Represents(s.disk, s.start, s.committed)
  {
    Open(s);
    if s.phase.Installing? {
      forall b | 0 <= b < |s.disk| && !InLog(s.start, b) && b !in s.lh ensures s.disk[b] == s.committed[b] {
        assert b !in s.lh[s.phase.tail..];
      }
    }
  }

  /**
   Crash safety of every run.  Stop the system after any steps, lose everything but the disk,
   crash any number of recoveries anywhere, then let one finish: the home blocks are exactly
   those of the last commit point, and the log is empty.
   */
  lemma CrashAnywhere(s: State, steps: seq<Step>, r: State, crashes: seq<nat>)
    requires Init(s) && Leads(s, steps, r)
    ensures Represents(r.disk, r.start, r.committed)
    ensures var crashed := CrashedRecoveries(r.disk, r.start, r.committed, crashes);
      var d := Apply(crashed, RecoveryWrites(crashed, r.start));
      && |d| == |r.disk| && IsHeader(d[r.start], [])
      && SameHome(d, r.committed, r.start, {})
  {
    InitInv(s);
    RunKeeps(s, steps, r);
    StandsForCommitted(r);
    RecoveryComplete(CrashedRecoveries(r.disk, r.start, r.committed, crashes), r.start, r.committed);
  }

  // ---------- consistency ----------

  /** Along the steps from s, whenever no operation is running, good holds of the home blocks as last logged. */
  ghost predicate HoldsBetween(good: Disk -> bool, s: State, steps: seq<Step>)
    decreases |steps|
  {
    && (Count(s.ops) == 0 ==> good(s.logical))
    && (steps != [] ==> Enabled(s, steps[0]) && HoldsBetween(good, Do(s, steps[0]), steps[1..]))
  }

  /** good is about home blocks only. */
  ghost predicate AboutHome(good: Disk -> bool, start: nat) {
    forall a, c :: SameHome(a, c, start, {}) && good(c) ==> good(a)
  }

  lemma {:induction false} CommittedIsGood(good: Disk -> bool, s: State, steps: seq<Step>, r: State)
    requires Inv(s) && good(s.committed) && Leads(s, steps, r) && HoldsBetween(good, s, steps)
    ensures good(r.committed) && r.start == s.start
    decreases |steps|
  {
    if steps != [] {
      var step := steps[0];
      StepKeeps(s, step);
      CommitsWholeOperations(s, step);
      if step.WriteHeader? {
        NoneActive(s.ops);
      }
      CommittedIsGood(good, Do(s, step), steps[1..], r);
    }
  }

  /**
   Crash consistency: a property of the home blocks that holds whenever no operation is running
   holds again after a crash at any moment, however deep inside operations and the commit, and recovery.
   */
  lemma ConsistentAfterCrash(good: Disk -> bool, s: State, steps: seq<Step>, r: State, crashes: seq<nat>)
    requires Init(s) && Leads(s, steps, r) && HoldsBetween(good, s, steps) && AboutHome(good, s.start)
    ensures Represents(r.disk, r.start, r.committed)
    ensures var crashed := CrashedRecoveries(r.disk, r.start, r.committed, crashes);
      good(Apply(crashed, RecoveryWrites(crashed, r.start)))
  {
    CrashAnywhere(s, steps, r, crashes);
    InitInv(s);
    NoneActive(s.ops);
    CommittedIsGood(good, s, steps, r);
  }

  /**
   The commit point takes in whole operations only: the header write is the one step that
   moves it, at a moment when no operation is in progress and no buffer has unlogged changes.
   */
  lemma CommitsWholeOperations(s: State, step: Step)
    requires Inv(s) && Enabled(s, step)
    ensures !step.WriteHeader? ==> Do(s, step).committed == s.committed
    ensures step.WriteHeader? ==>
      && Do(s, step).committed == s.logical
      && (forall p :: 0 <= p < |s.ops| ==> s.ops[p].Outside?)
      && (forall i :: 0 <= i < |s.bufs| ==> !s.bufs[i].dirty)
  {
    Open(s);
    if step.WriteHeader? {
      NobodyInside(s.ops);
      forall i | 0 <= i < |s.bufs| ensures !s.bufs[i].dirty {
        QuietCommit(s, i);
      }
    }
  }

  /** Isolation: until the header write no step changes any home block on disk. */
  lemma HomeUntouchedBeforeCommit(s: State, step: Step)
    requires Inv(s) && Enabled(s, step) && (s.phase.Idle? || s.phase.Logging?)
    ensures SameHome(Do(s, step).disk, s.disk, s.start, {})
  {
    Open(s);
  }

  /** Isolation: a buffer keeps its block while anyone, the log's pin included, refers to it. */
  lemma ReferencedKeepsBlock(s: State, step: Step, i: nat)
    requires Inv(s) && Enabled(s, step) && i < |s.bufs|
    requires s.bufs[i].refcnt > 0 || IsPinned(s.bufs[i], s.pins)
    ensures |Do(s, step).bufs| == |s.bufs| && Do(s, step).bufs[i].block == s.bufs[i].block
  {
    Open(s);
    assert RefsOk(s.bufs[i], s.pins);
    KeepsBlock(s, step, i);
  }

  /** Only bget, on a miss, gives a slot another block. */
  lemma KeepsBlock(s: State, step: Step, i: nat)
    requires Enabled(s, step) && i < |s.bufs| && !(step.BgetMiss? && step.i == i)
    ensures |Do(s, step).bufs| == |s.bufs| && Do(s, step).bufs[i].block == s.bufs[i].block
  {
    if OnOneSlot(step) {
      TouchKeepsBlock(s, step);
    }
  }

  lemma TouchKeepsBlock(s: State, step: Step)
    requires OnOneSlot(step) && CanTouch(s, step)
    ensures step.i < |s.bufs| && Touch(s.bufs[step.i], s.disk, step).block == s.bufs[step.i].block
  {
  }

  /** The log holds one pin per logged block until install starts, and none once the log is clear. */
  lemma PinsMatchLog(s: State)
    requires Inv(s)
    ensures |s.pins| == |s.lh| - Installed(s.phase)
  {
    Open(s);
    var rest := s.lh[Installed(s.phase)..];
    DistinctCard(rest, s.pins);
  }

  lemma EmptyAgrees(s: set<int>, xs: seq<int>)
    requires xs == [] && forall b :: b in s <==> b in xs
    ensures |s| == 0
  {
    assert forall b :: b in s ==> b in xs;
    assert forall b :: b !in s;
  }

  lemma {:induction false} DistinctCard(xs: seq<int>, pins: set<int>)
    requires Distinct(xs) && forall b :: b in pins <==> b in xs
    ensures |pins| == |xs|
  {
    if xs == [] {
      EmptyAgrees(pins, xs);
    } else {
      DistinctCard(xs[1..], pins - {xs[0]});
    }
  }

  /** An operation with budget left never hits either panic of log_write. */
  lemma BudgetSuffices(s: State, p: nat)
    requires Inv(s) && IsActive(s.ops, p) && s.ops[p].left > 0
    ensures !LogWritePanics(s)
  {
    Open(s);
    ActiveCounts(s.ops, p);
  }

  /** So an operation that has logged fewer than MAXOPBLOCKS blocks never panics, whichever block it logs next. */
  lemma FewBlocksSuffice(s: State, p: nat)
    requires Inv(s) && IsActive(s.ops, p) && |s.ops[p].mine| < MAXOPBLOCKS
    ensures !LogWritePanics(s) && s.ops[p].left > 0
  {
    Open(s);
    BudgetSuffices(s, p);
  }

  /** end_op never finds a commit in progress, so its panic is unreachable. */
  lemma EndOpNeverPanics(s: State, p: nat)
    requires Inv(s) && IsActive(s.ops, p)
    ensures !s.committing && s.outstanding > 0
  {
    Open(s);
    ActiveCounts(s.ops, p);
  }
}
