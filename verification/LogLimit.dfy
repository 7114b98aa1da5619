/**
 How far log_write's reservation goes (kernel/log.c:216-236).  The check for a full log comes
 before absorption, so an operation that has used up its budget can run into the panic even for a
 block that is already logged; this module shows a run where that happens and when it cannot.
 */
module LogLimit {
  import opened Blocks
  import opened Log
  import opened RedoLog
  import opened LogSystem
  import FileSystem

  /** log_write panics exactly when the log is full; then every operation in progress has used up its budget. */
  lemma PanicsWhenFull(s: State, p: nat)
    requires Inv(s) && IsActive(s.ops, p)
    ensures LogWritePanics(s) <==> |s.lh| == LOGBLOCKS
    ensures LogWritePanics(s) ==> s.ops[p].left == 0
  {
    Open(s);
    ActiveCounts(s.ops, p);
    if s.ops[p].left > 0 {
      BudgetSuffices(s, p);
    }
  }

  /**
   A file-system operation that stays within its budget (FileSystem.WithinBudget, as every chunk of
   filewrite and, on all but the largest disks, itrunc do) never panics: at each of its log_writes
   it has logged no more than l.early, whatever the other operations did meanwhile.
   */
  lemma WithinBudgetNeverPanics(l: FileSystem.OpLog, s: State, p: nat)
    requires FileSystem.WithinBudget(l)
    requires Inv(s) && IsActive(s.ops, p) && s.ops[p].mine <= l.early
    ensures !LogWritePanics(s)
  {
    FileSystem.SubsetCard(s.ops[p].mine, l.early);
    FewBlocksSuffice(s, p);
  }

  // ---------- three operations fill the log ----------

  function Home(i: int): (b: int) {
    31 + i
  }

  function EmptyBuf(): (b: Buf) {
    Buf(None, false, 0, ZeroBlock(), None, {}, false)
  }

  /** Slot i after operation i / 10 has logged its block and still holds its lock. */
  function LoggedBuf(i: nat): (b: Buf) {
    Buf(Some(Home(i)), true, 2, ZeroBlock(), Some(i / 10), {}, false)
  }

  function BufAt(n: int, i: nat): (b: Buf) {
    if i < n then LoggedBuf(i) else EmptyBuf()
  }

  function LeftAt(n: int, p: int): (l: nat) {
    if n <= 10 * p then 10 else if n >= 10 * p + 10 then 0 else 10 * p + 10 - n
  }

  /** What operation p has logged by then. */
  function Mine(n: int, p: int): (m: set<int>) {
    set i | 10 * p <= i < n && i < 10 * p + 10 :: Home(i)
  }

  function Drive(): (d: Disk)
    ensures |d| == 100 && forall b :: 0 <= b < 100 ==> d[b] == ZeroBlock()
  {
    seq(100, _ => ZeroBlock())
  }

  /** The state when n blocks have been logged. */
  ghost function Filled(n: nat): (s: State)
    requires n <= 30
    ensures |s.bufs| == 30 && forall i :: 0 <= i < 30 ==> s.bufs[i] == BufAt(n, i)
  {
    State(0, Drive(), seq(30, i requires 0 <= i < 30 => BufAt(n, i)), seq(n, i => Home(i)), 3, false, Idle,
          [Inside(LeftAt(n, 0), Mine(n, 0)), Inside(LeftAt(n, 1), Mine(n, 1)), Inside(LeftAt(n, 2), Mine(n, 2))],
            set i | 0 <= i < n :: Home(i), Drive(), Drive())
  }

  ghost function Boot(): (s: State) {
    Filled(0).(outstanding := 0, ops := [Outside, Outside, Outside])
  }

  lemma BootIsInit()
    ensures Init(Boot())
  {
    ZeroBlockWords(0);
    assert DecodeHeader(ZeroBlock()) == [];
  }

  /** The four steps that log the next block. */
  function Round(n: nat): (steps: seq<Step>) {
    [BgetMiss(n / 10, Home(n), n), AcquireSleep(n / 10, n), ReadDisk(n / 10, n), LogWrite(n / 10, n)]
  }

  function AsideBuf(n: nat, k: nat): (b: Buf)
    requires k <= 3
  {
    var b := Buf(Some(Home(n)), false, 1, ZeroBlock(), None, {n / 10}, false);
    if k == 1 then b else if k == 2 then b.(holder := Some(n / 10), refs := {})
      else b.(holder := Some(n / 10), refs := {}, valid := true)
  }

  /** The state within round n. */
  ghost function Amid(n: nat, k: nat): (s: State)
    requires n < 30 && 1 <= k <= 3
  {
    SetBuf(Filled(n), n, AsideBuf(n, k))
  }

  lemma Fetches(n: nat)
    requires n < 30
    ensures Enabled(Filled(n), Round(n)[0]) && Do(Filled(n), Round(n)[0]) == Amid(n, 1)
    ensures Enabled(Amid(n, 1), Round(n)[1]) && Do(Amid(n, 1), Round(n)[1]) == Amid(n, 2)
    ensures Enabled(Amid(n, 2), Round(n)[2]) && Do(Amid(n, 2), Round(n)[2]) == Amid(n, 3)
  {
    assert Filled(n).bufs[n] == EmptyBuf();
    assert forall k :: 0 <= k < 30 ==> Filled(n).bufs[k] == BufAt(n, k);
    assert {n / 10} - {n / 10} == {};
    assert Amid(n, 1).bufs[n := AsideBuf(n, 2)] == Amid(n, 2).bufs;
    assert Amid(n, 2).bufs[n := AsideBuf(n, 3)] == Amid(n, 3).bufs;
  }

  lemma MineMore(n: nat, p: int)
    requires 0 <= p
    ensures Mine(0, p) == {} && Mine(n + 1, p) == if n / 10 == p then Mine(n, p) + {Home(n)} else Mine(n, p)
  {
    forall b ensures b in Mine(n + 1, p) <==> b in Mine(n, p) || (b == Home(n) && n / 10 == p) {
      if b == Home(n) && n / 10 == p {
        assert b == Home(n);
      }
    }
  }

  lemma LogsOps(n: nat)
    requires n < 30
    ensures var p := n / 10;
      var ops := Filled(n).ops;
      Filled(n + 1).ops == ops[p := Charged(ops[p], Home(n), 1)]
  {
    MineMore(n, 0);
    MineMore(n, 1);
    MineMore(n, 2);
  }

  lemma Logs(n: nat)
    requires n < 30
    ensures Enabled(Amid(n, 3), Round(n)[3]) && Do(Amid(n, 3), Round(n)[3]) == Filled(n + 1)
  {
    var s, r := Amid(n, 3), Do(Amid(n, 3), Round(n)[3]);
    assert Home(n) !in s.lh;
    assert r.bufs == Filled(n + 1).bufs;
    assert r.lh == Filled(n + 1).lh;
    assert r.pins == Filled(n + 1).pins;
    assert r.logical == Drive();
    LogsOps(n);
    assert r.ops == Filled(n + 1).ops;
  }

  lemma {:induction false} OneMoreStep(s: State, steps: seq<Step>, r: State, e: Step)
    requires Leads(s, steps, r) && Enabled(r, e)
    ensures Leads(s, steps + [e], Do(r, e))
    decreases |steps|
  {
    var all := steps + [e];
    if steps == [] {
      assert all[1..] == [];
    } else {
      OneMoreStep(Do(s, steps[0]), steps[1..], r, e);
      assert all[0] == steps[0] && all[1..] == steps[1..] + [e];
    }
  }

  /** Three operations begin, then log n blocks, ten each. */
  function Run(n: nat): (steps: seq<Step>) {
    if n == 0 then [BeginOp(0), BeginOp(1), BeginOp(2)]
    else Run(n - 1) + [Round(n - 1)[0]] + [Round(n - 1)[1]] + [Round(n - 1)[2]] + [Round(n - 1)[3]]
  }

  lemma Begins()
    ensures Leads(Boot(), Run(0), Filled(0))
  {
    var s0, s1, s2 := Boot(), Begin(Boot(), 0), Begin(Begin(Boot(), 0), 1);
    MineMore(0, 0);
    MineMore(0, 1);
    MineMore(0, 2);
    assert Leads(s0, [], s0);
    OneMoreStep(s0, [], s0, BeginOp(0));
    OneMoreStep(s0, [] + [BeginOp(0)], s1, BeginOp(1));
    OneMoreStep(s0, [] + [BeginOp(0)] + [BeginOp(1)], s2, BeginOp(2));
    assert Run(0) == [] + [BeginOp(0)] + [BeginOp(1)] + [BeginOp(2)];
  }

  lemma {:induction false} Fills(n: nat)
    requires n <= 30
    ensures Leads(Boot(), Run(n), Filled(n))
  {
    if n == 0 {
      Begins();
    } else {
      var m, run := n - 1, Run(n - 1);
      Fills(m);
      Fetches(m);
      Logs(m);
      OneMoreStep(Boot(), run, Filled(m), Round(m)[0]);
      OneMoreStep(Boot(), run + [Round(m)[0]], Amid(m, 1), Round(m)[1]);
      OneMoreStep(Boot(), run + [Round(m)[0]] + [Round(m)[1]], Amid(m, 2), Round(m)[2]);
      OneMoreStep(Boot(), run + [Round(m)[0]] + [Round(m)[1]] + [Round(m)[2]], Amid(m, 3), Round(m)[3]);
    }
  }

  /** A run after which an operation that re-logs a block of its own, already in the log, panics. */
  lemma RelogCanPanic()
    ensures Init(Boot()) && Leads(Boot(), Run(30), Filled(30))
    ensures var s := Filled(30);
      IsActive(s.ops, 0) && s.ops[0].left == 0 && Holds(s, 0, 0) && s.bufs[0].valid
        && s.bufs[0].block.value in s.lh && LogWritePanics(s)
  {
    BootIsInit();
    Fills(30);
    assert Filled(30).lh[0] == Home(0);
    assert Filled(30).bufs[0] == BufAt(30, 0);
  }
}
