/** Taking a page table apart (freewalk, kernel/vm.c:260-278): which frames lie beneath a table page. */
module Teardown {
  import opened PageTable
  import opened Seals

  /** A frame recorded as o lies in the subtree of table page f, which is recorded as at. */
  predicate Under(o: Owner, f: int, at: Owner) {
    match at
    case Root => (o.Mid? || o.Low?) && o.t == f
    case Mid(t, i) => o.Low? && o.t == t && o.i == i
    case _ => false
  }

  /** The entry of f whose subtree that is. */
  function EntryOf(o: Owner, at: Owner): (n: int) {
    if o.Mid? then o.i else if o.Low? && at.Root? then o.i else if o.Low? then o.j else -1
  }

  function Height(at: Owner): (h: nat) {
    if at.Root? then 2 else if at.Mid? then 1 else 0
  }

  /** pages with entry e of table page up cleared; up = -1 stands for no entry. */
  function Cleared(pages: seq<Page>, up: int, e: int): (r: seq<Page>) {
    if 0 <= up < |pages| && pages[up].Table? && 0 <= e < |pages[up].ptes| then SetPte(pages, up, e, NOPTE) else pages
  }

  /** Entry e of up leads to f; a root hangs on nothing. */
  predicate HooksTo(pages: seq<Page>, owner: seq<Owner>, up: int, e: int, f: int) {
    && 0 <= f < |owner|
    && match owner[f]
       case Root => up == -1
       case Mid(t, i) => up == t && e == i
       case Low(t, i, j) => up == MidOf(pages, t, i) && e == j
       case _ => false
  }

  /** No bottom table at or beneath f has a valid entry. */
  ghost predicate Bare(pages: seq<Page>, owner: seq<Owner>, f: int) {
    && |pages| == |owner| && 0 <= f < |owner|
    && forall g :: 0 <= g < |owner| && owner[g].Low? && (g == f || Under(owner[g], f, owner[f])) ==> BareTable(pages, g)
  }

  ghost predicate BareTable(pages: seq<Page>, g: int) {
    forall k :: !PteAt(pages, g, k).v
  }

  /** A valid entry of an upper table: its frame, and where that frame hangs. */
  lemma ChildPlace(pages: seq<Page>, owner: seq<Owner>, f: int, n: int)
    requires Tables(pages, owner) && 0 <= f < |owner| && (owner[f].Root? || owner[f].Mid?)
    requires PteAt(pages, f, n).v
    ensures var c := PteAt(pages, f, n).ppn;
      && c < |owner| && c != f && !IsLeaf(PteAt(pages, f, n)) && HooksTo(pages, owner, f, n, c)
      && owner[c] == if owner[f].Root? then Mid(f, n) else Low(owner[f].t, owner[f].i, n)
  {
    assert Placed(pages, owner, f);
    var at := owner[f];
    if at.Root? {
      WalkFrames(pages, owner, f, n, 0, 0);
    } else {
      WalkFrames(pages, owner, at.t, at.i, n, 0);
    }
    assert Placed(pages, owner, PteAt(pages, f, n).ppn);
  }

  /** The subtree of entry n of f is its child and what lies beneath the child. */
  lemma SubtreeOfEntry(pages: seq<Page>, owner: seq<Owner>, f: int, n: int, g: int)
    requires Tables(pages, owner) && 0 <= f < |owner| && IsTable(owner[f]) && 0 <= g < |owner|
    requires (owner[f].Low? ==> BareTable(pages, f))
    ensures var c := PteAt(pages, f, n).ppn;
      (Under(owner[g], f, owner[f]) && EntryOf(owner[g], owner[f]) == n) <==>
      (PteAt(pages, f, n).v && c < |owner| && (g == c || Under(owner[g], c, owner[c])))
  {
    assert Placed(pages, owner, f) && Placed(pages, owner, g);
    var at, o := owner[f], owner[g];
    if PteAt(pages, f, n).v && !at.Low? {
      ChildPlace(pages, owner, f, n);
    }
    if o.Low? {
      WalkFrames(pages, owner, o.t, o.i, o.j, 0);
    }
  }

  lemma EntryInRange(pages: seq<Page>, owner: seq<Owner>, f: int, g: int)
    requires Tables(pages, owner) && 0 <= f < |owner| && 0 <= g < |owner| && Under(owner[g], f, owner[f])
    ensures 0 <= EntryOf(owner[g], owner[f]) < NPTE
  {
    assert Placed(pages, owner, g);
    var o := owner[g];
    assert IsTable(owner[o.t]);
    if o.Low? {
      WalkFrames(pages, owner, o.t, o.i, o.j, 0);
      MidShape(pages, owner, o.t, o.i);
    }
  }

  /** freewalk(f) is done: f and all beneath it are free, every other frame is untouched. */
  ghost predicate Freed(p0: seq<Page>, o0: seq<Owner>, p1: seq<Page>, o1: seq<Owner>, f: int) {
    && |p0| == |o0| == |p1| == |o1| && 0 <= f < |o0|
    && forall g :: 0 <= g < |o0| ==> if g == f || Under(o0[g], f, o0[f]) then o1[g].Free?
       else o1[g] == o0[g] && p1[g] == p0[g]
  }

  /** freewalk(f) has swept the entries below n. */
  ghost predicate Swept(p0: seq<Page>, o0: seq<Owner>, p1: seq<Page>, o1: seq<Owner>, f: int, n: int) {
    && |p0| == |o0| == |p1| == |o1| && 0 <= f < |o0| && o1[f] == o0[f]
    && (forall m :: 0 <= m < n ==> !PteAt(p1, f, m).v)
    && (forall m :: n <= m ==> PteAt(p1, f, m) == PteAt(p0, f, m))
    && (forall g :: 0 <= g < |o0| && g != f ==>
          if Under(o0[g], f, o0[f]) && EntryOf(o0[g], o0[f]) < n then o1[g].Free? else o1[g] == o0[g] && p1[g] == p0[g])
  }

  lemma SweepSkips(p0: seq<Page>, o0: seq<Owner>, p1: seq<Page>, o1: seq<Owner>, f: int, n: int)
    requires Swept(p0, o0, p1, o1, f, n) && 0 <= n && Tables(p0, o0) && IsTable(o0[f])
    requires (o0[f].Low? ==> BareTable(p0, f)) && !PteAt(p1, f, n).v
    ensures Swept(p0, o0, p1, o1, f, n + 1)
  {
    forall g | 0 <= g < |o0| && g != f ensures !(Under(o0[g], f, o0[f]) && EntryOf(o0[g], o0[f]) == n) {
      SubtreeOfEntry(p0, o0, f, n, g);
    }
  }

  /** The child is freed and its entry cleared. */
  lemma SweepFrees(p0: seq<Page>, o0: seq<Owner>, p1: seq<Page>, o1: seq<Owner>, p2: seq<Page>, o2: seq<Owner>,
      f: int, n: int)
    requires Swept(p0, o0, p1, o1, f, n) && 0 <= n && Tables(p0, o0) && IsTable(o0[f])
    requires (o0[f].Low? ==> BareTable(p0, f)) && PteAt(p1, f, n).v
    requires Freed(p1, o1, p2, o2, PteAt(p1, f, n).ppn)
    requires !Under(o1[f], PteAt(p1, f, n).ppn, o1[PteAt(p1, f, n).ppn]) && PteAt(p1, f, n).ppn != f
    ensures Swept(p0, o0, Cleared(p2, f, n), o2, f, n + 1)
  {
    var c := PteAt(p1, f, n).ppn;
    assert p2[f] == p1[f] && PteAt(p0, f, n) == PteAt(p1, f, n);
    assert forall m :: PteAt(Cleared(p2, f, n), f, m) == if m == n then NOPTE else PteAt(p1, f, m);
    assert o1[c] == o0[c] by {
      SubtreeOfEntry(p0, o0, f, n, c);
    }
    forall g | 0 <= g < |o0| && g != f
      ensures if Under(o0[g], f, o0[f]) && EntryOf(o0[g], o0[f]) < n + 1 then o2[g].Free?
        else o2[g] == o0[g] && p2[g] == p0[g]
    {
      SubtreeOfEntry(p0, o0, f, n, g);
    }
  }

  lemma SweptAll(p0: seq<Page>, o0: seq<Owner>, p1: seq<Page>, o1: seq<Owner>, f: int)
    requires Swept(p0, o0, p1, o1, f, NPTE) && Tables(p0, o0) && Tables(p1, o1) && IsTable(o0[f])
    ensures BareTable(p1, f) && Freed(p0, o0, p1[f := Junk], o1[f := Free], f)
  {
    forall k ensures !PteAt(p1, f, k).v {
      assert IsTable(o1[f]);
    }
    forall g | 0 <= g < |o0| && Under(o0[g], f, o0[f]) ensures EntryOf(o0[g], o0[f]) < NPTE {
      EntryInRange(p0, o0, f, g);
    }
  }

  /** A table page without valid entries can be unhooked and freed. */
  lemma Unhook(pages: seq<Page>, owner: seq<Owner>, f: int, up: int, e: int)
    requires Tables(pages, owner) && 0 <= f < |owner| && BareTable(pages, f)
    requires HooksTo(pages, owner, up, e, f)
    ensures up != f && Tables(Cleared(pages[f := Junk], up, e), owner[f := Free])
  {
    assert Placed(pages, owner, f);
    var o := owner[f];
    assert IsTable(o);
    match o {
      case Root => DropRootKeeps(pages, owner, f);
      case Mid(t, i) => DropMidKeeps(pages, owner, t, i);
      case Low(t, i, j) => DropLowKeeps(pages, owner, t, i, j);
    }
    var r := Cleared(pages, up, e);
    LooseKeeps(r, owner[f := Held], f, Junk, Free);
    assert owner[f := Held][f := Free] == owner[f := Free];
    assert r[f := Junk] == Cleared(pages[f := Junk], up, e);
  }

  /** Sweeping leaves the subtrees ahead as bare as they were. */
  lemma BareAhead(p0: seq<Page>, o0: seq<Owner>, p1: seq<Page>, o1: seq<Owner>, f: int, n: int)
    requires Swept(p0, o0, p1, o1, f, n) && Tables(p1, o1) && Bare(p0, o0, f)
    requires (o0[f].Root? || o0[f].Mid?) && PteAt(p1, f, n).v
    requires PteAt(p1, f, n).ppn < |o1|
    ensures Bare(p1, o1, PteAt(p1, f, n).ppn)
  {
    var c := PteAt(p1, f, n).ppn;
    ChildPlace(p1, o1, f, n);
    forall g | 0 <= g < |o1| && o1[g].Low? && (g == c || Under(o1[g], c, o1[c])) ensures BareTable(p1, g) {
      SubtreeOfEntry(p1, o1, f, n, g);
      assert o1[g] == o0[g] && g != f && p1[g] == p0[g];
      assert BareTable(p0, g);
      assert forall k :: PteAt(p1, g, k) == PteAt(p0, g, k);
    }
  }

  // ---------- the states of freewalk(f), sealed ----------

  ghost predicate Doomed(p: seq<Page>, o: seq<Owner>, free: seq<int>, f: int, up: int, e: int) {
    Tables(p, o) && FreeList(free, o) && 0 <= f < |o| && IsTable(o[f]) && Bare(p, o, f) && HooksTo(p, o, up, e, f)
  }

  predicate StartKey(z: int, p: seq<Page>, o: seq<Owner>) {
    true
  }

  ghost function Start(p: seq<Page>, o: seq<Owner>, free: seq<int>, f: int, up: int, e: int): (r: Verdict) {
    if forall z {:trigger StartKey(z, p, o)} :: StartKey(z, p, o) ==> Doomed(p, o, free, f, up, e) then Sound
      else Broken
  }

  lemma OpenStart(p: seq<Page>, o: seq<Owner>, free: seq<int>, f: int, up: int, e: int)
    requires Start(p, o, free, f, up, e).Sound?
    ensures Doomed(p, o, free, f, up, e)
  {
    assert StartKey(0, p, o);
  }

  ghost predicate Sweeping(p0: seq<Page>, o0: seq<Owner>, p1: seq<Page>, o1: seq<Owner>, free: seq<int>, f: int,
      up: int, e: int, n: int)
  {
    Tables(p1, o1) && FreeList(free, o1) && Swept(p0, o0, p1, o1, f, n) && HooksTo(p1, o1, up, e, f)
  }

  predicate SweepKey(z: int, p0: seq<Page>, p1: seq<Page>) {
    true
  }

  ghost function Sweep(p0: seq<Page>, o0: seq<Owner>, p1: seq<Page>, o1: seq<Owner>, free: seq<int>, f: int,
      up: int, e: int, n: int): (r: Verdict)
  {
    if forall z {:trigger SweepKey(z, p0, p1)} :: SweepKey(z, p0, p1) ==>
      Sweeping(p0, o0, p1, o1, free, f, up, e, n) then Sound else Broken
  }

  lemma OpenSweep(p0: seq<Page>, o0: seq<Owner>, p1: seq<Page>, o1: seq<Owner>, free: seq<int>, f: int, up: int,
      e: int, n: int)
    requires Sweep(p0, o0, p1, o1, free, f, up, e, n).Sound?
    ensures Sweeping(p0, o0, p1, o1, free, f, up, e, n)
  {
    assert SweepKey(0, p0, p1);
  }

  /** Once entry e of up is cleared the tables are whole again. */
  ghost predicate TornDown(p0: seq<Page>, o0: seq<Owner>, p1: seq<Page>, o1: seq<Owner>, free: seq<int>, f: int,
      up: int, e: int)
  {
    FreeList(free, o1) && Tables(Cleared(p1, up, e), o1) && Freed(p0, o0, p1, o1, f)
  }

  predicate FinishKey(z: int, p0: seq<Page>, p1: seq<Page>) {
    true
  }

  ghost function Finish(p0: seq<Page>, o0: seq<Owner>, p1: seq<Page>, o1: seq<Owner>, free: seq<int>, f: int,
      up: int, e: int): (r: Verdict)
  {
    if forall z {:trigger FinishKey(z, p0, p1)} :: FinishKey(z, p0, p1) ==>
      TornDown(p0, o0, p1, o1, free, f, up, e) then Sound else Broken
  }

  lemma OpenFinish(p0: seq<Page>, o0: seq<Owner>, p1: seq<Page>, o1: seq<Owner>, free: seq<int>, f: int, up: int,
      e: int)
    requires Finish(p0, o0, p1, o1, free, f, up, e).Sound?
    ensures TornDown(p0, o0, p1, o1, free, f, up, e)
  {
    assert FinishKey(0, p0, p1);
  }

  lemma StartSweep(p: seq<Page>, o: seq<Owner>, free: seq<int>, f: int, up: int, e: int)
    requires Start(p, o, free, f, up, e).Sound? && 0 <= f < |o|
    ensures Sweep(p, o, p, o, free, f, up, e, 0).Sound? && IsTable(o[f])
  {
    OpenStart(p, o, free, f, up, e);
    assert Doomed(p, o, free, f, up, e);
    forall g | 0 <= g < |o| && Under(o[g], f, o[f]) ensures EntryOf(o[g], o[f]) >= 0 {
      EntryInRange(p, o, f, g);
    }
    assert Sweeping(p, o, p, o, free, f, up, e, 0);
  }

  /** What freewalk finds in entry n: nothing, or a child to free first; never a leaf. */
  lemma SweepMeets(p0: seq<Page>, o0: seq<Owner>, p1: seq<Page>, o1: seq<Owner>, free0: seq<int>, free: seq<int>,
      f: int, up: int, e: int, n: int)
    requires Start(p0, o0, free0, f, up, e).Sound?
    requires Sweep(p0, o0, p1, o1, free, f, up, e, n).Sound? && 0 <= n
    ensures var pte := PteAt(p1, f, n);
      && (!pte.v ==> Sweep(p0, o0, p1, o1, free, f, up, e, n + 1).Sound?)
      && (pte.v ==>
        && !IsLeaf(pte) && 0 <= f < |o0| == |o1| && pte.ppn < |o1| && Height(o1[pte.ppn]) < Height(o0[f])
        && Start(p1, o1, free, pte.ppn, f, n).Sound?)
  {
    OpenStart(p0, o0, free0, f, up, e);
    OpenSweep(p0, o0, p1, o1, free, f, up, e, n);
    assert Doomed(p0, o0, free0, f, up, e) && Sweeping(p0, o0, p1, o1, free, f, up, e, n);
    assert o0[f].Low? ==> BareTable(p0, f);
    if PteAt(p1, f, n).v {
      ChildPlace(p1, o1, f, n);
      BareAhead(p0, o0, p1, o1, f, n);
      assert Doomed(p1, o1, free, PteAt(p1, f, n).ppn, f, n);
    } else {
      SweepSkips(p0, o0, p1, o1, f, n);
      assert Sweeping(p0, o0, p1, o1, free, f, up, e, n + 1);
    }
  }

  lemma SweepOn(p0: seq<Page>, o0: seq<Owner>, p1: seq<Page>, o1: seq<Owner>, p2: seq<Page>, o2: seq<Owner>,
      free0: seq<int>, free1: seq<int>, free2: seq<int>, f: int, up: int, e: int, n: int)
    requires Start(p0, o0, free0, f, up, e).Sound?
    requires Sweep(p0, o0, p1, o1, free1, f, up, e, n).Sound? && 0 <= n && PteAt(p1, f, n).v
    requires Finish(p1, o1, p2, o2, free2, PteAt(p1, f, n).ppn, f, n).Sound?
    ensures 0 <= f < |p2| && p2[f].Table? && 0 <= n < |p2[f].ptes|
    ensures Sweep(p0, o0, SetPte(p2, f, n, NOPTE), o2, free2, f, up, e, n + 1).Sound?
  {
    OpenStart(p0, o0, free0, f, up, e);
    OpenSweep(p0, o0, p1, o1, free1, f, up, e, n);
    OpenFinish(p1, o1, p2, o2, free2, PteAt(p1, f, n).ppn, f, n);
    assert Doomed(p0, o0, free0, f, up, e) && Sweeping(p0, o0, p1, o1, free1, f, up, e, n);
    var c := PteAt(p1, f, n).ppn;
    assert TornDown(p1, o1, p2, o2, free2, c, f, n);
    assert o0[f].Low? ==> BareTable(p0, f);
    ChildPlace(p1, o1, f, n);
    assert p2[f] == p1[f];
    SweepFrees(p0, o0, p1, o1, p2, o2, f, n);
    var r := Cleared(p2, f, n);
    assert r == SetPte(p2, f, n, NOPTE);
    SameHook(p0, o0, r, o2, f, up, e, n + 1);
    assert Sweeping(p0, o0, r, o2, free2, f, up, e, n + 1);
  }

  lemma SameHook(p0: seq<Page>, o0: seq<Owner>, p1: seq<Page>, o1: seq<Owner>, f: int, up: int, e: int, n: int)
    requires Swept(p0, o0, p1, o1, f, n) && Tables(p0, o0) && HooksTo(p0, o0, up, e, f)
    ensures HooksTo(p1, o1, up, e, f)
  {
    assert Placed(p0, o0, f);
    if o0[f].Low? {
      assert p1[o0[f].t] == p0[o0[f].t];
    }
  }

  lemma SweepEnds(p0: seq<Page>, o0: seq<Owner>, p1: seq<Page>, o1: seq<Owner>, free0: seq<int>, free1: seq<int>,
      f: int, up: int, e: int)
    requires Start(p0, o0, free0, f, up, e).Sound? && Sweep(p0, o0, p1, o1, free1, f, up, e, NPTE).Sound?
    ensures |p1| == |o1| == |o0| && 0 < f < |o1| && FreeList(free1, o1[f := Held])
    ensures Finish(p0, o0, p1[f := Junk], o1[f := Free], [f] + free1, f, up, e).Sound?
  {
    OpenStart(p0, o0, free0, f, up, e);
    OpenSweep(p0, o0, p1, o1, free1, f, up, e, NPTE);
    assert Doomed(p0, o0, free0, f, up, e) && Sweeping(p0, o0, p1, o1, free1, f, up, e, NPTE);
    SweptAll(p0, o0, p1, o1, f);
    Unhook(p1, o1, f, up, e);
    assert f !in free1;
    assert TornDown(p0, o0, p1[f := Junk], o1[f := Free], [f] + free1, f, up, e);
  }

  // ---------- a whole table ----------

  /** uvmfree's caller promises this once user memory is unmapped: table t translates nothing. */
  ghost predicate TranslatesNothing(p: seq<Page>, t: int) {
    forall v {:trigger I2(v)} :: 0 <= v < MAXVPN ==> !Leaf(p, t, I2(v), I1(v), I0(v)).v
  }

  lemma EmptyTableIsBare(p: seq<Page>, o: seq<Owner>, free: seq<int>, t: int)
    requires Tables(p, o) && FreeList(free, o) && 0 <= t < |o| && o[t].Root? && TranslatesNothing(p, t)
    ensures Start(p, o, free, t, -1, 0).Sound?
  {
    forall g | 0 <= g < |o| && o[g].Low? && Under(o[g], t, o[t]) ensures BareTable(p, g) {
      assert Placed(p, o, g);
      var i, j := o[g].i, o[g].j;
      forall k ensures !PteAt(p, g, k).v {
        if PteAt(p, g, k).v {
          EntryMapsPage(p, o, t, i, j, k);
        }
      }
    }
    assert Doomed(p, o, free, t, -1, 0);
  }

  lemma EntryMapsPage(p: seq<Page>, o: seq<Owner>, t: int, i: int, j: int, k: int)
    requires Tables(p, o) && 0 <= t < |o| && o[t].Root? && Leaf(p, t, i, j, k).v
    ensures 0 <= Vpn(i, j, k) < MAXVPN
    ensures var v := Vpn(i, j, k); I2(v) == i && I1(v) == j && I0(v) == k
  {
    WalkFrames(p, o, t, i, j, k);
    assert IsTable(o[t]);
    MidShape(p, o, t, i);
    LowShape(p, o, t, i, j);
    var v := Vpn(i, j, k);
    assert v / 512 == i * 512 + j;
    assert v / 262144 == v / 512 / 512;
  }
}
