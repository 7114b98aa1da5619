/** What each operation of kernel/vm.c may change: flat translations, frame ownership and page contents. */
module AddressSpace {
  import opened PageTable
  import opened Seals

  /** The flat page map: how table t translates page number v. */
  function Flat(pages: seq<Page>, t: int, v: int): (p: Pte) {
    Leaf(pages, t, I2(v), I1(v), I0(v))
  }

  ghost predicate SameRoots(o0: seq<Owner>, o1: seq<Owner>) {
    |o1| == |o0| && forall f :: 0 <= f < |o0| ==> (o1[f].Root? <==> o0[f].Root?)
  }

  predicate HasContents(o: Owner) {
    o.User? || o.Kernel? || o.Held?
  }

  /** Frames that hold somebody's data hold the same data. */
  ghost predicate SameContents(p0: seq<Page>, o0: seq<Owner>, p1: seq<Page>) {
    |p1| == |p0| == |o0| && forall f :: 0 <= f < |o0| && HasContents(o0[f]) ==> p1[f] == p0[f]
  }

  /** Nothing changed but that free frames became interior tables of t. */
  predicate OnlyInterior(a: Owner, b: Owner, t: int) {
    b == a || (a.Free? && ((b.Mid? && b.t == t) || (b.Low? && b.t == t)))
  }

  ghost predicate SameLeaves(p0: seq<Page>, o0: seq<Owner>, p1: seq<Page>) {
    |p0| == |o0| && forall t, i, j, k :: 0 <= t < |o0| && o0[t].Root? ==> Leaf(p1, t, i, j, k) == Leaf(p0, t, i, j, k)
  }

  /** What walk may do to make room for an entry: every translation of every table stays. */
  ghost predicate Grew(p0: seq<Page>, o0: seq<Owner>, p1: seq<Page>, o1: seq<Owner>, t: int) {
    && SameRoots(o0, o1) && SameContents(p0, o0, p1) && SameLeaves(p0, o0, p1)
    && forall f :: 0 <= f < |o0| ==> OnlyInterior(o0[f], o1[f], t)
  }

  lemma GrewSelf(p: seq<Page>, o: seq<Owner>, t: int)
    requires |p| == |o|
    ensures Grew(p, o, p, o, t)
  {
  }

  lemma GrewTrans(p0: seq<Page>, o0: seq<Owner>, p1: seq<Page>, o1: seq<Owner>, p2: seq<Page>, o2: seq<Owner>, t: int)
    requires Grew(p0, o0, p1, o1, t) && Grew(p1, o1, p2, o2, t)
    ensures Grew(p0, o0, p2, o2, t)
  {
    forall f | 0 <= f < |o0| ensures OnlyInterior(o0[f], o2[f], t) {
      assert OnlyInterior(o0[f], o1[f], t) && OnlyInterior(o1[f], o2[f], t);
    }
    forall f | 0 <= f < |o0| && HasContents(o0[f]) ensures p2[f] == p0[f] {
      assert OnlyInterior(o0[f], o1[f], t);
    }
  }

  lemma TakeMid(pages: seq<Page>, owner: seq<Owner>, t: int, i: int, f: int)
    requires Tables(pages, owner) && 0 <= t < |pages| && owner[t].Root? && IsIndex(i)
    requires MidOf(pages, t, i) == -1
    requires 0 <= f < |pages| && owner[f].Free?
    ensures var pages1, owner1 := pages[f := Junk], owner[f := Held];
      && f != t && pages1[t].Table? && |pages1[t].ptes| == NPTE
      && var r, o := AddMid(pages1, t, i, f), owner[f := Mid(t, i)];
      && Tables(r, o) && Grew(pages, owner, r, o, t) && MidOf(r, t, i) == f
  {
    var pages1, owner1 := pages[f := Junk], owner[f := Held];
    LooseKeeps(pages, owner, f, Junk, Held);
    LooseReads(pages, owner, f, Junk, t, i, 0, 0);
    AddMidKeeps(pages1, owner1, t, i, f);
    var r := AddMid(pages1, t, i, f);
    assert owner1[f := Mid(t, i)] == owner[f := Mid(t, i)];
    forall t', i', j, k | 0 <= t' < |owner| && owner[t'].Root?
      ensures Leaf(r, t', i', j, k) == Leaf(pages, t', i', j, k)
    {
      LooseReads(pages, owner, f, Junk, t', i', j, k);
      AddMidReads(pages1, owner1, t, i, f, t', i', j, k);
    }
    AddMidReads(pages1, owner1, t, i, f, t, i, 0, 0);
  }

  lemma TakeLow(pages: seq<Page>, owner: seq<Owner>, t: int, i: int, j: int, f: int)
    requires Tables(pages, owner) && 0 <= t < |pages| && owner[t].Root? && IsIndex(i) && IsIndex(j)
    requires MidOf(pages, t, i) != -1 && LowOf(pages, t, i, j) == -1
    requires 0 <= f < |pages| && owner[f].Free?
    ensures var pages1, m := pages[f := Junk], MidOf(pages, t, i);
      && 0 <= m < |pages| && f != m && pages1[m].Table? && |pages1[m].ptes| == NPTE
      && var r, o := AddLow(pages1, m, j, f), owner[f := Low(t, i, j)];
      && Tables(r, o) && Grew(pages, owner, r, o, t) && LowOf(r, t, i, j) == f
  {
    var pages1, owner1 := pages[f := Junk], owner[f := Held];
    LooseKeeps(pages, owner, f, Junk, Held);
    LooseReads(pages, owner, f, Junk, t, i, j, 0);
    AddLowKeeps(pages1, owner1, t, i, j, f);
    var r := AddLow(pages1, MidOf(pages, t, i), j, f);
    assert owner1[f := Low(t, i, j)] == owner[f := Low(t, i, j)];
    forall t', i', j', k | 0 <= t' < |owner| && owner[t'].Root?
      ensures Leaf(r, t', i', j', k) == Leaf(pages, t', i', j', k)
    {
      LooseReads(pages, owner, f, Junk, t', i', j', k);
      AddLowReads(pages1, owner1, t, i, j, f, t', i', j', k);
    }
    AddLowReads(pages1, owner1, t, i, j, f, t, i, j, 0);
    MidShape(pages, owner, t, i);
  }

  // ---------- mapping and unmapping ----------

  function PlaceOf(t: int, v: int): (o: Owner) {
    User(t, I2(v), I1(v), I0(v))
  }

  lemma VpnUnique(i: int, j: int, k: int, v: int)
    requires IsIndex(i) && IsIndex(j) && IsIndex(k) && 0 <= v && Vpn(i, j, k) == v
    ensures i == I2(v) && j == I1(v) && k == I0(v)
  {
    assert v / 512 == i * 512 + j;
    assert v / 262144 == v / 512 / 512;
  }

  lemma IndicesUnique(u: int, v: int)
    requires 0 <= u < MAXVPN && 0 <= v < MAXVPN
    ensures I2(u) == I2(v) && I1(u) == I1(v) && I0(u) == I0(v) <==> u == v
  {
    Indices(u * PGSIZE);
    Indices(v * PGSIZE);
  }

  /** Table t translates the n pages from v to the n frames from c, with the permissions of perm; nothing else moved. */
  ghost predicate MappedRange(p0: seq<Page>, o0: seq<Owner>, p1: seq<Page>, o1: seq<Owner>, t: int, v: int, n: int,
      c: int, perm: Pte)
  {
    && 0 <= c && SameRoots(o0, o1) && SameContents(p0, o0, p1)
    && (forall t', u :: 0 <= t' < |o0| && o0[t'].Root? && 0 <= u < MAXVPN ==>
          Flat(p1, t', u) == if t' == t && v <= u < v + n then perm.(ppn := c + u - v) else Flat(p0, t', u))
    && (forall f :: 0 <= f < |o0| ==>
          if c <= f < c + n && v + f - c < TRAPVPN then o1[f] == PlaceOf(t, v + f - c)
            else OnlyInterior(o0[f], o1[f], t))
  }

  /** User pages are mapped to frames just allocated, the pages above to the kernel's own. */
  predicate Mappable(o: Owner, v: int) {
    if v < TRAPVPN then o.Held? else o.Kernel?
  }

  lemma GrewMapsNothing(p0: seq<Page>, o0: seq<Owner>, p1: seq<Page>, o1: seq<Owner>, t: int, v: int, c: int, perm: Pte)
    requires Grew(p0, o0, p1, o1, t) && 0 <= c
    ensures MappedRange(p0, o0, p1, o1, t, v, 0, c, perm)
  {
  }

  /** The translation of page v in table t became p; all others stayed. */
  ghost predicate Edited(p0: seq<Page>, o0: seq<Owner>, p1: seq<Page>, t: int, v: int, p: Pte) {
    forall t', u :: 0 <= t' < |o0| && o0[t'].Root? && 0 <= u < MAXVPN ==>
      Flat(p1, t', u) == if t' == t && u == v then p else Flat(p0, t', u)
  }

  predicate EditKey(z: int, p0: seq<Page>, p1: seq<Page>) {
    true
  }

  ghost function Edit(p0: seq<Page>, o0: seq<Owner>, p1: seq<Page>, t: int, v: int, p: Pte): (r: Verdict) {
    if forall z {:trigger EditKey(z, p0, p1)} :: EditKey(z, p0, p1) ==> Edited(p0, o0, p1, t, v, p) then Sound
      else Broken
  }

  lemma OpenEdit(p0: seq<Page>, o0: seq<Owner>, p1: seq<Page>, t: int, v: int, p: Pte)
    requires Edit(p0, o0, p1, t, v, p).Sound?
    ensures Edited(p0, o0, p1, t, v, p)
  {
    assert EditKey(0, p0, p1);
  }

  /** Setting the leaf entry of page v, after walk made room for it. */
  lemma SetLeaf(pages: seq<Page>, owner: seq<Owner>, t: int, v: int, p: Pte, owner': seq<Owner>)
    requires 0 <= v < MAXVPN && LeafChange(pages, owner, t, I2(v), I1(v), I0(v), p, owner')
    ensures var l := LowOf(pages, t, I2(v), I1(v));
      && 0 <= l < |pages| && pages[l].Table? && |pages[l].ptes| == NPTE
      && var r := SetPte(pages, l, I0(v), p);
      && Tables(r, owner') && SameContents(pages, owner, r) && Edit(pages, owner, r, t, v, p).Sound?
  {
    LeafKeeps(pages, owner, t, I2(v), I1(v), I0(v), p, owner');
    LowShape(pages, owner, t, I2(v), I1(v));
    var r := SetPte(pages, LowOf(pages, t, I2(v), I1(v)), I0(v), p);
    forall t', u | 0 <= t' < |owner| && owner[t'].Root? && 0 <= u < MAXVPN
      ensures Flat(r, t', u) == if t' == t && u == v then p else Flat(pages, t', u)
    {
      PutLeafReads(pages, owner, t, I2(v), I1(v), I0(v), p, t', I2(u), I1(u), I0(u));
      IndicesUnique(u, v);
    }
  }

  /** One more page: from n mapped pages to n + 1. */
  lemma MapOneMore(p0: seq<Page>, o0: seq<Owner>, p1: seq<Page>, o1: seq<Owner>, p2: seq<Page>, o2: seq<Owner>,
      p3: seq<Page>, o3: seq<Owner>,
                   t: int, v: int, n: int, c: int, perm: Pte)
    requires MapCheck(p0, o0, p1, o1, t, v, n, c, perm).Sound? && Grew(p1, o1, p2, o2, t) && 0 <= n
    requires 0 <= v && v + n < MAXVPN
    requires 0 <= c && c + n < |o0| && Mappable(o0[c+n], v + n) && |o2| == |o0|
    requires o3 == if v + n < TRAPVPN then o2[c+n := PlaceOf(t, v + n)] else o2
    requires SameContents(p2, o2, p3) && Edit(p2, o2, p3, t, v + n, perm.(ppn := c + n)).Sound?
    ensures MapCheck(p0, o0, p3, o3, t, v, n + 1, c, perm).Sound?
  {
    OpenMapCheck(p0, o0, p1, o1, t, v, n, c, perm);
    OpenEdit(p2, o2, p3, t, v + n, perm.(ppn := c + n));
    assert MappedRange(p0, o0, p1, o1, t, v, n, c, perm);
    assert Edited(p2, o2, p3, t, v + n, perm.(ppn := c + n));
    forall f | 0 <= f < |o0|
      ensures if c <= f < c + n + 1 && v + f - c < TRAPVPN then o3[f] == PlaceOf(t, v + f - c)
        else OnlyInterior(o0[f], o3[f], t)
      ensures HasContents(o0[f]) ==> p3[f] == p0[f]
      ensures o3[f].Root? <==> o0[f].Root?
    {
      assert OnlyInterior(o1[f], o2[f], t);
    }
    forall t', u | 0 <= t' < |o0| && o0[t'].Root? && 0 <= u < MAXVPN
      ensures Flat(p3, t', u) == if t' == t && v <= u < v + n + 1 then perm.(ppn := c + u - v) else Flat(p0, t', u)
    {
      assert Flat(p2, t', u) == Flat(p1, t', u);
    }
    assert MappedRange(p0, o0, p3, o3, t, v, n + 1, c, perm);
  }

  /** The frame for the next page is still as the caller handed it over, and the page as unmapped as before. */
  lemma FrameAhead(p0: seq<Page>, o0: seq<Owner>, p1: seq<Page>, o1: seq<Owner>, t: int, v: int, a: int, c: int,
      perm: Pte)
    requires MapCheck(p0, o0, p1, o1, t, v, a, c, perm).Sound? && 0 <= a && 0 <= v && v + a < MAXVPN
    requires 0 <= t < |o0| && o0[t].Root?
    requires 0 <= c && c + a < |o0| && Mappable(o0[c+a], v + a)
    ensures |o1| == |o0| == |p1| == |p0| && o1[c+a] == o0[c+a] && p1[c+a] == p0[c+a]
    ensures Flat(p1, t, v + a) == Flat(p0, t, v + a)
  {
    OpenMapCheck(p0, o0, p1, o1, t, v, a, c, perm);
  }

  lemma GrewAfterMapping(p0: seq<Page>, o0: seq<Owner>, p1: seq<Page>, o1: seq<Owner>, p2: seq<Page>,
      o2: seq<Owner>, t: int, v: int, a: int, c: int, perm: Pte)
    requires MapCheck(p0, o0, p1, o1, t, v, a, c, perm).Sound? && Grew(p1, o1, p2, o2, t)
    ensures MapCheck(p0, o0, p2, o2, t, v, a, c, perm).Sound?
  {
    OpenMapCheck(p0, o0, p1, o1, t, v, a, c, perm);
    assert MappedRange(p0, o0, p1, o1, t, v, a, c, perm);
    forall f | 0 <= f < |o0|
      ensures if c <= f < c + a && v + f - c < TRAPVPN then o2[f] == PlaceOf(t, v + f - c)
        else OnlyInterior(o0[f], o2[f], t)
      ensures HasContents(o0[f]) ==> p2[f] == p0[f]
    {
      assert OnlyInterior(o1[f], o2[f], t);
    }
    forall t', u | 0 <= t' < |o0| && o0[t'].Root? && 0 <= u < MAXVPN ensures Flat(p2, t', u) == Flat(p1, t', u) {
    }
    assert MappedRange(p0, o0, p2, o2, t, v, a, c, perm);
  }

  // ---------- sealed forms ----------

  predicate HealthKey(z: int, pages: seq<Page>, owner: seq<Owner>) {
    true
  }

  ghost function Health(pages: seq<Page>, owner: seq<Owner>, free: seq<int>): (r: Verdict) {
    if forall z {:trigger HealthKey(z, pages, owner)} :: HealthKey(z, pages, owner) ==>
      Tables(pages, owner) && FreeList(free, owner) then Sound else Broken
  }

  lemma OpenHealth(pages: seq<Page>, owner: seq<Owner>, free: seq<int>)
    requires Health(pages, owner, free).Sound?
    ensures Tables(pages, owner) && FreeList(free, owner)
  {
    assert HealthKey(0, pages, owner);
  }

  predicate MapKey(z: int, p0: seq<Page>, p1: seq<Page>) {
    true
  }

  ghost function MapCheck(p0: seq<Page>, o0: seq<Owner>, p1: seq<Page>, o1: seq<Owner>, t: int, v: int, n: int,
      c: int, perm: Pte): (r: Verdict)
  {
    if forall z {:trigger MapKey(z, p0, p1)} :: MapKey(z, p0, p1) ==> MappedRange(p0, o0, p1, o1, t, v, n, c, perm)
      then Sound else Broken
  }

  lemma OpenMapCheck(p0: seq<Page>, o0: seq<Owner>, p1: seq<Page>, o1: seq<Owner>, t: int, v: int, n: int, c: int,
      perm: Pte)
    requires MapCheck(p0, o0, p1, o1, t, v, n, c, perm).Sound?
    ensures MappedRange(p0, o0, p1, o1, t, v, n, c, perm)
  {
    assert MapKey(0, p0, p1);
  }

  predicate MapsIn(o: Owner, t: int, v: int, n: int) {
    o.User? && o.t == t && v <= Vpn(o.i, o.j, o.k) < v + n
  }

  /** Table t no longer translates the n pages from v; the user frames among them are free; nothing else moved. */
  ghost predicate UnmappedRange(p0: seq<Page>, o0: seq<Owner>, p1: seq<Page>, o1: seq<Owner>, t: int, v: int, n: int) {
    && |p1| == |p0| == |o0| == |o1|
    && (forall t', u :: 0 <= t' < |o0| && o0[t'].Root? && 0 <= u < MAXVPN ==>
          if t' == t && v <= u < v + n then !Flat(p1, t', u).v else Flat(p1, t', u) == Flat(p0, t', u))
    && (forall f :: 0 <= f < |o0| ==> o1[f] == if MapsIn(o0[f], t, v, n) then Free else o0[f])
    && (forall f :: 0 <= f < |o0| && HasContents(o0[f]) && !MapsIn(o0[f], t, v, n) ==> p1[f] == p0[f])
  }

  predicate UnmapKey(z: int, p0: seq<Page>, p1: seq<Page>) {
    true
  }

  ghost function UnmapCheck(p0: seq<Page>, o0: seq<Owner>, p1: seq<Page>, o1: seq<Owner>, t: int, v: int,
      n: int): (r: Verdict)
  {
    if forall z {:trigger UnmapKey(z, p0, p1)} :: UnmapKey(z, p0, p1) ==> UnmappedRange(p0, o0, p1, o1, t, v, n)
      then Sound else Broken
  }

  lemma OpenUnmapCheck(p0: seq<Page>, o0: seq<Owner>, p1: seq<Page>, o1: seq<Owner>, t: int, v: int, n: int)
    requires UnmapCheck(p0, o0, p1, o1, t, v, n).Sound?
    ensures UnmappedRange(p0, o0, p1, o1, t, v, n)
  {
    assert UnmapKey(0, p0, p1);
  }

  /** The frame that page v is mapped to, if it is. */
  lemma FrameOfPage(pages: seq<Page>, owner: seq<Owner>, t: int, v: int)
    requires Tables(pages, owner) && 0 <= t < |pages| && owner[t].Root? && 0 <= v < MAXVPN
    ensures var p := Flat(pages, t, v);
      && (p.v ==> p.ppn < |pages| && owner[p.ppn] == if v < TRAPVPN then PlaceOf(t, v) else Kernel)
      && (p.v ==> LowOf(pages, t, I2(v), I1(v)) != -1)
    ensures forall f :: 0 <= f < |owner| && MapsIn(owner[f], t, v, 1) ==>
      Flat(pages, t, v).v && f == Flat(pages, t, v).ppn
  {
    Indices(v * PGSIZE);
    WalkFrames(pages, owner, t, I2(v), I1(v), I0(v));
    forall f | 0 <= f < |owner| && MapsIn(owner[f], t, v, 1) ensures Flat(pages, t, v).v && f == Flat(pages, t, v).ppn {
      assert Placed(pages, owner, f);
      PlacedIndices(pages, owner, f);
      VpnUnique(owner[f].i, owner[f].j, owner[f].k, v);
    }
  }

  lemma PlacedIndices(pages: seq<Page>, owner: seq<Owner>, f: int)
    requires Tables(pages, owner) && 0 <= f < |owner| && owner[f].User?
    ensures IsIndex(owner[f].i) && IsIndex(owner[f].j) && IsIndex(owner[f].k)
  {
    assert Placed(pages, owner, f);
    var o := owner[f];
    assert IsTable(owner[o.t]);
    MidShape(pages, owner, o.t, o.i);
    LowShape(pages, owner, o.t, o.i, o.j);
  }

  /** Clearing page v's entry; its frame is then loose. */
  lemma ClearLeaf(pages: seq<Page>, owner: seq<Owner>, t: int, v: int)
    requires Tables(pages, owner) && 0 <= t < |pages| && owner[t].Root? && 0 <= v < MAXVPN
    requires Flat(pages, t, v).v
    ensures var l, c := LowOf(pages, t, I2(v), I1(v)), Flat(pages, t, v).ppn;
      && 0 <= l < |pages| && pages[l].Table? && |pages[l].ptes| == NPTE && c < |owner| && IsIndex(I0(v))
      && (v < TRAPVPN ==> owner[c] == PlaceOf(t, v))
      && var r, o := SetPte(pages, l, I0(v), NOPTE), if v < TRAPVPN then owner[c := Held] else owner;
      && Tables(r, o) && SameContents(pages, owner, r) && Edit(pages, owner, r, t, v, NOPTE).Sound?
  {
    Indices(v * PGSIZE);
    FrameOfPage(pages, owner, t, v);
    WalkFrames(pages, owner, t, I2(v), I1(v), I0(v));
    SetLeaf(pages, owner, t, v, NOPTE, if v < TRAPVPN then owner[Flat(pages, t, v).ppn := Held] else owner);
  }

  lemma UnmapAbsent(pages: seq<Page>, owner: seq<Owner>, t: int, v: int)
    requires Tables(pages, owner) && 0 <= t < |pages| && owner[t].Root? && 0 <= v < MAXVPN
    requires !Flat(pages, t, v).v
    ensures UnmapCheck(pages, owner, pages, owner, t, v, 1).Sound?
  {
    FrameOfPage(pages, owner, t, v);
    assert UnmappedRange(pages, owner, pages, owner, t, v, 1);
  }

  /** What a frame that no table refers to holds is nothing to the tables. */
  lemma JunkUnread(r: seq<Page>, owner: seq<Owner>, c: int)
    requires 0 <= c < |owner| && Tables(r, owner[c := Held]) && !owner[c].Root?
    ensures forall t', u :: 0 <= t' < |owner| && owner[t'].Root? && 0 <= u < MAXVPN ==>
      Flat(r[c := Junk], t', u) == Flat(r, t', u)
  {
    forall t', u | 0 <= t' < |owner| && owner[t'].Root? && 0 <= u < MAXVPN
      ensures Flat(r[c := Junk], t', u) == Flat(r, t', u)
    {
      LooseReads(r, owner[c := Held], c, Junk, t', I2(u), I1(u), I0(u));
    }
  }

  /** Clear the entry and free the frame. */
  lemma UnmapUser(pages: seq<Page>, owner: seq<Owner>, t: int, v: int, r: seq<Page>, c: int)
    requires Tables(pages, owner) && 0 <= t < |pages| && owner[t].Root? && 0 <= v < TRAPVPN
    requires Flat(pages, t, v).v && c == Flat(pages, t, v).ppn
    requires c < |owner| && owner[c] == PlaceOf(t, v) && Tables(r, owner[c := Held])
    requires SameContents(pages, owner, r) && Edit(pages, owner, r, t, v, NOPTE).Sound?
    ensures UnmapCheck(pages, owner, r[c := Junk], owner[c := Free], t, v, 1).Sound?
  {
    OpenEdit(pages, owner, r, t, v, NOPTE);
    FrameOfPage(pages, owner, t, v);
    Indices(v * PGSIZE);
    JunkUnread(r, owner, c);
    assert UnmappedRange(pages, owner, r[c := Junk], owner[c := Free], t, v, 1);
  }

  lemma UnmapKernel(pages: seq<Page>, owner: seq<Owner>, t: int, v: int, r: seq<Page>)
    requires Tables(pages, owner) && 0 <= t < |pages| && owner[t].Root? && TRAPVPN <= v < MAXVPN
    requires SameContents(pages, owner, r) && Edit(pages, owner, r, t, v, NOPTE).Sound?
    ensures UnmapCheck(pages, owner, r, owner, t, v, 1).Sound?
  {
    OpenEdit(pages, owner, r, t, v, NOPTE);
    assert Edited(pages, owner, r, t, v, NOPTE);
    forall f | 0 <= f < |owner| ensures !MapsIn(owner[f], t, v, 1) {
      assert Placed(pages, owner, f);
    }
    assert UnmappedRange(pages, owner, r, owner, t, v, 1);
  }

  lemma UnmapNothing(pages: seq<Page>, owner: seq<Owner>, t: int, v: int)
    requires |pages| == |owner|
    ensures UnmapCheck(pages, owner, pages, owner, t, v, 0).Sound?
  {
    assert UnmappedRange(pages, owner, pages, owner, t, v, 0);
  }

  lemma UnmapMore(p0: seq<Page>, o0: seq<Owner>, p1: seq<Page>, o1: seq<Owner>, p2: seq<Page>, o2: seq<Owner>,
      t: int, v: int, n: int)
    requires UnmapCheck(p0, o0, p1, o1, t, v, n).Sound?
    requires UnmapCheck(p1, o1, p2, o2, t, v + n, 1).Sound? && 0 <= n
    ensures UnmapCheck(p0, o0, p2, o2, t, v, n + 1).Sound?
  {
    OpenUnmapCheck(p0, o0, p1, o1, t, v, n);
    OpenUnmapCheck(p1, o1, p2, o2, t, v + n, 1);
    assert UnmappedRange(p0, o0, p1, o1, t, v, n) && UnmappedRange(p1, o1, p2, o2, t, v + n, 1);
    assert UnmappedRange(p0, o0, p2, o2, t, v, n + 1);
  }
}
