/** What the operations that grow, copy and free user memory promise (kernel/vm.c:214-324). */
module UserMemory {
  import opened PageTable
  import opened AddressSpace
  import opened Seals
  import opened Teardown

  function PgUp(a: int): (v: int) {
    (a + PGSIZE - 1) / PGSIZE
  }

  function ZeroPage(): (pg: Page)
    ensures pg.Bytes? && |pg.data| == PGSIZE && forall k :: 0 <= k < PGSIZE ==> pg.data[k] == 0
  {
    Bytes(seq(PGSIZE, _ => 0))
  }

  /** Where new pages get their contents and permissions: zeros, or the same page of table s. */
  datatype Source = Zeros(perm: Pte) | CopyOf(s: int)

  function Wanted(p0: seq<Page>, src: Source, u: int): (p: Pte) {
    match src
    case Zeros(perm) => perm
    case CopyOf(s) => Flat(p0, s, u)
  }

  function Filling(p0: seq<Page>, src: Source, u: int): (pg: Page) {
    match src
    case Zeros(_) => ZeroPage()
    case CopyOf(s) => if Flat(p0, s, u).ppn < |p0| then p0[Flat(p0, s, u).ppn] else Junk
  }

  /** An interior or user page of table t. */
  predicate BelongsTo(o: Owner, t: int) {
    (o.Mid? || o.Low? || o.User?) && o.t == t
  }

  /** A frame stays, or leaves the free list to become an interior page of t or the frame of a page in range. */
  predicate Gains(a: Owner, b: Owner, t: int, v: int, n: int) {
    OnlyInterior(a, b, t) || (a.Free? && MapsIn(b, t, v, n))
  }

  /**
   Page u of t is backed by a frame of its own that was free, with the wanted contents and
   permissions; or absent if so wanted.
   */
  predicate Backed(p0: seq<Page>, o0: seq<Owner>, p1: seq<Page>, o1: seq<Owner>, t: int, u: int, src: Source)
    requires |p0| == |o0| == |p1| == |o1|
  {
    var want, got := Wanted(p0, src, u), Flat(p1, t, u);
    if want.v then
      && got == want.(ppn := got.ppn) && got.ppn < |p1|
      && o0[got.ppn].Free? && o1[got.ppn] == PlaceOf(t, u) && p1[got.ppn] == Filling(p0, src, u)
    else !got.v
  }

  /** Only the n pages from v of table t changed, and only free frames were used. */
  ghost predicate Adds(p0: seq<Page>, o0: seq<Owner>, p1: seq<Page>, o1: seq<Owner>, t: int, v: int, n: int) {
    && SameRoots(o0, o1) && SameContents(p0, o0, p1)
    && (forall t', u :: 0 <= t' < |o0| && o0[t'].Root? && 0 <= u < MAXVPN && !(t' == t && v <= u < v + n) ==>
       Flat(p1, t', u) == Flat(p0, t', u))
    && (forall f :: 0 <= f < |o0| ==> Gains(o0[f], o1[f], t, v, n))
  }

  /** The n pages from v were added to table t as wanted, and nothing else changed. */
  ghost predicate Populated(p0: seq<Page>, o0: seq<Owner>, p1: seq<Page>, o1: seq<Owner>, t: int, v: int, n: int,
      src: Source)
  {
    && Adds(p0, o0, p1, o1, t, v, n)
    && (forall u :: v <= u < v + n ==> Backed(p0, o0, p1, o1, t, u, src))
  }

  predicate PopKey(z: int, p0: seq<Page>, p1: seq<Page>) {
    true
  }

  ghost function PopCheck(p0: seq<Page>, o0: seq<Owner>, p1: seq<Page>, o1: seq<Owner>, t: int, v: int, n: int,
      src: Source): (r: Verdict)
  {
    if forall z {:trigger PopKey(z, p0, p1)} :: PopKey(z, p0, p1) ==> Populated(p0, o0, p1, o1, t, v, n, src)
      then Sound else Broken
  }

  lemma OpenPopCheck(p0: seq<Page>, o0: seq<Owner>, p1: seq<Page>, o1: seq<Owner>, t: int, v: int, n: int, src: Source)
    requires PopCheck(p0, o0, p1, o1, t, v, n, src).Sound?
    ensures Populated(p0, o0, p1, o1, t, v, n, src)
  {
    assert PopKey(0, p0, p1);
  }

  lemma PopulateStart(p: seq<Page>, o: seq<Owner>, t: int, v: int, src: Source)
    requires |p| == |o|
    ensures PopCheck(p, o, p, o, t, v, 0, src).Sound?
  {
    assert Populated(p, o, p, o, t, v, 0, src);
  }

  lemma AddsTrans(p0: seq<Page>, o0: seq<Owner>, p1: seq<Page>, o1: seq<Owner>, p2: seq<Page>, o2: seq<Owner>,
      t: int, v: int, n: int, m: int)
    requires 0 <= n && 0 <= m && Adds(p0, o0, p1, o1, t, v, n) && Adds(p1, o1, p2, o2, t, v + n, m)
    ensures Adds(p0, o0, p2, o2, t, v, n + m)
  {
    forall f | 0 <= f < |o0| ensures Gains(o0[f], o2[f], t, v, n + m) && (HasContents(o0[f]) ==> p2[f] == p0[f]) {
      assert Gains(o0[f], o1[f], t, v, n) && Gains(o1[f], o2[f], t, v + n, m);
    }
    forall t', u | 0 <= t' < |o0| && o0[t'].Root? && 0 <= u < MAXVPN && !(t' == t && v <= u < v + n + m)
      ensures Flat(p2, t', u) == Flat(p0, t', u)
    {
      assert Flat(p1, t', u) == Flat(p0, t', u);
    }
  }

  lemma BackedStays(p0: seq<Page>, o0: seq<Owner>, p1: seq<Page>, o1: seq<Owner>, p2: seq<Page>, o2: seq<Owner>,
      t: int, u: int, src: Source, w: int, m: int)
    requires |p0| == |o0| == |o1| && Adds(p1, o1, p2, o2, t, w, m) && Backed(p0, o0, p1, o1, t, u, src)
    requires 0 <= t < |o1| && o1[t].Root? && 0 <= u < MAXVPN && !(w <= u < w + m)
    ensures Backed(p0, o0, p2, o2, t, u, src)
  {
    var f := Flat(p1, t, u).ppn;
    assert f < |o1| ==> Gains(o1[f], o2[f], t, w, m);
  }

  /** One more page, or only interior pages. */
  lemma PopulateOn(p0: seq<Page>, o0: seq<Owner>, p1: seq<Page>, o1: seq<Owner>, p2: seq<Page>, o2: seq<Owner>,
      t: int, v: int, n: int, m: int, src: Source)
    requires PopCheck(p0, o0, p1, o1, t, v, n, src).Sound? && Adds(p1, o1, p2, o2, t, v + n, m)
    requires 0 <= m <= 1 && 0 <= v && 0 <= n && v + n <= TRAPVPN
    requires 0 <= t < |o1| && o1[t].Root? && |p0| == |o0| == |o1|
    requires m == 1 ==> Backed(p0, o0, p2, o2, t, v + n, src)
    ensures PopCheck(p0, o0, p2, o2, t, v, n + m, src).Sound?
  {
    OpenPopCheck(p0, o0, p1, o1, t, v, n, src);
    AddsTrans(p0, o0, p1, o1, p2, o2, t, v, n, m);
    forall u | v <= u < v + n + m ensures Backed(p0, o0, p2, o2, t, u, src) {
      if u < v + n {
        assert Backed(p0, o0, p1, o1, t, u, src);
        BackedStays(p0, o0, p1, o1, p2, o2, t, u, src, v + n, m);
      }
    }
    assert Populated(p0, o0, p2, o2, t, v, n + m, src);
  }

  /** A frame taken from the free list and filled: still no table knows it. */
  lemma TakeFrame(p1: seq<Page>, o1: seq<Owner>, f: int, pg: Page, t': int, u: int)
    requires Tables(p1, o1) && 0 <= f < |o1| && o1[f].Free? && 0 <= t' < |o1| && o1[t'].Root?
    ensures Flat(p1[f := pg], t', u) == Flat(p1, t', u)
  {
    LooseReads(p1, o1, f, pg, t', I2(u), I1(u), I0(u));
  }

  /** Take a free frame, fill it, map it at page w. */
  lemma TakeAndMap(p1: seq<Page>, o1: seq<Owner>, p3: seq<Page>, o3: seq<Owner>, t: int, w: int, f: int, pg: Page,
      perm: Pte)
    requires Tables(p1, o1) && 0 <= f < |o1| && o1[f].Free? && 0 <= w < TRAPVPN && 0 <= t < |o1|
    requires o1[t].Root?
    requires MapCheck(p1[f := pg], o1[f := Held], p3, o3, t, w, 1, f, perm).Sound?
    ensures Adds(p1, o1, p3, o3, t, w, 1) && Flat(p3, t, w) == perm.(ppn := f) && p3[f] == pg
    ensures o3[f] == PlaceOf(t, w)
  {
    OpenMapCheck(p1[f := pg], o1[f := Held], p3, o3, t, w, 1, f, perm);
    var p2, o2 := p1[f := pg], o1[f := Held];
    assert MappedRange(p2, o2, p3, o3, t, w, 1, f, perm);
    Indices(w * PGSIZE);
    forall g | 0 <= g < |o1| ensures Gains(o1[g], o3[g], t, w, 1) {
      assert g != f ==> OnlyInterior(o2[g], o3[g], t);
    }
    forall t', u | 0 <= t' < |o1| && o1[t'].Root? && 0 <= u < MAXVPN && !(t' == t && w <= u < w + 1)
      ensures Flat(p3, t', u) == Flat(p1, t', u)
    {
      TakeFrame(p1, o1, f, pg, t', u);
    }
  }

  /** Take a free frame, fail to map it, give it back. */
  lemma TakeAndReturn(p1: seq<Page>, o1: seq<Owner>, p3: seq<Page>, o3: seq<Owner>, t: int, w: int, f: int,
      pg: Page, perm: Pte)
    requires Tables(p1, o1) && 0 <= f < |o1| && o1[f].Free? && Tables(p3, o3)
    requires MapCheck(p1[f := pg], o1[f := Held], p3, o3, t, w, 0, f, perm).Sound?
    ensures f < |o3| == |p3| && o3[f].Held? && Adds(p1, o1, p3[f := Junk], o3[f := Free], t, w, 0)
  {
    OpenMapCheck(p1[f := pg], o1[f := Held], p3, o3, t, w, 0, f, perm);
    var p2, o2 := p1[f := pg], o1[f := Held];
    assert MappedRange(p2, o2, p3, o3, t, w, 0, f, perm);
    assert OnlyInterior(o2[f], o3[f], t);
    forall g | 0 <= g < |o1| ensures Gains(o1[g], o3[f := Free][g], t, w, 0) {
      assert OnlyInterior(o2[g], o3[g], t);
    }
    forall t', u | 0 <= t' < |o1| && o1[t'].Root? && 0 <= u < MAXVPN
      ensures Flat(p3[f := Junk], t', u) == Flat(p1, t', u)
    {
      TakeFrame(p1, o1, f, pg, t', u);
      LooseReads(p3, o3, f, Junk, t', I2(u), I1(u), I0(u));
    }
  }

  /** Page w of t was backed by frame f; or, for f = 0, at most interior pages were added. */
  ghost predicate Added(p0: seq<Page>, o0: seq<Owner>, p1: seq<Page>, o1: seq<Owner>, t: int, w: int, f: int,
      pg: Page, perm: Pte)
  {
    && |p0| == |o0| == |p1| == |o1|
    && (f == 0 ==> Adds(p0, o0, p1, o1, t, w, 0))
    && (f != 0 ==> 0 < f < |o0| && o0[f].Free? && Adds(p0, o0, p1, o1, t, w, 1))
    && (f != 0 ==> Flat(p1, t, w) == perm.(ppn := f) && p1[f] == pg && o1[f] == PlaceOf(t, w))
  }

  predicate AddKey(z: int, p0: seq<Page>, p1: seq<Page>) {
    true
  }

  ghost function AddCheck(p0: seq<Page>, o0: seq<Owner>, p1: seq<Page>, o1: seq<Owner>, t: int, w: int, f: int,
      pg: Page, perm: Pte): (r: Verdict)
  {
    if forall z {:trigger AddKey(z, p0, p1)} :: AddKey(z, p0, p1) ==> Added(p0, o0, p1, o1, t, w, f, pg, perm)
      then Sound else Broken
  }

  lemma OpenAddCheck(p0: seq<Page>, o0: seq<Owner>, p1: seq<Page>, o1: seq<Owner>, t: int, w: int, f: int,
      pg: Page, perm: Pte)
    requires AddCheck(p0, o0, p1, o1, t, w, f, pg, perm).Sound?
    ensures Added(p0, o0, p1, o1, t, w, f, pg, perm)
  {
    assert AddKey(0, p0, p1);
  }

  lemma NotMappedYet(p1: seq<Page>, o1: seq<Owner>, free1: seq<int>, f: int, pg: Page, t: int, w: int)
    requires Health(p1, o1, free1).Sound? && 0 <= f < |o1| && o1[f].Free? && 0 <= t < |o1| && o1[t].Root?
    ensures f < |p1| && Flat(p1[f := pg], t, w) == Flat(p1, t, w)
  {
    OpenHealth(p1, o1, free1);
    TakeFrame(p1, o1, f, pg, t, w);
  }

  lemma MapAdds(p1: seq<Page>, o1: seq<Owner>, free1: seq<int>, p3: seq<Page>, o3: seq<Owner>, t: int, w: int,
      f: int, pg: Page, perm: Pte)
    requires Health(p1, o1, free1).Sound? && |p1| == |o1| && 0 < f < |o1| && o1[f].Free?
    requires 0 <= w < TRAPVPN && 0 <= t < |o1| && o1[t].Root?
    requires MapCheck(p1[f := pg], o1[f := Held], p3, o3, t, w, 1, f, perm).Sound?
    ensures AddCheck(p1, o1, p3, o3, t, w, f, pg, perm).Sound?
  {
    OpenHealth(p1, o1, free1);
    TakeAndMap(p1, o1, p3, o3, t, w, f, pg, perm);
    assert Added(p1, o1, p3, o3, t, w, f, pg, perm);
  }

  lemma ReturnAdds(p1: seq<Page>, o1: seq<Owner>, free1: seq<int>, p3: seq<Page>, o3: seq<Owner>, free3: seq<int>,
      t: int, w: int, f: int, pg: Page, perm: Pte)
    requires Health(p1, o1, free1).Sound? && |p1| == |o1| && 0 < f < |o1| && o1[f].Free?
    requires Health(p3, o3, free3).Sound?
    requires MapCheck(p1[f := pg], o1[f := Held], p3, o3, t, w, 0, f, perm).Sound?
    ensures f < |o3| == |p3| && o3[f].Held?
    ensures AddCheck(p1, o1, p3[f := Junk], o3[f := Free], t, w, 0, pg, perm).Sound?
  {
    OpenHealth(p1, o1, free1);
    OpenHealth(p3, o3, free3);
    TakeAndReturn(p1, o1, p3, o3, t, w, f, pg, perm);
    assert Added(p1, o1, p3[f := Junk], o3[f := Free], t, w, 0, pg, perm);
  }

  lemma AddsNothing(p: seq<Page>, o: seq<Owner>, t: int, w: int, pg: Page, perm: Pte)
    requires |p| == |o|
    ensures AddCheck(p, o, p, o, t, w, 0, pg, perm).Sound?
  {
    assert Added(p, o, p, o, t, w, 0, pg, perm);
  }

  lemma PopulateAdd(p0: seq<Page>, o0: seq<Owner>, p1: seq<Page>, o1: seq<Owner>, p2: seq<Page>, o2: seq<Owner>,
      t: int, v: int, n: int, src: Source, f: int)
    requires PopCheck(p0, o0, p1, o1, t, v, n, src).Sound?
    requires AddCheck(p1, o1, p2, o2, t, v + n, f, Filling(p0, src, v + n), Wanted(p0, src, v + n)).Sound?
    requires |p0| == |o0| && 0 <= t < |o0| && o0[t].Root? && 0 <= v && 0 <= n && v + n <= TRAPVPN
    requires Wanted(p0, src, v + n).v
    ensures PopCheck(p0, o0, p2, o2, t, v, if f == 0 then n else n + 1, src).Sound?
  {
    OpenAddCheck(p1, o1, p2, o2, t, v + n, f, Filling(p0, src, v + n), Wanted(p0, src, v + n));
    assert |o1| == |o0| && o1[t].Root? && (f != 0 ==> o0[f].Free?) by {
      OpenPopCheck(p0, o0, p1, o1, t, v, n, src);
      assert f != 0 ==> Gains(o0[f], o1[f], t, v, n);
    }
    PopulateOn(p0, o0, p1, o1, p2, o2, t, v, n, if f == 0 then 0 else 1, src);
  }

  /** Table t translates none of the n pages from v. */
  ghost predicate Absent(p: seq<Page>, t: int, v: int, n: int) {
    forall u :: v <= u < v + n ==> !Flat(p, t, u).v
  }

  lemma PopulateSkip(p0: seq<Page>, o0: seq<Owner>, p1: seq<Page>, o1: seq<Owner>, t: int, v: int, n: int, src: Source)
    requires PopCheck(p0, o0, p1, o1, t, v, n, src).Sound? && !Wanted(p0, src, v + n).v
    requires !Flat(p0, t, v + n).v
    requires |p0| == |o0| && 0 <= t < |o0| && o0[t].Root? && 0 <= v && 0 <= n && v + n <= TRAPVPN
    ensures PopCheck(p0, o0, p1, o1, t, v, n + 1, src).Sound?
  {
    OpenPopCheck(p0, o0, p1, o1, t, v, n, src);
    assert Populated(p0, o0, p1, o1, t, v, n, src);
    assert Adds(p1, o1, p1, o1, t, v + n, 1);
    PopulateOn(p0, o0, p1, o1, p1, o1, t, v, n, 1, src);
  }

  /** The pages ahead are as absent as they were. */
  lemma AbsentAhead(p0: seq<Page>, o0: seq<Owner>, p1: seq<Page>, o1: seq<Owner>, t: int, v: int, n: int, m: int,
      src: Source)
    requires PopCheck(p0, o0, p1, o1, t, v, n, src).Sound? && Absent(p0, t, v, m) && 0 <= v
    requires 0 <= n < m && v + m <= TRAPVPN
    requires |p0| == |o0| && 0 <= t < |o0| && o0[t].Root?
    ensures |o1| == |o0| && o1[t].Root? && !Flat(p1, t, v + n).v && !Flat(p0, t, v + n).v
  {
    OpenPopCheck(p0, o0, p1, o1, t, v, n, src);
    assert Populated(p0, o0, p1, o1, t, v, n, src);
  }

  lemma PopulateRoots(p0: seq<Page>, o0: seq<Owner>, p1: seq<Page>, o1: seq<Owner>, t: int, v: int, n: int,
      src: Source, s: int)
    requires PopCheck(p0, o0, p1, o1, t, v, n, src).Sound? && 0 <= s < |o0| && o0[s].Root?
    ensures |o1| == |o0| && o1[s].Root?
  {
    OpenPopCheck(p0, o0, p1, o1, t, v, n, src);
  }

  /** uvmcopy reads the source table as it was at the start. */
  lemma CopySource(p0: seq<Page>, o0: seq<Owner>, free0: seq<int>, p1: seq<Page>, o1: seq<Owner>, s: int, t: int,
      v: int, n: int, u: int)
    requires Health(p0, o0, free0).Sound? && PopCheck(p0, o0, p1, o1, t, v, n, CopyOf(s)).Sound?
    requires |p0| == |o0| && 0 <= s < |o0| && o0[s].Root? && s != t && 0 <= u < TRAPVPN
    ensures Flat(p1, s, u) == Flat(p0, s, u)
    ensures Flat(p1, s, u).v ==>
      && Flat(p1, s, u).ppn < |p1| == |p0| && p1[Flat(p1, s, u).ppn] == Filling(p0, CopyOf(s), u)
         && IsLeaf(Flat(p1, s, u))
      && p1[Flat(p1, s, u).ppn].Bytes? && |p1[Flat(p1, s, u).ppn].data| == PGSIZE
  {
    OpenHealth(p0, o0, free0);
    OpenPopCheck(p0, o0, p1, o1, t, v, n, CopyOf(s));
    assert Populated(p0, o0, p1, o1, t, v, n, CopyOf(s));
    FrameOfPage(p0, o0, s, u);
    WalkFrames(p0, o0, s, I2(u), I1(u), I0(u));
  }

  /** One page of uvmcopy: what it reads, and what it has achieved when frame f holds the copy. */
  lemma CopyReady(p0: seq<Page>, o0: seq<Owner>, free0: seq<int>, p1: seq<Page>, o1: seq<Owner>, s: int, t: int,
      i: int, n: int)
    requires Health(p0, o0, free0).Sound? && PopCheck(p0, o0, p1, o1, t, 0, i, CopyOf(s)).Sound?
    requires Absent(p0, t, 0, n)
    requires |p0| == |o0| && 0 <= s < |o0| && o0[s].Root? && 0 <= t < |o0| && o0[t].Root? && s != t
    requires 0 <= i < n <= TRAPVPN
    ensures !Flat(p1, t, i).v
    ensures var pte := Flat(p1, s, i);
      if pte.v then pte.ppn < |p1| && IsLeaf(pte) && p1[pte.ppn].Bytes? && |p1[pte.ppn].data| == PGSIZE
      else PopCheck(p0, o0, p1, o1, t, 0, i + 1, CopyOf(s)).Sound?
  {
    CopySource(p0, o0, free0, p1, o1, s, t, 0, i, i);
    AbsentAhead(p0, o0, p1, o1, t, 0, i, n, CopyOf(s));
    if !Flat(p1, s, i).v {
      PopulateSkip(p0, o0, p1, o1, t, 0, i, CopyOf(s));
    }
  }

  lemma CopyAdded(p0: seq<Page>, o0: seq<Owner>, free0: seq<int>, p1: seq<Page>, o1: seq<Owner>, p2: seq<Page>,
      o2: seq<Owner>, s: int, t: int, i: int, f: int, pte: Pte)
    requires Health(p0, o0, free0).Sound? && PopCheck(p0, o0, p1, o1, t, 0, i, CopyOf(s)).Sound?
    requires |p0| == |o0| && 0 <= s < |o0| && o0[s].Root? && 0 <= t < |o0| && o0[t].Root? && s != t
    requires 0 <= i < TRAPVPN
    requires pte == Flat(p1, s, i) && pte.v && pte.ppn < |p1|
    requires AddCheck(p1, o1, p2, o2, t, i, f, p1[pte.ppn], pte).Sound?
    ensures PopCheck(p0, o0, p2, o2, t, 0, if f == 0 then i else i + 1, CopyOf(s)).Sound?
  {
    CopySource(p0, o0, free0, p1, o1, s, t, 0, i, i);
    PopulateAdd(p0, o0, p1, o1, p2, o2, t, 0, i, CopyOf(s), f);
  }

  // ---------- rollback ----------

  predicate SameTranslation(a: Pte, b: Pte) {
    a == b || (!a.v && !b.v)
  }

  /** Every translation and all data are as before; at most interior pages were added to t. */
  ghost predicate Restored(p0: seq<Page>, o0: seq<Owner>, p1: seq<Page>, o1: seq<Owner>, t: int) {
    && SameRoots(o0, o1) && SameContents(p0, o0, p1)
    && (forall t', u :: 0 <= t' < |o0| && o0[t'].Root? && 0 <= u < MAXVPN ==>
       SameTranslation(Flat(p0, t', u), Flat(p1, t', u)))
    && (forall f :: 0 <= f < |o0| ==> OnlyInterior(o0[f], o1[f], t))
  }

  predicate RollKey(z: int, p0: seq<Page>, p1: seq<Page>) {
    true
  }

  ghost function Rollback(p0: seq<Page>, o0: seq<Owner>, p1: seq<Page>, o1: seq<Owner>, t: int): (r: Verdict) {
    if forall z {:trigger RollKey(z, p0, p1)} :: RollKey(z, p0, p1) ==> Restored(p0, o0, p1, o1, t) then Sound
      else Broken
  }

  lemma OpenRollback(p0: seq<Page>, o0: seq<Owner>, p1: seq<Page>, o1: seq<Owner>, t: int)
    requires Rollback(p0, o0, p1, o1, t).Sound?
    ensures Restored(p0, o0, p1, o1, t)
  {
    assert RollKey(0, p0, p1);
  }

  lemma AbsentOwnsNone(p: seq<Page>, o: seq<Owner>, t: int, v: int, n: int, f: int)
    requires Tables(p, o) && 0 <= t < |o| && o[t].Root? && Absent(p, t, v, n) && 0 <= v
    requires v + n <= MAXVPN && 0 <= f < |o|
    ensures !MapsIn(o[f], t, v, n)
  {
    if MapsIn(o[f], t, v, n) {
      var u := Vpn(o[f].i, o[f].j, o[f].k);
      FrameOfPage(p, o, t, u);
      assert MapsIn(o[f], t, u, 1);
    }
  }

  /** Removing the pages that were added restores everything. */
  lemma Undo(p0: seq<Page>, o0: seq<Owner>, free0: seq<int>, p1: seq<Page>, o1: seq<Owner>, p2: seq<Page>,
      o2: seq<Owner>, t: int, v: int, n: int, src: Source)
    requires Health(p0, o0, free0).Sound? && |p0| == |o0| && 0 <= t < |o0| && o0[t].Root? && 0 <= v
    requires v + n <= MAXVPN && Absent(p0, t, v, n)
    requires PopCheck(p0, o0, p1, o1, t, v, n, src).Sound? && UnmapCheck(p1, o1, p2, o2, t, v, n).Sound?
    ensures Rollback(p0, o0, p2, o2, t).Sound?
  {
    OpenHealth(p0, o0, free0);
    OpenPopCheck(p0, o0, p1, o1, t, v, n, src);
    OpenUnmapCheck(p1, o1, p2, o2, t, v, n);
    assert Populated(p0, o0, p1, o1, t, v, n, src) && UnmappedRange(p1, o1, p2, o2, t, v, n);
    forall f | 0 <= f < |o0| ensures OnlyInterior(o0[f], o2[f], t) && (HasContents(o0[f]) ==> p2[f] == p0[f]) {
      assert Gains(o0[f], o1[f], t, v, n);
      AbsentOwnsNone(p0, o0, t, v, n, f);
    }
    forall t', u | 0 <= t' < |o0| && o0[t'].Root? && 0 <= u < MAXVPN
      ensures SameTranslation(Flat(p0, t', u), Flat(p2, t', u))
    {
      assert o1[t'].Root?;
      assert !(t' == t && v <= u < v + n) ==> Flat(p1, t', u) == Flat(p0, t', u);
    }
    assert Restored(p0, o0, p2, o2, t);
  }

  // ---------- a new table ----------

  /** Table t is new and translates nothing; data and all other translations are as they were. */
  ghost predicate NewTable(p0: seq<Page>, o0: seq<Owner>, p1: seq<Page>, t: int) {
    && SameContents(p0, o0, p1) && (forall u :: 0 <= u < MAXVPN ==> !Flat(p1, t, u).v)
    && (forall t', u :: 0 <= t' < |o0| && o0[t'].Root? && 0 <= u < MAXVPN ==> Flat(p1, t', u) == Flat(p0, t', u))
  }

  lemma StartTable(p0: seq<Page>, o0: seq<Owner>, free0: seq<int>, p1: seq<Page>, o1: seq<Owner>, free1: seq<int>,
      t: int)
    requires Health(p0, o0, free0).Sound? && Health(p1, o1, free1).Sound? && |p0| == |o0|
    requires 0 < t < |o0| && o0[t].Free?
    requires p1 == p0[t := EmptyTable()] && o1 == o0[t := Held]
    ensures Health(p1, o1[t := Root], free1).Sound? && NewTable(p0, o0, p1, t)
  {
    OpenHealth(p0, o0, free0);
    OpenHealth(p1, o1, free1);
    NewRootKeeps(p1, o1, t);
    forall t', u | 0 <= t' < |o0| && o0[t'].Root? && 0 <= u < MAXVPN ensures Flat(p1, t', u) == Flat(p0, t', u) {
      TakeFrame(p0, o0, t, EmptyTable(), t', u);
    }
    assert Tables(p1, o1[t := Root]) && FreeList(free1, o1[t := Root]);
  }

  // ---------- freeing a whole table ----------

  /** Every frame of table t is free again; all other frames, data and translations are as they were. */
  ghost predicate Dismantled(p0: seq<Page>, o0: seq<Owner>, p1: seq<Page>, o1: seq<Owner>, t: int) {
    && |p0| == |o0| == |p1| == |o1|
    && (forall g :: 0 <= g < |o0| ==> o1[g] == if g == t || BelongsTo(o0[g], t) then Free else o0[g])
    && (forall g :: 0 <= g < |o0| && HasContents(o0[g]) && !BelongsTo(o0[g], t) ==> p1[g] == p0[g])
    && (forall t', u :: 0 <= t' < |o0| && o0[t'].Root? && t' != t && 0 <= u < MAXVPN ==>
       Flat(p1, t', u) == Flat(p0, t', u))
  }

  /** All that table t translates is user memory below page n. */
  ghost predicate OnlyBelow(p: seq<Page>, t: int, n: int) {
    forall u :: 0 <= u < MAXVPN && Flat(p, t, u).v ==> u < n
  }

  lemma UserFramesBelow(p: seq<Page>, o: seq<Owner>, t: int, n: int, g: int)
    requires Tables(p, o) && 0 <= t < |o| && o[t].Root? && OnlyBelow(p, t, n) && 0 <= g < |o|
    requires o[g].User? && o[g].t == t
    ensures MapsIn(o[g], t, 0, n)
  {
    assert Placed(p, o, g);
    EntryMapsPage(p, o, t, o[g].i, o[g].j, o[g].k);
    assert Flat(p, t, Vpn(o[g].i, o[g].j, o[g].k)).v;
  }

  /** With user memory unmapped, the table is ready to be taken apart. */
  lemma ReadyToFree(p0: seq<Page>, o0: seq<Owner>, free0: seq<int>, p1: seq<Page>, o1: seq<Owner>, free1: seq<int>,
      t: int, n: int)
    requires Health(p0, o0, free0).Sound? && Health(p1, o1, free1).Sound? && |p0| == |o0|
    requires 0 <= t < |o0| && o0[t].Root? && 0 <= n
    requires OnlyBelow(p0, t, n) && UnmapCheck(p0, o0, p1, o1, t, 0, n).Sound?
    ensures |o1| == |o0| && o1[t].Root? && Start(p1, o1, free1, t, -1, 0).Sound?
  {
    OpenHealth(p1, o1, free1);
    OpenUnmapCheck(p0, o0, p1, o1, t, 0, n);
    forall v | 0 <= v < MAXVPN ensures !Leaf(p1, t, I2(v), I1(v), I0(v)).v {
      assert Flat(p1, t, v) == Leaf(p1, t, I2(v), I1(v), I0(v)) && Flat(p0, t, v) == Leaf(p0, t, I2(v), I1(v), I0(v));
    }
    EmptyTableIsBare(p1, o1, free1, t);
  }

  /** Tearing table t down disturbs no other table. */
  lemma OthersKeep(p1: seq<Page>, o1: seq<Owner>, p2: seq<Page>, o2: seq<Owner>, t: int, t': int, u: int)
    requires Tables(p1, o1) && Freed(p1, o1, p2, o2, t) && o1[t].Root? && 0 <= t' < |o1|
    requires o1[t'].Root? && t' != t
    ensures Flat(p2, t', u) == Flat(p1, t', u)
  {
    WalkFrames(p1, o1, t', I2(u), I1(u), I0(u));
  }

  lemma UvmfreeDone(p0: seq<Page>, o0: seq<Owner>, free0: seq<int>, p1: seq<Page>, o1: seq<Owner>, free1: seq<int>,
      p2: seq<Page>, o2: seq<Owner>, free2: seq<int>, t: int, n: int)
    requires Health(p0, o0, free0).Sound? && Health(p1, o1, free1).Sound? && |p0| == |o0|
    requires 0 <= t < |o0| && o0[t].Root? && OnlyBelow(p0, t, n)
    requires UnmapCheck(p0, o0, p1, o1, t, 0, n).Sound? && Finish(p1, o1, p2, o2, free2, t, -1, 0).Sound?
    ensures |p2| == |o2| && Health(p2, o2, free2).Sound? && Dismantled(p0, o0, p2, o2, t)
  {
    OpenHealth(p0, o0, free0);
    OpenHealth(p1, o1, free1);
    OpenUnmapCheck(p0, o0, p1, o1, t, 0, n);
    OpenFinish(p1, o1, p2, o2, free2, t, -1, 0);
    assert TornDown(p1, o1, p2, o2, free2, t, -1, 0);
    forall g | 0 <= g < |o0|
      ensures o2[g] == if g == t || BelongsTo(o0[g], t) then Free else o0[g]
      ensures HasContents(o0[g]) && !BelongsTo(o0[g], t) ==> p2[g] == p0[g]
    {
      if o0[g].User? && o0[g].t == t {
        UserFramesBelow(p0, o0, t, n, g);
      }
    }
    forall t', u | 0 <= t' < |o0| && o0[t'].Root? && t' != t && 0 <= u < MAXVPN
      ensures Flat(p2, t', u) == Flat(p0, t', u)
    {
      OthersKeep(p1, o1, p2, o2, t, t', u);
    }
  }

  // ---------- conservation ----------

  predicate InPool(o: Owner, t: int) {
    o.Free? || BelongsTo(o, t)
  }

  /** Frames move between the free list and table t only. */
  ghost predicate PoolKept(o0: seq<Owner>, o1: seq<Owner>, t: int) {
    |o1| == |o0| && forall f :: 0 <= f < |o0| ==> (InPool(o0[f], t) && InPool(o1[f], t)) || o1[f] == o0[f]
  }

  ghost function FreeSet(o: seq<Owner>): (s: set<int>) {
    set f | 0 <= f < |o| && o[f].Free?
  }

  ghost function OwnedSet(o: seq<Owner>, t: int): (s: set<int>) {
    set f | 0 <= f < |o| && BelongsTo(o[f], t)
  }

  lemma {:induction false} DistinctSize(q: seq<int>)
    requires forall m, n :: 0 <= m < n < |q| ==> q[m] != q[n]
    ensures |set x | x in q| == |q|
  {
    if q == [] {
      assert (set x | x in q) == {};
    } else {
      var r := q[..|q| - 1];
      DistinctSize(r);
      assert (set x | x in q) == (set x | x in r) + {q[|q| - 1]};
      assert q[|q| - 1] !in r;
    }
  }

  lemma FreeCount(o: seq<Owner>, free: seq<int>)
    requires FreeList(free, o)
    ensures |FreeSet(o)| == |free|
  {
    DistinctSize(free);
    assert (set x | x in free) == FreeSet(o);
  }

  lemma SamePool(o0: seq<Owner>, o1: seq<Owner>, t: int)
    requires PoolKept(o0, o1, t)
    ensures FreeSet(o0) + OwnedSet(o0, t) == FreeSet(o1) + OwnedSet(o1, t)
  {
    forall f ensures f in FreeSet(o0) + OwnedSet(o0, t) <==> f in FreeSet(o1) + OwnedSet(o1, t) {
      assert f in FreeSet(o0) + OwnedSet(o0, t) <==> 0 <= f < |o0| && InPool(o0[f], t);
      assert f in FreeSet(o1) + OwnedSet(o1, t) <==> 0 <= f < |o1| && InPool(o1[f], t);
    }
  }

  /** Free frames plus frames of table t are as many as before. */
  lemma Conservation(o0: seq<Owner>, free0: seq<int>, o1: seq<Owner>, free1: seq<int>, t: int)
    requires FreeList(free0, o0) && FreeList(free1, o1) && PoolKept(o0, o1, t)
    ensures |free0| + |OwnedSet(o0, t)| == |free1| + |OwnedSet(o1, t)|
  {
    FreeCount(o0, free0);
    FreeCount(o1, free1);
    SamePool(o0, o1, t);
    DisjointSizes(FreeSet(o0), OwnedSet(o0, t));
    DisjointSizes(FreeSet(o1), OwnedSet(o1, t));
  }

  lemma DisjointSizes(a: set<int>, b: set<int>)
    requires a !! b
    ensures |a + b| == |a| + |b|
  {
  }

  lemma PopulateConserves(p0: seq<Page>, o0: seq<Owner>, p1: seq<Page>, o1: seq<Owner>, t: int, v: int, n: int,
      src: Source)
    requires PopCheck(p0, o0, p1, o1, t, v, n, src).Sound?
    ensures PoolKept(o0, o1, t)
  {
    OpenPopCheck(p0, o0, p1, o1, t, v, n, src);
    assert Populated(p0, o0, p1, o1, t, v, n, src);
    forall f | 0 <= f < |o0| ensures (InPool(o0[f], t) && InPool(o1[f], t)) || o1[f] == o0[f] {
      assert Gains(o0[f], o1[f], t, v, n);
    }
  }

  lemma RollbackConserves(p0: seq<Page>, o0: seq<Owner>, p1: seq<Page>, o1: seq<Owner>, t: int)
    requires Rollback(p0, o0, p1, o1, t).Sound?
    ensures PoolKept(o0, o1, t)
  {
    OpenRollback(p0, o0, p1, o1, t);
    forall f | 0 <= f < |o0| ensures (InPool(o0[f], t) && InPool(o1[f], t)) || o1[f] == o0[f] {
      assert OnlyInterior(o0[f], o1[f], t);
    }
  }

  lemma UnmapConserves(p0: seq<Page>, o0: seq<Owner>, p1: seq<Page>, o1: seq<Owner>, t: int, v: int, n: int)
    requires UnmapCheck(p0, o0, p1, o1, t, v, n).Sound?
    ensures PoolKept(o0, o1, t)
  {
    OpenUnmapCheck(p0, o0, p1, o1, t, v, n);
  }
}
