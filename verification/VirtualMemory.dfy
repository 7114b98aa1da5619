/**
 kernel/vm.c over kernel/kalloc.c as code.

 Addresses that the code keeps page-aligned are given by page number, a pointer to an entry by
 the frame of its bottom table, and a null pointer by -1 (0 for kalloc, which never hands out
 frame 0).
 */
module VirtualMemory {
  import opened PageTable
  import opened AddressSpace
  import opened Teardown
  import opened UserMemory
  import opened UserView

  /** The index that PX(level, va) takes from page number v. */
  function Index(level: int, v: int): (i: int) {
    if level == 2 then I2(v) else if level == 1 then I1(v) else I0(v)
  }

  lemma PageIndices(v: int)
    requires 0 <= v < MAXVPN
    ensures IsIndex(I2(v)) && IsIndex(I1(v)) && IsIndex(I0(v)) && Vpn(I2(v), I1(v), I0(v)) == v
    ensures forall level :: 0 <= level <= 2 ==> Index(level, v) == Px(level, v * PGSIZE)
  {
    Indices(v * PGSIZE);
  }

  class VirtualMemory {
    var pages: seq<Page>
    var free: seq<int>
    ghost var owner: seq<Owner>

    ghost predicate Raw()
      reads this
    {
      Tables(pages, owner) && FreeList(free, owner)
    }

    /** The same, sealed: what every operation keeps. */
    ghost predicate Valid()
      reads this
    {
      |pages| == |owner| && Health(pages, owner, free).Sound?
    }

    ghost predicate IsRoot(t: int)
      reads this
    {
      0 <= t < |owner| && owner[t].Root?
    }

    /** kalloc: the first frame of the free list, filled with junk, or 0. */
    method Kalloc() returns (f: int)
      requires Raw()
      modifies this
      ensures Raw()
      ensures f == 0 <==> old(free) == []
      ensures f == 0 ==> pages == old(pages) && owner == old(owner) && free == old(free)
      ensures f != 0 ==>
        && f == old(free)[0] && 0 < f < |old(owner)| && |old(pages)| == |old(owner)| && old(owner)[f].Free?
        && free == old(free)[1..] && pages == old(pages)[f := Junk] && owner == old(owner)[f := Held]
    {
      if free == [] {
        return 0;
      }
      f := free[0];
      LooseKeeps(pages, owner, f, Junk, Held);
      free := free[1..];
      pages := pages[f := Junk];
      owner := owner[f := Held];
      assert forall g :: g in old(free) ==> g == f || g in free;
    }

    /** kfree: a frame nobody refers to goes back to the front of the free list. */
    method Kfree(f: int)
      requires |pages| == |owner| && FreeList(free, owner) && 0 < f < |owner| && owner[f].Held?
      modifies this
      ensures FreeList(free, owner) && (old(Tables(pages, owner)) ==> Tables(pages, owner))
      ensures free == [f] + old(free) && pages == old(pages)[f := Junk] && owner == old(owner)[f := Free]
    {
      if Tables(pages, owner) {
        LooseKeeps(pages, owner, f, Junk, Free);
      }
      assert f !in free;
      pages := pages[f := Junk];
      free := [f] + free;
      owner := owner[f := Free];
    }

    /** cur is the table page that walk looks at on this level for page v of table t. */
    ghost predicate AtLevel(t: int, v: int, level: int, cur: int)
      reads this
    {
      && 0 <= level <= 2 && cur != -1
      && cur == if level == 2 then t else if level == 1 then MidOf(pages, t, I2(v)) else LowOf(pages, t, I2(v), I1(v))
    }

    /** One pass of walk's loop. */
    method Descend(t: int, v: int, level: int, cur: int, alloc: bool) returns (next: int)
      requires Raw() && IsRoot(t) && 0 <= v < MAXVPN && 0 < level && AtLevel(t, v, level, cur)
      modifies this
      ensures Raw() && Grew(old(pages), old(owner), pages, owner, t)
      ensures next != -1 ==> AtLevel(t, v, level - 1, next)
      ensures !alloc ==> pages == old(pages) && owner == old(owner) && free == old(free)
      ensures next == -1 ==>
        pages == old(pages) && owner == old(owner) && free == old(free) && LowOf(pages, t, I2(v), I1(v)) == -1
      ensures next == -1 && alloc ==> free == []
      ensures |free| >= |old(free)| - 1
    {
      PageIndices(v);
      GrewSelf(pages, owner, t);
      WalkFrames(pages, owner, t, I2(v), I1(v), 0);
      var pte := PteAt(pages, cur, Index(level, v));
      if pte.v {
        return pte.ppn;
      }
      if !alloc {
        return -1;
      }
      var f := Kalloc();
      if f == 0 {
        return -1;
      }
      ghost var o := if level == 2 then Mid(t, I2(v)) else Low(t, I2(v), I1(v));
      HookUp(old(pages), old(owner), t, v, level, cur, f, o);
      NotFreeNow(old(free), old(owner), free, old(owner)[f := o], f);
      owner := old(owner)[f := o];
      pages := SetPte(pages[f := EmptyTable()], cur, Index(level, v), Pte(true, false, false, false, false, f));
      return f;
    }

    /** walk: the bottom table that holds page v's entry, with interior tables added if alloc says so. */
    method Walk(t: int, v: int, alloc: bool) returns (l: int)
      requires Raw() && IsRoot(t) && 0 <= v < MAXVPN
      modifies this
      ensures Raw() && Grew(old(pages), old(owner), pages, owner, t)
      ensures l == LowOf(pages, t, I2(v), I1(v))
      ensures !alloc ==> pages == old(pages) && owner == old(owner) && free == old(free)
      ensures alloc && l == -1 ==> free == [] && |old(free)| <= 1
      ensures |free| >= |old(free)| - 2
    {
      GrewSelf(pages, owner, t);
      var cur, level := t, 2;
      while level > 0
        invariant Raw() && Grew(old(pages), old(owner), pages, owner, t) && IsRoot(t)
        invariant AtLevel(t, v, level, cur)
        invariant !alloc ==> pages == old(pages) && owner == old(owner) && free == old(free)
        invariant |free| >= |old(free)| - (2 - level)
      {
        ghost var p1, o1 := pages, owner;
        var next := Descend(t, v, level, cur, alloc);
        GrewTrans(old(pages), old(owner), p1, o1, pages, owner, t);
        if next == -1 {
          return -1;
        }
        cur, level := next, level - 1;
      }
      return cur;
    }

    /** One pass of mappages' loop. */
    method MapPage(t: int, v: int, c: int, perm: Pte)
        returns (out: MapOutcome, ghost p1: seq<Page>, ghost o1: seq<Owner>)
      requires Valid() && IsRoot(t) && 0 <= v < MAXVPN && 0 <= c < |owner| && Mappable(owner[c], v)
      requires perm.v && IsLeaf(perm) && (perm.u ==> v < TRAPVPN)
      requires v < TRAPVPN ==> pages[c].Bytes? && |pages[c].data| == PGSIZE
      modifies this
      ensures Valid() && Grew(old(pages), old(owner), p1, o1, t)
      ensures !out.Mapped? ==> pages == p1 && owner == o1
      ensures |free| >= |old(free)| - 2 && (out.OutOfMemory? ==> |old(free)| <= 1)
      ensures out.Remap? <==> Flat(old(pages), t, v).v
      ensures out.Mapped? ==>
        && owner == (if v < TRAPVPN then o1[c := PlaceOf(t, v)] else o1)
        && SameContents(p1, o1, pages) && Edit(p1, o1, pages, t, v, perm.(ppn := c)).Sound?
    {
      OpenHealth(pages, owner, free);
      PageIndices(v);
      var l := Walk(t, v, true);
      p1, o1 := pages, owner;
      assert OnlyInterior(old(owner)[c], owner[c], t);
      WalkFrames(pages, owner, t, I2(v), I1(v), I0(v));
      if l == -1 {
        return OutOfMemory, p1, o1;
      }
      if PteAt(pages, l, I0(v)).v {
        return Remap, p1, o1;
      }
      ghost var o2 := if v < TRAPVPN then owner[c := PlaceOf(t, v)] else owner;
      SetLeaf(pages, owner, t, v, perm.(ppn := c), o2);
      StillFree(free, owner, o2);
      pages := SetPte(pages, l, I0(v), perm.(ppn := c));
      owner := o2;
      return Mapped, p1, o1;
    }

    /** The frames that mappages is given, unchanged since (p0, o0). */
    ghost predicate FramesReady(o0: seq<Owner>, p0: seq<Page>, v: int, n: int, c: int)
   
    {
      && |p0| == |o0| && 0 <= c && c + n <= |o0|
      && (forall f :: c <= f < c + n ==> Mappable(o0[f], v + f - c))
      && (forall f :: c <= f < c + n && v + f - c < TRAPVPN ==> p0[f].Bytes? && |p0[f].data| == PGSIZE)
    }

    method MapNext(t: int, v: int, a: int, n: int, c: int, perm: Pte, ghost p0: seq<Page>, ghost o0: seq<Owner>)
        returns (out: MapOutcome)
      requires Valid() && IsRoot(t) && 0 <= v && 0 <= a < n && v + n <= MAXVPN && perm.v
      requires IsLeaf(perm) && (perm.u ==> v + n <= TRAPVPN)
      requires FramesReady(o0, p0, v, n, c) && 0 <= t < |o0| && o0[t].Root?
      requires MapCheck(p0, o0, pages, owner, t, v, a, c, perm).Sound?
      modifies this
      ensures Valid() && IsRoot(t)
      ensures MapCheck(p0, o0, pages, owner, t, v, if out.Mapped? then a + 1 else a, c, perm).Sound?
      ensures |free| >= |old(free)| - 2 && (out.OutOfMemory? ==> |old(free)| <= 1)
      ensures out.Remap? <==> Flat(p0, t, v + a).v
    {
      assert Mappable(o0[c+a], v + (c + a) - c);
      FrameAhead(p0, o0, pages, owner, t, v, a, c, perm);
      ghost var p1, o1;
      out, p1, o1 := MapPage(t, v + a, c + a, perm);
      if out.Mapped? {
        MapOneMore(p0, o0, old(pages), old(owner), p1, o1, pages, owner, t, v, a, c, perm);
      } else {
        GrewAfterMapping(p0, o0, old(pages), old(owner), pages, owner, t, v, a, c, perm);
      }
    }

    /**
     mappages: map the n pages from v to the n frames from c.  Remap is its panic; without memory
     for an interior table it stops and leaves the pages mapped so far.
     */
    method Mappages(t: int, v: int, n: int, c: int, perm: Pte) returns (out: MapOutcome, ghost done: int)
      requires Valid() && IsRoot(t) && 0 <= v && 0 < n && v + n <= MAXVPN && perm.v && IsLeaf(perm)
      requires (perm.u ==> v + n <= TRAPVPN)
      requires FramesReady(owner, pages, v, n, c)
      modifies this
      ensures Valid() && IsRoot(t) && 0 <= done <= n
      ensures MapCheck(old(pages), old(owner), pages, owner, t, v, done, c, perm).Sound?
      ensures out.Mapped? <==> done == n
      ensures |free| >= |old(free)| - 2 * (done + 1) && (out.Mapped? ==> |free| >= |old(free)| - 2 * n)
      ensures out.OutOfMemory? ==> |old(free)| <= 2 * done + 1
      ensures out.Remap? <==> done < n && Flat(old(pages), t, v + done).v
    {
      GrewSelf(pages, owner, t);
      GrewMapsNothing(pages, owner, pages, owner, t, v, c, perm);
      var a := 0;
      while true
        invariant Valid() && IsRoot(t) && 0 <= a < n
        invariant MapCheck(old(pages), old(owner), pages, owner, t, v, a, c, perm).Sound?
        invariant |free| >= |old(free)| - 2 * a
        decreases n - a
      {
        out := MapNext(t, v, a, n, c, perm, old(pages), old(owner));
        if !out.Mapped? {
          return out, a;
        }
        if a + 1 == n {
          return Mapped, n;
        }
        a := a + 1;
      }
    }

    /** One pass of uvmunmap's loop (clearing the entry and freeing the frame are independent). */
    method UnmapPage(t: int, v: int, doFree: bool)
      requires Valid() && IsRoot(t) && 0 <= v < MAXVPN && (doFree <==> v < TRAPVPN)
      modifies this
      ensures Valid() && IsRoot(t) && UnmapCheck(old(pages), old(owner), pages, owner, t, v, 1).Sound?
    {
      OpenHealth(pages, owner, free);
      var l := Walk(t, v, false);
      WalkFrames(pages, owner, t, I2(v), I1(v), I0(v));
      if l == -1 {
        UnmapAbsent(pages, owner, t, v);
        return;
      }
      var pte := PteAt(pages, l, I0(v));
      if !pte.v {
        UnmapAbsent(pages, owner, t, v);
        return;
      }
      ClearLeaf(pages, owner, t, v);
      pages := SetPte(pages, l, I0(v), NOPTE);
      if doFree {
        UnmapUser(old(pages), owner, t, v, pages, pte.ppn);
        UserFrameNotZero(free, owner, pte.ppn);
        owner := owner[pte.ppn := Held];
        StillFree(free, old(owner), owner);
        Kfree(pte.ppn);
        assert owner == old(owner)[pte.ppn := Free];
      } else {
        UnmapKernel(old(pages), owner, t, v, pages);
      }
    }

    /** uvmunmap: remove exactly the n pages from v, whether mapped or not, and free their frames if asked. */
    method Uvmunmap(t: int, v: int, n: int, doFree: bool)
      requires Valid() && IsRoot(t) && 0 <= v && 0 <= n && v + n <= MAXVPN
      requires if doFree then v + n <= TRAPVPN else TRAPVPN <= v
      modifies this
      ensures Valid() && IsRoot(t) && UnmapCheck(old(pages), old(owner), pages, owner, t, v, n).Sound?
    {
      UnmapNothing(pages, owner, t, v);
      for a := 0 to n
        invariant Valid() && IsRoot(t) && UnmapCheck(old(pages), old(owner), pages, owner, t, v, a).Sound?
      {
        ghost var p1, o1 := pages, owner;
        UnmapPage(t, v + a, doFree);
        UnmapMore(old(pages), old(owner), p1, o1, pages, owner, t, v, a);
      }
    }

    /**
     freewalk: free table page f and every table page beneath it.  Each child is freed before the
     entry that leads to it is cleared, so on return the table is whole again once entry e of up is.
     */
    method Freewalk(f: int, ghost up: int, ghost e: int)
      requires |pages| == |owner| && 0 <= f < |owner| && Start(pages, owner, free, f, up, e).Sound?
      modifies this
      decreases Height(owner[f])
      ensures |pages| == |owner| && Finish(old(pages), old(owner), pages, owner, free, f, up, e).Sound?
    {
      StartSweep(pages, owner, free, f, up, e);
      for i := 0 to NPTE
        invariant |pages| == |owner| && Sweep(old(pages), old(owner), pages, owner, free, f, up, e, i).Sound?
      {
        var pte := PteAt(pages, f, i);
        SweepMeets(old(pages), old(owner), pages, owner, old(free), free, f, up, e, i);
        if pte.v && !IsLeaf(pte) {
          ghost var p1, o1, free1 := pages, owner, free;
          Freewalk(pte.ppn, f, i);
          SweepOn(old(pages), old(owner), p1, o1, pages, owner, old(free), free1, free, f, up, e, i);
          pages := SetPte(pages, f, i, NOPTE);
        } else if pte.v {
          assert false;    // panic: freewalk: leaf
        }
      }
      SweepEnds(old(pages), old(owner), pages, owner, old(free), free, f, up, e);
      ghost var o1 := owner;
      owner := owner[f := Held];
      Kfree(f);
      assert owner == o1[f := Free];
    }

    /** kalloc, then memset or memmove. */
    method FilledPage(pg: Page) returns (f: int)
      requires Valid()
      modifies this
      ensures Valid()
      ensures f == 0 ==> pages == old(pages) && owner == old(owner) && free == old(free) == []
      ensures f != 0 ==>
        && 0 < f < |old(owner)| && |old(pages)| == |old(owner)| && old(owner)[f].Free?
        && pages == old(pages)[f := pg] && owner == old(owner)[f := Held] && |free| == |old(free)| - 1
    {
      OpenHealth(pages, owner, free);
      f := Kalloc();
      if f != 0 {
        LooseKeeps(pages, owner, f, pg, Held);
        pages := pages[f := pg];
        assert owner[f := Held] == owner;
      }
    }

    method GiveBack(f: int)
      requires Valid() && 0 < f < |owner| && owner[f].Held?
      modifies this
      ensures Valid() && pages == old(pages)[f := Junk] && owner == old(owner)[f := Free]
      ensures |free| == |old(free)| + 1
    {
      OpenHealth(pages, owner, free);
      Kfree(f);
    }

    /**
     What uvmalloc, uvmcopy and vmfault do for one page: kalloc, fill, mappages, and kfree if that
     fails.  0 is failure.
     */
    method AddPage(t: int, w: int, pg: Page, perm: Pte) returns (f: int)
      requires Valid() && IsRoot(t) && 0 <= w < TRAPVPN && !Flat(pages, t, w).v && pg.Bytes?
      requires |pg.data| == PGSIZE && perm.v && IsLeaf(perm)
      modifies this
      ensures Valid() && IsRoot(t) && AddCheck(old(pages), old(owner), pages, owner, t, w, f, pg, perm).Sound?
      ensures f == 0 ==> |old(free)| <= 2
      ensures |free| >= |old(free)| - 3
    {
      AddsNothing(pages, owner, t, w, pg, perm);
      f := FilledPage(pg);
      if f == 0 {
        return;
      }
      NotMappedYet(old(pages), old(owner), old(free), f, pg, t, w);
      var out, done := Mappages(t, w, 1, f, perm);
      if out.Mapped? {
        MapAdds(old(pages), old(owner), old(free), pages, owner, t, w, f, pg, perm);
        return;
      }
      ReturnAdds(old(pages), old(owner), old(free), pages, owner, free, t, w, f, pg, perm);
      GiveBack(f);
      return 0;
    }

    /** uvmdealloc: the new size; user pages wholly above it are gone. */
    method Uvmdealloc(t: int, oldsz: int, newsz: int) returns (sz: int)
      requires Valid() && IsRoot(t) && 0 <= newsz && 0 <= oldsz <= TRAPVPN * PGSIZE
      modifies this
      ensures Valid() && IsRoot(t) && sz == if newsz < oldsz then newsz else oldsz
      ensures UnmapCheck(old(pages), old(owner), pages, owner, t, PgUp(newsz), if newsz < oldsz
        then PgUp(oldsz) - PgUp(newsz) else 0).Sound?
    {
      UnmapNothing(pages, owner, t, PgUp(newsz));
      if newsz >= oldsz {
        return oldsz;
      }
      if PgUp(newsz) < PgUp(oldsz) {
        Uvmunmap(t, PgUp(newsz), PgUp(oldsz) - PgUp(newsz), true);
      }
      return newsz;
    }

    /**
     uvmalloc: grow user memory by zeroed pages with permissions R, U and xperm, or, short of
     frames, change no translation and return 0.
     */
    method Uvmalloc(t: int, oldsz: int, newsz: int, xperm: Pte) returns (sz: int)
      requires Valid() && IsRoot(t) && 0 <= oldsz && newsz <= TRAPVPN * PGSIZE
      requires Absent(pages, t, PgUp(oldsz), PgUp(newsz) - PgUp(oldsz))
      modifies this
      ensures Valid() && IsRoot(t)
      ensures newsz < oldsz ==> sz == oldsz && pages == old(pages) && owner == old(owner) && free == old(free)
      ensures oldsz <= newsz == sz ==>
        PopCheck(old(pages), old(owner), pages, owner, t, PgUp(oldsz), PgUp(newsz) - PgUp(oldsz),
        Zeros(UserPerm(xperm))).Sound?
      ensures oldsz <= newsz != sz ==>
        sz == 0 && Rollback(old(pages), old(owner), pages, owner, t).Sound?
        && |old(free)| < 3 * (PgUp(newsz) - PgUp(oldsz))
    {
      if newsz < oldsz {
        return oldsz;
      }
      var perm, v, n := UserPerm(xperm), PgUp(oldsz), 0;
      PopulateStart(pages, owner, t, v, Zeros(perm));
      while (v + n) * PGSIZE < newsz
        invariant Valid() && IsRoot(t) && 0 <= n <= PgUp(newsz) - v
        invariant PopCheck(old(pages), old(owner), pages, owner, t, v, n, Zeros(perm)).Sound?
        invariant |free| >= |old(free)| - 3 * n
        decreases newsz - (v + n) * PGSIZE
      {
        ghost var p1, o1 := pages, owner;
        AbsentAhead(old(pages), old(owner), pages, owner, t, v, n, PgUp(newsz) - v, Zeros(perm));
        var f := AddPage(t, v + n, ZeroPage(), perm);
        PopulateAdd(old(pages), old(owner), p1, o1, pages, owner, t, v, n, Zeros(perm), f);
        if f == 0 {
          p1, o1 := pages, owner;
          var _ := Uvmdealloc(t, (v + n) * PGSIZE, v * PGSIZE);
          assert PgUp(v * PGSIZE) == v && PgUp((v + n) * PGSIZE) == v + n;
          Undo(old(pages), old(owner), old(free), p1, o1, pages, owner, t, v, n, Zeros(perm));
          return 0;
        }
        n := n + 1;
      }
      return newsz;
    }

    /** walk without allocating, then read the entry: how table t translates page v. */
    method Lookup(t: int, v: int) returns (pte: Pte)
      requires Valid() && IsRoot(t) && 0 <= v < MAXVPN
      modifies this
      ensures pages == old(pages) && owner == old(owner) && free == old(free) && pte == Flat(pages, t, v)
    {
      OpenHealth(pages, owner, free);
      var l := Walk(t, v, false);
      return PteAt(pages, l, I0(v));
    }

    /** One pass of uvmcopy's loop; p0, o0, free0 are the state at its start. */
    method CopyPage(s: int, t: int, i: int, n: int, ghost p0: seq<Page>, ghost o0: seq<Owner>,
        ghost free0: seq<int>) returns (ok: bool)
      requires Valid() && IsRoot(t) && IsRoot(s) && s != t && 0 <= i < n <= TRAPVPN && Absent(p0, t, 0, n)
      requires Health(p0, o0, free0).Sound? && |p0| == |o0| == |owner| && o0[s].Root? && o0[t].Root?
      requires PopCheck(p0, o0, pages, owner, t, 0, i, CopyOf(s)).Sound?
      modifies this
      ensures Valid() && IsRoot(t)
      ensures PopCheck(p0, o0, pages, owner, t, 0, if ok then i + 1 else i, CopyOf(s)).Sound?
      ensures |free| >= |old(free)| - 3 && (!ok ==> |old(free)| <= 2)
    {
      var pte := Lookup(s, i);
      CopyReady(p0, o0, free0, pages, owner, s, t, i, n);
      if !pte.v {
        return true;
      }
      var f := AddPage(t, i, pages[pte.ppn], pte);
      CopyAdded(p0, o0, free0, old(pages), old(owner), pages, owner, s, t, i, f, pte);
      return f != 0;
    }

    /** uvmcopy: table t gets a copy of each page below sz that table s has; or, short of frames, none. */
    method Uvmcopy(s: int, t: int, sz: int) returns (ok: bool)
      requires Valid() && IsRoot(s) && IsRoot(t) && s != t && 0 <= sz <= TRAPVPN * PGSIZE
      requires Absent(pages, t, 0, PgUp(sz))
      modifies this
      ensures Valid() && IsRoot(t)
      ensures ok ==> PopCheck(old(pages), old(owner), pages, owner, t, 0, PgUp(sz), CopyOf(s)).Sound?
      ensures !ok ==> Rollback(old(pages), old(owner), pages, owner, t).Sound? && |old(free)| < 3 * PgUp(sz)
    {
      var i := 0;
      PopulateStart(pages, owner, t, 0, CopyOf(s));
      while i * PGSIZE < sz
        invariant Valid() && IsRoot(t) && 0 <= i <= PgUp(sz)
        invariant PopCheck(old(pages), old(owner), pages, owner, t, 0, i, CopyOf(s)).Sound?
        invariant |free| >= |old(free)| - 3 * i
        decreases sz - i * PGSIZE
      {
        PopulateRoots(old(pages), old(owner), pages, owner, t, 0, i, CopyOf(s), s);
        ok := CopyPage(s, t, i, PgUp(sz), old(pages), old(owner), old(free));
        if !ok {
          ghost var p1, o1 := pages, owner;
          Uvmunmap(t, 0, i, true);
          Undo(old(pages), old(owner), old(free), p1, o1, pages, owner, t, 0, i, CopyOf(s));
          return;
        }
        i := i + 1;
      }
      return true;
    }

    /** uvmcreate: an empty table, or 0. */
    method Uvmcreate() returns (t: int)
      requires Valid()
      modifies this
      ensures Valid() && (t == 0 <==> old(free) == [])
      ensures t == 0 ==> pages == old(pages) && owner == old(owner) && free == old(free)
      ensures t != 0 ==> 0 < t < |old(owner)| && old(owner)[t].Free? && owner == old(owner)[t := Root]
      ensures t != 0 ==> NewTable(old(pages), old(owner), pages, t)
    {
      t := FilledPage(EmptyTable());
      if t != 0 {
        StartTable(old(pages), old(owner), old(free), pages, owner, free, t);
        owner := owner[t := Root];
        assert owner == old(owner)[t := Root];
      }
    }

    /** uvmfree: with all that table t translates below sz, every frame of it is freed. */
    method Uvmfree(t: int, sz: int)
      requires Valid() && IsRoot(t) && 0 <= sz <= TRAPVPN * PGSIZE && OnlyBelow(pages, t, PgUp(sz))
      modifies this
      ensures Valid() && Dismantled(old(pages), old(owner), pages, owner, t)
    {
      UnmapNothing(pages, owner, t, 0);
      if sz > 0 {
        Uvmunmap(t, 0, PgUp(sz), true);
      }
      ReadyToFree(old(pages), old(owner), old(free), pages, owner, free, t, PgUp(sz));
      ghost var p1, o1, free1 := pages, owner, free;
      Freewalk(t, -1, 0);
      UvmfreeDone(old(pages), old(owner), old(free), p1, o1, free1, pages, owner, free, t, PgUp(sz));
    }

    /** walkaddr: the frame of a page the user may access, or 0. */
    method Walkaddr(t: int, v: int) returns (f: int)
      requires Valid() && IsRoot(t) && 0 <= v
      modifies this
      ensures pages == old(pages) && owner == old(owner) && free == old(free)
      ensures f == if v < MAXVPN && Flat(pages, t, v).v && Flat(pages, t, v).u then Flat(pages, t, v).ppn else 0
    {
      if v >= MAXVPN {
        return 0;
      }
      var pte := Lookup(t, v);
      if !pte.v || !pte.u {
        return 0;
      }
      return pte.ppn;
    }

    /**
     vmfault on the current process's own table: back the page of va if va lies below sz and the
     page is not mapped.
     */
    method Vmfault(t: int, sz: int, va: int) returns (f: int)
      requires Valid() && IsRoot(t) && 0 <= va && sz <= TRAPVPN * PGSIZE
      modifies this
      ensures Valid() && IsRoot(t) && ViewCheck(old(pages), old(owner), pages, owner, t, sz).Sound? && f >= 0
      ensures f > 0 ==> va < sz && !Flat(old(pages), t, va / PGSIZE).v
      ensures f > 0 ==> Flat(pages, t, va / PGSIZE) == LAZYPERM.(ppn := f)
      ensures f == 0 ==> va >= sz || Flat(old(pages), t, va / PGSIZE).v || |old(free)| <= 2
      ensures |free| >= |old(free)| - 3
    {
      ViewSelf(pages, owner, t, sz);
      if va >= sz {
        return 0;
      }
      var v := va / PGSIZE;
      var pte := Lookup(t, v);
      if pte.v {    // ismapped
        return 0;
      }
      f := AddPage(t, v, ZeroPage(), LAZYPERM);
      AddedUnseen(old(pages), old(owner), old(free), pages, owner, t, sz, v, f);
    }

    /** The frame for page v, backed on demand; 0 if the process sees nothing there or memory ran out. */
    method FrameFor(t: int, sz: int, v: int) returns (f: int)
      requires Valid() && IsRoot(t) && 0 <= v && sz <= TRAPVPN * PGSIZE
      modifies this
      ensures Valid() && IsRoot(t) && ViewCheck(old(pages), old(owner), pages, owner, t, sz).Sound?
      ensures f != 0 ==> Uses(pages, t, v, f)
      ensures f == 0 ==> SeenPage(old(pages), t, sz, v).Nothing? || (!Flat(old(pages), t, v).v && |old(free)| <= 2)
      ensures |free| >= |old(free)| - 3
    {
      ViewSelf(pages, owner, t, sz);
      f := Walkaddr(t, v);
      if f == 0 {
        f := Vmfault(t, sz, v * PGSIZE);
        assert v * PGSIZE / PGSIZE == v;
        NoWalkaddr(old(pages), old(owner), old(free), t, v);
      }
      if f != 0 {
        FrameUsable(pages, owner, free, t, v);
      }
    }

    /**
     One pass of copyin's loop: the rest of va's page, but at most left bytes; nothing if the page
     is not to be had.
     */
    method CopyinPage(t: int, sz: int, va: int, left: int) returns (chunk: seq<int>)
      requires Valid() && IsRoot(t) && 0 <= va && 0 < left && sz <= TRAPVPN * PGSIZE
      modifies this
      ensures Valid() && IsRoot(t) && ViewCheck(old(pages), old(owner), pages, owner, t, sz).Sound?
      ensures chunk != [] ==>
        |chunk| == (if PGSIZE - va % PGSIZE > left then left else PGSIZE - va % PGSIZE)
        && ReadSoFar(pages, t, sz, va, chunk)
      ensures chunk == [] ==>
        SeenPage(old(pages), t, sz, va / PGSIZE).Nothing? || (!Flat(old(pages), t, va / PGSIZE).v && |old(free)| <= 2)
      ensures |free| >= |old(free)| - 3
    {
      var v, off := va / PGSIZE, va % PGSIZE;
      var f := FrameFor(t, sz, v);
      if f == 0 {
        return [];
      }
      var n := if PGSIZE - off > left then left else PGSIZE - off;
      ReadPage(pages, t, sz, va, f, n);
      return pages[f].data[off..off + n];
    }

    /** copyin: what the process sees from srcva on, up to len bytes. */
    method Copyin(t: int, sz: int, srcva: int, len: int) returns (ok: bool, dst: seq<int>)
      requires Valid() && IsRoot(t) && 0 <= srcva && 0 <= len && sz <= TRAPVPN * PGSIZE
      modifies this
      ensures Valid() && IsRoot(t) && ViewCheck(old(pages), old(owner), pages, owner, t, sz).Sound?
      ensures ReadsAs(old(pages), |old(free)|, t, sz, srcva, len, ok, dst)
    {
      ViewSelf(pages, owner, t, sz);
      dst := [];
      var va, left := srcva, len;
      while left > 0
        invariant Valid() && IsRoot(t) && ViewCheck(old(pages), old(owner), pages, owner, t, sz).Sound?
        invariant 0 <= left && |dst| == len - left && ReadSoFar(old(pages), t, sz, srcva, dst)
        invariant va >= srcva && (left > 0 ==> va == srcva + |dst|)
        invariant |free| >= |old(free)| - 3 * (va / PGSIZE - srcva / PGSIZE)
        decreases left
      {
        ghost var p1, o1, nfree := pages, owner, |free|;
        var chunk := CopyinPage(t, sz, va, left);
        if chunk == [] {
          NoFrame(old(pages), old(owner), p1, o1, t, sz, srcva / PGSIZE, va / PGSIZE, |old(free)|, nfree);
        }
        ViewTrans(old(pages), old(owner), p1, o1, pages, owner, t, sz);
        if chunk == [] {
          return false, dst;
        }
        ReadMore(old(pages), old(owner), pages, owner, t, sz, srcva, dst, chunk);
        dst := dst + chunk;
        left := left - |chunk|;
        va := NextPage(va);
      }
      return true, dst;
    }

    /** The frame for page v if the process may write it, or 0. */
    method WritableFrame(t: int, sz: int, v: int) returns (f: int)
      requires Valid() && IsRoot(t) && 0 <= v && sz <= TRAPVPN * PGSIZE
      modifies this
      ensures Valid() && IsRoot(t) && ViewCheck(old(pages), old(owner), pages, owner, t, sz).Sound?
      ensures if f == 0 then Barred(old(pages), t, sz, v, |old(free)|) else Uses(pages, t, v, f) && Flat(pages, t, v).w
      ensures |free| >= |old(free)| - 3
    {
      if v >= MAXVPN {
        ViewSelf(pages, owner, t, sz);
        return 0;
      }
      f := FrameFor(t, sz, v);
      if f == 0 {
        return 0;
      }
      var pte := Lookup(t, v);
      if !pte.w {
        ReadOnlyBarred(old(pages), old(owner), pages, owner, t, sz, v, f, |old(free)|);
        return 0;
      }
    }

    /** memmove of chunk to address va, in frame f. */
    method WriteFrame(t: int, ghost sz: int, va: int, f: int, chunk: seq<int>)
      requires Valid() && IsRoot(t) && 0 <= va && 0 < |chunk| <= PGSIZE - va % PGSIZE
      requires Uses(pages, t, va / PGSIZE, f) && Flat(pages, t, va / PGSIZE).w
      modifies `pages
      ensures Valid() && IsRoot(t)
      ensures PaintCheck(old(pages), old(owner), pages, owner, t, sz, va, chunk).Sound?
    {
      var off, data := va % PGSIZE, pages[f].data;
      MoveIsOverlay(data, va, chunk);
      PaintPage(pages, owner, free, t, sz, va / PGSIZE, f, va, chunk);
      WriteKeepsHealth(pages, owner, free, t, va / PGSIZE, f, Overlay(data, va / PGSIZE * PGSIZE, va, chunk));
      pages := pages[f := Bytes(data[..off] + chunk + data[off + |chunk|..])];
    }

    /** One pass of copyout's loop. */
    method CopyoutPage(t: int, sz: int, va: int, chunk: seq<int>) returns (ok: bool)
      requires Valid() && IsRoot(t) && 0 <= va && 0 < |chunk| <= PGSIZE - va % PGSIZE
      requires sz <= TRAPVPN * PGSIZE
      modifies this
      ensures Valid() && IsRoot(t)
      ensures ok ==> PaintCheck(old(pages), old(owner), pages, owner, t, sz, va, chunk).Sound?
      ensures !ok ==> ViewCheck(old(pages), old(owner), pages, owner, t, sz).Sound?
      ensures !ok ==> Barred(old(pages), t, sz, va / PGSIZE, |old(free)|)
      ensures |free| >= |old(free)| - 3
    {
      var f := WritableFrame(t, sz, va / PGSIZE);
      if f == 0 {
        return false;
      }
      ghost var p1, o1 := pages, owner;
      WriteFrame(t, sz, va, f, chunk);
      PaintFirst(old(pages), old(owner), p1, o1, pages, owner, t, sz, va, chunk, []);
      return true;
    }

    /** copyout: lay src over what the process sees from dstva on, page by page until one cannot be written. */
    method Copyout(t: int, sz: int, dstva: int, src: seq<int>) returns (ok: bool, ghost done: int)
      requires Valid() && IsRoot(t) && 0 <= dstva && sz <= TRAPVPN * PGSIZE
      modifies this
      ensures Valid() && IsRoot(t)
      ensures WritesAs(old(pages), old(owner), |old(free)|, pages, owner, t, sz, dstva, src, ok, done)
    {
      ViewSelf(pages, owner, t, sz);
      var va, at := dstva, 0;
      ghost var part := [];
      PaintNothing(pages, owner, pages, owner, t, sz, dstva, part);
      while at < |src|
        invariant Valid() && IsRoot(t) && 0 <= at <= |src| && part == src[..at]
        invariant PaintCheck(old(pages), old(owner), pages, owner, t, sz, dstva, part).Sound?
        invariant va >= dstva && (at < |src| ==> va == dstva + at)
        invariant |free| >= |old(free)| - 3 * (va / PGSIZE - dstva / PGSIZE)
        decreases |src| - at
      {
        ghost var p1, o1, nfree := pages, owner, |free|;
        var n := if PGSIZE - va % PGSIZE > |src| - at then |src| - at else PGSIZE - va % PGSIZE;
        ok := CopyoutPage(t, sz, va, src[at..at + n]);
        if !ok {
          NoPageToWrite(old(pages), old(owner), p1, o1, t, sz, dstva, part, dstva / PGSIZE, va / PGSIZE,
            |old(free)|, nfree);
          PaintUnseen(old(pages), old(owner), p1, o1, pages, owner, t, sz, dstva, part, va, []);
          return false, at;
        }
        ghost var more := src[..at + n];
        assert more == part + src[at..at + n];
        PaintTrans(old(pages), old(owner), p1, o1, pages, owner, t, sz, dstva, part, va, src[at..at + n], more);
        part := more;
        at := at + n;
        va := NextPage(va);
      }
      return true, at;
    }
  }

  /** The first address of the page after a's. */
  function NextPage(a: int): (r: int)
    ensures r / PGSIZE == a / PGSIZE + 1 && r == a + (PGSIZE - a % PGSIZE)
  {
    (a / PGSIZE + 1) * PGSIZE
  }

  lemma NoWalkaddr(p: seq<Page>, o: seq<Owner>, free: seq<int>, t: int, v: int)
    requires Health(p, o, free).Sound? && 0 <= t < |o| && o[t].Root?
    ensures 0 <= v < MAXVPN && Flat(p, t, v).v && Flat(p, t, v).u ==> Flat(p, t, v).ppn > 0
  {
    OpenHealth(p, o, free);
    if 0 <= v < MAXVPN && Flat(p, t, v).v && Flat(p, t, v).u {
      FrameUsable(p, o, free, t, v);
    }
  }

  lemma FrameUsable(p: seq<Page>, o: seq<Owner>, free: seq<int>, t: int, v: int)
    requires Health(p, o, free).Sound? && 0 <= t < |o| && o[t].Root? && 0 <= v < MAXVPN
    requires Flat(p, t, v).v && Flat(p, t, v).u
    ensures Uses(p, t, v, Flat(p, t, v).ppn)
  {
    OpenHealth(p, o, free);
    FrameOfPage(p, o, t, v);
    WalkFrames(p, o, t, I2(v), I1(v), I0(v));
    Indices(v * PGSIZE);
  }

  /** PTE_R | PTE_U | xperm, valid. */
  function UserPerm(xperm: Pte): (p: Pte) {
    Pte(true, true, xperm.w, xperm.x, true, 0)
  }

  lemma UserFrameNotZero(free: seq<int>, owner: seq<Owner>, f: int)
    requires FreeList(free, owner) && 0 <= f < |owner| && owner[f].User?
    ensures f > 0
  {
  }

  datatype MapOutcome = Mapped | OutOfMemory | Remap

  lemma StillFree(free: seq<int>, o0: seq<Owner>, o1: seq<Owner>)
    requires FreeList(free, o0) && |o1| == |o0|
    requires forall f :: 0 <= f < |o0| && o1[f] != o0[f] ==> f > 0 && !o0[f].Free? && !o1[f].Free?
    ensures FreeList(free, o1)
  {
  }

  /** Hooking a new empty table into entry Index(level, v) of cur. */
  lemma HookUp(pages: seq<Page>, owner: seq<Owner>, t: int, v: int, level: int, cur: int, f: int, o: Owner)
    requires Tables(pages, owner) && 0 <= t < |pages| && owner[t].Root? && 0 <= v < MAXVPN && 1 <= level <= 2
    requires cur == (if level == 2 then t else MidOf(pages, t, I2(v))) && cur != -1
    requires !PteAt(pages, cur, Index(level, v)).v
    requires o == if level == 2 then Mid(t, I2(v)) else Low(t, I2(v), I1(v))
    requires 0 <= f < |pages| && owner[f].Free?
    ensures 0 <= cur < |pages| && cur != f && pages[cur].Table? && |pages[cur].ptes| == NPTE
    ensures IsIndex(Index(level, v))
    ensures var r := SetPte(pages[f := Junk][f := EmptyTable()], cur, Index(level, v),
      Pte(true, false, false, false, false, f));
      && Tables(r, owner[f := o]) && Grew(pages, owner, r, owner[f := o], t)
      && (if level == 2 then MidOf(r, t, I2(v)) else LowOf(r, t, I2(v), I1(v))) == f
  {
    PageIndices(v);
    if level == 2 {
      TakeMid(pages, owner, t, I2(v), f);
    } else {
      TakeLow(pages, owner, t, I2(v), I1(v), f);
    }
  }

  lemma NotFreeNow(free0: seq<int>, o0: seq<Owner>, free1: seq<int>, o1: seq<Owner>, f: int)
    requires FreeList(free0, o0) && free0 != [] && f == free0[0] && free1 == free0[1..]
    requires |o1| == |o0| && (forall g :: 0 <= g < |o0| && g != f ==> o1[g] == o0[g]) && !o1[f].Free?
    ensures FreeList(free1, o1)
  {
    forall g | 0 <= g < |o1| && o1[g].Free? ensures g in free1 {
      assert g in free0;
    }
  }
}
