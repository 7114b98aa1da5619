/**
 User memory as copyin and copyout see it (kernel/vm.c:342-403, 452-486): pages not yet allocated
 below the process size count as zero-filled, writable memory.
 */
module UserView {
  import opened PageTable
  import opened AddressSpace
  import opened Seals
  import opened UserMemory

  /** What a process of size sz sees of page u: nothing, or bytes it may or may not write. */
  datatype Seen = Nothing | Sees(data: seq<int>, w: bool)

  function SeenPage(p: seq<Page>, t: int, sz: int, u: int): (s: Seen) {
    var pte := Flat(p, t, u);
    if !(0 <= u < MAXVPN) then Nothing
    else if !pte.v then if u * PGSIZE < sz then Sees(ZeroPage().data, true) else Nothing
    else if pte.u && pte.ppn < |p| && p[pte.ppn].Bytes? then Sees(p[pte.ppn].data, pte.w) else Nothing
  }

  function ByteSeen(p: seq<Page>, t: int, sz: int, a: int): (b: int) {
    var s := SeenPage(p, t, sz, a / PGSIZE);
    if s.Sees? && a % PGSIZE < |s.data| then s.data[a % PGSIZE] else -1
  }

  /** The bytes seen from address a on. */
  function BytesSeen(p: seq<Page>, t: int, sz: int, a: int, n: nat): (b: seq<int>) {
    seq(n, k => ByteSeen(p, t, sz, a + k))
  }

  const LAZYPERM: Pte := Pte(true, true, true, false, true, 0)

  /** What page faults may do: back unseen pages with frames; no process can tell, and no other table is touched. */
  ghost predicate ViewKept(p0: seq<Page>, o0: seq<Owner>, p1: seq<Page>, o1: seq<Owner>, t: int, sz: int) {
    && SameRoots(o0, o1) && PoolKept(o0, o1, t)
    && (forall u :: SeenPage(p1, t, sz, u) == SeenPage(p0, t, sz, u))
    && (forall u :: 0 <= u < MAXVPN && Flat(p0, t, u).v ==> Flat(p1, t, u) == Flat(p0, t, u))
    && (forall t', z, u :: 0 <= t' < |o0| && o0[t'].Root? && t' != t ==>
       SeenPage(p1, t', z, u) == SeenPage(p0, t', z, u))
  }

  predicate ViewKey(z: int, p0: seq<Page>, p1: seq<Page>) {
    true
  }

  ghost function ViewCheck(p0: seq<Page>, o0: seq<Owner>, p1: seq<Page>, o1: seq<Owner>, t: int,
      sz: int): (r: Verdict)
  {
    if forall z {:trigger ViewKey(z, p0, p1)} :: ViewKey(z, p0, p1) ==> ViewKept(p0, o0, p1, o1, t, sz) then Sound
      else Broken
  }

  lemma OpenViewCheck(p0: seq<Page>, o0: seq<Owner>, p1: seq<Page>, o1: seq<Owner>, t: int, sz: int)
    requires ViewCheck(p0, o0, p1, o1, t, sz).Sound?
    ensures ViewKept(p0, o0, p1, o1, t, sz)
  {
    assert ViewKey(0, p0, p1);
  }

  lemma SeesSame(p0: seq<Page>, o0: seq<Owner>, p1: seq<Page>, t: int, sz: int, u: int)
    requires Tables(p0, o0) && SameContents(p0, o0, p1) && 0 <= t < |o0| && o0[t].Root?
    requires (0 <= u < MAXVPN ==> Flat(p1, t, u) == Flat(p0, t, u))
    ensures SeenPage(p1, t, sz, u) == SeenPage(p0, t, sz, u)
  {
    if 0 <= u < MAXVPN {
      FrameOfPage(p0, o0, t, u);
    }
  }

  lemma ViewSelf(p: seq<Page>, o: seq<Owner>, t: int, sz: int)
    ensures ViewCheck(p, o, p, o, t, sz).Sound?
  {
    assert ViewKept(p, o, p, o, t, sz);
  }

  lemma AddsPool(p0: seq<Page>, o0: seq<Owner>, p1: seq<Page>, o1: seq<Owner>, t: int, v: int, n: int)
    requires Adds(p0, o0, p1, o1, t, v, n)
    ensures PoolKept(o0, o1, t)
  {
    forall g | 0 <= g < |o0| ensures (InPool(o0[g], t) && InPool(o1[g], t)) || o1[g] == o0[g] {
      assert Gains(o0[g], o1[g], t, v, n);
    }
  }

  lemma AddedFacts(p0: seq<Page>, o0: seq<Owner>, p1: seq<Page>, o1: seq<Owner>, t: int, w: int, f: int)
    requires AddCheck(p0, o0, p1, o1, t, w, f, ZeroPage(), LAZYPERM).Sound?
    requires 0 <= t < |o0| && o0[t].Root? && !Flat(p0, t, w).v
    ensures SameRoots(o0, o1) && PoolKept(o0, o1, t) && o1[t].Root?
    ensures f >= 0 && (f > 0 ==> Flat(p1, t, w) == LAZYPERM.(ppn := f))
    ensures forall u :: 0 <= u < MAXVPN && Flat(p0, t, u).v ==> Flat(p1, t, u) == Flat(p0, t, u)
  {
    OpenAddCheck(p0, o0, p1, o1, t, w, f, ZeroPage(), LAZYPERM);
    AddsPool(p0, o0, p1, o1, t, w, if f == 0 then 0 else 1);
  }

  lemma AddedSame(p0: seq<Page>, o0: seq<Owner>, free0: seq<int>, p1: seq<Page>, o1: seq<Owner>, t: int, sz: int,
      w: int, f: int, t': int, z: int, u: int)
    requires Health(p0, o0, free0).Sound? && 0 <= t < |o0| && 0 <= t' < |o0| && o0[t'].Root? && (t' == t ==> z == sz)
    requires 0 <= w < TRAPVPN && w * PGSIZE < sz && !Flat(p0, t, w).v
    requires AddCheck(p0, o0, p1, o1, t, w, f, ZeroPage(), LAZYPERM).Sound?
    ensures SeenPage(p1, t', z, u) == SeenPage(p0, t', z, u)
  {
    OpenHealth(p0, o0, free0);
    OpenAddCheck(p0, o0, p1, o1, t, w, f, ZeroPage(), LAZYPERM);
    if !(t' == t && u == w && f != 0) {
      SeesSame(p0, o0, p1, t', z, u);
    }
  }

  /**
   Pages added as zeros and writable where nothing was mapped below sz cannot be told from pages not
   yet allocated.
   */
  lemma AddedUnseen(p0: seq<Page>, o0: seq<Owner>, free0: seq<int>, p1: seq<Page>, o1: seq<Owner>, t: int, sz: int,
      w: int, f: int)
    requires Health(p0, o0, free0).Sound? && |p0| == |o0| && 0 <= t < |o0| && o0[t].Root?
    requires 0 <= w < TRAPVPN && w * PGSIZE < sz && !Flat(p0, t, w).v
    requires AddCheck(p0, o0, p1, o1, t, w, f, ZeroPage(), LAZYPERM).Sound?
    ensures ViewCheck(p0, o0, p1, o1, t, sz).Sound? && |o1| == |o0| && o1[t].Root?
    ensures f >= 0 && (f > 0 ==> Flat(p1, t, w) == LAZYPERM.(ppn := f))
  {
    AddedFacts(p0, o0, p1, o1, t, w, f);
    forall t', z, u | 0 <= t' < |o0| && o0[t'].Root? && (t' == t ==> z == sz)
      ensures SeenPage(p1, t', z, u) == SeenPage(p0, t', z, u)
    {
      AddedSame(p0, o0, free0, p1, o1, t, sz, w, f, t', z, u);
    }
    assert ViewKept(p0, o0, p1, o1, t, sz);
  }

  /** Growing by uvmalloc looks the same as only raising the size, which is how lazy growth works. */
  lemma LazyLooksEager(p0: seq<Page>, o0: seq<Owner>, free0: seq<int>, p1: seq<Page>, o1: seq<Owner>, t: int,
      oldsz: int, newsz: int, u: int)
    requires Health(p0, o0, free0).Sound? && |p0| == |o0| && 0 <= t < |o0| && o0[t].Root?
    requires 0 <= oldsz <= newsz <= TRAPVPN * PGSIZE
    requires Absent(p0, t, PgUp(oldsz), PgUp(newsz) - PgUp(oldsz))
    requires PopCheck(p0, o0, p1, o1, t, PgUp(oldsz), PgUp(newsz) - PgUp(oldsz), Zeros(LAZYPERM)).Sound?
    ensures SeenPage(p1, t, newsz, u) == SeenPage(p0, t, newsz, u)
  {
    OpenHealth(p0, o0, free0);
    OpenPopCheck(p0, o0, p1, o1, t, PgUp(oldsz), PgUp(newsz) - PgUp(oldsz), Zeros(LAZYPERM));
    var v, n := PgUp(oldsz), PgUp(newsz) - PgUp(oldsz);
    assert Populated(p0, o0, p1, o1, t, v, n, Zeros(LAZYPERM));
    if v <= u < v + n {
      assert Backed(p0, o0, p1, o1, t, u, Zeros(LAZYPERM));
    } else {
      SeesSame(p0, o0, p1, t, newsz, u);
    }
  }

  lemma ViewTrans(p0: seq<Page>, o0: seq<Owner>, p1: seq<Page>, o1: seq<Owner>, p2: seq<Page>, o2: seq<Owner>,
      t: int, sz: int)
    requires ViewCheck(p0, o0, p1, o1, t, sz).Sound? && ViewCheck(p1, o1, p2, o2, t, sz).Sound?
    ensures ViewCheck(p0, o0, p2, o2, t, sz).Sound?
  {
    OpenViewCheck(p0, o0, p1, o1, t, sz);
    OpenViewCheck(p1, o1, p2, o2, t, sz);
    assert ViewKept(p0, o0, p1, o1, t, sz) && ViewKept(p1, o1, p2, o2, t, sz);
    assert ViewKept(p0, o0, p2, o2, t, sz);
  }

  // ---------- reading ----------

  /** Page u overlaps the n bytes from at. */
  predicate Overlaps(u: int, at: int, n: int) {
    0 < n && at / PGSIZE <= u && u * PGSIZE < at + n
  }

  /** A stretch within one page lies over that page only. */
  lemma OnePageUnder(u: int, at: int, n: int)
    requires Overlaps(u, at, n) && 0 <= at && n <= PGSIZE - at % PGSIZE
    ensures u == at / PGSIZE
  {
    assert at == at / PGSIZE * PGSIZE + at % PGSIZE;
  }

  /** A page under both stretches is under one of them. */
  lemma OverlapSplit(u: int, at: int, n1: int, n2: int)
    requires 0 <= at && 0 <= n1 && 0 <= n2 && Overlaps(u, at, n1 + n2)
    ensures Overlaps(u, at, n1) || Overlaps(u, at + n1, n2)
  {
  }

  /** copyin has these bytes so far. */
  ghost predicate ReadSoFar(p0: seq<Page>, t: int, sz: int, a: int, dst: seq<int>) {
    && dst == BytesSeen(p0, t, sz, a, |dst|)
    && (forall u :: Overlaps(u, a, |dst|) ==> SeenPage(p0, t, sz, u).Sees?)
  }

  /**
   What copyin returned, told by what the process saw before: the bytes, or a prefix up to a page
   that is not there or could not be backed.
   */
  ghost predicate ReadsAs(p0: seq<Page>, nfree: int, t: int, sz: int, a: int, len: int, ok: bool, dst: seq<int>) {
    && 0 <= |dst| <= len && ReadSoFar(p0, t, sz, a, dst) && (ok <==> |dst| == len)
    && (!ok ==> Stuck(p0, nfree, t, sz, a / PGSIZE, (a + |dst|) / PGSIZE))
  }

  /**
   Page u cannot be used: it is not there, or it is not yet allocated and the free frames may not
   have sufficed for pages u0 to u.
   */
  predicate Stuck(p0: seq<Page>, nfree: int, t: int, sz: int, u0: int, u: int) {
    SeenPage(p0, t, sz, u).Nothing? || (!Flat(p0, t, u).v && nfree < 3 * (u - u0 + 1))
  }

  /** The frame that copyin and copyout use for page u. */
  ghost predicate Uses(p: seq<Page>, t: int, u: int, f: int) {
    0 <= u < TRAPVPN && Flat(p, t, u).v && Flat(p, t, u).u && Flat(p, t, u).ppn == f && 0 < f < |p| && p[f].Bytes?
      && |p[f].data| == PGSIZE
  }

  lemma WithinPage(c: int, k: int)
    requires 0 <= c && 0 <= k < PGSIZE - c % PGSIZE
    ensures (c + k) / PGSIZE == c / PGSIZE && (c + k) % PGSIZE == c % PGSIZE + k
  {
  }

  /** The bytes of one page's frame, from address a on. */
  lemma ReadPage(p: seq<Page>, t: int, sz: int, a: int, f: int, n: int)
    requires 0 <= a && Uses(p, t, a / PGSIZE, f) && 0 < n <= PGSIZE - a % PGSIZE
    ensures ReadSoFar(p, t, sz, a, p[f].data[a % PGSIZE..a % PGSIZE + n])
  {
    var r := p[f].data[a % PGSIZE..a % PGSIZE + n];
    forall k | 0 <= k < n ensures r[k] == ByteSeen(p, t, sz, a + k) {
      WithinPage(a, k);
    }
    forall u | Overlaps(u, a, n) ensures u == a / PGSIZE {
    }
  }

  lemma SameView(p0: seq<Page>, o0: seq<Owner>, p1: seq<Page>, o1: seq<Owner>, t: int, sz: int, a: int)
    requires ViewCheck(p0, o0, p1, o1, t, sz).Sound?
    ensures ByteSeen(p1, t, sz, a) == ByteSeen(p0, t, sz, a)
    ensures SeenPage(p1, t, sz, a / PGSIZE) == SeenPage(p0, t, sz, a / PGSIZE)
  {
    OpenViewCheck(p0, o0, p1, o1, t, sz);
  }

  /** Bytes read after page faults are the bytes seen before them. */
  lemma ReadMore(p0: seq<Page>, o0: seq<Owner>, p1: seq<Page>, o1: seq<Owner>, t: int, sz: int, a: int,
      dst: seq<int>, chunk: seq<int>)
    requires ViewCheck(p0, o0, p1, o1, t, sz).Sound? && 0 <= a && ReadSoFar(p0, t, sz, a, dst)
    requires ReadSoFar(p1, t, sz, a + |dst|, chunk)
    ensures ReadSoFar(p0, t, sz, a, dst + chunk)
  {
    var r := dst + chunk;
    forall k | 0 <= k < |r| ensures r[k] == ByteSeen(p0, t, sz, a + k) {
      if k < |dst| {
        assert dst[k] == BytesSeen(p0, t, sz, a, |dst|)[k];
      } else {
        assert chunk[k - |dst|] == BytesSeen(p1, t, sz, a + |dst|, |chunk|)[k - |dst|];
        assert a + |dst| + (k - |dst|) == a + k;
        SameView(p0, o0, p1, o1, t, sz, a + k);
      }
    }
    forall u | Overlaps(u, a, |r|) ensures SeenPage(p0, t, sz, u).Sees? {
      OverlapSplit(u, a, |dst|, |chunk|);
      assert u * PGSIZE / PGSIZE == u;
      SameView(p0, o0, p1, o1, t, sz, u * PGSIZE);
    }
  }

  /** Why no frame was found for page u. */
  lemma NoFrame(p0: seq<Page>, o0: seq<Owner>, p1: seq<Page>, o1: seq<Owner>, t: int, sz: int, u0: int, u: int,
      nfree0: int, nfree1: int)
    requires ViewCheck(p0, o0, p1, o1, t, sz).Sound? && nfree1 >= nfree0 - 3 * (u - u0)
    requires SeenPage(p1, t, sz, u).Nothing? || (!Flat(p1, t, u).v && nfree1 <= 2)
    ensures Stuck(p0, nfree0, t, sz, u0, u)
  {
    OpenViewCheck(p0, o0, p1, o1, t, sz);
    assert SeenPage(p1, t, sz, u) == SeenPage(p0, t, sz, u);
  }

  // ---------- writing ----------

  /** The page data that starts at address base, with bytes laid over it from address at on. */
  function Overlay(data: seq<int>, base: int, at: int, bytes: seq<int>): (r: seq<int>)
    ensures |r| == |data|
  {
    seq(|data|, k requires 0 <= k < |data| => if at <= base + k < at + |bytes| then bytes[base + k - at] else data[k])
  }

  function Painted(s: Seen, base: int, at: int, bytes: seq<int>): (r: Seen) {
    if s.Nothing? then Nothing else Sees(Overlay(s.data, base, at, bytes), s.w)
  }

  lemma PaintedTwice(s: Seen, base: int, at: int, b1: seq<int>, b2: seq<int>)
    ensures Painted(Painted(s, base, at, b1), base, at + |b1|, b2) == Painted(s, base, at, b1 + b2)
  {
    if s.Sees? {
      var x, y := Overlay(Overlay(s.data, base, at, b1), base, at + |b1|, b2), Overlay(s.data, base, at, b1 + b2);
      forall k | 0 <= k < |s.data| ensures x[k] == y[k] {
      }
      assert x == y;
    }
  }

  lemma PaintedNot(s: Seen, base: int, at: int, bytes: seq<int>)
    requires s.Sees? ==> base + |s.data| <= at || at + |bytes| <= base || bytes == []
    ensures Painted(s, base, at, bytes) == s
  {
    if s.Sees? {
      assert Overlay(s.data, base, at, bytes) == s.data;
    }
  }

  predicate Writable(p: seq<Page>, t: int, u: int) {
    Flat(p, t, u).v && Flat(p, t, u).u && Flat(p, t, u).w
  }

  /** What a write of bytes at `at` did to page u. */
  ghost predicate PaintedAt(p0: seq<Page>, p1: seq<Page>, t: int, sz: int, at: int, bytes: seq<int>, u: int) {
    && SeenPage(p1, t, sz, u) == Painted(SeenPage(p0, t, sz, u), u * PGSIZE, at, bytes)
    && (Overlaps(u, at, |bytes|) ==> Writable(p1, t, u) && SeenPage(p0, t, sz, u).Sees? && SeenPage(p0, t, sz, u).w)
    && (0 <= u < MAXVPN && Flat(p0, t, u).v ==> Flat(p1, t, u) == Flat(p0, t, u))
  }

  /**
   The process sees bytes laid over what it saw, the pages under them are all there, and nobody else
   sees a change.
   */
  ghost predicate ViewPainted(p0: seq<Page>, o0: seq<Owner>, p1: seq<Page>, o1: seq<Owner>, t: int, sz: int,
      at: int, bytes: seq<int>)
  {
    && SameRoots(o0, o1) && PoolKept(o0, o1, t)
    && (forall u :: PaintedAt(p0, p1, t, sz, at, bytes, u))
    && (forall t', z, u :: 0 <= t' < |o0| && o0[t'].Root? && t' != t ==>
       SeenPage(p1, t', z, u) == SeenPage(p0, t', z, u))
  }

  predicate PaintKey(z: int, p0: seq<Page>, p1: seq<Page>) {
    true
  }

  ghost function PaintCheck(p0: seq<Page>, o0: seq<Owner>, p1: seq<Page>, o1: seq<Owner>, t: int, sz: int, at: int,
      bytes: seq<int>): (r: Verdict)
  {
    if forall z {:trigger PaintKey(z, p0, p1)} :: PaintKey(z, p0, p1) ==>
      ViewPainted(p0, o0, p1, o1, t, sz, at, bytes) then Sound else Broken
  }

  lemma OpenPaintCheck(p0: seq<Page>, o0: seq<Owner>, p1: seq<Page>, o1: seq<Owner>, t: int, sz: int, at: int,
      bytes: seq<int>)
    requires PaintCheck(p0, o0, p1, o1, t, sz, at, bytes).Sound?
    ensures ViewPainted(p0, o0, p1, o1, t, sz, at, bytes)
  {
    assert PaintKey(0, p0, p1);
  }

  lemma PaintNothing(p0: seq<Page>, o0: seq<Owner>, p1: seq<Page>, o1: seq<Owner>, t: int, sz: int, at: int,
      none: seq<int>)
    requires ViewCheck(p0, o0, p1, o1, t, sz).Sound? && none == []
    ensures PaintCheck(p0, o0, p1, o1, t, sz, at, none).Sound?
  {
    OpenViewCheck(p0, o0, p1, o1, t, sz);
    assert ViewKept(p0, o0, p1, o1, t, sz);
    forall u ensures SeenPage(p1, t, sz, u) == Painted(SeenPage(p0, t, sz, u), u * PGSIZE, at, none) {
      PaintedNot(SeenPage(p0, t, sz, u), u * PGSIZE, at, none);
    }
    assert ViewPainted(p0, o0, p1, o1, t, sz, at, none);
  }

  lemma PaintTransAt(p0: seq<Page>, p1: seq<Page>, p2: seq<Page>, t: int, sz: int, at: int, b1: seq<int>, mid: int,
      b2: seq<int>, b: seq<int>, u: int)
    requires 0 <= at && mid == at + |b1| && b == b1 + b2
    requires PaintedAt(p0, p1, t, sz, at, b1, u) && PaintedAt(p1, p2, t, sz, mid, b2, u)
    ensures PaintedAt(p0, p2, t, sz, at, b, u)
  {
    PaintedTwice(SeenPage(p0, t, sz, u), u * PGSIZE, at, b1, b2);
    if Overlaps(u, at, |b|) {
      OverlapSplit(u, at, |b1|, |b2|);
      if Overlaps(u, at, |b1|) {
        SeenInRange(p0, t, sz, u);
      }
    }
  }

  lemma PaintTrans(p0: seq<Page>, o0: seq<Owner>, p1: seq<Page>, o1: seq<Owner>, p2: seq<Page>, o2: seq<Owner>,
      t: int, sz: int, at: int, b1: seq<int>, mid: int, b2: seq<int>, b: seq<int>)
    requires 0 <= at && mid == at + |b1| && b == b1 + b2
    requires PaintCheck(p0, o0, p1, o1, t, sz, at, b1).Sound?
    requires PaintCheck(p1, o1, p2, o2, t, sz, mid, b2).Sound?
    ensures PaintCheck(p0, o0, p2, o2, t, sz, at, b).Sound?
  {
    OpenPaintCheck(p0, o0, p1, o1, t, sz, at, b1);
    OpenPaintCheck(p1, o1, p2, o2, t, sz, mid, b2);
    forall u ensures PaintedAt(p0, p2, t, sz, at, b, u) {
      assert PaintedAt(p0, p1, t, sz, at, b1, u) && PaintedAt(p1, p2, t, sz, mid, b2, u);
      PaintTransAt(p0, p1, p2, t, sz, at, b1, mid, b2, b, u);
    }
    assert ViewPainted(p0, o0, p2, o2, t, sz, at, b);
  }

  lemma SeenInRange(p: seq<Page>, t: int, sz: int, u: int)
    requires SeenPage(p, t, sz, u).Sees?
    ensures 0 <= u < MAXVPN
  {
  }

  /** Changing the bytes of a user page disturbs no table. */
  lemma UserWriteKeeps(p: seq<Page>, o: seq<Owner>, f: int, data: seq<int>)
    requires Tables(p, o) && 0 <= f < |p| && o[f].User? && |data| == PGSIZE
    ensures Tables(p[f := Bytes(data)], o)
  {
    var r := p[f := Bytes(data)];
    forall t, i, j, k | 0 <= t < |p| && o[t].Root? ensures DownAt(r, o, t, i, j, k) {
      LooseReads(p, o, f, Bytes(data), t, i, j, k);
      WalkFrames(p, o, t, i, j, k);
    }
    forall g | 0 <= g < |p| ensures Placed(r, o, g) {
      assert Placed(p, o, g);
      match o[g]
      case Mid(t, i) => LooseReads(p, o, f, Bytes(data), t, i, 0, 0);
      case Low(t, i, j) => LooseReads(p, o, f, Bytes(data), t, i, j, 0);
      case User(t, i, j, k) => LooseReads(p, o, f, Bytes(data), t, i, j, k);
      case _ =>
    }
  }

  /** Only page v of table t shows frame f. */
  lemma OnlyThere(p: seq<Page>, o: seq<Owner>, t: int, v: int, f: int, t': int, u: int)
    requires Tables(p, o) && 0 <= t < |o| && o[t].Root? && 0 <= t' < |o| && o[t'].Root?
    requires 0 <= v < TRAPVPN && 0 <= u < MAXVPN
    requires Flat(p, t, v).v && Flat(p, t, v).ppn == f && Flat(p, t', u).v && Flat(p, t', u).ppn == f
    ensures f < |o| && o[f].User? && t' == t && u == v
  {
    FrameOfPage(p, o, t, v);
    FrameOfPage(p, o, t', u);
    IndicesUnique(u, v);
  }

  lemma SeesAfterWrite(p: seq<Page>, o: seq<Owner>, t: int, v: int, f: int, data: seq<int>, t': int, z: int, u: int)
    requires Tables(p, o) && 0 <= t < |o| && o[t].Root? && 0 <= t' < |o| && o[t'].Root?
    requires Uses(p, t, v, f) && |data| == PGSIZE
    ensures var r := p[f := Bytes(data)];
      && Flat(r, t', u) == Flat(p, t', u)
      && SeenPage(r, t', z, u) == if t' == t && u == v then Sees(data, Flat(p, t, v).w) else SeenPage(p, t', z, u)
  {
    FrameOfPage(p, o, t, v);
    LooseReads(p, o, f, Bytes(data), t', I2(u), I1(u), I0(u));
    if 0 <= u < MAXVPN && Flat(p, t', u).v && Flat(p, t', u).ppn == f {
      OnlyThere(p, o, t, v, f, t', u);
    }
  }

  lemma OtherPageSame(p: seq<Page>, o: seq<Owner>, t: int, sz: int, v: int, at: int, chunk: seq<int>, u: int)
    requires Tables(p, o) && 0 <= t < |o| && o[t].Root? && v == at / PGSIZE
    requires |chunk| <= PGSIZE - at % PGSIZE && 0 <= at && u != v
    ensures Painted(SeenPage(p, t, sz, u), u * PGSIZE, at, chunk) == SeenPage(p, t, sz, u)
  {
    if SeenPage(p, t, sz, u).Sees? {
      SeenSize(p, o, t, sz, u);
      assert at == v * PGSIZE + at % PGSIZE;
      PaintedNot(SeenPage(p, t, sz, u), u * PGSIZE, at, chunk);
    }
  }

  lemma WriteKeepsHealth(p: seq<Page>, o: seq<Owner>, free: seq<int>, t: int, v: int, f: int, data: seq<int>)
    requires Health(p, o, free).Sound? && 0 <= t < |o| && o[t].Root? && Uses(p, t, v, f) && |data| == PGSIZE
    ensures Health(p[f := Bytes(data)], o, free).Sound?
  {
    OpenHealth(p, o, free);
    FrameOfPage(p, o, t, v);
    UserWriteKeeps(p, o, f, data);
    assert Tables(p[f := Bytes(data)], o) && FreeList(free, o);
  }

  lemma PaintedView(p: seq<Page>, o: seq<Owner>, r: seq<Page>, t: int, sz: int, v: int, f: int, at: int,
      chunk: seq<int>)
    requires 0 <= t < |o| && o[t].Root? && Uses(p, t, v, f) && Flat(p, t, v).w && v == at / PGSIZE
    requires |chunk| <= PGSIZE - at % PGSIZE && 0 <= at
    requires forall t', z, u :: 0 <= t' < |o| && o[t'].Root? && !(t' == t && u == v) ==>
      SeenPage(r, t', z, u) == SeenPage(p, t', z, u)
    requires forall u :: Flat(r, t, u) == Flat(p, t, u)
    requires forall u :: SeenPage(r, t, sz, u) == Painted(SeenPage(p, t, sz, u), u * PGSIZE, at, chunk)
    ensures PaintCheck(p, o, r, o, t, sz, at, chunk).Sound?
  {
    forall u ensures PaintedAt(p, r, t, sz, at, chunk, u) {
      if Overlaps(u, at, |chunk|) {
        OnePageUnder(u, at, |chunk|);
      }
    }
    assert ViewPainted(p, o, r, o, t, sz, at, chunk);
  }

  /** copyout's memmove of one chunk into the frame of its page. */
  lemma PaintPage(p: seq<Page>, o: seq<Owner>, free: seq<int>, t: int, sz: int, v: int, f: int, at: int,
      chunk: seq<int>)
    requires Health(p, o, free).Sound? && |p| == |o| && 0 <= t < |o| && o[t].Root?
    requires Uses(p, t, v, f) && Flat(p, t, v).w
    requires v == at / PGSIZE && 0 < |chunk| <= PGSIZE - at % PGSIZE && 0 <= at
    ensures var r := p[f := Bytes(Overlay(p[f].data, v * PGSIZE, at, chunk))];
      PaintCheck(p, o, r, o, t, sz, at, chunk).Sound?
  {
    var data := Overlay(p[f].data, v * PGSIZE, at, chunk);
    var r := p[f := Bytes(data)];
    forall t', z, u | 0 <= t' < |o| && o[t'].Root?
      ensures SeenPage(r, t', z, u) == if t' == t && u == v then Sees(data, Flat(p, t, v).w) else SeenPage(p, t', z, u)
      ensures Flat(r, t', u) == Flat(p, t', u)
    {
      OpenHealth(p, o, free);
      SeesAfterWrite(p, o, t, v, f, data, t', z, u);
    }
    forall u ensures SeenPage(r, t, sz, u) == Painted(SeenPage(p, t, sz, u), u * PGSIZE, at, chunk) {
      if u != v {
        OpenHealth(p, o, free);
        OtherPageSame(p, o, t, sz, v, at, chunk, u);
      }
    }
    PaintedView(p, o, r, t, sz, v, f, at, chunk);
  }

  lemma SeenSize(p: seq<Page>, o: seq<Owner>, t: int, sz: int, u: int)
    requires Tables(p, o) && 0 <= t < |o| && o[t].Root? && SeenPage(p, t, sz, u).Sees?
    ensures |SeenPage(p, t, sz, u).data| == PGSIZE
  {
    FrameOfPage(p, o, t, u);
    WalkFrames(p, o, t, I2(u), I1(u), I0(u));
  }

  /** What a process copies out to itself it copies in again, whatever the free list holds. */
  lemma RoundTrip(p0: seq<Page>, o0: seq<Owner>, p1: seq<Page>, o1: seq<Owner>, free0: seq<int>, nfree: int,
      t: int, sz: int, at: int, src: seq<int>, ok: bool, dst: seq<int>)
    requires Health(p0, o0, free0).Sound? && 0 <= t < |o0| && o0[t].Root? && 0 <= at
    requires PaintCheck(p0, o0, p1, o1, t, sz, at, src).Sound?
    requires ReadsAs(p1, nfree, t, sz, at, |src|, ok, dst)
    ensures ok && dst == src
  {
    OpenPaintCheck(p0, o0, p1, o1, t, sz, at, src);
    if |dst| < |src| {
      var u := (at + |dst|) / PGSIZE;
      assert Overlaps(u, at, |src|) && PaintedAt(p0, p1, t, sz, at, src, u);
    }
    forall k | 0 <= k < |src| ensures dst[k] == src[k] {
      var u := (at + k) / PGSIZE;
      assert Overlaps(u, at, |src|) && PaintedAt(p0, p1, t, sz, at, src, u);
      assert |SeenPage(p0, t, sz, u).data| == PGSIZE by {
        OpenHealth(p0, o0, free0);
        SeenSize(p0, o0, t, sz, u);
      }
      ReadsBack(p0, p1, t, sz, at, src, k);
      assert dst[k] == BytesSeen(p1, t, sz, at, |dst|)[k];
    }
  }

  lemma ReadsBack(p0: seq<Page>, p1: seq<Page>, t: int, sz: int, at: int, src: seq<int>, k: int)
    requires 0 <= at && 0 <= k < |src| && PaintedAt(p0, p1, t, sz, at, src, (at + k) / PGSIZE)
    requires SeenPage(p0, t, sz, (at + k) / PGSIZE).Sees? && |SeenPage(p0, t, sz, (at + k) / PGSIZE).data| == PGSIZE
    ensures ByteSeen(p1, t, sz, at + k) == src[k]
  {
    var u, off := (at + k) / PGSIZE, (at + k) % PGSIZE;
    assert u * PGSIZE + off == at + k;
  }

  /** What copyout did, told by what the process saw before. */
  ghost predicate WritesAs(p0: seq<Page>, o0: seq<Owner>, nfree: int, p1: seq<Page>, o1: seq<Owner>, t: int,
      sz: int, a: int, src: seq<int>, ok: bool, done: int)
  {
    && 0 <= done <= |src| && PaintCheck(p0, o0, p1, o1, t, sz, a, src[..done]).Sound? && (ok <==> done == |src|)
    && (!ok ==> Refused(p0, nfree, t, sz, a / PGSIZE, (a + done) / PGSIZE))
  }

  /** Page u cannot be written: it is not there, read-only, or not yet allocated and frames may be short. */
  predicate Refused(p0: seq<Page>, nfree: int, t: int, sz: int, u0: int, u: int) {
    var s := SeenPage(p0, t, sz, u);
    s.Nothing? || !s.w || (!Flat(p0, t, u).v && nfree < 3 * (u - u0 + 1))
  }

  lemma NoPageToWrite(p0: seq<Page>, o0: seq<Owner>, p1: seq<Page>, o1: seq<Owner>, t: int, sz: int, a: int,
      bytes: seq<int>, u0: int, u: int, nfree0: int, nfree1: int)
    requires PaintCheck(p0, o0, p1, o1, t, sz, a, bytes).Sound? && nfree1 >= nfree0 - 3 * (u - u0)
    requires Barred(p1, t, sz, u, nfree1)
    ensures Refused(p0, nfree0, t, sz, u0, u)
  {
    OpenPaintCheck(p0, o0, p1, o1, t, sz, a, bytes);
    assert PaintedAt(p0, p1, t, sz, a, bytes, u);
  }

  /** memmove into the middle of a page. */
  lemma MoveIsOverlay(data: seq<int>, at: int, chunk: seq<int>)
    requires 0 <= at && |data| == PGSIZE && |chunk| <= PGSIZE - at % PGSIZE
    ensures data[..at % PGSIZE] + chunk + data[at % PGSIZE + |chunk|..] ==
      Overlay(data, at / PGSIZE * PGSIZE, at, chunk)
  {
    assert at == at / PGSIZE * PGSIZE + at % PGSIZE;
  }

  lemma PaintFirst(p0: seq<Page>, o0: seq<Owner>, p1: seq<Page>, o1: seq<Owner>, p2: seq<Page>, o2: seq<Owner>,
      t: int, sz: int, at: int, chunk: seq<int>, none: seq<int>)
    requires ViewCheck(p0, o0, p1, o1, t, sz).Sound?
    requires PaintCheck(p1, o1, p2, o2, t, sz, at, chunk).Sound? && 0 <= at && none == []
    ensures PaintCheck(p0, o0, p2, o2, t, sz, at, chunk).Sound?
  {
    assert chunk == none + chunk;
    PaintNothing(p0, o0, p1, o1, t, sz, at, none);
    PaintTrans(p0, o0, p1, o1, p2, o2, t, sz, at, none, at, chunk, chunk);
  }

  lemma PaintUnseen(p0: seq<Page>, o0: seq<Owner>, p1: seq<Page>, o1: seq<Owner>, p2: seq<Page>, o2: seq<Owner>,
      t: int, sz: int, at: int, bytes: seq<int>, mid: int, none: seq<int>)
    requires PaintCheck(p0, o0, p1, o1, t, sz, at, bytes).Sound?
    requires ViewCheck(p1, o1, p2, o2, t, sz).Sound? && 0 <= at && mid == at + |bytes| && none == []
    ensures PaintCheck(p0, o0, p2, o2, t, sz, at, bytes).Sound?
  {
    assert bytes == bytes + none;
    PaintNothing(p1, o1, p2, o2, t, sz, mid, none);
    PaintTrans(p0, o0, p1, o1, p2, o2, t, sz, at, bytes, mid, none, bytes);
  }

  /** The page at address u cannot be written now. */
  predicate Barred(p: seq<Page>, t: int, sz: int, u: int, nfree: int) {
    var s := SeenPage(p, t, sz, u);
    s.Nothing? || !s.w || (!Flat(p, t, u).v && nfree <= 2)
  }

  lemma ReadOnlyBarred(p0: seq<Page>, o0: seq<Owner>, p1: seq<Page>, o1: seq<Owner>, t: int, sz: int, u: int,
      f: int, nfree: int)
    requires ViewCheck(p0, o0, p1, o1, t, sz).Sound? && Uses(p1, t, u, f) && !Flat(p1, t, u).w
    ensures Barred(p0, t, sz, u, nfree)
  {
    OpenViewCheck(p0, o0, p1, o1, t, sz);
    assert SeenPage(p1, t, sz, u) == SeenPage(p0, t, sz, u);
  }
}
