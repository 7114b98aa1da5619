/**
 user/umalloc.c as code.  Memory is counted in units of sizeof(Header) and headers are kept in two
 maps; base lies below all memory that sbrk returns, and sbrk never returns memory twice.
 */
module Umalloc {
  import opened Basics
  import opened Heap
  import opened Seals

  const MINUNITS: int := 4096

  predicate ListKey(z: int, fl: seq<int>, ptr: map<int, int>, size: map<int, int>) {
    true
  }

  predicate ShareKey(z: int, fl: seq<int>, live: seq<int>, size: map<int, int>) {
    true
  }

  /** The free list is in order. */
  ghost function Round(fl: seq<int>, ptr: map<int, int>, size: map<int, int>): (r: Verdict) {
    if forall z {:trigger ListKey(z, fl, ptr, size)} :: ListKey(z, fl, ptr, size) ==> Circle(fl, ptr, size)
      then Sound else Broken
  }

  ghost predicate Accounted(fl: seq<int>, live: seq<int>, size: map<int, int>, top: int, arena: int) {
    Apart(fl, live, size, top) && Units(fl, size) + Units(live, size) == arena
  }

  /** No two blocks overlap, and free and live blocks make up the arena. */
  ghost function Share(fl: seq<int>, live: seq<int>, size: map<int, int>, top: int, arena: int): (r: Verdict) {
    if forall z {:trigger ShareKey(z, fl, live, size)} :: ShareKey(z, fl, live, size) ==>
      Accounted(fl, live, size, top, arena) then Sound else Broken
  }

  lemma OpenRound(fl: seq<int>, ptr: map<int, int>, size: map<int, int>)
    requires Round(fl, ptr, size).Sound?
    ensures Circle(fl, ptr, size)
  {
    assert ListKey(0, fl, ptr, size);
  }

  lemma OpenShare(fl: seq<int>, live: seq<int>, size: map<int, int>, top: int, arena: int)
    requires Share(fl, live, size, top, arena).Sound?
    ensures Accounted(fl, live, size, top, arena)
  {
    assert ShareKey(0, fl, live, size);
  }

  // ---------- free ----------

  /** The last of the first n free blocks that lies below bp. */
  lemma {:induction false} FindPlace(fl: seq<int>, bp: int, n: int) returns (t: int)
    requires 1 <= n <= |fl| && fl[0] < bp && bp !in fl && forall i :: n <= i < |fl| ==> bp < fl[i]
    ensures 0 <= t < |fl| && fl[t] < bp && (t + 1 < |fl| ==> bp < fl[t + 1])
    decreases n
  {
    if fl[n - 1] < bp {
      t := n - 1;
    } else {
      assert fl[n - 1] in fl;
      t := FindPlace(fl, bp, n - 1);
    }
  }

  /** free's scan stops exactly at the block after which bp belongs. */
  lemma ScanTest(fl: seq<int>, ptr: map<int, int>, size: map<int, int>, t: int, bp: int, j: int)
    requires Circle(fl, ptr, size) && Fits(fl, size, t, bp) && 0 <= j < |fl|
    ensures var p, q := fl[j], ptr[fl[j]]; (bp > p && bp < q) || (p >= q && (bp > p || bp < q)) <==> j == t
  {
    BelowFits(fl, size, t, bp);
    AddressesDistinct(fl, size, t);
    AddressesDistinct(fl, size, j);
    if j < t {
      assert j + 1 < t ==> fl[j + 1] + size[fl[j + 1]] < fl[t];
      assert fl[j] + size[fl[j]] < fl[j + 1];
    } else if t < j {
      assert t + 1 < j ==> fl[t + 1] + size[fl[t + 1]] < fl[j];
      assert j + 1 < |fl| ==> fl[j] + size[fl[j]] < fl[j + 1];
    } else if j + 1 < |fl| {
      assert fl[j] + size[fl[j]] < fl[j + 1];
    }
  }

  function Next(n: int, j: int): (r: int) {
    if j + 1 < n then j + 1 else 0
  }

  /** Steps from j on to t around a circle of n. */
  function Ahead(n: int, j: int, t: int): (d: int) {
    if j <= t then t - j else t - j + n
  }

  /** The first half of free is done: bp is ready to be linked in after element t. */
  ghost predicate Poised(fl: seq<int>, ptr: map<int, int>, size: map<int, int>, t: int, bp: int) {
    Links(fl, ptr, t) && Spaced(fl, size) && Between(fl, size, t, bp) && bp in ptr && ptr[bp] == Succ(fl, t)
  }

  ghost function Half(fl: seq<int>, ptr: map<int, int>, size: map<int, int>, t: int, bp: int): (r: Verdict) {
    if forall z {:trigger ListKey(z, fl, ptr, size)} :: ListKey(z, fl, ptr, size) ==> Poised(fl, ptr, size, t, bp)
      then Sound else Broken
  }

  lemma OpenHalf(fl: seq<int>, ptr: map<int, int>, size: map<int, int>, t: int, bp: int)
    requires Half(fl, ptr, size, t, bp).Sound?
    ensures Poised(fl, ptr, size, t, bp)
  {
    assert ListKey(0, fl, ptr, size);
  }

  lemma UpTogether(fl: seq<int>, ptr: map<int, int>, size: map<int, int>, t: int, bp: int, q: int)
    requires Round(fl, ptr, size).Sound? && Fits(fl, size, t, bp) && q == Succ(fl, t)
    requires bp + size[bp] == q && q in ptr && q in size
    ensures t + 1 < |fl| && fl[t + 1] == q
    ensures Half(Without(fl, t + 1), ptr[bp := ptr[q]], size[bp := size[bp] + size[q]], t, bp).Sound?
  {
    Takeover(fl, ptr, size, t, bp);
    assert fl[t + 1] == q;
  }

  lemma Takeover(fl: seq<int>, ptr: map<int, int>, size: map<int, int>, t: int, bp: int)
    requires Round(fl, ptr, size).Sound? && Fits(fl, size, t, bp) && bp + size[bp] == Succ(fl, t)
    ensures t + 1 < |fl| && fl[t + 1] == Succ(fl, t) && fl[t + 1] in ptr
    ensures Half(Without(fl, t + 1), ptr[bp := ptr[fl[t + 1]]], size[bp := size[bp] + size[fl[t + 1]]], t, bp).Sound?
  {
    OpenRound(fl, ptr, size);
    BelowFits(fl, size, t, bp);
    AddressesDistinct(fl, size, t);
    UpLinks(fl, ptr, t, bp);
    UpSpaced(fl, size, t, bp);
    UpBetween(fl, size, t, bp);
    assert Poised(Without(fl, t + 1), ptr[bp := ptr[fl[t + 1]]], size[bp := size[bp] + size[fl[t + 1]]], t, bp);
  }

  lemma UpShare(fl: seq<int>, live: seq<int>, ptr: map<int, int>, size: map<int, int>, top: int, arena: int,
      t: int, k: int, bp: int, q: int)
    requires Round(fl, ptr, size).Sound? && Share(fl, live, size, top, arena).Sound?
    requires 0 <= k < |live| && live[k] == bp && 0 <= t && t + 1 < |fl| && fl[t + 1] == q
    requires bp in size && q in size && bp + size[bp] == q
    ensures Share(Without(fl, t + 1), live, size[bp := size[bp] + size[q]], top, arena).Sound?
  {
    TakeoverShare(fl, live, ptr, size, top, arena, t, k);
  }

  lemma TakeoverShare(fl: seq<int>, live: seq<int>, ptr: map<int, int>, size: map<int, int>, top: int, arena: int,
      t: int, k: int)
    requires Round(fl, ptr, size).Sound? && Share(fl, live, size, top, arena).Sound?
    requires 0 <= k < |live| && 0 <= t && t + 1 < |fl|
    requires live[k] in size && fl[t + 1] in size && live[k] + size[live[k]] == fl[t + 1]
    ensures Share(Without(fl, t + 1), live, size[live[k] := size[live[k]] + size[fl[t + 1]]], top, arena).Sound?
  {
    var fl1, n := Without(fl, t + 1), size[live[k]] + size[fl[t + 1]];
    assert IsWithout(fl, t + 1, fl1) by {
      WithoutIndex(fl, t + 1);
    }
    OpenShare(fl, live, size, top, arena);
    assert Spaced(fl, size) by {
      OpenRound(fl, ptr, size);
    }
    UpApart(fl, live, size, top, t, k, fl1, n);
    LiveDistinct(fl, live, size, top, k);
    UpUnits(fl, live, size, t, k);
    assert Accounted(fl1, live, size[live[k] := n], top, arena);
  }

  lemma UpAlone(fl: seq<int>, ptr: map<int, int>, size: map<int, int>, t: int, bp: int, q: int)
    requires Round(fl, ptr, size).Sound? && Fits(fl, size, t, bp) && q == Succ(fl, t) && bp + size[bp] != q
    ensures Half(fl, ptr[bp := q], size, t, bp).Sound?
  {
    OpenRound(fl, ptr, size);
    BelowFits(fl, size, t, bp);
    LinksElsewhere(fl, ptr, -1, bp, q);
    assert forall i :: t + 1 < i < |fl| ==> fl[t + 1] + size[fl[t + 1]] < fl[i];
    assert Poised(fl, ptr[bp := q], size, t, bp);
  }

  lemma LowTogether(fl: seq<int>, ptr: map<int, int>, size: map<int, int>, t: int, bp: int, p: int)
    requires Half(fl, ptr, size, t, bp).Sound? && 0 <= t < |fl| && fl[t] == p && bp in ptr
    requires bp in size && p in size && p + size[p] == bp
    ensures Round(fl, ptr[p := ptr[bp]], size[p := size[p] + size[bp]]).Sound?
  {
    OpenHalf(fl, ptr, size, t, bp);
    LowAdjacent(fl, ptr, size, t, bp);
    assert Circle(fl, ptr[p := ptr[bp]], size[p := size[p] + size[bp]]);
  }

  lemma LowShare(fl: seq<int>, live: seq<int>, ptr: map<int, int>, size: map<int, int>, top: int, arena: int,
      t: int, k: int, bp: int, p: int)
    requires 0 <= k < |live| && live[k] == bp && Half(fl, ptr, size, t, bp).Sound?
    requires Share(fl, live, size, top, arena).Sound?
    requires bp in size && 0 <= t < |fl| && fl[t] == p && p in size && p + size[p] == bp
    ensures Share(fl, Without(live, k), size[p := size[p] + size[bp]], top, arena).Sound?
  {
    MeltShare(fl, live, ptr, size, top, arena, t, k);
  }

  lemma MeltShare(fl: seq<int>, live: seq<int>, ptr: map<int, int>, size: map<int, int>, top: int, arena: int,
      t: int, k: int)
    requires 0 <= k < |live| && Half(fl, ptr, size, t, live[k]).Sound?
    requires Share(fl, live, size, top, arena).Sound?
    requires live[k] in size && 0 <= t < |fl| && fl[t] in size && fl[t] + size[fl[t]] == live[k]
    ensures Share(fl, Without(live, k), size[fl[t] := size[fl[t]] + size[live[k]]], top, arena).Sound?
  {
    OpenHalf(fl, ptr, size, t, live[k]);
    OpenShare(fl, live, size, top, arena);
    LowApart(fl, live, size, top, t, k);
    LowUnits(fl, live, size, top, t, k);
    assert Accounted(fl, Without(live, k), size[fl[t] := size[fl[t]] + size[live[k]]], top, arena);
  }

  lemma LowAlone(fl: seq<int>, live: seq<int>, ptr: map<int, int>, size: map<int, int>, top: int, arena: int,
      t: int, k: int, bp: int, p: int)
    requires 0 <= k < |live| && live[k] == bp && Half(fl, ptr, size, t, bp).Sound?
    requires Share(fl, live, size, top, arena).Sound?
    requires 0 <= t < |fl| && fl[t] == p && p in size && p + size[p] != bp
    ensures Round(With(fl, t + 1, bp), ptr[p := bp], size).Sound?
    ensures Share(With(fl, t + 1, bp), Without(live, k), size, top, arena).Sound?
  {
    OpenHalf(fl, ptr, size, t, bp);
    OpenShare(fl, live, size, top, arena);
    InsertSpaced(fl, size, t, bp);
    AddressesDistinct(fl, size, t);
    InsertLinks(fl, ptr, t, bp);
    InsertApart(fl, live, size, top, t, k);
    UnitsWith(fl, t + 1, bp, size);
    UnitsWithout(live, k, size);
    assert Circle(With(fl, t + 1, bp), ptr[p := bp], size);
    assert Accounted(With(fl, t + 1, bp), Without(live, k), size, top, arena);
  }

  /** free's scan, one step: the links and headers it reads, and whether to stop. */
  lemma ScanStep(fl: seq<int>, ptr: map<int, int>, size: map<int, int>, t: int, bp: int, j: int)
    requires Round(fl, ptr, size).Sound? && Fits(fl, size, t, bp) && 0 <= j < |fl|
    ensures fl[j] in ptr && ptr[fl[j]] == fl[Next(|fl|, j)]
    ensures var p, q := fl[j], ptr[fl[j]]; (bp > p && bp < q) || (p >= q && (bp > p || bp < q)) <==> j == t
  {
    OpenRound(fl, ptr, size);
    ScanTest(fl, ptr, size, t, bp, j);
  }

  /** Where block k of those handed out belongs, and what else giving it back leaves alone. */
  lemma PlaceOf(fl: seq<int>, live: seq<int>, ptr: map<int, int>, size: map<int, int>, top: int, arena: int,
      k: int) returns (t: int)
    requires Round(fl, ptr, size).Sound? && Share(fl, live, size, top, arena).Sound? && 0 <= k < |live|
    ensures Fits(fl, size, t, live[k]) && Has(size, live) && Succ(fl, t) in size
    ensures forall m, i :: 0 <= m < |live| && 0 <= i < |fl| ==> live[m] != fl[i]
    ensures forall m :: 0 <= m < |live| && m != k ==> live[m] != live[k]
  {
    OpenRound(fl, ptr, size);
    OpenShare(fl, live, size, top, arena);
    LiveDistinct(fl, live, size, top, k);
    t := FindPlace(fl, live[k], |fl|);
    forall m | 0 <= m < |live| ensures forall i :: 0 <= i < |fl| ==> live[m] != fl[i] {
      LiveDistinct(fl, live, size, top, m);
    }
  }

  class Allocator {
    const base: int
    var ptr: map<int, int>
    var size: map<int, int>
    var freep: int                // 0: not initialized
    ghost var fl: seq<int>
    ghost var live: seq<int>
    ghost var top: int
    ghost var arena: int

    ghost predicate Ready()
      reads this
    {
      && 0 < base && |fl| > 0 && fl[0] == base && freep in fl && freep != 0
      && Round(fl, ptr, size).Sound? && Share(fl, live, size, top, arena).Sound?
    }

    /** What every call keeps. */
    ghost predicate Valid()
      reads this
    {
      0 < base < top && if freep == 0 then live == [] && arena == 0 else Ready()
    }

    constructor (base: int)
      requires 0 < base
      ensures Valid() && live == [] && arena == 0
    {
      this.base := base;
      ptr, size, freep := map[], map[], 0;
      fl, live, top, arena := [], [], base + 1, 0;
    }

    /** free's scan: the free block after which bp belongs, wherever freep points. */
    method Scan(bp: int, ghost t: int) returns (p: int)
      requires Ready() && Fits(fl, size, t, bp)
      ensures p == fl[t]
    {
      p := freep;
      ghost var j :| 0 <= j < |fl| && fl[j] == p;
      ScanStep(fl, ptr, size, t, bp, j);
      while !(bp > p && bp < ptr[p])
        invariant 0 <= j < |fl| && p == fl[j] && p in ptr && ptr[p] == fl[Next(|fl|, j)]
        invariant (bp > p && bp < ptr[p]) || (p >= ptr[p] && (bp > p || bp < ptr[p])) <==> j == t
        decreases Ahead(|fl|, j, t)
      {
        if p >= ptr[p] && (bp > p || bp < ptr[p]) {
          break;
        }
        p := ptr[p];
        j := Next(|fl|, j);
        ScanStep(fl, ptr, size, t, bp, j);
      }
    }

    /** The first half of the rest of free: bp takes over the block above, or links to it. */
    method JoinUp(bp: int, p: int, ghost t: int, ghost k: int)
      requires Ready() && 0 <= k < |live| && live[k] == bp && Fits(fl, size, t, bp) && p == fl[t]
      requires Succ(fl, t) in size
      modifies `ptr, `size, `fl
      ensures Half(fl, ptr, size, t, bp).Sound? && Share(fl, live, size, top, arena).Sound?
      ensures 0 <= t < |fl| && fl[t] == p && fl[0] == base
      ensures SameBut(old(size), size, bp) && bp in size && size[bp] >= old(size)[bp]
    {
      ScanStep(fl, ptr, size, t, bp, t);
      var q := ptr[p];
      if bp + size[bp] == q {
        SuccDomain(fl, ptr, size, t);
        var ptr1, size1 := ptr[bp := ptr[q]], size[bp := size[bp] + size[q]];
        UpTogether(fl, ptr, size, t, bp, q);
        UpShare(fl, live, ptr, size, top, arena, t, k, bp, q);
        WithoutIndex(fl, t + 1);
        size, ptr, fl := size1, ptr1, Without(fl, t + 1);
      } else {
        var ptr1 := ptr[bp := q];
        UpAlone(fl, ptr, size, t, bp, q);
        ptr := ptr1;
      }
    }

    /** The second half: the block below takes over bp, or links to it. */
    method JoinDown(bp: int, p: int, ghost t: int, ghost k: int)
      requires 0 <= k < |live| && live[k] == bp && 0 < base && 0 <= t < |fl| && fl[t] == p && fl[0] == base
      requires Half(fl, ptr, size, t, bp).Sound? && Share(fl, live, size, top, arena).Sound?
      modifies `ptr, `size, `fl, `live, `freep
      ensures Ready() && freep == p && live == Without(old(live), k) && SameBut(old(size), size, p)
      ensures bp in old(size) && HasRoom(fl, size, old(size)[bp])
    {
      HalfDomain(fl, ptr, size, t, bp);
      if p + size[p] == bp {
        Melt(bp, p, t, k);
      } else {
        LinkIn(bp, p, t, k);
      }
      freep := p;
      NotNull(fl, ptr, size, p);
    }

    /** The block below takes over the freed block. */
    method Melt(bp: int, p: int, ghost t: int, ghost k: int)
      requires 0 <= k < |live| && live[k] == bp && 0 < t < |fl| && fl[t] == p && bp in ptr
      requires Half(fl, ptr, size, t, bp).Sound? && Share(fl, live, size, top, arena).Sound?
      requires bp in size && p in size && 0 <= size[p] && p + size[p] == bp
      modifies `ptr, `size, `live
      ensures Round(fl, ptr, size).Sound? && Share(fl, live, size, top, arena).Sound? && p in fl
      ensures live == Without(old(live), k) && SameBut(old(size), size, p) && HasRoom(fl, size, old(size)[bp])
    {
      var ptr1, size1 := ptr[p := ptr[bp]], size[p := size[p] + size[bp]];
      LowTogether(fl, ptr, size, t, bp, p);
      LowShare(fl, live, ptr, size, top, arena, t, k, bp, p);
      RoomAt(fl, size1, t, size[bp]);
      assert fl[t] == p;
      size, ptr, live := size1, ptr1, Without(live, k);
    }

    /** The freed block becomes a block of its own. */
    method LinkIn(bp: int, p: int, ghost t: int, ghost k: int)
      requires 0 <= k < |live| && live[k] == bp && 0 <= t < |fl| && fl[t] == p
      requires Half(fl, ptr, size, t, bp).Sound? && Share(fl, live, size, top, arena).Sound?
      requires bp in size && p in size && p + size[p] != bp
      modifies `ptr, `fl, `live
      ensures Round(fl, ptr, size).Sound? && Share(fl, live, size, top, arena).Sound?
      ensures |fl| > 0 && fl[0] == old(fl)[0] && p in fl
      ensures live == Without(old(live), k) && HasRoom(fl, size, size[bp])
    {
      LowAlone(fl, live, ptr, size, top, arena, t, k, bp, p);
      Inserted(fl, size, t, bp);
      ptr, fl, live := ptr[p := bp], With(fl, t + 1, bp), Without(live, k);
    }

    /** free of the block that is number k of those handed out; the others keep their sizes. */
    method FreeBlock(bp: int, ghost k: int)
      requires Ready() && 0 <= k < |live| && live[k] == bp
      modifies `ptr, `size, `fl, `live, `freep
      ensures Ready() && GivenBack(old(live), old(size), live, size, k) && bp in old(size)
      ensures HasRoom(fl, size, old(size)[bp])
    {
      ghost var t := PlaceOf(fl, live, ptr, size, top, arena, k);
      var p := Scan(bp, t);
      JoinUp(bp, p, t, k);
      JoinDown(bp, p, t, k);
    }

    /** free: exactly the given block is given back. */
    method Free(ap: int)
      requires Ready() && ap - 1 in live
      modifies `ptr, `size, `fl, `live, `freep
      ensures Ready()
      ensures exists k ::
        0 <= k < |old(live)| && old(live)[k] == ap - 1 && GivenBack(old(live), old(size), live, size, k)
    {
      ghost var k :| 0 <= k < |live| && live[k] == ap - 1;
      FreeBlock(ap - 1, k);
      assert GivenBack(old(live), old(size), live, size, k);
    }

    /**
     morecore: at least nunits units from sbrk, which gives mem or fails with -1, go on the free
     list; 0 is failure.
     */
    method Morecore(nunits: int, mem: int) returns (r: int)
      requires Ready() && base < top && 1 <= nunits && (mem == -1 || mem >= top)
      modifies `ptr, `size, `fl, `live, `freep, `top, `arena
      ensures Ready() && base < top && live == old(live)
      ensures mem == -1 <==> r == 0
      ensures r == 0 ==> fl == old(fl) && size == old(size) && ptr == old(ptr) && freep == old(freep)
      ensures r == 0 ==> arena == old(arena) && top == old(top)
      ensures r != 0 ==> r == freep && HasRoom(fl, size, nunits) && arena == old(arena) + Grain(nunits)
      ensures SizesKept(old(live), old(size), size)
    {
      LiveDomain(fl, live, size, top, arena);
      var nu := Grain(nunits);
      if mem == -1 {
        return 0;
      }
      NewRegion(fl, live, ptr, size, top, arena, mem, nu);
      ghost var n := |live|;
      size := size[mem := nu];
      live, top, arena := live + [mem], mem + nu, arena + nu;
      FreeBlock(mem, n);
      assert live == old(live);
      return freep;
    }

    /** malloc's first call sets up the list with base alone. */
    method Start()
      requires Valid()
      modifies `ptr, `size, `fl, `freep
      ensures Valid() && Ready()
      ensures (old(freep) != 0 ==> ptr == old(ptr) && size == old(size) && fl == old(fl) && freep == old(freep))
    {
      if freep == 0 {
        ptr, size, freep, fl := map[base := base], map[base := 0], base, [base];
        assert Circle(fl, ptr, size) && Accounted(fl, live, size, top, arena);
      }
    }

    /** malloc has found room in p, the block after prevp: unlink it, or cut off its tail. */
    method Carve(p: int, prevp: int, nunits: int, ghost i: int) returns (r: int)
      requires Ready() && base < top && 1 <= nunits && 1 <= i < |fl| && p == fl[i]
      requires prevp == fl[i - 1] && p in size && p in ptr && size[p] >= nunits
      modifies `ptr, `size, `fl, `live, `freep
      ensures Ready() && r > 0 && live == old(live) + [r - 1] && r - 1 in size && size[r - 1] == nunits
      ensures SizesKept(old(live), old(size), size)
    {
      LiveDomain(fl, live, size, top, arena);
      NotNull(fl, ptr, size, p);
      var q := p;
      if size[p] == nunits {
        TakeWhole(fl, live, ptr, size, top, arena, i, p, prevp);
        var ptr1 := ptr[prevp := ptr[p]];
        ptr, fl, live := ptr1, Without(fl, i), live + [p];
      } else {
        TakeTail(fl, live, ptr, size, top, arena, i, p, nunits);
        q := p + size[p] - nunits;
        var size1 := SplitSize(size, p, nunits);
        size, live := size1, live + [q];
      }
      freep := prevp;
      assert fl[i - 1] == prevp;
      NotNull(fl, ptr, size, prevp);
      return q + 1;
    }

    /**
     malloc: a block of the units asked for, taken from the free list, which sbrk (giving mem, or -1)
     may first have extended.  The scan ends: after morecore some block has room.
     */
    method Malloc(nbytes: int, mem: int) returns (r: int)
      requires Valid() && 0 <= nbytes && (mem == -1 || mem >= top)
      modifies `ptr, `size, `fl, `live, `freep, `top, `arena
      ensures Valid() && freep != 0
      ensures r == 0 ==> live == old(live) && arena == old(arena) && mem == -1 && !HasRoom(fl, size, Nunits(nbytes))
      ensures r != 0 ==> live == old(live) + [r - 1] && r - 1 in size && size[r - 1] == Nunits(nbytes)
      ensures arena == old(arena) || (mem != -1 && arena == old(arena) + Grain(Nunits(nbytes)))
      ensures SizesKept(old(live), old(size), size)
    {
      var nunits := Nunits(nbytes);
      LiveKnown();
      Start();
      var prevp := freep;
      ghost var f := FreepAt(fl, ptr, size, freep);
      ghost var j, grown := f, false;
      var p := ptr[prevp];
      while true
        invariant Ready() && base < top && 0 <= f < |fl| && fl[f] == freep && 0 <= j < |fl|
        invariant prevp == fl[j] && p == fl[Next(|fl|, j)]
        invariant Passed(fl, size, f, j, nunits) && live == old(live) && SizesKept(old(live), old(size), size)
        invariant grown ==> HasRoom(fl, size, nunits) && mem != -1
        invariant arena == (if grown then old(arena) + Grain(nunits) else old(arena))
        invariant (!grown ==> top == old(top))
        decreases !grown, |fl| - Ahead(|fl|, f, j)
      {
        ghost var size1 := size;
        ReadLink(fl, ptr, size, Next(|fl|, j));
        if size[p] >= nunits {
          r := Carve(p, prevp, nunits, j + 1);
          SizesTrans(old(live), old(size), size1, size);
          return;
        }
        if p == freep {
          AllPassed(fl, ptr, size, f, j, nunits);
          p := Morecore(nunits, mem);
          SizesTrans(old(live), old(size), size1, size);
          if p == 0 {
            return 0;
          }
          grown := true;
          f := FreepAt(fl, ptr, size, freep);
          j := f;
        } else {
          NextPassed(fl, ptr, size, f, j, nunits);
          j := Next(|fl|, j);
        }
        prevp, p := p, ptr[p];
      }
    }

    ghost method LiveKnown()
      requires Valid()
      ensures SizesKept(live, size, size)
    {
      if freep != 0 {
        LiveDomain(fl, live, size, top, arena);
      }
    }
  }

  /** morecore asks sbrk for at least so many units. */
  function Grain(nunits: int): (n: int)
    ensures n >= nunits && n >= MINUNITS
  {
    if nunits < MINUNITS then MINUNITS else nunits
  }

  /** The units that hold nbytes and a header. */
  function Nunits(nbytes: int): (n: int)
    requires 0 <= nbytes
    ensures n >= 1 && (n - 1) * 16 >= nbytes && (n - 2) * 16 < nbytes
  {
    (nbytes + 15) / 16 + 1
  }

  lemma ReadLink(fl: seq<int>, ptr: map<int, int>, size: map<int, int>, j: int)
    requires Round(fl, ptr, size).Sound? && 0 <= j < |fl|
    ensures fl[j] in ptr && fl[j] in size && ptr[fl[j]] == fl[Next(|fl|, j)] && (j == 0 ==> size[fl[j]] == 0)
  {
    OpenRound(fl, ptr, size);
  }

  lemma FreepAt(fl: seq<int>, ptr: map<int, int>, size: map<int, int>, freep: int) returns (f: int)
    requires Round(fl, ptr, size).Sound? && freep in fl
    ensures 0 <= f < |fl| && fl[f] == freep && freep in ptr && ptr[freep] == fl[Next(|fl|, f)]
  {
    f :| 0 <= f < |fl| && fl[f] == freep;
    ReadLink(fl, ptr, size, f);
  }

  /** The blocks after f up to j are too small. */
  ghost predicate Passed(fl: seq<int>, size: map<int, int>, f: int, j: int, n: int) {
    forall i :: 0 <= i < |fl| && 1 <= Ahead(|fl|, f, i) <= Ahead(|fl|, f, j) ==> fl[i] in size && size[fl[i]] < n
  }

  lemma NextPassed(fl: seq<int>, ptr: map<int, int>, size: map<int, int>, f: int, j: int, n: int)
    requires Passed(fl, size, f, j, n) && 0 <= f < |fl| && 0 <= j < |fl|
    requires fl[Next(|fl|, j)] in size && size[fl[Next(|fl|, j)]] < n && fl[Next(|fl|, j)] != fl[f]
    ensures Passed(fl, size, f, Next(|fl|, j), n) && Ahead(|fl|, f, Next(|fl|, j)) == Ahead(|fl|, f, j) + 1
  {
  }

  /** Back at f, every block has been passed. */
  lemma AllPassed(fl: seq<int>, ptr: map<int, int>, size: map<int, int>, f: int, j: int, n: int)
    requires Round(fl, ptr, size).Sound? && Passed(fl, size, f, j, n) && 0 <= f < |fl|
    requires 0 <= j < |fl| && fl[Next(|fl|, j)] == fl[f] && fl[f] in size && size[fl[f]] < n
    ensures !HasRoom(fl, size, n)
  {
    OpenRound(fl, ptr, size);
    AddressesDistinct(fl, size, f);
    assert Next(|fl|, j) == f;
    forall i | 0 <= i < |fl| ensures size[fl[i]] < n {
      assert i != f ==> 1 <= Ahead(|fl|, f, i) <= Ahead(|fl|, f, j);
    }
  }

  /** Block k is no longer handed out; the others are, with their sizes. */
  ghost predicate GivenBack(live0: seq<int>, size0: map<int, int>, live1: seq<int>, size1: map<int, int>, k: int) {
    && 0 <= k < |live0| && live1 == Without(live0, k)
    && forall m :: 0 <= m < |live0| && m != k ==> SameAt(size0, size1, live0[m])
  }

  /** Some free block has room for n units. */
  ghost predicate HasRoom(fl: seq<int>, size: map<int, int>, n: int) {
    exists i :: 1 <= i < |fl| && fl[i] in size && size[fl[i]] >= n
  }

  lemma Inserted(fl: seq<int>, size: map<int, int>, t: int, bp: int)
    requires 0 <= t < |fl| && bp in size
    ensures var fl1 := With(fl, t + 1, bp);
      |fl1| > 0 && fl1[0] == fl[0] && fl[t] in fl1 && HasRoom(fl1, size, size[bp])
  {
    WithIndex(fl, t + 1, bp);
    assert With(fl, t + 1, bp)[t] == fl[t];
    RoomAt(With(fl, t + 1, bp), size, t + 1, size[bp]);
  }

  lemma RoomAt(fl: seq<int>, size: map<int, int>, i: int, n: int)
    requires 1 <= i < |fl| && fl[i] in size && size[fl[i]] >= n
    ensures HasRoom(fl, size, n)
  {
  }

  lemma LiveDomain(fl: seq<int>, live: seq<int>, size: map<int, int>, top: int, arena: int)
    requires Share(fl, live, size, top, arena).Sound?
    ensures forall m :: 0 <= m < |live| ==> live[m] in size && live[m] < top
  {
    OpenShare(fl, live, size, top, arena);
  }

  lemma NotNull(fl: seq<int>, ptr: map<int, int>, size: map<int, int>, a: int)
    requires Round(fl, ptr, size).Sound? && |fl| > 0 && 0 < fl[0] && a in fl
    ensures a != 0
  {
    OpenRound(fl, ptr, size);
    ghost var i :| 0 <= i < |fl| && fl[i] == a;
    AddressesDistinct(fl, size, i);
  }

  /** Fresh memory counts as a block handed out, until free puts it on the list. */
  lemma NewRegion(fl: seq<int>, live: seq<int>, ptr: map<int, int>, size: map<int, int>, top: int, arena: int,
      mem: int, nu: int)
    requires Round(fl, ptr, size).Sound? && Share(fl, live, size, top, arena).Sound? && mem >= top && nu >= 1
    ensures Round(fl, ptr, size[mem := nu]).Sound?
    ensures Share(fl, live + [mem], size[mem := nu], mem + nu, arena + nu).Sound?
  {
    OpenRound(fl, ptr, size);
    OpenShare(fl, live, size, top, arena);
    var size1 := size[mem := nu];
    forall i | 0 <= i < |fl| ensures fl[i] < mem {
    }
    assert forall i :: 0 <= i < |fl| ==> size1[fl[i]] == size[fl[i]];
    assert forall m :: 0 <= m < |live| ==> size1[live[m]] == size[live[m]];
    SpacedElsewhere(fl, size, mem, nu);
    UnitsFrame(fl, size, size1);
    UnitsFrame(live, size, size1);
    AppendUnits(live, size1, mem);
    assert Apart(fl, live, size1, mem + nu);
    AppendApart(fl, live, size1, mem + nu, mem);
    assert Circle(fl, ptr, size1);
    assert Accounted(fl, live + [mem], size1, mem + nu, arena + nu);
  }

  predicate SameAt(size0: map<int, int>, size1: map<int, int>, a: int) {
    a in size0 && a in size1 && size1[a] == size0[a]
  }

  /** The blocks handed out have the sizes they had. */
  ghost predicate SizesKept(live: seq<int>, size0: map<int, int>, size1: map<int, int>) {
    forall m :: 0 <= m < |live| ==> SameAt(size0, size1, live[m])
  }

  lemma SizesTrans(live: seq<int>, size0: map<int, int>, size1: map<int, int>, size2: map<int, int>)
    requires SizesKept(live, size0, size1) && SizesKept(live, size1, size2)
    ensures SizesKept(live, size0, size2)
  {
    forall m | 0 <= m < |live| ensures SameAt(size0, size2, live[m]) {
      assert SameAt(size0, size1, live[m]) && SameAt(size1, size2, live[m]);
    }
  }

  /** No header but a's changed its size. */
  ghost predicate SameBut(size0: map<int, int>, size1: map<int, int>, a: int) {
    forall x :: x in size0 && x != a ==> SameAt(size0, size1, x)
  }

  lemma SuccDomain(fl: seq<int>, ptr: map<int, int>, size: map<int, int>, t: int)
    requires Round(fl, ptr, size).Sound? && 0 <= t < |fl|
    ensures Succ(fl, t) in ptr && Succ(fl, t) in size && size[Succ(fl, t)] >= 0
  {
    OpenRound(fl, ptr, size);
  }

  lemma HalfDomain(fl: seq<int>, ptr: map<int, int>, size: map<int, int>, t: int, bp: int)
    requires Half(fl, ptr, size, t, bp).Sound?
    ensures 0 <= t < |fl| && fl[t] in size && bp in size && bp in ptr && fl[t] in ptr && bp !in fl
    ensures size[fl[t]] >= 0 && (fl[t] + size[fl[t]] == bp ==> t > 0)
  {
    OpenHalf(fl, ptr, size, t, bp);
    forall i | 0 <= i < |fl| ensures fl[i] != bp {
      assert i < t ==> fl[i] + size[fl[i]] < fl[t];
    }
  }

  lemma TakeWhole(fl: seq<int>, live: seq<int>, ptr: map<int, int>, size: map<int, int>, top: int, arena: int,
      i: int, p: int, prevp: int)
    requires Round(fl, ptr, size).Sound? && Share(fl, live, size, top, arena).Sound?
    requires 1 <= i < |fl| && p == fl[i] && prevp == fl[i - 1] && p in ptr
    ensures Round(Without(fl, i), ptr[prevp := ptr[p]], size).Sound?
    ensures Share(Without(fl, i), live + [p], size, top, arena).Sound?
    ensures 0 < fl[0] ==> 0 < p
  {
    OpenRound(fl, ptr, size);
    OpenShare(fl, live, size, top, arena);
    UnlinkCircle(fl, ptr, size, i);
    UnlinkApart(fl, live, size, top, i);
    AddressesDistinct(fl, size, i);
    assert Circle(Without(fl, i), ptr[prevp := ptr[p]], size);
    assert Accounted(Without(fl, i), live + [p], size, top, arena);
  }

  lemma TakeTail(fl: seq<int>, live: seq<int>, ptr: map<int, int>, size: map<int, int>, top: int, arena: int,
      i: int, p: int, n: int)
    requires Round(fl, ptr, size).Sound? && Share(fl, live, size, top, arena).Sound?
    requires 1 <= i < |fl| && p == fl[i] && p in size && 1 <= n < size[p]
    ensures Round(fl, ptr, SplitSize(size, p, n)).Sound?
    ensures Share(fl, live + [p + size[p] - n], SplitSize(size, p, n), top, arena).Sound?
    ensures 0 < fl[0] ==> 0 < p
    ensures forall m :: 0 <= m < |live| ==> live[m] != p && live[m] != p + size[p] - n
  {
    OpenRound(fl, ptr, size);
    OpenShare(fl, live, size, top, arena);
    AddressesDistinct(fl, size, i);
    TailIsNew(fl, live, size, top, i, n);
    forall m | 0 <= m < |live| ensures live[m] != p {
      LiveDistinct(fl, live, size, top, m);
    }
    TailRound(fl, live, ptr, size, top, i, p, n);
    TailShare(fl, live, size, top, arena, i, p, n);
  }

  lemma TailRound(fl: seq<int>, live: seq<int>, ptr: map<int, int>, size: map<int, int>, top: int, i: int, p: int,
      n: int)
    requires Circle(fl, ptr, size) && Apart(fl, live, size, top) && 1 <= i < |fl| && p == fl[i]
    requires p in size && 1 <= n < size[p]
    ensures Round(fl, ptr, SplitSize(size, p, n)).Sound?
  {
    SplitSpaced(fl, live, size, top, i, n);
    assert Circle(fl, ptr, SplitSize(size, p, n));
  }

  lemma TailShare(fl: seq<int>, live: seq<int>, size: map<int, int>, top: int, arena: int, i: int, p: int, n: int)
    requires Spaced(fl, size) && Accounted(fl, live, size, top, arena) && 1 <= i < |fl|
    requires p == fl[i] && p in size && 1 <= n < size[p]
    ensures Share(fl, live + [p + size[p] - n], SplitSize(size, p, n), top, arena).Sound?
  {
    SplitApart(fl, live, size, top, i, n);
    SplitUnits(fl, live, size, top, i, n);
    assert Accounted(fl, live + [p + size[p] - n], SplitSize(size, p, n), top, arena);
  }
}
