/**
 Three-level Sv39 page tables (kernel/vm.c, kernel/riscv.h) in a pool of physical page frames.

 A frame number is a physical address divided by PGSIZE.  owner is history: it records for
 every frame the single use it is put to; a table is named by the frame of its root.
 */
module PageTable {
  const NPTE: int := 512
  const PGSIZE: int := 4096
  const MAXVPN: int := 67108864      // MAXVA / PGSIZE
  const TRAPVPN: int := 67108862     // TRAPFRAME / PGSIZE: user memory ends here

  datatype Pte = Pte(v: bool, r: bool, w: bool, x: bool, u: bool, ppn: nat)

  const NOPTE: Pte := Pte(false, false, false, false, false, 0)

  datatype Page = Junk | Table(ptes: seq<Pte>) | Bytes(data: seq<int>)

  /** A number with one more low-order bit. */
  function WithFlag(n: int, b: bool): (r: int)
    ensures r / 2 == n && (r % 2 == 1 <==> b)
  {
    2 * n + if b then 1 else 0
  }

  /** The 64-bit entry: the frame above bit 10, as PA2PTE puts it, and the flags U, X, W, R, V in bits 4 to 0. */
  function PteWord(p: Pte): (n: int) {
    WithFlag(WithFlag(WithFlag(WithFlag(WithFlag(p.ppn * 32, p.u), p.x), p.w), p.r), p.v)
  }

  /** What PTE2PA and the flag tests read from it. */
  function WordPte(n: int): (p: Pte)
    requires 0 <= n
  {
    Pte(n % 2 == 1, n / 2 % 2 == 1, n / 4 % 2 == 1, n / 8 % 2 == 1, n / 16 % 2 == 1, n / 1024)
  }

  lemma PteRoundTrip(p: Pte)
    ensures PteWord(p) >= 0 && WordPte(PteWord(p)) == p
  {
    var n := PteWord(p);
    assert n / 4 == n / 2 / 2 && n / 8 == n / 4 / 2 && n / 16 == n / 8 / 2 && n / 32 == n / 16 / 2;
    assert n / 1024 == n / 32 / 32;
  }

  /** What a frame is used for: on the free list, just allocated, the kernel's own, or a place in a table. */
  datatype Owner = Free | Held | Kernel | Root | Mid(t: int, i: int) | Low(t: int, i: int, j: int)
    | User(t: int, i: int, j: int, k: int)

  predicate IsIndex(i: int) {
    0 <= i < NPTE
  }

  /** The page number with level-2 index i, level-1 index j and level-0 index k. */
  function Vpn(i: int, j: int, k: int): (n: int) {
    (i * NPTE + j) * NPTE + k
  }

  /**
   The three indices of page number v, as the PX macro takes them from an address (section 4.4 of
   the RISC-V privileged architecture).
   */
  function I2(v: int): (i: int) {
    v / 262144
  }

  function I1(v: int): (j: int) {
    v / 512 % 512
  }

  function I0(v: int): (k: int) {
    v % 512
  }

  /** PX(level, va) = (va >> (12 + 9 * level)) & 0x1FF. */
  function Px(level: int, va: int): (i: int) {
    if level == 2 then va / 0x4000_0000 % 512 else if level == 1 then va / 0x20_0000 % 512 else va / 0x1000 % 512
  }

  /** The indices select one page: they are in range, they recompose the page number, and PX extracts them. */
  lemma Indices(va: int)
    requires 0 <= va < MAXVPN * PGSIZE
    ensures var v := va / PGSIZE;
      && 0 <= v < MAXVPN && 0 <= I2(v) < 256 && IsIndex(I1(v)) && IsIndex(I0(v))
      && Vpn(I2(v), I1(v), I0(v)) == v
      && Px(2, va) == I2(v) && Px(1, va) == I1(v) && Px(0, va) == I0(v)
  {
    var v := va / PGSIZE;
    assert va / 0x20_0000 == v / 512;
    assert va / 0x4000_0000 == v / 262144;
    assert v / 512 / 512 == v / 262144;
  }

  /** walk is injective on page-aligned addresses below MAXVA. */
  lemma WalkInjective(va: int, va': int)
    requires 0 <= va < MAXVPN * PGSIZE && 0 <= va' < MAXVPN * PGSIZE && va % PGSIZE == 0 && va' % PGSIZE == 0
    requires Px(2, va) == Px(2, va') && Px(1, va) == Px(1, va') && Px(0, va) == Px(0, va')
    ensures va == va'
  {
    Indices(va);
    Indices(va');
  }

  predicate IsTable(owner: Owner) {
    owner.Root? || owner.Mid? || owner.Low?
  }

  // ---------- reading a table ----------

  function PteAt(pages: seq<Page>, f: int, i: int): (p: Pte) {
    if 0 <= f < |pages| && pages[f].Table? && 0 <= i < |pages[f].ptes| then pages[f].ptes[i] else NOPTE
  }

  /** The frame an interior entry leads to, or -1. */
  function Next(pages: seq<Page>, f: int, i: int): (c: int) {
    if PteAt(pages, f, i).v then PteAt(pages, f, i).ppn else -1
  }

  function MidOf(pages: seq<Page>, t: int, i: int): (m: int) {
    Next(pages, t, i)
  }

  function LowOf(pages: seq<Page>, t: int, i: int, j: int): (l: int) {
    Next(pages, MidOf(pages, t, i), j)
  }

  /** The flat view: the leaf entry that translates page Vpn(i, j, k) of table t. */
  function Leaf(pages: seq<Page>, t: int, i: int, j: int, k: int): (p: Pte) {
    PteAt(pages, LowOf(pages, t, i, j), k)
  }

  // ---------- the invariant ----------

  ghost predicate Shaped(pages: seq<Page>, owner: seq<Owner>) {
    && |owner| == |pages|
    && (forall f :: 0 <= f < |pages| && IsTable(owner[f]) ==> pages[f].Table? && |pages[f].ptes| == NPTE)
    && (forall f :: 0 <= f < |pages| && owner[f].User? ==> pages[f].Bytes? && |pages[f].data| == PGSIZE)
  }

  predicate IsLeaf(p: Pte) {
    p.r || p.w || p.x
  }

  /** Walking table t along (i, j, k): each entry leads to a frame that records this very place. */
  predicate DownAt(pages: seq<Page>, owner: seq<Owner>, t: int, i: int, j: int, k: int)
    requires |owner| == |pages|
  {
    var m, l, p := MidOf(pages, t, i), LowOf(pages, t, i, j), Leaf(pages, t, i, j, k);
    && (m != -1 ==> 0 <= m < |pages| && owner[m] == Mid(t, i))
    && (l != -1 ==> 0 <= l < |pages| && owner[l] == Low(t, i, j))
    && (p.v ==> 0 <= p.ppn < |pages| && IsLeaf(p) && Vpn(i, j, k) < MAXVPN)
    && (p.v && p.u ==> Vpn(i, j, k) < TRAPVPN)
    && (p.v ==> owner[p.ppn] == if Vpn(i, j, k) < TRAPVPN then User(t, i, j, k) else Kernel)
  }

  /** Frame f is where its record says; interior entries have no permission bits. */
  predicate Placed(pages: seq<Page>, owner: seq<Owner>, f: int)
    requires |owner| == |pages| && 0 <= f < |owner|
  {
    match owner[f]
    case Mid(t, i) => 0 <= t < |pages| && owner[t].Root? && MidOf(pages, t, i) == f && !IsLeaf(PteAt(pages, t, i))
    case Low(t, i, j) => 0 <= t < |pages| && owner[t].Root? && LowOf(pages, t, i, j) == f
      && !IsLeaf(PteAt(pages, MidOf(pages, t, i), j))
    case User(t, i, j, k) => 0 <= t < |pages| && owner[t].Root? && Leaf(pages, t, i, j, k).v
      && Leaf(pages, t, i, j, k).ppn == f && Vpn(i, j, k) < TRAPVPN
    case _ => true
  }

  ghost predicate Tables(pages: seq<Page>, owner: seq<Owner>) {
    && Shaped(pages, owner)
    && (forall t, i, j, k :: 0 <= t < |pages| && owner[t].Root? ==> DownAt(pages, owner, t, i, j, k))
    && (forall f :: 0 <= f < |pages| ==> Placed(pages, owner, f))
  }

  /** The free list holds exactly the free frames, each once; frame 0 is the kernel's, so 0 can mean none. */
  ghost predicate FreeList(free: seq<int>, owner: seq<Owner>) {
    && |owner| > 0 && owner[0].Kernel?
    && (forall n :: 0 <= n < |free| ==> 0 < free[n] < |owner| && owner[free[n]].Free?)
    && (forall m, n :: 0 <= m < n < |free| ==> free[m] != free[n])
    && (forall f :: 0 <= f < |owner| && owner[f].Free? ==> f in free)
  }

  // ---------- editing one entry ----------

  function SetPte(pages: seq<Page>, f: int, i: int, p: Pte): (r: seq<Page>)
    requires 0 <= f < |pages| && pages[f].Table? && 0 <= i < |pages[f].ptes|
  {
    pages[f := Table(pages[f].ptes[i := p])]
  }

  function EmptyTable(): (pg: Page)
    ensures pg.Table? && |pg.ptes| == NPTE && forall i :: 0 <= i < NPTE ==> pg.ptes[i] == NOPTE
  {
    Table(seq(NPTE, _ => NOPTE))
  }

  /** walk gives entry i of root t a new, empty middle table. */
  function AddMid(pages: seq<Page>, t: int, i: int, f: int): (r: seq<Page>)
    requires 0 <= t < |pages| && pages[t].Table? && 0 <= i < |pages[t].ptes| && 0 <= f < |pages| && f != t
  {
    SetPte(pages[f := EmptyTable()], t, i, Pte(true, false, false, false, false, f))
  }

  predicate IsLoose(o: Owner) {
    o.Free? || o.Held?
  }

  /** The frames that walking table t can read. */
  lemma WalkFrames(pages: seq<Page>, owner: seq<Owner>, t: int, i: int, j: int, k: int)
    requires Tables(pages, owner) && 0 <= t < |pages| && owner[t].Root?
    ensures DownAt(pages, owner, t, i, j, k)
    ensures MidOf(pages, t, i) == -1 ==> LowOf(pages, t, i, j) == -1
    ensures LowOf(pages, t, i, j) == -1 ==> Leaf(pages, t, i, j, k) == NOPTE
  {
  }

  // ---------- frames outside all tables ----------

  lemma LooseReads(pages: seq<Page>, owner: seq<Owner>, f: int, pg: Page, t: int, i: int, j: int, k: int)
    requires Tables(pages, owner) && 0 <= f < |pages| && !IsTable(owner[f]) && 0 <= t < |pages|
    requires owner[t].Root?
    ensures var r := pages[f := pg];
      && MidOf(r, t, i) == MidOf(pages, t, i) && PteAt(r, t, i) == PteAt(pages, t, i)
      && LowOf(r, t, i, j) == LowOf(pages, t, i, j)
         && PteAt(r, MidOf(r, t, i), j) == PteAt(pages, MidOf(pages, t, i), j)
      && Leaf(r, t, i, j, k) == Leaf(pages, t, i, j, k)
  {
    WalkFrames(pages, owner, t, i, j, k);
  }

  lemma LoosePlaced(pages: seq<Page>, owner: seq<Owner>, f: int, pg: Page, o: Owner, g: int)
    requires Tables(pages, owner) && 0 <= f < |pages| && IsLoose(owner[f]) && IsLoose(o) && 0 <= g < |pages|
    ensures Placed(pages[f := pg], owner[f := o], g)
  {
    assert Placed(pages, owner, g);
    match owner[g]
    case Mid(t, i) => LooseReads(pages, owner, f, pg, t, i, 0, 0);
    case Low(t, i, j) => LooseReads(pages, owner, f, pg, t, i, j, 0);
    case User(t, i, j, k) => LooseReads(pages, owner, f, pg, t, i, j, k);
    case _ =>
  }

  /** kalloc and kfree, and filling a frame no table refers to, disturb no table. */
  lemma LooseKeeps(pages: seq<Page>, owner: seq<Owner>, f: int, pg: Page, o: Owner)
    requires Tables(pages, owner) && 0 <= f < |pages| && IsLoose(owner[f]) && IsLoose(o)
    ensures Tables(pages[f := pg], owner[f := o])
  {
    var r, owner' := pages[f := pg], owner[f := o];
    forall t, i, j, k | 0 <= t < |pages| && owner'[t].Root? ensures DownAt(r, owner', t, i, j, k) {
      LooseReads(pages, owner, f, pg, t, i, j, k);
      WalkFrames(pages, owner, t, i, j, k);
    }
    forall g | 0 <= g < |pages| ensures Placed(r, owner', g) {
      LoosePlaced(pages, owner, f, pg, o, g);
    }
  }

  // ---------- walk adds an interior table ----------

  lemma AddMidReads(pages: seq<Page>, owner: seq<Owner>, t: int, i: int, f: int, t': int, i': int, j: int, k: int)
    requires Tables(pages, owner) && 0 <= t < |pages| && owner[t].Root? && IsIndex(i)
    requires MidOf(pages, t, i) == -1
    requires 0 <= f < |pages| && owner[f].Held? && 0 <= t' < |pages| && owner[t'].Root?
    ensures pages[t].Table? && |pages[t].ptes| == NPTE && f != t
    ensures var r := AddMid(pages, t, i, f);
      && MidOf(r, t', i') == (if t' == t && i' == i then f else MidOf(pages, t', i'))
      && (PteAt(r, t', i') == if t' == t && i' == i then Pte(true, false, false, false, false, f)
         else PteAt(pages, t', i'))
      && LowOf(r, t', i', j) == LowOf(pages, t', i', j)
      && (!(t' == t && i' == i) ==> PteAt(r, MidOf(r, t', i'), j) == PteAt(pages, MidOf(pages, t', i'), j))
      && Leaf(r, t', i', j, k) == Leaf(pages, t', i', j, k)
  {
    assert IsTable(owner[t]) && IsTable(owner[t']);
    WalkFrames(pages, owner, t', i', j, k);
  }

  lemma AddMidPlaced(pages: seq<Page>, owner: seq<Owner>, t: int, i: int, f: int, g: int)
    requires Tables(pages, owner) && 0 <= t < |pages| && owner[t].Root? && IsIndex(i)
    requires MidOf(pages, t, i) == -1
    requires 0 <= f < |pages| && owner[f].Held? && 0 <= g < |pages|
    requires pages[t].Table? && |pages[t].ptes| == NPTE && f != t
    ensures Placed(AddMid(pages, t, i, f), owner[f := Mid(t, i)], g)
  {
    assert Placed(pages, owner, g);
    AddMidReads(pages, owner, t, i, f, t, i, 0, 0);
    match owner[g]
    case Mid(t', i') => AddMidReads(pages, owner, t, i, f, t', i', 0, 0);
    case Low(t', i', j') => AddMidReads(pages, owner, t, i, f, t', i', j', 0);
    case User(t', i', j', k') => AddMidReads(pages, owner, t, i, f, t', i', j', k');
    case _ =>
  }

  lemma AddMidKeeps(pages: seq<Page>, owner: seq<Owner>, t: int, i: int, f: int)
    requires Tables(pages, owner) && 0 <= t < |pages| && owner[t].Root? && IsIndex(i)
    requires MidOf(pages, t, i) == -1
    requires 0 <= f < |pages| && owner[f].Held?
    ensures pages[t].Table? && |pages[t].ptes| == NPTE && f != t
    ensures Tables(AddMid(pages, t, i, f), owner[f := Mid(t, i)])
  {
    assert IsTable(owner[t]);
    var r, owner' := AddMid(pages, t, i, f), owner[f := Mid(t, i)];
    forall t', i', j, k | 0 <= t' < |pages| && owner'[t'].Root? ensures DownAt(r, owner', t', i', j, k) {
      AddMidReads(pages, owner, t, i, f, t', i', j, k);
      WalkFrames(pages, owner, t', i', j, k);
    }
    forall g | 0 <= g < |pages| ensures Placed(r, owner', g) {
      AddMidPlaced(pages, owner, t, i, f, g);
    }
  }

  /** walk gives entry j of the middle table at (t, i) a new, empty bottom table. */
  function AddLow(pages: seq<Page>, m: int, j: int, f: int): (r: seq<Page>)
    requires 0 <= m < |pages| && pages[m].Table? && 0 <= j < |pages[m].ptes| && 0 <= f < |pages| && f != m
  {
    SetPte(pages[f := EmptyTable()], m, j, Pte(true, false, false, false, false, f))
  }

  ghost predicate CanAddLow(pages: seq<Page>, owner: seq<Owner>, t: int, i: int, j: int, f: int) {
    && Tables(pages, owner) && 0 <= t < |pages| && owner[t].Root? && IsIndex(i) && IsIndex(j)
    && MidOf(pages, t, i) != -1 && LowOf(pages, t, i, j) == -1
    && 0 <= f < |pages| && owner[f].Held?
  }

  lemma MidShape(pages: seq<Page>, owner: seq<Owner>, t: int, i: int)
    requires Tables(pages, owner) && 0 <= t < |pages| && owner[t].Root? && MidOf(pages, t, i) != -1
    ensures var m := MidOf(pages, t, i);
      0 <= m < |pages| && owner[m] == Mid(t, i) && pages[m].Table? && |pages[m].ptes| == NPTE
  {
    WalkFrames(pages, owner, t, i, 0, 0);
    assert IsTable(owner[MidOf(pages, t, i)]);
  }

  lemma AddLowReads(pages: seq<Page>, owner: seq<Owner>, t: int, i: int, j: int, f: int, t': int, i': int, j': int,
      k: int)
    requires CanAddLow(pages, owner, t, i, j, f) && 0 <= t' < |pages| && owner[t'].Root?
    ensures var m := MidOf(pages, t, i);
      && 0 <= m < |pages| && pages[m].Table? && |pages[m].ptes| == NPTE && f != m
      && var r := AddLow(pages, m, j, f);
      && MidOf(r, t', i') == MidOf(pages, t', i') && PteAt(r, t', i') == PteAt(pages, t', i')
      && LowOf(r, t', i', j') == (if t' == t && i' == i && j' == j then f else LowOf(pages, t', i', j'))
      && (PteAt(r, MidOf(r, t', i'), j') == if t' == t && i' == i && j' == j
         then Pte(true, false, false, false, false, f) else PteAt(pages, MidOf(pages, t', i'), j'))
      && Leaf(r, t', i', j', k) == Leaf(pages, t', i', j', k)
  {
    MidShape(pages, owner, t, i);
    WalkFrames(pages, owner, t', i', j', k);
  }

  lemma AddLowPlaced(pages: seq<Page>, owner: seq<Owner>, t: int, i: int, j: int, f: int, g: int)
    requires CanAddLow(pages, owner, t, i, j, f) && 0 <= g < |pages|
    requires var m := MidOf(pages, t, i); 0 <= m < |pages| && pages[m].Table? && |pages[m].ptes| == NPTE && f != m
    ensures Placed(AddLow(pages, MidOf(pages, t, i), j, f), owner[f := Low(t, i, j)], g)
  {
    assert Placed(pages, owner, g);
    AddLowReads(pages, owner, t, i, j, f, t, i, j, 0);
    match owner[g]
    case Mid(t', i') => AddLowReads(pages, owner, t, i, j, f, t', i', 0, 0);
    case Low(t', i', j') => AddLowReads(pages, owner, t, i, j, f, t', i', j', 0);
    case User(t', i', j', k') => AddLowReads(pages, owner, t, i, j, f, t', i', j', k');
    case _ =>
  }

  lemma AddLowKeeps(pages: seq<Page>, owner: seq<Owner>, t: int, i: int, j: int, f: int)
    requires CanAddLow(pages, owner, t, i, j, f)
    ensures var m := MidOf(pages, t, i);
      && 0 <= m < |pages| && pages[m].Table? && |pages[m].ptes| == NPTE && f != m
      && Tables(AddLow(pages, m, j, f), owner[f := Low(t, i, j)])
  {
    MidShape(pages, owner, t, i);
    var r, owner' := AddLow(pages, MidOf(pages, t, i), j, f), owner[f := Low(t, i, j)];
    forall t', i', j', k | 0 <= t' < |pages| && owner'[t'].Root? ensures DownAt(r, owner', t', i', j', k) {
      AddLowReads(pages, owner, t, i, j, f, t', i', j', k);
      WalkFrames(pages, owner, t', i', j', k);
    }
    forall g | 0 <= g < |pages| ensures Placed(r, owner', g) {
      AddLowPlaced(pages, owner, t, i, j, f, g);
    }
  }

  // ---------- leaf entries ----------

  lemma LowShape(pages: seq<Page>, owner: seq<Owner>, t: int, i: int, j: int)
    requires Tables(pages, owner) && 0 <= t < |pages| && owner[t].Root? && LowOf(pages, t, i, j) != -1
    ensures var l := LowOf(pages, t, i, j);
      0 <= l < |pages| && owner[l] == Low(t, i, j) && pages[l].Table? && |pages[l].ptes| == NPTE
  {
    WalkFrames(pages, owner, t, i, j, 0);
    assert IsTable(owner[LowOf(pages, t, i, j)]);
  }

  lemma PutLeafReads(pages: seq<Page>, owner: seq<Owner>, t: int, i: int, j: int, k: int, p: Pte, t': int, i': int,
      j': int, k': int)
    requires Tables(pages, owner) && 0 <= t < |pages| && owner[t].Root? && IsIndex(k)
    requires LowOf(pages, t, i, j) != -1
    requires 0 <= t' < |pages| && owner[t'].Root?
    ensures var l := LowOf(pages, t, i, j);
      && 0 <= l < |pages| && pages[l].Table? && |pages[l].ptes| == NPTE
      && var r := SetPte(pages, l, k, p);
      && MidOf(r, t', i') == MidOf(pages, t', i') && PteAt(r, t', i') == PteAt(pages, t', i')
      && LowOf(r, t', i', j') == LowOf(pages, t', i', j')
         && PteAt(r, MidOf(r, t', i'), j') == PteAt(pages, MidOf(pages, t', i'), j')
      && (Leaf(r, t', i', j', k') == if t' == t && i' == i && j' == j && k' == k then p
         else Leaf(pages, t', i', j', k'))
  {
    LowShape(pages, owner, t, i, j);
    WalkFrames(pages, owner, t', i', j', k');
  }

  /** The leaf at (t, i, j, k) may change from its old entry to p, with frame c changing hands accordingly. */
  ghost predicate LeafChange(pages: seq<Page>, owner: seq<Owner>, t: int, i: int, j: int, k: int, p: Pte,
      owner': seq<Owner>)
  {
    && Tables(pages, owner) && 0 <= t < |pages| && owner[t].Root? && IsIndex(k) && LowOf(pages, t, i, j) != -1
    && var old_p := Leaf(pages, t, i, j, k);
       var user := Vpn(i, j, k) < TRAPVPN;
    && (p.v ==> IsLeaf(p) && 0 <= p.ppn < |pages| && Vpn(i, j, k) < MAXVPN && (p.u ==> user))
    && if old_p.v == p.v then owner' == owner && (p.v ==> p.ppn == old_p.ppn)
       else if p.v && user then owner[p.ppn].Held? && pages[p.ppn].Bytes? && |pages[p.ppn].data| == PGSIZE
         && owner' == owner[p.ppn := User(t, i, j, k)]
       else if p.v then owner[p.ppn].Kernel? && owner' == owner
       else if user then 0 <= old_p.ppn < |owner| && owner' == owner[old_p.ppn := Held]
       else owner' == owner
  }

  lemma LeafPlaced(pages: seq<Page>, owner: seq<Owner>, t: int, i: int, j: int, k: int, p: Pte, owner': seq<Owner>,
      g: int)
    requires LeafChange(pages, owner, t, i, j, k, p, owner') && 0 <= g < |pages|
    ensures var l := LowOf(pages, t, i, j);
      && 0 <= l < |pages| && pages[l].Table? && |pages[l].ptes| == NPTE && |owner'| == |pages|
      && Placed(SetPte(pages, l, k, p), owner', g)
  {
    assert Placed(pages, owner, g);
    PutLeafReads(pages, owner, t, i, j, k, p, t, i, j, k);
    WalkFrames(pages, owner, t, i, j, k);
    match owner[g]
    case Mid(t', i') => PutLeafReads(pages, owner, t, i, j, k, p, t', i', 0, 0);
    case Low(t', i', j') => PutLeafReads(pages, owner, t, i, j, k, p, t', i', j', 0);
    case User(t', i', j', k') => PutLeafReads(pages, owner, t, i, j, k, p, t', i', j', k');
    case _ =>
  }

  lemma LeafKeeps(pages: seq<Page>, owner: seq<Owner>, t: int, i: int, j: int, k: int, p: Pte, owner': seq<Owner>)
    requires LeafChange(pages, owner, t, i, j, k, p, owner')
    ensures var l := LowOf(pages, t, i, j);
      && 0 <= l < |pages| && pages[l].Table? && |pages[l].ptes| == NPTE
      && Tables(SetPte(pages, l, k, p), owner')
  {
    LowShape(pages, owner, t, i, j);
    WalkFrames(pages, owner, t, i, j, k);
    var r := SetPte(pages, LowOf(pages, t, i, j), k, p);
    forall t', i', j', k' | 0 <= t' < |pages| && owner'[t'].Root? ensures DownAt(r, owner', t', i', j', k') {
      PutLeafReads(pages, owner, t, i, j, k, p, t', i', j', k');
      WalkFrames(pages, owner, t', i', j', k');
    }
    forall g | 0 <= g < |pages| ensures Placed(r, owner', g) {
      LeafPlaced(pages, owner, t, i, j, k, p, owner', g);
    }
  }

  // ---------- taking a table apart ----------

  ghost predicate CanDropLow(pages: seq<Page>, owner: seq<Owner>, t: int, i: int, j: int) {
    && Tables(pages, owner) && 0 <= t < |pages| && owner[t].Root? && LowOf(pages, t, i, j) != -1
    && forall k :: IsIndex(k) ==> !Leaf(pages, t, i, j, k).v
  }

  lemma DropLowReads(pages: seq<Page>, owner: seq<Owner>, t: int, i: int, j: int, t': int, i': int, j': int, k: int)
    requires CanDropLow(pages, owner, t, i, j) && 0 <= t' < |pages| && owner[t'].Root?
    ensures var m := MidOf(pages, t, i);
      && 0 <= m < |pages| && pages[m].Table? && |pages[m].ptes| == NPTE && IsIndex(j)
      && var r := SetPte(pages, m, j, NOPTE);
      && MidOf(r, t', i') == MidOf(pages, t', i') && PteAt(r, t', i') == PteAt(pages, t', i')
      && LowOf(r, t', i', j') == (if t' == t && i' == i && j' == j then -1 else LowOf(pages, t', i', j'))
      && (!(t' == t && i' == i && j' == j) ==> PteAt(r, MidOf(r, t', i'), j') == PteAt(pages, MidOf(pages, t', i'), j'))
      && (Leaf(pages, t', i', j', k).v ==> Leaf(r, t', i', j', k) == Leaf(pages, t', i', j', k))
      && (Leaf(r, t', i', j', k).v ==> Leaf(r, t', i', j', k) == Leaf(pages, t', i', j', k))
  {
    MidShape(pages, owner, t, i);
    WalkFrames(pages, owner, t', i', j', k);
    if t' == t && i' == i && j' == j && !IsIndex(k) {
      LowShape(pages, owner, t, i, j);
    }
  }

  lemma DropLowPlaced(pages: seq<Page>, owner: seq<Owner>, t: int, i: int, j: int, g: int)
    requires CanDropLow(pages, owner, t, i, j) && 0 <= g < |pages|
    requires var m := MidOf(pages, t, i); 0 <= m < |pages| && pages[m].Table? && |pages[m].ptes| == NPTE && IsIndex(j)
    requires 0 <= LowOf(pages, t, i, j) < |pages|
    ensures Placed(SetPte(pages, MidOf(pages, t, i), j, NOPTE), owner[LowOf(pages, t, i, j) := Held], g)
  {
    assert Placed(pages, owner, g);
    LowShape(pages, owner, t, i, j);
    match owner[g]
    case Mid(t', i') => DropLowReads(pages, owner, t, i, j, t', i', 0, 0);
    case Low(t', i', j') => DropLowReads(pages, owner, t, i, j, t', i', j', 0);
    case User(t', i', j', k') => DropLowReads(pages, owner, t, i, j, t', i', j', k');
    case _ =>
  }

  /** A bottom table with no valid entry can be unhooked; its frame is then loose. */
  lemma DropLowKeeps(pages: seq<Page>, owner: seq<Owner>, t: int, i: int, j: int)
    requires CanDropLow(pages, owner, t, i, j)
    ensures var m, l := MidOf(pages, t, i), LowOf(pages, t, i, j);
      && 0 <= m < |pages| && pages[m].Table? && |pages[m].ptes| == NPTE && IsIndex(j) && 0 <= l < |pages|
         && owner[l] == Low(t, i, j)
      && Tables(SetPte(pages, m, j, NOPTE), owner[l := Held])
  {
    MidShape(pages, owner, t, i);
    LowShape(pages, owner, t, i, j);
    DropLowReads(pages, owner, t, i, j, t, i, j, 0);
    var r, owner' := SetPte(pages, MidOf(pages, t, i), j, NOPTE), owner[LowOf(pages, t, i, j) := Held];
    forall t', i', j', k | 0 <= t' < |pages| && owner'[t'].Root? ensures DownAt(r, owner', t', i', j', k) {
      DropLowReads(pages, owner, t, i, j, t', i', j', k);
      WalkFrames(pages, owner, t', i', j', k);
    }
    forall g | 0 <= g < |pages| ensures Placed(r, owner', g) {
      DropLowPlaced(pages, owner, t, i, j, g);
    }
  }

  ghost predicate CanDropMid(pages: seq<Page>, owner: seq<Owner>, t: int, i: int) {
    && Tables(pages, owner) && 0 <= t < |pages| && owner[t].Root? && MidOf(pages, t, i) != -1
    && forall j :: IsIndex(j) ==> LowOf(pages, t, i, j) == -1
  }

  lemma DropMidReads(pages: seq<Page>, owner: seq<Owner>, t: int, i: int, t': int, i': int, j: int, k: int)
    requires CanDropMid(pages, owner, t, i) && 0 <= t' < |pages| && owner[t'].Root?
    ensures pages[t].Table? && |pages[t].ptes| == NPTE && IsIndex(i)
    ensures var r := SetPte(pages, t, i, NOPTE);
      && MidOf(r, t', i') == (if t' == t && i' == i then -1 else MidOf(pages, t', i'))
      && (!(t' == t && i' == i) ==>
         PteAt(r, t', i') == PteAt(pages, t', i')
         && PteAt(r, MidOf(r, t', i'), j) == PteAt(pages, MidOf(pages, t', i'), j))
      && LowOf(r, t', i', j) == LowOf(pages, t', i', j)
      && Leaf(r, t', i', j, k) == Leaf(pages, t', i', j, k)
  {
    assert IsTable(owner[t]) && IsTable(owner[t']);
    MidShape(pages, owner, t, i);
    WalkFrames(pages, owner, t', i', j, k);
    if t' == t && i' == i && !IsIndex(j) {
      assert PteAt(pages, MidOf(pages, t, i), j) == NOPTE;
    }
  }

  lemma DropMidPlaced(pages: seq<Page>, owner: seq<Owner>, t: int, i: int, g: int)
    requires CanDropMid(pages, owner, t, i) && 0 <= g < |pages| && pages[t].Table?
    requires |pages[t].ptes| == NPTE && IsIndex(i)
    requires 0 <= MidOf(pages, t, i) < |pages|
    ensures Placed(SetPte(pages, t, i, NOPTE), owner[MidOf(pages, t, i) := Held], g)
  {
    assert Placed(pages, owner, g);
    MidShape(pages, owner, t, i);
    match owner[g]
    case Mid(t', i') => DropMidReads(pages, owner, t, i, t', i', 0, 0);
    case Low(t', i', j') => DropMidReads(pages, owner, t, i, t', i', j', 0);
    case User(t', i', j', k') => DropMidReads(pages, owner, t, i, t', i', j', k');
    case _ =>
  }

  /** A middle table with no valid entry can be unhooked. */
  lemma DropMidKeeps(pages: seq<Page>, owner: seq<Owner>, t: int, i: int)
    requires CanDropMid(pages, owner, t, i)
    ensures pages[t].Table? && |pages[t].ptes| == NPTE && IsIndex(i)
    ensures var m := MidOf(pages, t, i);
      && 0 <= m < |pages| && owner[m] == Mid(t, i)
      && Tables(SetPte(pages, t, i, NOPTE), owner[m := Held])
  {
    MidShape(pages, owner, t, i);
    DropMidReads(pages, owner, t, i, t, i, 0, 0);
    var r, owner' := SetPte(pages, t, i, NOPTE), owner[MidOf(pages, t, i) := Held];
    forall t', i', j, k | 0 <= t' < |pages| && owner'[t'].Root? ensures DownAt(r, owner', t', i', j, k) {
      DropMidReads(pages, owner, t, i, t', i', j, k);
      WalkFrames(pages, owner, t', i', j, k);
    }
    forall g | 0 <= g < |pages| ensures Placed(r, owner', g) {
      DropMidPlaced(pages, owner, t, i, g);
    }
  }

  /** A root with no valid entry belongs to no table any more. */
  lemma DropRootKeeps(pages: seq<Page>, owner: seq<Owner>, t: int)
    requires Tables(pages, owner) && 0 <= t < |pages| && owner[t].Root?
    requires forall i :: IsIndex(i) ==> MidOf(pages, t, i) == -1
    ensures Tables(pages, owner[t := Held])
  {
    var owner' := owner[t := Held];
    assert IsTable(owner[t]);
    forall i, j, k ensures MidOf(pages, t, i) == -1 && LowOf(pages, t, i, j) == -1 && !Leaf(pages, t, i, j, k).v {
      assert !IsIndex(i) ==> PteAt(pages, t, i) == NOPTE;
    }
    forall t', i, j, k | 0 <= t' < |pages| && owner'[t'].Root? ensures DownAt(pages, owner', t', i, j, k) {
      WalkFrames(pages, owner, t', i, j, k);
    }
    forall g | 0 <= g < |pages| ensures Placed(pages, owner', g) {
      assert Placed(pages, owner, g);
    }
  }

  /** uvmcreate: a zeroed frame is an empty table. */
  lemma NewRootKeeps(pages: seq<Page>, owner: seq<Owner>, t: int)
    requires Tables(pages, owner) && 0 <= t < |pages| && owner[t].Held? && pages[t] == EmptyTable()
    ensures Tables(pages, owner[t := Root])
    ensures forall i, j, k :: !Leaf(pages, t, i, j, k).v
  {
    var owner' := owner[t := Root];
    forall i, j, k ensures MidOf(pages, t, i) == -1 && LowOf(pages, t, i, j) == -1 && !Leaf(pages, t, i, j, k).v {
      assert PteAt(pages, t, i) == NOPTE;
    }
    forall t', i, j, k | 0 <= t' < |pages| && owner'[t'].Root? ensures DownAt(pages, owner', t', i, j, k) {
      if t' != t {
        WalkFrames(pages, owner, t', i, j, k);
      }
    }
    forall g | 0 <= g < |pages| ensures Placed(pages, owner', g) {
      assert Placed(pages, owner, g);
    }
  }
}
