/**
 The virtio disk queue (kernel/virtio_disk.c; sections 2.6 and 5.2 of VIRTIO 1.1): the driver's
 critical sections and an asynchronous device, as methods that may be called in any order.

 The counters availN, devN, usedN and seenN are history and never wrap; the 16-bit indices that
 driver and device use are those counters modulo 2^16.
 */
module Virtio {
  import opened Basics
  import opened Seals

  const NUM: int := 8
  const TWO16: int := 0x1_0000

  /** Where a descriptor points: the command header or status byte of a request, or a buffer's data. */
  datatype Addr = Nowhere | Header(h: int) | Data(b: int) | Status(h: int)

  datatype Desc = Desc(addr: Addr, deviceWrites: bool, hasNext: bool, next: int)

  const NODESC: Desc := Desc(Nowhere, false, false, 0)

  datatype Op = Op(write: bool, sector: int)

  datatype Info = Info(b: int, status: int)

  /** What a descriptor is used for.  The last five are the head of a request, from formatting to completion seen. */
  datatype Use =
    | Free | Loose | Second(h: int) | Third(h: int)
    | Prepared | Queued(p: int) | AtDevice | Completed(p: int) | Seen

  predicate IsHead(u: Use) {
    u.Prepared? || u.Queued? || u.AtDevice? || u.Completed? || u.Seen?
  }

  function Kind(u: Use): (k: int) {
    match u
    case Free => 0
    case Loose => 1
    case Second(_) => 2
    case Third(_) => 3
    case Prepared => 4
    case Queued(_) => 5
    case AtDevice => 6
    case Completed(_) => 7
    case Seen => 8
  }

  /** How many descriptors are of kind k. */
  function Tally(use: seq<Use>, k: int): (n: nat)
    ensures n <= |use|
  {
    if use == [] then 0 else (if Kind(use[|use| - 1]) == k then 1 else 0) + Tally(use[..|use| - 1], k)
  }

  lemma {:induction false} TallyUpdate(use: seq<Use>, i: int, u: Use, k: int)
    requires 0 <= i < |use|
    ensures Tally(use[i := u], k) ==
      Tally(use, k) - (if Kind(use[i]) == k then 1 else 0) + (if Kind(u) == k then 1 else 0)
  {
    var n := |use| - 1;
    if i == n {
      assert use[i := u][..n] == use[..n];
    } else {
      TallyUpdate(use[..n], i, u, k);
      assert use[i := u][..n] == use[..n][i := u];
    }
  }

  lemma {:induction false} TallySum(use: seq<Use>)
    ensures Tally(use, 0) + Tally(use, 1) + Tally(use, 2) + Tally(use, 3) + Heads(use) == |use|
  {
    if use != [] {
      TallySum(use[..|use| - 1]);
    }
  }

  function Heads(use: seq<Use>): (n: nat) {
    Tally(use, 4) + Tally(use, 5) + Tally(use, 6) + Tally(use, 7) + Tally(use, 8)
  }

  /** Moving one descriptor from one kind to another. */
  lemma Moved(use: seq<Use>, i: int, u: Use)
    requires 0 <= i < |use|
    ensures forall k ::
      Tally(use[i := u], k) == Tally(use, k) - (if Kind(use[i]) == k then 1 else 0) + (if Kind(u) == k then 1 else 0)
  {
    forall k
      ensures Tally(use[i := u], k) ==
        Tally(use, k) - (if Kind(use[i]) == k then 1 else 0) + (if Kind(u) == k then 1 else 0)
    {
      TallyUpdate(use, i, u, k);
    }
  }

  // ---------- the invariant ----------

  predicate IsDesc(i: int) {
    0 <= i < NUM
  }

  /** The request headed by h: header, data and status descriptors in a chain, all of them its own. */
  predicate Request(desc: seq<Desc>, ops: seq<Op>, info: seq<Info>, use: seq<Use>, h: int)
    requires |desc| == |ops| == |info| == |use| == NUM && IsDesc(h)
  {
    var d1 := desc[h].next;
    && desc[h].addr == Header(h) && !desc[h].deviceWrites && desc[h].hasNext && IsDesc(d1) && use[d1] == Second(h)
    && desc[d1].addr == Data(info[h].b) && desc[d1].deviceWrites == !ops[h].write && desc[d1].hasNext
    && var d2 := desc[d1].next;
    && IsDesc(d2) && use[d2] == Third(h)
    && desc[d2].addr == Status(h) && desc[d2].deviceWrites && !desc[d2].hasNext
  }

  /** Descriptor i is where its record says. */
  predicate Placed(desc: seq<Desc>, use: seq<Use>, i: int)
    requires |desc| == |use| == NUM && IsDesc(i)
  {
    match use[i]
    case Second(h) => IsDesc(h) && IsHead(use[h]) && desc[h].next == i
    case Third(h) => IsDesc(h) && IsHead(use[h]) && IsDesc(desc[h].next) && desc[desc[h].next].next == i
    case _ => true
  }

  ghost predicate Chains(desc: seq<Desc>, ops: seq<Op>, info: seq<Info>, use: seq<Use>) {
    && |desc| == |ops| == |info| == |use| == NUM
    && (forall h :: 0 <= h < NUM && IsHead(use[h]) ==> Request(desc, ops, info, use, h))
    && (forall i :: 0 <= i < NUM ==> Placed(desc, use, i))
  }

  ghost predicate FreeBits(free: seq<bool>, use: seq<Use>) {
    |free| == |use| == NUM && forall i :: 0 <= i < NUM ==> (free[i] <==> use[i].Free?)
  }

  /**
   The slots from lo to hi of the avail ring hold the requests queued there, and every queued
   request is in its slot.
   */
  ghost predicate AvailRing(ring: seq<int>, use: seq<Use>, lo: int, hi: int) {
    && |ring| == |use| == NUM && 0 <= lo <= hi
    && (forall p :: lo <= p < hi ==> IsDesc(ring[p % NUM]) && use[ring[p % NUM]] == Queued(p))
    && (forall h :: 0 <= h < NUM && use[h].Queued? ==> lo <= use[h].p < hi && ring[use[h].p % NUM] == h)
    && (forall h :: 0 <= h < NUM && use[h].Prepared? ==> ring[hi % NUM] == h)
  }

  ghost predicate UsedRing(ring: seq<int>, use: seq<Use>, lo: int, hi: int) {
    && |ring| == |use| == NUM && 0 <= lo <= hi
    && (forall p :: lo <= p < hi ==> IsDesc(ring[p % NUM]) && use[ring[p % NUM]] == Completed(p))
    && (forall h :: 0 <= h < NUM && use[h].Completed? ==> lo <= use[h].p < hi && ring[use[h].p % NUM] == h)
  }

  /** A buffer is marked busy until the driver has seen its request complete; no buffer is in two requests. */
  ghost predicate Buffers(info: seq<Info>, use: seq<Use>, busy: seq<bool>) {
    && |info| == |use| == NUM
    && (forall h :: 0 <= h < NUM && IsHead(use[h]) ==> 0 <= info[h].b < |busy| && (busy[info[h].b] <==> !use[h].Seen?))
    && (forall h, h' ::
          0 <= h < NUM && 0 <= h' < NUM && IsHead(use[h]) && IsHead(use[h']) && info[h].b == info[h'].b ==> h == h')
  }

  /** Every request has its second and third descriptor; the ring counters count the requests in the rings. */
  ghost predicate Balanced(use: seq<Use>, loose: int, queued: int, completed: int) {
    Tally(use, 1) == loose && Tally(use, 2) == Tally(use, 3) == Heads(use) && Tally(use, 5) == queued
      && Tally(use, 7) == completed
  }

  /** Free descriptors plus three per request make NUM, so few requests are in flight at a time. */
  lemma ThreeEach(use: seq<Use>, loose: int, queued: int, completed: int)
    requires |use| == NUM && Balanced(use, loose, queued, completed)
    ensures Tally(use, 0) + loose + 3 * Heads(use) == NUM && 0 <= queued <= Heads(use) <= 2
    ensures 0 <= completed <= Heads(use)
  {
    TallySum(use);
  }

  /** The slot about to be filled is none of those the device has yet to take; 16-bit indices tell the same. */
  lemma SlotFree(lo: int, hi: int, p: int)
    requires 0 <= lo <= p < hi && hi - lo < NUM
    ensures p % NUM != hi % NUM
  {
  }

  /** All that driver and device share, with the histories. */
  ghost predicate Sane(d: Shared, loose: int) {
    && Chains(d.desc, d.ops, d.info, d.use) && FreeBits(d.free, d.use) && Buffers(d.info, d.use, d.busy)
    && AvailRing(d.avail, d.use, d.devN, d.availN) && UsedRing(d.used, d.use, d.seenN, d.usedN)
    && Balanced(d.use, loose, d.availN - d.devN, d.usedN - d.seenN)
  }

  datatype Shared = Shared(free: seq<bool>, desc: seq<Desc>, ops: seq<Op>, info: seq<Info>, busy: seq<bool>,
    avail: seq<int>, used: seq<int>,
                           use: seq<Use>, availN: int, devN: int, usedN: int, seenN: int)

  predicate CheckKey(z: int, d: Shared) {
    true
  }

  ghost function Check(d: Shared, loose: int): (r: Verdict) {
    if forall z {:trigger CheckKey(z, d)} :: CheckKey(z, d) ==> Sane(d, loose) then Sound else Broken
  }

  lemma Open(d: Shared, loose: int)
    requires Check(d, loose).Sound?
    ensures Sane(d, loose)
  {
    assert CheckKey(0, d);
  }

  // ---------- what each operation does to the invariant ----------

  lemma IdleBalance(use: seq<Use>, loose: int, q: int, c: int, i: int, u: Use)
    requires Balanced(use, loose, q, c) && 0 <= i < |use| && (use[i].Free? || use[i].Loose?)
    requires (u.Free? || u.Loose?)
    ensures Balanced(use[i := u], loose + One(u.Loose?) - One(use[i].Loose?), q, c)
  {
    Moved(use, i, u);
  }

  lemma StageBalance(use: seq<Use>, loose: int, q: int, c: int, h: int, u: Use)
    requires Balanced(use, loose, q, c) && 0 <= h < |use| && IsHead(use[h]) && IsHead(u)
    ensures Balanced(use[h := u], loose, q + One(u.Queued?) - One(use[h].Queued?),
      c + One(u.Completed?) - One(use[h].Completed?))
  {
    Moved(use, h, u);
  }

  lemma FormatBalance(use: seq<Use>, q: int, c: int, h: int, d1: int, d2: int)
    requires Balanced(use, 3, q, c) && 0 <= h < |use| && 0 <= d1 < |use| && 0 <= d2 < |use|
    requires h != d1 && h != d2 && d1 != d2
    requires use[h].Loose? && use[d1].Loose? && use[d2].Loose?
    ensures Balanced(use[h := Prepared][d1 := Second(h)][d2 := Third(h)], 0, q, c)
  {
    Moved(use, h, Prepared);
    Moved(use[h := Prepared], d1, Second(h));
    Moved(use[h := Prepared][d1 := Second(h)], d2, Third(h));
  }

  lemma UnchainBalance(use: seq<Use>, q: int, c: int, h: int, d1: int, d2: int)
    requires Balanced(use, 0, q, c) && 0 <= h < |use| && 0 <= d1 < |use| && 0 <= d2 < |use|
    requires use[h].Seen? && use[d1].Second? && use[d2].Third?
    ensures Balanced(use[h := Loose][d1 := Loose][d2 := Loose], 3, q, c)
  {
    Moved(use, h, Loose);
    Moved(use[h := Loose], d1, Loose);
    Moved(use[h := Loose][d1 := Loose], d2, Loose);
  }

  lemma AvailIgnores(ring: seq<int>, use: seq<Use>, lo: int, hi: int, i: int, u: Use)
    requires AvailRing(ring, use, lo, hi) && IsDesc(i) && !use[i].Queued? && !u.Queued?
    requires (u.Prepared? ==> use[i].Prepared?)
    ensures AvailRing(ring, use[i := u], lo, hi)
  {
  }

  lemma UsedIgnores(ring: seq<int>, use: seq<Use>, lo: int, hi: int, i: int, u: Use)
    requires UsedRing(ring, use, lo, hi) && IsDesc(i) && !use[i].Completed? && !u.Completed?
    ensures UsedRing(ring, use[i := u], lo, hi)
  {
  }

  /** A free descriptor is allocated. */
  function Allocated(d: Shared, i: int): (r: Shared)
    requires 0 <= i < |d.free| && i < |d.use|
  {
    d.(free := d.free[i := false], use := d.use[i := Loose])
  }

  lemma AllocKeeps(d: Shared, loose: int, i: int)
    requires Check(d, loose).Sound? && 0 <= i < |d.free| && i < |d.use| && d.free[i]
    ensures d.use[i].Free? && Check(Allocated(d, i), loose + 1).Sound?
  {
    Open(d, loose);
    var u := d.use[i := Loose];
    forall h | 0 <= h < NUM && IsHead(u[h])
      ensures Request(d.desc, d.ops, d.info, u, h)
    {
      assert Request(d.desc, d.ops, d.info, d.use, h);
    }
    forall j | 0 <= j < NUM ensures Placed(d.desc, u, j) { assert Placed(d.desc, d.use, j); }
    IdleBalance(d.use, loose, d.availN - d.devN, d.usedN - d.seenN, i, Loose);
    AvailIgnores(d.avail, d.use, d.devN, d.availN, i, Loose);
    UsedIgnores(d.used, d.use, d.seenN, d.usedN, i, Loose);
    assert Sane(Allocated(d, i), loose + 1);
  }

  /** An allocated descriptor outside all chains is freed. */
  function Returned(d: Shared, i: int): (r: Shared)
    requires 0 <= i < |d.free| && i < |d.use| && i < |d.desc|
  {
    d.(free := d.free[i := true], desc := d.desc[i := NODESC], use := d.use[i := Free])
  }

  lemma FreeKeeps(d: Shared, loose: int, i: int)
    requires Check(d, loose).Sound? && 0 <= i < |d.free| && i < |d.use| && i < |d.desc| && d.use[i].Loose?
    ensures !d.free[i] && Check(Returned(d, i), loose - 1).Sound?
  {
    Open(d, loose);
    var e, u := d.desc[i := NODESC], d.use[i := Free];
    forall h | 0 <= h < NUM && IsHead(u[h])
      ensures Request(e, d.ops, d.info, u, h)
    {
      assert Request(d.desc, d.ops, d.info, d.use, h);
    }
    forall j | 0 <= j < NUM ensures Placed(e, u, j) {
      assert Placed(d.desc, d.use, j);
      if d.use[j].Third? {
        assert Request(d.desc, d.ops, d.info, d.use, d.use[j].h);
      }
    }
    IdleBalance(d.use, loose, d.availN - d.devN, d.usedN - d.seenN, i, Free);
    AvailIgnores(d.avail, d.use, d.devN, d.availN, i, Free);
    UsedIgnores(d.used, d.use, d.seenN, d.usedN, i, Free);
    assert Sane(Returned(d, i), loose - 1);
  }

  lemma {:induction false} AllFree(use: seq<Use>)
    requires forall i :: 0 <= i < |use| ==> use[i].Free?
    ensures Tally(use, 0) == |use| && forall k :: 1 <= k <= 8 ==> Tally(use, k) == 0
  {
    if use != [] {
      AllFree(use[..|use| - 1]);
    }
  }

  // ---------- a request's life ----------

  /** virtio_disk_rw fills in the three descriptors, the header, the info entry and the next avail slot. */
  function Formatted(d: Shared, h: int, d1: int, d2: int, b: int, op: Op): (r: Shared)
    requires |d.desc| == |d.ops| == |d.info| == |d.avail| == |d.use| == NUM && IsDesc(h)
    requires IsDesc(d1) && IsDesc(d2) && 0 <= b < |d.busy|
  {
    d.(desc := d.desc[h := Desc(Header(h), false, true, d1)][d1 := Desc(Data(b), !op.write, true,
      d2)][d2 := Desc(Status(h), true, false, 0)],
       ops := d.ops[h := op], info := d.info[h := Info(b, 0xff)], busy := d.busy[b := true],
         avail := d.avail[d.availN % NUM := h],
       use := d.use[h := Prepared][d1 := Second(h)][d2 := Third(h)])
  }

  ghost predicate CanFormat(d: Shared, h: int, d1: int, d2: int, b: int) {
    && Sane(d, 3) && IsDesc(h) && IsDesc(d1) && IsDesc(d2) && h != d1 && h != d2 && d1 != d2 && 0 <= b < |d.busy|
    && d.use[h].Loose? && d.use[d1].Loose? && d.use[d2].Loose?
    && forall x :: 0 <= x < NUM && IsHead(d.use[x]) ==> d.info[x].b != b && !d.use[x].Prepared?
  }

  lemma FormatRequest(d: Shared, h: int, d1: int, d2: int, b: int, op: Op, x: int)
    requires CanFormat(d, h, d1, d2, b) && 0 <= x < NUM && (x == h || IsHead(d.use[x]))
    ensures var r := Formatted(d, h, d1, d2, b, op); Request(r.desc, r.ops, r.info, r.use, x)
  {
    if x != h {
      assert Request(d.desc, d.ops, d.info, d.use, x);
    }
  }

  lemma FormatPlaced(d: Shared, h: int, d1: int, d2: int, b: int, op: Op, j: int)
    requires CanFormat(d, h, d1, d2, b) && 0 <= j < NUM
    ensures var r := Formatted(d, h, d1, d2, b, op); Placed(r.desc, r.use, j)
  {
    assert Placed(d.desc, d.use, j);
    if d.use[j].Third? {
      assert Request(d.desc, d.ops, d.info, d.use, d.use[j].h);
    }
  }

  lemma FormatChains(d: Shared, h: int, d1: int, d2: int, b: int, op: Op)
    requires CanFormat(d, h, d1, d2, b)
    ensures var r := Formatted(d, h, d1, d2, b, op); Chains(r.desc, r.ops, r.info, r.use)
  {
    var r := Formatted(d, h, d1, d2, b, op);
    forall x | 0 <= x < NUM && IsHead(r.use[x])
      ensures Request(r.desc, r.ops, r.info, r.use, x)
    {
      FormatRequest(d, h, d1, d2, b, op, x);
    }
    forall j | 0 <= j < NUM ensures Placed(r.desc, r.use, j) { FormatPlaced(d, h, d1, d2, b, op, j); }
  }

  lemma PrepareSlot(ring: seq<int>, use: seq<Use>, lo: int, hi: int, h: int)
    requires AvailRing(ring, use, lo, hi) && hi - lo < NUM && IsDesc(h) && use[h].Loose?
    requires forall x :: 0 <= x < NUM ==> !use[x].Prepared?
    ensures AvailRing(ring[hi % NUM := h], use[h := Prepared], lo, hi)
  {
    forall p | lo <= p < hi ensures ring[hi % NUM := h][p % NUM] == ring[p % NUM] {
      SlotFree(lo, hi, p);
    }
  }

  lemma FormatRings(d: Shared, h: int, d1: int, d2: int, b: int, op: Op)
    requires CanFormat(d, h, d1, d2, b) && d.availN - d.devN < NUM
    ensures var r := Formatted(d, h, d1, d2, b, op);
      AvailRing(r.avail, r.use, d.devN, d.availN) && UsedRing(r.used, r.use, d.seenN, d.usedN)
  {
    var u1 := d.use[h := Prepared];
    var u2 := u1[d1 := Second(h)];
    var avail := d.avail[d.availN % NUM := h];
    PrepareSlot(d.avail, d.use, d.devN, d.availN, h);
    AvailIgnores(avail, u1, d.devN, d.availN, d1, Second(h));
    AvailIgnores(avail, u2, d.devN, d.availN, d2, Third(h));
    UsedIgnores(d.used, d.use, d.seenN, d.usedN, h, Prepared);
    UsedIgnores(d.used, u1, d.seenN, d.usedN, d1, Second(h));
    UsedIgnores(d.used, u2, d.seenN, d.usedN, d2, Third(h));
  }

  lemma FormatBuffers(d: Shared, h: int, d1: int, d2: int, b: int, op: Op)
    requires Buffers(d.info, d.use, d.busy) && FreeBits(d.free, d.use)
    requires |d.desc| == |d.ops| == |d.avail| == NUM && IsDesc(h) && IsDesc(d1) && IsDesc(d2)
    requires h != d1 && h != d2 && 0 <= b < |d.busy| && d.use[h].Loose? && d.use[d1].Loose?
    requires d.use[d2].Loose?
    requires forall x :: 0 <= x < NUM && IsHead(d.use[x]) ==> d.info[x].b != b
    ensures var r := Formatted(d, h, d1, d2, b, op); Buffers(r.info, r.use, r.busy) && FreeBits(r.free, r.use)
  {
  }

  lemma FormatKeeps(d: Shared, h: int, d1: int, d2: int, b: int, op: Op)
    requires CanFormat(d, h, d1, d2, b)
    ensures Check(Formatted(d, h, d1, d2, b, op), 0).Sound?
  {
    var r := Formatted(d, h, d1, d2, b, op);
    ThreeEach(d.use, 3, d.availN - d.devN, d.usedN - d.seenN);
    FormatChains(d, h, d1, d2, b, op);
    FormatRings(d, h, d1, d2, b, op);
    FormatBalance(d.use, d.availN - d.devN, d.usedN - d.seenN, h, d1, d2);
    FormatBuffers(d, h, d1, d2, b, op);
    assert Sane(r, 0);
  }

  predicate FitKey(z: int, d: Shared) {
    true
  }

  ghost function Fit(d: Shared, h: int, d1: int, d2: int, b: int): (r: Verdict) {
    if forall z {:trigger FitKey(z, d)} :: FitKey(z, d) ==> CanFormat(d, h, d1, d2, b) then Sound else Broken
  }

  lemma OpenFit(d: Shared, h: int, d1: int, d2: int, b: int)
    requires Fit(d, h, d1, d2, b).Sound?
    ensures CanFormat(d, h, d1, d2, b)
  {
    assert FitKey(0, d);
  }

  lemma FitKeeps(d: Shared, h: int, d1: int, d2: int, b: int, op: Op)
    requires Fit(d, h, d1, d2, b).Sound?
    ensures |d.desc| == |d.ops| == |d.info| == |d.avail| == |d.use| == NUM && IsDesc(h)
    ensures IsDesc(d1) && IsDesc(d2) && 0 <= b < |d.busy|
    ensures 0 <= d.availN && Check(Formatted(d, h, d1, d2, b, op), 0).Sound?
  {
    OpenFit(d, h, d1, d2, b);
    assert CanFormat(d, h, d1, d2, b);
    FormatKeeps(d, h, d1, d2, b, op);
  }

  /** The head of a request goes on to its next stage; its chain does not notice. */
  lemma StageChains(d: Shared, h: int, u: Use)
    requires Chains(d.desc, d.ops, d.info, d.use) && IsDesc(h) && IsHead(d.use[h]) && IsHead(u)
    ensures Chains(d.desc, d.ops, d.info, d.use[h := u])
  {
    var use := d.use[h := u];
    forall x | 0 <= x < NUM && IsHead(use[x])
      ensures Request(d.desc, d.ops, d.info, use, x)
    {
      assert Request(d.desc, d.ops, d.info, d.use, x);
    }
    forall j | 0 <= j < NUM ensures Placed(d.desc, use, j) { assert Placed(d.desc, d.use, j); }
  }

  /** avail->idx += 1. */
  function Published(d: Shared, h: int): (r: Shared)
    requires 0 <= h < |d.use|
  {
    d.(use := d.use[h := Queued(d.availN)], availN := d.availN + 1)
  }

  lemma PublishRing(ring: seq<int>, use: seq<Use>, lo: int, hi: int, h: int)
    requires AvailRing(ring, use, lo, hi) && IsDesc(h) && use[h].Prepared?
    ensures AvailRing(ring, use[h := Queued(hi)], lo, hi + 1)
  {
  }

  lemma PublishKeeps(d: Shared, h: int)
    requires Check(d, 0).Sound? && IsDesc(h) && h < |d.use| && d.use[h].Prepared?
    ensures Check(Published(d, h), 0).Sound?
  {
    Open(d, 0);
    StageChains(d, h, Queued(d.availN));
    PublishRing(d.avail, d.use, d.devN, d.availN, h);
    StageBalance(d.use, 0, d.availN - d.devN, d.usedN - d.seenN, h, Queued(d.availN));
    UsedIgnores(d.used, d.use, d.seenN, d.usedN, h, Queued(d.availN));
    assert Sane(Published(d, h), 0);
  }

  /** The device takes the request in the oldest slot it has not taken. */
  function Fetched(d: Shared, h: int): (r: Shared)
    requires 0 <= h < |d.use|
  {
    d.(use := d.use[h := AtDevice], devN := d.devN + 1)
  }

  lemma FetchRing(ring: seq<int>, use: seq<Use>, lo: int, hi: int, h: int)
    requires AvailRing(ring, use, lo, hi) && lo < hi && h == ring[lo % NUM]
    ensures IsDesc(h) && AvailRing(ring, use[h := AtDevice], lo + 1, hi)
  {
    assert use[ring[lo % NUM]] == Queued(lo);
  }

  lemma FetchKeeps(d: Shared, loose: int, h: int)
    requires Check(d, loose).Sound? && |d.avail| == NUM == |d.use| && d.devN < d.availN
    requires h == d.avail[d.devN % NUM]
    ensures IsDesc(h) && d.use[h] == Queued(d.devN) && Check(Fetched(d, h), loose).Sound?
  {
    Open(d, loose);
    assert d.use[d.avail[d.devN % NUM]] == Queued(d.devN);
    StageChains(d, h, AtDevice);
    FetchRing(d.avail, d.use, d.devN, d.availN, h);
    StageBalance(d.use, loose, d.availN - d.devN, d.usedN - d.seenN, h, AtDevice);
    UsedIgnores(d.used, d.use, d.seenN, d.usedN, h, AtDevice);
    assert Sane(Fetched(d, h), loose);
  }

  /** The device writes the status byte and a used entry. */
  function Answered(d: Shared, h: int, status: int): (r: Shared)
    requires |d.info| == |d.used| == |d.use| == NUM && IsDesc(h)
  {
    d.(info := d.info[h := Info(d.info[h].b, status)], used := d.used[d.usedN % NUM := h],
      use := d.use[h := Completed(d.usedN)], usedN := d.usedN + 1)
  }

  lemma AnswerChains(d: Shared, h: int, status: int)
    requires Chains(d.desc, d.ops, d.info, d.use) && |d.used| == NUM && IsDesc(h) && d.use[h].AtDevice?
    ensures var r := Answered(d, h, status); Chains(r.desc, r.ops, r.info, r.use)
  {
    var r := Answered(d, h, status);
    forall x | 0 <= x < NUM && IsHead(r.use[x])
      ensures Request(r.desc, r.ops, r.info, r.use, x)
    {
      assert Request(d.desc, d.ops, d.info, d.use, x);
    }
    forall j | 0 <= j < NUM ensures Placed(r.desc, r.use, j) { assert Placed(d.desc, d.use, j); }
  }

  lemma AnswerRing(d: Shared, h: int, status: int)
    requires UsedRing(d.used, d.use, d.seenN, d.usedN) && |d.info| == NUM && IsDesc(h)
    requires d.use[h].AtDevice? && d.usedN - d.seenN < NUM
    ensures var r := Answered(d, h, status); UsedRing(r.used, r.use, r.seenN, r.usedN)
  {
    var r := Answered(d, h, status);
    forall p | d.seenN <= p < d.usedN ensures r.used[p % NUM] == d.used[p % NUM] {
      SlotFree(d.seenN, d.usedN, p);
    }
  }

  lemma AnswerKeeps(d: Shared, loose: int, h: int, status: int)
    requires Check(d, loose).Sound? && |d.info| == |d.used| == |d.use| == NUM && IsDesc(h) && d.use[h].AtDevice?
    ensures Check(Answered(d, h, status), loose).Sound?
  {
    Open(d, loose);
    ThreeEach(d.use, loose, d.availN - d.devN, d.usedN - d.seenN);
    AnswerChains(d, h, status);
    AnswerRing(d, h, status);
    StageBalance(d.use, loose, d.availN - d.devN, d.usedN - d.seenN, h, Completed(d.usedN));
    AvailIgnores(d.avail, d.use, d.devN, d.availN, h, Completed(d.usedN));
    assert Sane(Answered(d, h, status), loose);
  }

  /** The interrupt handler reads the oldest used entry it has not seen and clears its buffer's disk flag. */
  function Noted(d: Shared, h: int): (r: Shared)
    requires |d.info| == |d.use| == NUM && IsDesc(h) && 0 <= d.info[h].b < |d.busy|
  {
    d.(busy := d.busy[d.info[h].b := false], use := d.use[h := Seen], seenN := d.seenN + 1)
  }

  lemma NoteRing(ring: seq<int>, use: seq<Use>, lo: int, hi: int, h: int)
    requires UsedRing(ring, use, lo, hi) && lo < hi && h == ring[lo % NUM]
    ensures IsDesc(h) && UsedRing(ring, use[h := Seen], lo + 1, hi)
  {
    assert use[ring[lo % NUM]] == Completed(lo);
  }

  lemma NoteBuffers(info: seq<Info>, use: seq<Use>, busy: seq<bool>, h: int)
    requires Buffers(info, use, busy) && IsDesc(h) && IsHead(use[h])
    ensures Buffers(info, use[h := Seen], busy[info[h].b := false])
  {
  }

  lemma NoteKeeps(d: Shared, h: int)
    requires Check(d, 0).Sound? && |d.info| == |d.used| == |d.use| == NUM && d.seenN < d.usedN
    requires h == d.used[d.seenN % NUM]
    ensures IsDesc(h) && d.use[h] == Completed(d.seenN) && 0 <= d.info[h].b < |d.busy|
    ensures Check(Noted(d, h), 0).Sound?
  {
    Open(d, 0);
    assert d.use[d.used[d.seenN % NUM]] == Completed(d.seenN);
    StageChains(d, h, Seen);
    NoteRing(d.used, d.use, d.seenN, d.usedN, h);
    NoteBuffers(d.info, d.use, d.busy, h);
    StageBalance(d.use, 0, d.availN - d.devN, d.usedN - d.seenN, h, Seen);
    AvailIgnores(d.avail, d.use, d.devN, d.availN, h, Seen);
    assert Sane(Noted(d, h), 0);
  }

  /** The request is over; its descriptors are still allocated. */
  function Unchained(d: Shared, h: int, d1: int, d2: int): (r: Shared)
    requires |d.info| == |d.use| == NUM && IsDesc(h) && IsDesc(d1) && IsDesc(d2)
  {
    d.(info := d.info[h := Info(-1, d.info[h].status)], use := d.use[h := Loose][d1 := Loose][d2 := Loose])
  }

  ghost predicate CanUnchain(d: Shared, h: int, d1: int, d2: int) {
    && Chains(d.desc, d.ops, d.info, d.use) && IsDesc(h) && IsHead(d.use[h]) && d1 == d.desc[h].next
    && IsDesc(d1) && d2 == d.desc[d1].next && IsDesc(d2) && d.use[d1] == Second(h) && d.use[d2] == Third(h)
  }

  lemma UnchainRequest(d: Shared, h: int, d1: int, d2: int, x: int)
    requires CanUnchain(d, h, d1, d2) && 0 <= x < NUM && x != h && IsHead(d.use[x])
    ensures var r := Unchained(d, h, d1, d2); Request(r.desc, r.ops, r.info, r.use, x)
  {
    assert Request(d.desc, d.ops, d.info, d.use, x);
  }

  lemma UnchainPlaced(d: Shared, h: int, d1: int, d2: int, j: int)
    requires CanUnchain(d, h, d1, d2) && 0 <= j < NUM
    ensures var r := Unchained(d, h, d1, d2); Placed(r.desc, r.use, j)
  {
    assert Placed(d.desc, d.use, j);
  }

  lemma UnchainBuffers(d: Shared, h: int, d1: int, d2: int)
    requires Buffers(d.info, d.use, d.busy) && IsDesc(h) && IsDesc(d1) && IsDesc(d2)
    requires d.use[d1].Second? && d.use[d2].Third?
    ensures var r := Unchained(d, h, d1, d2); Buffers(r.info, r.use, r.busy)
  {
  }

  lemma UnchainChains(d: Shared, h: int, d1: int, d2: int)
    requires CanUnchain(d, h, d1, d2)
    ensures var r := Unchained(d, h, d1, d2); Chains(r.desc, r.ops, r.info, r.use)
  {
    var r := Unchained(d, h, d1, d2);
    forall x | 0 <= x < NUM && IsHead(r.use[x])
      ensures Request(r.desc, r.ops, r.info, r.use, x)
    {
      UnchainRequest(d, h, d1, d2, x);
    }
    forall j | 0 <= j < NUM ensures Placed(r.desc, r.use, j) { UnchainPlaced(d, h, d1, d2, j); }
  }

  lemma UnchainRings(d: Shared, h: int, d1: int, d2: int)
    requires AvailRing(d.avail, d.use, d.devN, d.availN)
    requires UsedRing(d.used, d.use, d.seenN, d.usedN) && FreeBits(d.free, d.use) && |d.info| == NUM
    requires IsDesc(h) && IsDesc(d1) && IsDesc(d2) && d.use[h].Seen? && d.use[d1].Second? && d.use[d2].Third?
    ensures var r := Unchained(d, h, d1, d2);
      && AvailRing(r.avail, r.use, r.devN, r.availN) && UsedRing(r.used, r.use, r.seenN, r.usedN)
      && FreeBits(r.free, r.use)
  {
    var u1 := d.use[h := Loose];
    var u2 := u1[d1 := Loose];
    AvailIgnores(d.avail, d.use, d.devN, d.availN, h, Loose);
    AvailIgnores(d.avail, u1, d.devN, d.availN, d1, Loose);
    AvailIgnores(d.avail, u2, d.devN, d.availN, d2, Loose);
    UsedIgnores(d.used, d.use, d.seenN, d.usedN, h, Loose);
    UsedIgnores(d.used, u1, d.seenN, d.usedN, d1, Loose);
    UsedIgnores(d.used, u2, d.seenN, d.usedN, d2, Loose);
  }

  lemma UnchainKeeps(d: Shared, h: int)
    requires Sane(d, 0) && IsDesc(h) && d.use[h].Seen?
    ensures Request(d.desc, d.ops, d.info, d.use, h)
    ensures var d1 := d.desc[h].next; Check(Unchained(d, h, d1, d.desc[d1].next), 3).Sound?
  {
    assert Request(d.desc, d.ops, d.info, d.use, h);
    var d1 := d.desc[h].next;
    var d2 := d.desc[d1].next;
    var r := Unchained(d, h, d1, d2);
    UnchainChains(d, h, d1, d2);
    UnchainBuffers(d, h, d1, d2);
    UnchainRings(d, h, d1, d2);
    UnchainBalance(d.use, d.availN - d.devN, d.usedN - d.seenN, h, d1, d2);
    assert Sane(r, 3);
  }

  class VirtioDisk {
    var free: seq<bool>
    var desc: seq<Desc>
    var ops: seq<Op>
    var info: seq<Info>
    var busy: seq<bool>          // b->disk
    var avail: seq<int>
    var availIdx: int
    var used: seq<int>
    var usedIdx: int             // the device's used->idx
    var seenIdx: int             // the driver's used_idx
    ghost var use: seq<Use>
    ghost var availN: int
    ghost var devN: int
    ghost var usedN: int
    ghost var seenN: int

    ghost function Now(): (d: Shared)
      reads this
    {
      Shared(free, desc, ops, info, busy, avail, used, use, availN, devN, usedN, seenN)
    }

    /** What holds at every step; loose descriptors are allocated and in no chain. */
    ghost predicate Valid(loose: int)
      reads this
    {
      && |free| == |desc| == |ops| == |info| == |avail| == |used| == |use| == NUM && Check(Now(), loose).Sound?
      && availIdx == availN % TWO16 && usedIdx == usedN % TWO16 && seenIdx == seenN % TWO16
    }

    constructor (nbuf: nat)
      ensures Valid(0) && Heads(use) == 0 && |busy| == nbuf
    {
      free := seq(NUM, _ => true);
      desc := seq(NUM, _ => NODESC);
      ops := seq(NUM, _ => Op(false, 0));
      info := seq(NUM, _ => Info(-1, 0));
      busy := seq(nbuf, _ => false);
      avail := seq(NUM, _ => 0);
      used := seq(NUM, _ => 0);
      availIdx, usedIdx, seenIdx := 0, 0, 0;
      use := seq(NUM, _ => Free);
      availN, devN, usedN, seenN := 0, 0, 0, 0;
      new;
      AllFree(use);
      assert Sane(Now(), 0);
    }

    /** alloc_desc: the first free descriptor, or -1. */
    method AllocDesc(ghost loose: int) returns (i: int)
      requires Valid(loose)
      modifies `free, `use
      ensures i == -1 ==> Valid(loose) && Now() == old(Now()) && forall j :: 0 <= j < NUM ==> !free[j]
      ensures i != -1 ==> Valid(loose + 1) && 0 <= i < NUM && Now() == Allocated(old(Now()), i)
      ensures i != -1 ==> old(use)[i].Free? && forall j :: 0 <= j < i ==> !old(free)[j]
    {
      i := 0;
      while i < NUM
        invariant 0 <= i <= NUM && Now() == old(Now()) && forall j :: 0 <= j < i ==> !free[j]
      {
        if free[i] {
          AllocKeeps(Now(), loose, i);
          free := free[i := false];
          use := use[i := Loose];
          return;
        }
        i := i + 1;
      }
      return -1;
    }

    /** free_desc of an allocated descriptor outside all chains; it is not free already, so there is no panic. */
    method FreeDesc(i: int, ghost loose: int)
      requires Valid(loose) && 0 <= i < NUM && use[i].Loose?
      modifies `free, `desc, `use
      ensures Valid(loose - 1) && !old(free)[i] && Now() == Returned(old(Now()), i)
    {
      FreeKeeps(Now(), loose, i);
      desc := desc[i := NODESC];
      free := free[i := true];
      use := use[i := Free];
    }

    /** alloc3_desc's way back: free what was allocated so far. */
    method PutBack(idx: seq<int>, ghost use0: seq<Use>)
      requires Valid(|idx|) && LooseOnly(use0, use, idx, 0)
      requires forall m, n :: 0 <= m < n < |idx| ==> idx[m] != idx[n]
      modifies `free, `desc, `use
      ensures Valid(0) && use == use0
    {
      for j := 0 to |idx|
        invariant Valid(|idx| - j) && LooseOnly(use0, use, idx, j)
      {
        FreeDesc(idx[j], |idx| - j);
      }
    }

    /** alloc3_desc: three descriptors, or none if fewer are free. */
    method Alloc3Desc() returns (ok: bool, idx: seq<int>)
      requires Valid(0)
      modifies `free, `desc, `use
      ensures ok ==> Valid(3) && |idx| == 3 && LooseOnly(old(use), use, idx, 0) && desc == old(desc)
      ensures ok ==> idx[0] != idx[1] && idx[0] != idx[2] && idx[1] != idx[2]
      ensures !ok ==> Valid(0) && use == old(use) && free == old(free) && Tally(use, 0) < 3
    {
      idx := [];
      for i := 0 to 3
        invariant |idx| == i && Valid(i) && desc == old(desc) && Tally(use, 0) == Tally(old(use), 0) - i
        invariant forall m, n :: 0 <= m < n < i ==> idx[m] != idx[n]
        invariant LooseOnly(old(use), use, idx, 0)
      {
        ghost var use0 := use;
        var k := AllocDesc(i);
        if k == -1 {
          NoneFree(Now(), i);
          PutBack(idx, old(use));
          SameFree(Now(), old(Now()));
          return false, idx;
        }
        TallyUpdate(use0, k, Loose, 0);
        LooseMore(old(use), use0, idx, k);
        idx := idx + [k];
      }
      return true, idx;
    }

    /** Fill in the request's descriptors, header, info entry and avail slot. */
    method Format(h: int, d1: int, d2: int, b: int, op: Op)
      requires Valid(3) && Fit(Now(), h, d1, d2, b).Sound? && IsDesc(h) && IsDesc(d1) && IsDesc(d2)
      requires 0 <= b < |busy|
      modifies this
      ensures Valid(0) && Now() == Formatted(old(Now()), h, d1, d2, b, op)
    {
      ghost var d := Now();
      FitKeeps(d, h, d1, d2, b, op);
      WrapAgrees(availN, NUM, TWO16 / NUM, TWO16);
      ops := ops[h := op];
      desc := desc[h := Desc(Header(h), false, true, d1)][d1 := Desc(Data(b), !op.write, true,
        d2)][d2 := Desc(Status(h), true, false, 0)];
      info := info[h := Info(b, 0xff)];
      busy := busy[b := true];
      avail := avail[availIdx % NUM := h];
      use := use[h := Prepared][d1 := Second(h)][d2 := Third(h)];
      assert Now() == Formatted(d, h, d1, d2, b, op);
    }

    /**
     virtio_disk_rw up to the write of the avail slot, when descriptors can be had.  No request for b
     is in flight and no other caller is inside: they hold b's lock and vdisk_lock.
     */
    method Prepare(b: int, write: bool, blockno: int) returns (h: int)
      requires Valid(0) && 0 <= b < |busy|
      requires forall x :: 0 <= x < NUM && IsHead(use[x]) ==> info[x].b != b && !use[x].Prepared?
      modifies this
      ensures Valid(0)
      ensures h == -1 ==> Tally(use, 0) < 3 && Now() == old(Now()).(desc := desc)
      ensures h != -1 ==> Begun(old(Now()), Now(), h, b, Op(write, blockno * 2))
    {
      var ok, idx := Alloc3Desc();
      if !ok {
        return -1;
      }
      h := idx[0];
      ghost var d := Now();
      ReadyToFormat(d, idx, b, old(Now()));
      Format(h, idx[1], idx[2], b, Op(write, blockno * 2));
      FormatBegins(old(Now()), d, Now(), idx, b, Op(write, blockno * 2));
    }

    /** Make the prepared request visible to the device. */
    method Publish(h: int)
      requires Valid(0) && 0 <= h < NUM && use[h].Prepared?
      modifies `availIdx, `availN, `use
      ensures Valid(0) && Now() == Published(old(Now()), h)
    {
      ghost var d := Now();
      PublishKeeps(d, h);
      NonNegative(d, 0);
      WrapAgrees(availN, NUM, TWO16 / NUM, TWO16);
      use := use[h := Queued(availN)];
      availIdx := (availIdx + 1) % TWO16;
      availN := availN + 1;
      assert Now() == Published(d, h);
    }

    /** The device, at any time: take the next request that avail->idx makes visible. */
    method DeviceTake(next: int, ghost loose: int) returns (h: int)
      requires Valid(loose) && next == devN % TWO16
      modifies `devN, `use
      ensures Valid(loose)
      ensures h == -1 <==> old(devN) == old(availN)
      ensures h == -1 ==> Now() == old(Now())
      ensures h != -1 ==> 0 <= h < NUM && old(use)[h] == Queued(old(devN)) && Now() == Fetched(old(Now()), h)
    {
      NonNegative(Now(), loose);
      WrapDistinguishes(devN, availN, TWO16);
      if next == availIdx {
        return -1;
      }
      WrapAgrees(devN, NUM, TWO16 / NUM, TWO16);
      h := avail[next % NUM];
      ghost var d := Now();
      FetchKeeps(d, loose, h);
      use := use[h := AtDevice];
      devN := devN + 1;
      assert Now() == Fetched(d, h);
    }

    /** The device, at any time: finish any request it has taken. */
    method DeviceComplete(h: int, status: int, ghost loose: int)
      requires Valid(loose) && 0 <= h < NUM && use[h].AtDevice?
      modifies `info, `used, `usedIdx, `usedN, `use
      ensures Valid(loose) && Now() == Answered(old(Now()), h, status)
    {
      ghost var d := Now();
      AnswerKeeps(d, loose, h, status);
      NonNegative(d, loose);
      WrapAgrees(usedN, NUM, TWO16 / NUM, TWO16);
      info := info[h := Info(info[h].b, status)];
      used := used[usedIdx % NUM := h];
      use := use[h := Completed(usedN)];
      usedIdx := (usedIdx + 1) % TWO16;
      usedN := usedN + 1;
      assert Now() == Answered(d, h, status);
    }

    /** The loop test of virtio_disk_intr, and the used entry it is about. */
    method NextUsed() returns (id: int)
      requires Valid(0)
      ensures id == -1 <==> seenN == usedN
      ensures id != -1 ==>
        0 <= id < NUM && use[id] == Completed(seenN) && 0 <= info[id].b < |busy| && Check(Noted(Now(), id), 0).Sound?
    {
      NonNegative(Now(), 0);
      WrapDistinguishes(seenN, usedN, TWO16);
      if seenIdx == usedIdx {
        return -1;
      }
      WrapAgrees(seenN, NUM, TWO16 / NUM, TWO16);
      id := used[seenIdx % NUM];
      NoteKeeps(Now(), id);
    }

    /**
     One pass of virtio_disk_intr's loop.  The only disk flag cleared is that of the buffer whose own
     request the device completed; a request the device failed is a panic.
     */
    method IntrNext() returns (out: Outcome)
      requires Valid(0)
      modifies `busy, `seenIdx, `seenN, `use
      ensures Valid(0)
      ensures out.Nothing? <==> old(seenN) == old(usedN)
      ensures !out.Nothing? ==>
        0 <= out.h < NUM && old(use)[out.h] == Completed(old(seenN)) && 0 <= old(info)[out.h].b < |old(busy)|
      ensures out.Failed? ==> old(info)[out.h].status != 0
      ensures out.Done? ==> old(info)[out.h].status == 0 && Now() == Noted(old(Now()), out.h)
      ensures !out.Done? ==> Now() == old(Now())
    {
      var id := NextUsed();
      if id == -1 {
        return Nothing;
      }
      if info[id].status != 0 {
        return Failed(id);
      }
      ghost var d := Now();
      NonNegative(d, 0);
      WrapAgrees(seenN, NUM, TWO16 / NUM, TWO16);
      busy := busy[info[id].b := false];
      use := use[id := Seen];
      seenIdx := (seenIdx + 1) % TWO16;
      seenN := seenN + 1;
      assert Now() == Noted(d, id);
      return Done(id);
    }

    /** virtio_disk_intr: note every completion there is, unless one has failed. */
    method Intr() returns (panicked: bool)
      requires Valid(0)
      modifies `busy, `seenIdx, `seenN, `use
      ensures Valid(0) && old(seenN) <= seenN <= usedN
      ensures panicked || seenN == usedN
      ensures panicked ==> seenN < usedN && exists h ::
        0 <= h < NUM && use[h] == Completed(seenN) && info[h].status != 0
    {
      while true
        invariant Valid(0) && old(seenN) <= seenN
        decreases usedN - seenN
      {
        NonNegative(Now(), 0);
        var out := IntrNext();
        if out.Nothing? {
          return false;
        }
        if out.Failed? {
          return true;
        }
      }
    }

    /** free_chain: follow the next links from i, freeing each descriptor. */
    method FreeChain(i: int, ghost d1: int, ghost d2: int)
      requires Valid(3) && IsDesc(i) && IsDesc(d1) && IsDesc(d2) && i != d1 && i != d2 && d1 != d2
      requires use[i].Loose? && use[d1].Loose? && use[d2].Loose?
      requires desc[i].hasNext && desc[i].next == d1 && desc[d1].hasNext && desc[d1].next == d2
      requires !desc[d2].hasNext
      modifies `free, `desc, `use
      ensures Valid(0) && use == old(use)[i := Free][d1 := Free][d2 := Free]
    {
      var cur := i;
      ghost var n := 0;
      while true
        invariant 0 <= n < 3 && Valid(3 - n)
        invariant cur == (if n == 0 then i else if n == 1 then d1 else d2) && use[cur].Loose?
        invariant n <= 1 ==> desc[d1] == old(desc)[d1] && use[d1].Loose?
        invariant desc[d2] == old(desc)[d2] && use[d2].Loose? && (n == 0 ==> desc[i] == old(desc)[i])
        invariant use == if n == 0 then old(use) else if n == 1 then old(use)[i := Free]
          else old(use)[i := Free][d1 := Free]
        decreases 3 - n
      {
        var flag, nxt := desc[cur].hasNext, desc[cur].next;
        FreeDesc(cur, 3 - n);
        if !flag {
          break;
        }
        cur := nxt;
        n := n + 1;
      }
    }

    /** The end of virtio_disk_rw, once b->disk is clear: the device is done with the whole chain, which is freed. */
    method Finish(h: int)
      requires Valid(0) && 0 <= h < NUM && IsHead(use[h]) && 0 <= info[h].b < |busy| && !busy[info[h].b]
      modifies this
      ensures Valid(0) && old(use)[h].Seen? && IsDesc(old(desc)[h].next)
      ensures IsDesc(old(desc)[old(desc)[h].next].next)
      ensures var d1 := old(desc)[h].next; use == old(use)[h := Free][d1 := Free][old(desc)[d1].next := Free]
      ensures busy == old(busy) && availN == old(availN) && devN == old(devN) && usedN == old(usedN)
      ensures seenN == old(seenN)
    {
      Open(Now(), 0);
      UnchainKeeps(Now(), h);
      ghost var d1 := desc[h].next;
      ghost var d2 := desc[d1].next;
      info := info[h := Info(-1, info[h].status)];
      use := use[h := Loose][d1 := Loose][d2 := Loose];
      FreeChain(h, d1, d2);
      assert use == old(use)[h := Free][d1 := Free][d2 := Free];
    }
  }

  datatype Outcome = Nothing | Done(h: int) | Failed(h: int)

  /** Since use0, exactly the descriptors idx[j..] have become loose. */
  ghost predicate LooseOnly(use0: seq<Use>, use: seq<Use>, idx: seq<int>, j: int) {
    && |use| == |use0| == NUM && 0 <= j <= |idx|
    && (forall m :: 0 <= m < |idx| ==> IsDesc(idx[m]) && use0[idx[m]].Free? && use[idx[m]] == if m < j then Free
       else Loose)
    && (forall i :: 0 <= i < NUM && i !in idx ==> use[i] == use0[i])
  }

  lemma NoneFree(d: Shared, loose: int)
    requires Check(d, loose).Sound? && |d.free| == NUM && forall j :: 0 <= j < NUM ==> !d.free[j]
    ensures Tally(d.use, 0) == 0
  {
    Open(d, loose);
    TallyNone(d.use);
  }

  lemma {:induction false} TallyNone(use: seq<Use>)
    requires forall i :: 0 <= i < |use| ==> !use[i].Free?
    ensures Tally(use, 0) == 0
  {
    if use != [] {
      TallyNone(use[..|use| - 1]);
    }
  }

  lemma SameFree(d: Shared, d0: Shared)
    requires Check(d, 0).Sound? && Check(d0, 0).Sound? && d.use == d0.use
    ensures d.free == d0.free
  {
    Open(d, 0);
    Open(d0, 0);
  }

  lemma LooseMore(use0: seq<Use>, use: seq<Use>, idx: seq<int>, k: int)
    requires LooseOnly(use0, use, idx, 0) && IsDesc(k) && use[k].Free?
    ensures LooseOnly(use0, use[k := Loose], idx + [k], 0) && forall m :: 0 <= m < |idx| ==> idx[m] != k
  {
  }

  lemma ReadyToFormat(d: Shared, idx: seq<int>, b: int, d0: Shared)
    requires Check(d, 3).Sound? && |idx| == 3 && LooseOnly(d0.use, d.use, idx, 0)
    requires idx[0] != idx[1] && idx[0] != idx[2] && idx[1] != idx[2]
    requires |d.info| == NUM && 0 <= b < |d.busy|
    requires forall x :: 0 <= x < NUM && IsHead(d0.use[x]) ==> d.info[x].b != b && !d0.use[x].Prepared?
    ensures Fit(d, idx[0], idx[1], idx[2], b).Sound?
  {
    Open(d, 3);
    assert idx[0] in idx && idx[1] in idx && idx[2] in idx;
    assert CanFormat(d, idx[0], idx[1], idx[2], b);
  }

  /**
   A new request headed by h stands for op on buffer b; the requests already there are as they were,
   in the ring and out.
   */
  ghost predicate Begun(d0: Shared, d: Shared, h: int, b: int, op: Op) {
    && |d0.use| == |d.use| == |d0.info| == |d.info| == |d0.ops| == |d.ops| == |d0.avail| == |d.avail| == NUM
       && 0 <= h < NUM
    && d0.use[h].Free? && d.use[h].Prepared? && d.info[h].b == b && d.ops[h] == op && 0 <= b < |d0.busy|
       && d.busy == d0.busy[b := true]
    && (forall x :: 0 <= x < NUM && IsHead(d0.use[x]) ==>
       d.use[x] == d0.use[x] && d.info[x] == d0.info[x] && d.ops[x] == d0.ops[x])
    && (forall p :: d0.devN <= p < d0.availN ==> d.avail[p % NUM] == d0.avail[p % NUM])
    && d.availN == d0.availN && d.devN == d0.devN && d.usedN == d0.usedN && d.seenN == d0.seenN && d.used == d0.used
  }

  lemma FormatBegins(d0: Shared, d: Shared, r: Shared, idx: seq<int>, b: int, op: Op)
    requires |idx| == 3 && LooseOnly(d0.use, d.use, idx, 0) && idx[0] != idx[1] && idx[0] != idx[2]
    requires Check(d, 3).Sound? && 0 <= b < |d.busy|
    requires |d.desc| == |d.ops| == |d.info| == |d.avail| == |d.use| == NUM
    requires r == Formatted(d, idx[0], idx[1], idx[2], b, op)
    requires d0 == d.(free := d0.free, desc := d0.desc, use := d0.use)
    ensures Begun(d0, r, idx[0], b, op)
  {
    assert idx[0] in idx && idx[1] in idx && idx[2] in idx;
    SlotsKept(d);
  }

  /** The slot to be filled next is none of those the device has yet to take. */
  lemma SlotsKept(d: Shared)
    requires Check(d, 3).Sound?
    ensures 0 <= d.devN <= d.availN && forall p :: d.devN <= p < d.availN ==> p % NUM != d.availN % NUM
  {
    Open(d, 3);
    ThreeEach(d.use, 3, d.availN - d.devN, d.usedN - d.seenN);
    forall p | d.devN <= p < d.availN ensures p % NUM != d.availN % NUM {
      SlotFree(d.devN, d.availN, p);
    }
  }

  lemma NonNegative(d: Shared, loose: int)
    requires Check(d, loose).Sound?
    ensures 0 <= d.devN <= d.availN <= d.devN + 2 && 0 <= d.seenN <= d.usedN <= d.seenN + 2
  {
    Open(d, loose);
    ThreeEach(d.use, loose, d.availN - d.devN, d.usedN - d.seenN);
  }

  /** Between critical sections free descriptors and three per request in flight make NUM. */
  lemma QueueAccounted(d: Shared)
    requires Check(d, 0).Sound?
    ensures Tally(d.use, 0) + 3 * Heads(d.use) == NUM == |d.use|
  {
    Open(d, 0);
    ThreeEach(d.use, 0, d.availN - d.devN, d.usedN - d.seenN);
  }

  lemma ChainUses(d: Shared, h: int, i: int)
    requires Chains(d.desc, d.ops, d.info, d.use) && IsDesc(h) && IsHead(d.use[h]) && i in Chain(d.desc, h)
    ensures IsDesc(i) && (i == h || d.use[i] == Second(h) || d.use[i] == Third(h))
  {
    assert Request(d.desc, d.ops, d.info, d.use, h);
  }

  /** The chain of a request holds no free descriptor and none of another request's. */
  lemma ChainsApart(d: Shared, loose: int, h: int, h': int, i: int)
    requires Check(d, loose).Sound? && |d.use| == |d.desc| == NUM && IsDesc(h) && IsHead(d.use[h])
    requires i in Chain(d.desc, h)
    ensures IsDesc(i) && !d.use[i].Free?
    ensures IsDesc(h') && IsHead(d.use[h']) && h' != h ==> i !in Chain(d.desc, h')
  {
    Open(d, loose);
    ChainUses(d, h, i);
    if IsDesc(h') && IsHead(d.use[h']) && h' != h && i in Chain(d.desc, h') {
      ChainUses(d, h', i);
    }
  }

  /** The descriptors that following the next links from h visits. */
  function Chain(desc: seq<Desc>, h: int): (c: set<int>)
    requires |desc| == NUM
  {
    if !IsDesc(h) || !IsDesc(desc[h].next) then {h} else {h, desc[h].next, desc[desc[h].next].next}
  }
}
