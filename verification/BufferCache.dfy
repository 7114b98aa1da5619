/**
 The buffer cache list of kernel/bio.c: a circular doubly linked list through all buffers,
 most recently released first.

 bufs[0..NBUF] are the buffers and bufs[NBUF] is the list head; a pointer is an index.
 */
module BufferCache {
  import opened Basics

  datatype Buf = Buf(dev: int, blockno: int, valid: bool, refcnt: int, prev: int, next: int)

  /** The position after k in a ring of n elements. */
  function Succ(k: int, n: int): (r: int) {
    if k + 1 == n then 0 else k + 1
  }

  ghost predicate InRange(ring: seq<int>, n: int) {
    forall k :: 0 <= k < |ring| ==> 0 <= ring[k] < n
  }

  /** a's successor is c, and c's predecessor is a. */
  predicate Linked(bufs: seq<Buf>, a: int, c: int) {
    0 <= a < |bufs| && 0 <= c < |bufs| && bufs[a].next == c && bufs[c].prev == a
  }

  /**
   Following next from the head visits exactly the elements of ring, in order, and comes back;
   prev is its inverse.  ring starts with the head.
   */
  ghost predicate Ring(bufs: seq<Buf>, ring: seq<int>) {
    && |ring| > 0 && ring[0] == |bufs| - 1
    && InRange(ring, |bufs|) && Distinct(ring)
    && (forall k {:trigger Succ(k, |ring|)} :: 0 <= k < |ring| ==> Linked(bufs, ring[k], ring[Succ(k, |ring|)]))
  }

  // ---------- the two pointer operations ----------

  function SetNext(bufs: seq<Buf>, i: int, v: int): (r: seq<Buf>)
    requires 0 <= i < |bufs|
  {
    bufs[i := bufs[i].(next := v)]
  }

  function SetPrev(bufs: seq<Buf>, i: int, v: int): (r: seq<Buf>)
    requires 0 <= i < |bufs|
  {
    bufs[i := bufs[i].(prev := v)]
  }

  /** b->next->prev = b->prev; b->prev->next = b->next. */
  function Unlink(bufs: seq<Buf>, b: int): (r: seq<Buf>)
    requires 0 <= b < |bufs| && 0 <= bufs[b].next < |bufs| && 0 <= bufs[b].prev < |bufs|
  {
    SetNext(SetPrev(bufs, bufs[b].next, bufs[b].prev), bufs[b].prev, bufs[b].next)
  }

  /** Link b in directly after the head. */
  function PushFront(bufs: seq<Buf>, b: int): (r: seq<Buf>)
    requires 0 <= b < |bufs| && 0 <= bufs[|bufs|-1].next < |bufs|
  {
    var head := |bufs| - 1;
    var first := bufs[head].next;
    var r := SetPrev(SetNext(bufs, b, first), b, head);
    SetNext(SetPrev(r, first, b), head, b)
  }

  lemma UnlinkPair(bufs: seq<Buf>, ring: seq<int>, k: nat, j: nat)
    requires Ring(bufs, ring) && 0 < k < |ring| && j < |ring| - 1
    ensures var b, rest := ring[k], Without(ring, k);
      && 0 <= bufs[b].next < |bufs| && 0 <= bufs[b].prev < |bufs|
      && Linked(Unlink(bufs, b), rest[j], rest[Succ(j, |rest|)])
  {
    var n := |ring|;
    var i := if j < k then j else j + 1;
    assert Linked(bufs, ring[k-1], ring[Succ(k-1, n)]);
    assert Linked(bufs, ring[k], ring[Succ(k, n)]);
    assert Linked(bufs, ring[i], ring[Succ(i, n)]);
  }

  lemma UnlinkKeepsRing(bufs: seq<Buf>, ring: seq<int>, k: nat)
    requires Ring(bufs, ring) && 0 < k < |ring|
    ensures var b := ring[k];
      && 0 <= bufs[b].next < |bufs| && 0 <= bufs[b].prev < |bufs|
      && Ring(Unlink(bufs, b), Without(ring, k))
  {
    var rest := Without(ring, k);
    UnlinkPair(bufs, ring, k, 0);
    forall j | 0 <= j < |rest| ensures Linked(Unlink(bufs, ring[k]), rest[j], rest[Succ(j, |rest|)]) {
      UnlinkPair(bufs, ring, k, j);
    }
  }

  function WithFront(ring: seq<int>, b: int): (r: seq<int>)
    requires |ring| > 0
  {
    [ring[0], b] + ring[1..]
  }

  lemma PushPair(bufs: seq<Buf>, ring: seq<int>, b: int, j: nat)
    requires Ring(bufs, ring) && 0 <= b < |bufs| && b !in ring && j <= |ring|
    ensures var longer := WithFront(ring, b);
      && 0 <= bufs[|bufs|-1].next < |bufs|
      && Linked(PushFront(bufs, b), longer[j], longer[Succ(j, |longer|)])
  {
    var n := |ring|;
    assert Linked(bufs, ring[0], ring[Succ(0, n)]);
    if j >= 2 {
      assert Linked(bufs, ring[j-1], ring[Succ(j-1, n)]);
    }
  }

  lemma PushKeepsRing(bufs: seq<Buf>, ring: seq<int>, b: int)
    requires Ring(bufs, ring) && 0 <= b < |bufs| && b !in ring
    ensures 0 <= bufs[|bufs|-1].next < |bufs| && Ring(PushFront(bufs, b), WithFront(ring, b))
  {
    var longer := WithFront(ring, b);
    PushPair(bufs, ring, b, 0);
    forall j | 0 <= j < |longer| ensures Linked(PushFront(bufs, b), longer[j], longer[Succ(j, |longer|)]) {
      PushPair(bufs, ring, b, j);
    }
  }

  /** Relinking changes nothing but links. */
  ghost predicate SameFields(a: seq<Buf>, c: seq<Buf>) {
    |a| == |c| && forall i :: 0 <= i < |a| ==>
      c[i].dev == a[i].dev && c[i].blockno == a[i].blockno && c[i].valid == a[i].valid && c[i].refcnt == a[i].refcnt
  }

  ghost predicate Complete(ring: seq<int>, n: int) {
    forall b :: 0 <= b < n ==> b in ring
  }

  /** Later in the list means put at the front longer ago. */
  ghost predicate ByAge(ring: seq<int>, stamp: seq<int>, clock: int)
    requires InRange(ring, |stamp|)
  {
    && (forall j, k :: 1 <= j < k < |ring| ==> stamp[ring[j]] > stamp[ring[k]])
    && (forall k :: 1 <= k < |ring| ==> stamp[ring[k]] < clock)
  }

  predicate IsFor(buf: Buf, dev: int, blockno: int) {
    buf.dev == dev && buf.blockno == blockno
  }

  ghost predicate NoDuplicates(bufs: seq<Buf>) {
    forall i, j :: 0 <= i < j < |bufs| - 1 && bufs[i].dev != 0 ==> !IsFor(bufs[j], bufs[i].dev, bufs[i].blockno)
  }

  lemma MoveToFront(bufs: seq<Buf>, ring: seq<int>, k: nat)
    requires Ring(bufs, ring) && 0 < k < |ring| && Complete(ring, |bufs|)
    ensures var b := ring[k];
      && 0 <= bufs[b].next < |bufs| && 0 <= bufs[b].prev < |bufs|
      && var mid := Unlink(bufs, b);
      && 0 <= mid[|mid|-1].next < |mid|
      && Ring(PushFront(mid, b), WithFront(Without(ring, k), b))
      && SameFields(bufs, PushFront(mid, b))
      && Complete(WithFront(Without(ring, k), b), |bufs|)
  {
    UnlinkKeepsRing(bufs, ring, k);
    assert ring[k] !in Without(ring, k);
    PushKeepsRing(Unlink(bufs, ring[k]), Without(ring, k), ring[k]);
    UnlinkKeepsFields(bufs, ring[k]);
    PushKeepsFields(Unlink(bufs, ring[k]), ring[k]);
    FrontComplete(ring, k, |bufs|);
  }

  lemma UnlinkKeepsFields(bufs: seq<Buf>, b: int)
    requires 0 <= b < |bufs| && 0 <= bufs[b].next < |bufs| && 0 <= bufs[b].prev < |bufs|
    ensures SameFields(bufs, Unlink(bufs, b))
  {
  }

  lemma PushKeepsFields(bufs: seq<Buf>, b: int)
    requires 0 <= b < |bufs| && 0 <= bufs[|bufs|-1].next < |bufs|
    ensures SameFields(bufs, PushFront(bufs, b))
  {
    var head, first := |bufs| - 1, bufs[|bufs|-1].next;
    var r := SetPrev(SetNext(bufs, b, first), b, head);
    assert SameFields(bufs, r);
    assert SameFields(r, SetNext(SetPrev(r, first, b), head, b));
  }

  lemma FrontMembers(ring: seq<int>, b: int)
    requires |ring| > 0
    ensures forall i :: i in WithFront(ring, b) <==> i == b || i in ring
  {
    assert ring == [ring[0]] + ring[1..];
  }

  lemma FrontComplete(ring: seq<int>, k: nat, n: int)
    requires 0 < k < |ring| && Complete(ring, n)
    ensures Complete(WithFront(Without(ring, k), ring[k]), n)
  {
    var r := WithFront(Without(ring, k), ring[k]);
    forall b | 0 <= b < n ensures b in r {
      assert b in ring;
      var i :| 0 <= i < |ring| && ring[i] == b;
      assert r[if i == 0 then 0 else if i == k then 1 else if i < k then i + 1 else i] == b;
    }
  }

  lemma FrontByAge(ring: seq<int>, k: nat, stamp: seq<int>, clock: int)
    requires 0 < k < |ring| && InRange(ring, |stamp|) && Distinct(ring) && ByAge(ring, stamp, clock)
    ensures var r := WithFront(Without(ring, k), ring[k]);
      InRange(r, |stamp[ring[k] := clock]|) && ByAge(r, stamp[ring[k] := clock], clock + 1)
  {
    var r, st := WithFront(Without(ring, k), ring[k]), stamp[ring[k] := clock];
    forall j | 2 <= j < |r|
      ensures r[j] == ring[if j <= k then j - 1 else j] && st[r[j]] == stamp[r[j]]
    {
    }
  }

  datatype Found = Hit(b: int) | Recycled(b: int) | NoBuffers

  class BufferCache {
    var bufs: seq<Buf>
    ghost var ring: seq<int>
    ghost var stamp: seq<int>     // when each buffer was last put at the front
    ghost var clock: int

    ghost predicate Valid()
      reads this
    {
      && Ring(bufs, ring) && Complete(ring, |bufs|)
      && |stamp| == |bufs| && ByAge(ring, stamp, clock)
      && NoDuplicates(bufs)
    }

    /** binit: link n unused buffers, one after the other, behind the head. */
    constructor (n: nat)
      ensures Valid() && |bufs| == n + 1
      ensures forall i :: 0 <= i < n ==> bufs[i].dev == 0 && bufs[i].refcnt == 0 && !bufs[i].valid
    {
      var bs := seq(n + 1, _ => Buf(0, 0, false, 0, n, n));
      ghost var rg := [n];
      ghost var st := seq(n + 1, i => i);
      for b := 0 to n
        invariant |bs| == n + 1 == |st| && Ring(bs, rg)
        invariant forall i :: 0 <= i <= n ==> (i in rg <==> i == n || i < b)
        invariant forall i :: 0 <= i < n ==> bs[i].dev == 0 && bs[i].refcnt == 0 && !bs[i].valid
        invariant ByAge(rg, st, b)
      {
        PushKeepsRing(bs, rg, b);
        bs := PushFront(bs, b);
        FrontMembers(rg, b);
        rg := WithFront(rg, b);
      }
      bufs, ring, stamp, clock := bs, rg, st, n;
    }

    /** bget's first loop: find the buffer that caches the block. */
    method Lookup(dev: int, blockno: int) returns (b: int)
      requires Valid()
      ensures 0 <= b < |bufs|
      ensures b < |bufs| - 1 ==> IsFor(bufs[b], dev, blockno)
      ensures b == |bufs| - 1 ==> forall i :: 0 <= i < |bufs| - 1 ==> !IsFor(bufs[i], dev, blockno)
    {
      var head := |bufs| - 1;
      ghost var k := Succ(0, |ring|);
      b := bufs[head].next;
      while b != head
        invariant 0 <= k < |ring| && b == ring[k]
        invariant forall j :: 1 <= j < |ring| && (j < k || k == 0) ==> !IsFor(bufs[ring[j]], dev, blockno)
        decreases if k == 0 then 0 else |ring| - k
      {
        if IsFor(bufs[b], dev, blockno) {
          return;
        }
        k := Succ(k, |ring|);
        b := bufs[b].next;
      }
      forall i | 0 <= i < head ensures !IsFor(bufs[i], dev, blockno) {
        assert i in ring;
      }
    }

    /** bget's second loop: from the back, the first buffer nobody refers to. */
    method Victim() returns (b: int)
      requires Valid()
      ensures 0 <= b < |bufs|
      ensures b < |bufs| - 1 ==> bufs[b].refcnt == 0 && forall i :: 0 <= i < |bufs| - 1 && bufs[i].refcnt == 0 ==>
        stamp[b] <= stamp[i]
      ensures b == |bufs| - 1 ==> forall i :: 0 <= i < |bufs| - 1 ==> bufs[i].refcnt != 0
    {
      var head := |bufs| - 1;
      ghost var k := |ring| - 1;
      assert Succ(k, |ring|) == 0;
      b := bufs[head].prev;
      while b != head
        invariant 0 <= k < |ring| && b == ring[k]
        invariant forall j :: k < j < |ring| ==> bufs[ring[j]].refcnt != 0
        decreases k
      {
        if bufs[b].refcnt == 0 {
          forall i | 0 <= i < head && bufs[i].refcnt == 0 ensures stamp[b] <= stamp[i] {
            assert i in ring;
            var j :| 0 <= j < |ring| && ring[j] == i;
          }
          return;
        }
        k := k - 1;
        assert Succ(k, |ring|) == k + 1;
        b := bufs[b].prev;
      }
      forall i | 0 <= i < head ensures bufs[i].refcnt != 0 {
        assert i in ring;
      }
    }

    /** bget: reuse the block's buffer, else recycle the longest unused buffer, else panic. */
    method Bget(dev: int, blockno: int) returns (r: Found)
      requires Valid()
      modifies `bufs
      ensures Valid()
      ensures r.NoBuffers? ==>
        && bufs == old(bufs)
        && forall i :: 0 <= i < |bufs| - 1 ==> bufs[i].refcnt != 0 && !IsFor(bufs[i], dev, blockno)
      ensures r.Hit? ==>
        && 0 <= r.b < |old(bufs)| - 1 && IsFor(old(bufs)[r.b], dev, blockno)
        && bufs == old(bufs)[r.b := old(bufs)[r.b].(refcnt := old(bufs)[r.b].refcnt + 1)]
      ensures r.Recycled? ==>
        && 0 <= r.b < |old(bufs)| - 1 && old(bufs)[r.b].refcnt == 0
        && (forall i :: 0 <= i < |old(bufs)| - 1 ==> !IsFor(old(bufs)[i], dev, blockno))
        && (forall i :: 0 <= i < |old(bufs)| - 1 && old(bufs)[i].refcnt == 0 ==> stamp[r.b] <= stamp[i])
        && bufs == old(bufs)[r.b := old(bufs)[r.b].(dev := dev, blockno := blockno, valid := false, refcnt := 1)]
    {
      var b := Lookup(dev, blockno);
      if b != |bufs| - 1 {
        bufs := bufs[b := bufs[b].(refcnt := bufs[b].refcnt + 1)];
        SameLinksSameRing(old(bufs), bufs, ring);
        return Hit(b);
      }
      b := Victim();
      if b != |bufs| - 1 {
        bufs := bufs[b := bufs[b].(dev := dev, blockno := blockno, valid := false, refcnt := 1)];
        SameLinksSameRing(old(bufs), bufs, ring);
        return Recycled(b);
      }
      return NoBuffers;
    }

    /** Relink b directly behind the head. */
    method Refresh(b: int)
      requires Valid() && 0 <= b < |bufs| - 1
      modifies this
      ensures Valid() && SameFields(old(bufs), bufs)
      ensures |ring| > 1 && ring[1] == b && stamp == old(stamp)[b := old(clock)]
    {
      assert b in ring;
      ghost var k :| 0 <= k < |ring| && ring[k] == b;
      MoveToFront(bufs, ring, k);
      FrontByAge(ring, k, stamp, clock);
      bufs := Unlink(bufs, b);
      bufs := PushFront(bufs, b);
      SameFieldsNoDuplicates(old(bufs), bufs);
      ring := WithFront(Without(ring, k), b);
      stamp := stamp[b := clock];
      clock := clock + 1;
    }

    /** brelse: drop a reference; the last one moves the buffer to the front. */
    method Brelse(b: int)
      requires Valid() && 0 <= b < |bufs| - 1 && bufs[b].refcnt > 0
      modifies this
      ensures Valid()
      ensures SameFields(old(bufs)[b := old(bufs)[b].(refcnt := old(bufs)[b].refcnt - 1)], bufs)
      ensures if bufs[b].refcnt == 0 then |ring| > 1 && ring[1] == b && stamp == old(stamp)[b := old(clock)]
              else ring == old(ring) && stamp == old(stamp)
    {
      bufs := bufs[b := bufs[b].(refcnt := bufs[b].refcnt - 1)];
      SameLinksSameRing(old(bufs), bufs, ring);
      if bufs[b].refcnt == 0 {
        Refresh(b);
      }
    }

    method Bpin(b: int)
      requires Valid() && 0 <= b < |bufs| - 1
      modifies `bufs
      ensures Valid() && bufs == old(bufs)[b := old(bufs)[b].(refcnt := old(bufs)[b].refcnt + 1)]
    {
      bufs := bufs[b := bufs[b].(refcnt := bufs[b].refcnt + 1)];
      SameLinksSameRing(old(bufs), bufs, ring);
    }

    /** bunpin drops a reference without moving the buffer. */
    method Bunpin(b: int)
      requires Valid() && 0 <= b < |bufs| - 1 && bufs[b].refcnt > 0
      modifies `bufs
      ensures Valid() && bufs == old(bufs)[b := old(bufs)[b].(refcnt := old(bufs)[b].refcnt - 1)]
    {
      bufs := bufs[b := bufs[b].(refcnt := bufs[b].refcnt - 1)];
      SameLinksSameRing(old(bufs), bufs, ring);
    }
  }

  lemma SameFieldsNoDuplicates(a: seq<Buf>, c: seq<Buf>)
    requires SameFields(a, c) && NoDuplicates(a)
    ensures NoDuplicates(c)
  {
  }

  lemma SameLinksSameRing(a: seq<Buf>, c: seq<Buf>, ring: seq<int>)
    requires Ring(a, ring) && |c| == |a|
    requires forall i :: 0 <= i < |a| ==> c[i].prev == a[i].prev && c[i].next == a[i].next
    ensures Ring(c, ring)
  {
  }
}
